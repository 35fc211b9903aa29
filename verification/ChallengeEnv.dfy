/** Challenge environments: a background provisioner racing with user requests
    (backend/internal/service/contest_env_service.go).

    `World` is the environment table, the provisioners, the set of live pods, and what requests
    have read.  `Apply` is one atomic step of anything that can happen: a provisioner's next action,
    a request's look at the table, or what a Start, Stop or status request then does with the row it
    has read.  A run is any interleaving of such steps. */
module ChallengeEnv {
  import opened Common
  import opened ChallengePods

  datatype Status = Pending | Creating | Running | Failed | Expired | Terminated

  /** The user, contest and challenge an environment is for. */
  datatype Slot = Slot(user: nat, contest: nat, challenge: nat)

  datatype Row = Row(slot: Slot, status: Status, podName: string, forkPodName: string, expiresAt: Option<int>)

  /** What a provisioner does next. `CleanUp` stops pods one by one and then, when `mark` is set,
      saves the row as failed. */
  datatype Stage =
    | StartWorkspace
    | StartService(started: nat)
    | StartFork
    | Seed
    | Reread
    | Publish
    | CleanUp(todo: seq<string>, mark: bool)
    | Ended

  datatype World = World(
    rows: map<string, Row>,
    stages: map<string, Stage>,
    order: seq<string>,          // environment ids, oldest first
    live: set<string>,           // names of the pods that exist
    seen: map<nat, Read>        // by request: the row it has read and will work on
  )

  /** An environment and its row at the time a request read it. */
  datatype Read = Read(id: string, row: Row)

  /** Orchestrations by challenge id; they do not change during a run. */
  type Orchestrations = map<nat, Orchestration>

  predicate Active(s: Status) { s in {Pending, Creating, Running, Failed} }

  /** The newest active environment of a slot: the row a request works on. */
  function FindActive(w: World, slot: Slot): Option<string> {
    FindIn(w.rows, w.order, slot)
  }

  function FindIn(rows: map<string, Row>, order: seq<string>, slot: Slot): Option<string> {
    if order == [] then None
    else
      var id := order[|order| - 1];
      if id in rows && rows[id].slot == slot && Active(rows[id].status) then Some(id)
      else FindIn(rows, order[..|order| - 1], slot)
  }

  function TimeLimit(orch: Orchestration): int { if orch.timeLimit <= 0 then 120 else orch.timeLimit }

  function IfSet(name: string): set<string> { if name == "" then {} else {name} }

  /** The pods that cleaning up a stored row stops. */
  function Stopped(id: string, row: Row, orch: Orchestration): set<string> {
    IfSet(row.podName) + (set name <- ServicePods(id, orch)) + IfSet(row.forkPodName)
  }

  // ---- Steps ----------------------------------------------------------------------------------

  /** How a provisioner's action goes: whether its call succeeds, and whether the pod that it
      deletes, if it deletes one, is really gone. A start that fails deletes its pod again. */
  datatype Answer = Answer(ok: bool, gone: bool)

  /** How a Start goes: whether the retired row is stored, whether the new row is, and the pods
      whose deletion fails or is skipped because the challenge cannot be read. */
  datatype StartCalls = StartCalls(saved: bool, inserted: bool, kept: set<string>)

  /** A request first looks for the newest active row of its slot. One that cannot read it goes on
      as if there were none. */
  datatype Action =
    | Provision(id: string, r: Answer, now: int)     // the next action of a provisioner
    | Look(req: nat, slot: Slot)
    | Start(req: nat, slot: Slot, newID: string, now: int, c: StartCalls)
    | Stop(req: nat, saved: bool, kept: set<string>)
    | Poll(req: nat, now: int)

  /** Everything an environment owns, as the list a late tear-down works through. */
  function AllPods(id: string, orch: Orchestration): seq<string> {
    ServicePods(id, orch) + [id] + if orch.fork then [ForkPodName(id)] else []
  }

  /** One action of the provisioner of `id`. */
  function ProvisionStep(w: World, orch: Orchestration, id: string, r: Answer, now: int): World
    requires id in w.rows && id in w.stages
  {
    var services := ServicePods(id, orch);
    var slot := w.rows[id].slot;
    match w.stages[id]
    case StartWorkspace =>
      w.(live := if r.ok || !r.gone then w.live + {id} else w.live,
         stages := w.stages[id := if r.ok then StartService(0) else CleanUp([], true)])
    case StartService(i) =>
      if i >= |services| then w.(stages := w.stages[id := StartFork])
      else
        w.(live := if r.ok || !r.gone then w.live + {services[i]} else w.live,
           stages := w.stages[id := if r.ok then StartService(i + 1) else CleanUp(services[..i] + [id], true)])
    case StartFork =>
      if !orch.fork then w.(stages := w.stages[id := Seed])
      else
        w.(live := if r.ok || !r.gone then w.live + {ForkPodName(id)} else w.live,
           stages := w.stages[id := if r.ok then Seed else CleanUp(services + [id], true)])
    case Seed =>
      if r.ok then w.(stages := w.stages[id := Reread])
      else w.(stages := w.stages[id := CleanUp(AllPods(id, orch), true)])
    case Reread =>
      if r.ok && w.rows[id].status == Terminated then
        w.(stages := w.stages[id := CleanUp(AllPods(id, orch), false)])
      else w.(stages := w.stages[id := Publish])
    case Publish =>
      var published := Row(slot, Running, id, if orch.fork then ForkPodName(id) else "", Some(now + TimeLimit(orch)));
      w.(rows := if r.ok then w.rows[id := published] else w.rows, stages := w.stages[id := Ended])
    case CleanUp(todo, mark) =>
      if todo != [] then
        w.(live := if r.gone then w.live - {todo[0]} else w.live, stages := w.stages[id := CleanUp(todo[1..], mark)])
      else
        w.(rows := if mark && r.ok then w.rows[id := Row(slot, Failed, "", "", None)] else w.rows,
           stages := w.stages[id := Ended])
    case Ended => w
  }

  function ReadOf(w: World, slot: Slot): Option<Read> {
    var found := FindActive(w, slot);
    if found == None || found.value !in w.rows then None else Some(Read(found.value, w.rows[found.value]))
  }

  function ReadBy(w: World, req: nat): Option<Read> { if req in w.seen then Some(w.seen[req]) else None }

  /** What a Stop does with the row it has read: the whole row is written, whatever it is by now. */
  function StopRequest(orchs: Orchestrations, w: World, read: Option<Read>, saved: bool, kept: set<string>): World {
    match read
    case None => w
    case Some(Read(id, row)) =>
      if row.slot.challenge !in orchs then w
      else
        w.(live := if row.podName != "" then w.live - (Stopped(id, row, orchs[row.slot.challenge]) - kept) else w.live,
           rows := if saved then w.rows[id := row.(status := Terminated)] else w.rows)
  }

  /** A row that a Start request hands back instead of replacing. */
  predicate Reusable(row: Row, now: int) {
    || (row.status == Running && row.expiresAt.Some? && now < row.expiresAt.value)
    || row.status in {Pending, Creating}
  }

  function Retire(orchs: Orchestrations, w: World, read: Option<Read>, c: StartCalls): World {
    match read
    case None => w
    case Some(Read(id, row)) =>
      if row.slot.challenge !in orchs then w
      else
        w.(live := w.live - (Stopped(id, row, orchs[row.slot.challenge]) - c.kept),
           rows := if c.saved then w.rows[id := row.(status := Terminated)] else w.rows)
  }

  /** When the new row cannot be inserted the old environment is gone and nothing replaces it. */
  function StartRequest(orchs: Orchestrations, w: World, read: Option<Read>, slot: Slot, newID: string, now: int,
                        c: StartCalls): World
  {
    if read.Some? && Reusable(read.value.row, now) then w
    else
      var v := Retire(orchs, w, read, c);
      if !c.inserted then v
      else v.(rows := v.rows[newID := Row(slot, Creating, "", "", None)], stages := v.stages[newID := StartWorkspace],
              order := v.order + [newID])
  }

  predicate Expires(read: Option<Read>, now: int) {
    read.Some? && read.value.row.expiresAt.Some? && read.value.row.expiresAt.value < now
  }

  function PollRequest(w: World, read: Option<Read>, now: int): World {
    if Expires(read, now) then w.(rows := w.rows[read.value.id := read.value.row.(status := Expired)]) else w
  }

  /** Which actions can happen: provisioners that exist, known challenges, newly generated ids. */
  predicate Enabled(orchs: Orchestrations, w: World, a: Action) {
    match a
    case Provision(id, _, _) => id in w.rows && id in w.stages && w.rows[id].slot.challenge in orchs
    case Start(req, slot, newID, _, _) =>
      && slot.challenge in orchs && newID !in w.rows && newID !in w.stages && IsEnvID(newID)
      && (req in w.seen ==> w.seen[req].row.slot == slot)
    case _ => true
  }

  function Answered(w: World, req: nat): World { w.(seen := w.seen - {req}) }

  function Apply(orchs: Orchestrations, w: World, a: Action): World
    requires Enabled(orchs, w, a)
  {
    match a
    case Provision(id, r, now) => ProvisionStep(w, orchs[w.rows[id].slot.challenge], id, r, now)
    case Look(req, slot) => if ReadOf(w, slot) == None then w else w.(seen := w.seen[req := ReadOf(w, slot).value])
    case Start(req, slot, newID, now, c) => StartRequest(orchs, Answered(w, req), ReadBy(w, req), slot, newID, now, c)
    case Stop(req, saved, kept) => StopRequest(orchs, Answered(w, req), ReadBy(w, req), saved, kept)
    case Poll(req, now) => PollRequest(Answered(w, req), ReadBy(w, req), now)
  }

  /** The write that publishes the pods' names fails. */
  predicate LosesPublish(w: World, a: Action) {
    a.Provision? && !a.r.ok && a.id in w.stages && w.stages[a.id] == Publish
  }

  /** The pods that an action was to delete and did not. */
  function Undeleted(orchs: Orchestrations, w: World, a: Action): set<string>
    requires Enabled(orchs, w, a)
  {
    match a
    case Provision(id, r, _) =>
      if r.gone then {} else FailedDelete(w, orchs[w.rows[id].slot.challenge], id, r.ok)
    case Start(req, _, _, now, c) =>
      var read := ReadBy(w, req);
      if read == None || Reusable(read.value.row, now) then {} else KeptBy(orchs, w, read.value, c.kept)
    case Stop(req, _, kept) =>
      var read := ReadBy(w, req);
      if read == None || read.value.row.podName == "" then {} else KeptBy(orchs, w, read.value, kept)
    case _ => {}
  }

  function KeptBy(orchs: Orchestrations, w: World, read: Read, kept: set<string>): set<string> {
    if read.row.slot.challenge !in orchs then {}
    else kept * Stopped(read.id, read.row, orchs[read.row.slot.challenge]) * w.live
  }

  /** The pod a provisioner's action deletes: the next one to tear down, or one that did not come up. */
  function FailedDelete(w: World, orch: Orchestration, id: string, ok: bool): set<string>
    requires id in w.stages
  {
    match w.stages[id]
    case StartWorkspace => if ok then {} else {id}
    case StartService(i) =>
      if ok || i >= |ServicePods(id, orch)| then {} else {ServicePods(id, orch)[i]}
    case StartFork => if ok || !orch.fork then {} else {ForkPodName(id)}
    case CleanUp(todo, _) => if todo == [] then {} else {todo[0]} * w.live
    case _ => {}
  }

  /** A request terminates a row that named no pod when it read it and has been published since. */
  predicate IsOvertaken(w: World, a: Action) {
    && (a.Stop? || a.Start?) && a.req in w.seen
    && (if a.Stop? then a.saved else a.c.saved && !Reusable(w.seen[a.req].row, a.now))
    && Overtakes(w, w.seen[a.req])
  }

  predicate Overtakes(w: World, read: Read) {
    read.row.podName == "" && read.id in w.rows && w.rows[read.id].status in {Running, Expired}
  }

  /** A status request writes an expired row over one that no longer runs. */
  predicate PollsLate(w: World, a: Action) {
    && a.Poll? && Expires(ReadBy(w, a.req), a.now)
    && w.seen[a.req].id in w.rows && w.rows[w.seen[a.req].id].status !in {Running, Expired}
  }

  /** What can go wrong beyond the failures that every run may contain: the write that publishes
      an environment is lost, a pod that was to be deleted stays, a request is overtaken by the
      publishing write, or a status request is late. */
  datatype Faults = Faults(lostPublish: bool, keptPods: bool, overtaken: bool, latePoll: bool)

  predicate Allowed(orchs: Orchestrations, f: Faults, w: World, a: Action) {
    && Enabled(orchs, w, a)
    && (LosesPublish(w, a) ==> f.lostPublish)
    && (Undeleted(orchs, w, a) != {} ==> f.keptPods)
    && (IsOvertaken(w, a) ==> f.overtaken)
    && (PollsLate(w, a) ==> f.latePoll)
  }

  predicate IsRun(orchs: Orchestrations, f: Faults, w: World, actions: seq<Action>)
    decreases |actions|
  {
    actions == [] ||
    (Allowed(orchs, f, w, actions[0]) && IsRun(orchs, f, Apply(orchs, w, actions[0]), actions[1..]))
  }

  function Execute(orchs: Orchestrations, f: Faults, w: World, actions: seq<Action>): World
    requires IsRun(orchs, f, w, actions)
    decreases |actions|
  {
    if actions == [] then w else Execute(orchs, f, Apply(orchs, w, actions[0]), actions[1..])
  }

  /** The pods an action leaves to nobody: those it failed to delete, and all pods of an
      environment whose publishing write it lost or overwrote. */
  function Orphans(orchs: Orchestrations, w: World, a: Action): set<string>
    requires Enabled(orchs, w, a)
  {
    Undeleted(orchs, w, a) + Abandoned(orchs, w, a)
  }

  function Abandoned(orchs: Orchestrations, w: World, a: Action): set<string>
    requires Enabled(orchs, w, a)
  {
    if LosesPublish(w, a) then OwnedPods(a.id, orchs[w.rows[a.id].slot.challenge])
    else if IsOvertaken(w, a) then PodsOf(orchs, w.seen[a.req])
    else {}
  }

  function PodsOf(orchs: Orchestrations, read: Read): set<string> {
    if read.row.slot.challenge in orchs then OwnedPods(read.id, orchs[read.row.slot.challenge]) else {}
  }

  /** The same for a whole run. */
  function Orphaned(orchs: Orchestrations, f: Faults, w: World, actions: seq<Action>): set<string>
    requires IsRun(orchs, f, w, actions)
    decreases |actions|
  {
    if actions == [] then {}
    else Orphans(orchs, w, actions[0]) + Orphaned(orchs, f, Apply(orchs, w, actions[0]), actions[1..])
  }

  const EMPTY := World(map[], map[], [], {}, map[])

  // ---- No pod leaks ------------------------------------------------------------------------------

  /** An environment is over when its provisioner has ended and its row is terminated or failed. */
  predicate Over(w: World, id: string) {
    && id in w.rows && id in w.stages
    && w.stages[id] == Ended && w.rows[id].status in {Terminated, Failed}
  }

  ghost predicate NoLeak(orchs: Orchestrations, w: World) {
    forall id <- w.rows | w.rows[id].slot.challenge in orchs && Over(w, id) ::
      w.live !! OwnedPods(id, orchs[w.rows[id].slot.challenge])
  }

  /** The first `n` names, or all of them when there are fewer. */
  ghost function FirstNames(names: seq<string>, n: nat): set<string> { set k | 0 <= k < n && k < |names| :: names[k] }

  lemma FirstNamesGrow(names: seq<string>, n: nat)
    ensures n < |names| ==> FirstNames(names, n + 1) == FirstNames(names, n) + {names[n]}
    ensures n >= |names| ==> FirstNames(names, n) == set name <- names
  {
  }

  /** The pods of `id` that can be live at a stage of its provisioner. */
  ghost function MayLive(id: string, orch: Orchestration, row: Row, stage: Stage): set<string> {
    match stage
    case StartWorkspace => {}
    case StartService(i) =>
      {id} + FirstNames(ServicePods(id, orch), i)
    case StartFork => {id} + (set name <- ServicePods(id, orch))
    case CleanUp(todo, _) => set name <- todo
    case Ended => if row.status in {Running, Expired} then OwnedPods(id, orch) else {}
    case _ => OwnedPods(id, orch)
  }

  /** How a row relates to its provisioner's stage. */
  ghost predicate RowFits(id: string, orch: Orchestration, row: Row, stage: Stage) {
    && IfSet(row.podName) + IfSet(row.forkPodName) <= OwnedPods(id, orch)
    && (stage.CleanUp? ==> (set name <- stage.todo) <= OwnedPods(id, orch))
    && if stage != Ended then
      row.status in {Creating, Terminated} && row.podName == "" && row.forkPodName == "" && row.expiresAt == None
    else
      && row.status != Pending
      && (row.status in {Creating, Failed} ==> row.podName == "" && row.forkPodName == "" && row.expiresAt == None)
      && (row.status == Running ==> row.podName == id && row.forkPodName == (if orch.fork then ForkPodName(id) else ""))
  }

  ghost predicate EnvSafe(orchs: Orchestrations, w: World, id: string) {
    && id in w.rows && id in w.stages && IsEnvID(id) && id != ""
    && w.rows[id].slot.challenge in orchs
    && var orch := orchs[w.rows[id].slot.challenge];
    && RowFits(id, orch, w.rows[id], w.stages[id])
    && w.live * OwnedPods(id, orch) <= MayLive(id, orch, w.rows[id], w.stages[id])
  }

  /** A row that was read as active: not published, or as it was published. */
  ghost predicate ReadFits(orchs: Orchestrations, w: World, read: Read) {
    var id, row := read.id, read.row;
    && id in w.rows && id in w.stages && row.slot == w.rows[id].slot && row.slot.challenge in orchs
    && (row.status == Creating || w.stages[id] == Ended)
    && if row.status == Running then
         row.podName == id && row.forkPodName == (if orchs[row.slot.challenge].fork then ForkPodName(id) else "")
       else
         row.status in {Creating, Failed} && row.podName == "" && row.forkPodName == "" && row.expiresAt == None
  }

  ghost predicate ReadsFit(orchs: Orchestrations, w: World) {
    forall req <- w.seen :: ReadFits(orchs, w, w.seen[req])
  }

  ghost predicate Safe(orchs: Orchestrations, w: World) {
    && w.rows.Keys == w.stages.Keys
    && (forall id <- w.rows :: EnvSafe(orchs, w, id))
    && ReadsFit(orchs, w)
    && (forall pod <- w.live :: OwnerOf(pod) in w.rows)
  }

  lemma {:induction false} FindInFinds(rows: map<string, Row>, order: seq<string>, slot: Slot)
    ensures var found := FindIn(rows, order, slot);
            found.Some? ==> found.value in rows && rows[found.value].slot == slot && Active(rows[found.value].status)
  {
    if order != [] {
      FindInFinds(rows, order[..|order| - 1], slot);
    }
  }

  /** Reads stay right while rows keep their slots and provisioners that have ended stay ended. */
  lemma ReadsStay(orchs: Orchestrations, w: World, v: World)
    requires ReadsFit(orchs, w) && v.seen.Keys <= w.seen.Keys
    requires forall req <- v.seen :: v.seen[req] == w.seen[req]
    requires forall id <- w.rows :: id in v.rows && v.rows[id].slot == w.rows[id].slot
    requires forall id <- w.stages :: id in v.stages && (w.stages[id] == Ended ==> v.stages[id] == Ended)
    ensures ReadsFit(orchs, v)
  {
    hide ForkPodName;
    forall req <- v.seen ensures ReadFits(orchs, v, v.seen[req]) {
      assert ReadFits(orchs, w, w.seen[req]);
    }
  }

  /** A step confined to one environment's row, stage and pods leaves the others safe. */
  lemma OthersStaySafe(orchs: Orchestrations, w: World, v: World, id: string, other: string)
    requires Safe(orchs, w) && id != other && other in w.rows
    requires IsEnvID(id) && (id in w.rows ==> w.rows[id].slot.challenge in orchs)
    requires other in v.rows && v.rows[other] == w.rows[other]
    requires other in v.stages && v.stages[other] == w.stages[other]
    requires v.live <= w.live || (id in w.rows && v.live <= w.live + OwnedPods(id, orchs[w.rows[id].slot.challenge]))
    ensures EnvSafe(orchs, v, other)
  {
    if !(v.live <= w.live) {
      OwnedDisjoint(id, orchs[w.rows[id].slot.challenge], other, orchs[w.rows[other].slot.challenge]);
    }
  }

  lemma ServiceIsOwned(id: string, orch: Orchestration, i: nat)
    requires i < |ServicePods(id, orch)|
    ensures ServicePods(id, orch)[i] in OwnedPods(id, orch)
  {}

  lemma ProvisionKeepsSafe(orchs: Orchestrations, w: World, id: string, r: Answer, now: int)
    requires r.gone && Safe(orchs, w)
    requires Enabled(orchs, w, Provision(id, r, now))
    requires LosesPublish(w, Provision(id, r, now)) ==> w.live !! OwnedPods(id, orchs[w.rows[id].slot.challenge])
    ensures Safe(orchs, Apply(orchs, w, Provision(id, r, now)))
  {
    hide ProvisionStep, ServicePods, ForkPodName, MayLive, RowFits, ReadFits, OwnedPods;
    var orch := orchs[w.rows[id].slot.challenge];
    assert EnvSafe(orchs, w, id);
    var v := ProvisionStep(w, orch, id, r, now);
    ProvisionFrame(w, orch, id, r, now);
    match w.stages[id] {
      case StartWorkspace => OwnStartWorkspace(orchs, w, id, r, now);
      case StartService(i) => OwnStartService(orchs, w, id, r, now, i);
      case StartFork => OwnStartFork(orchs, w, id, r, now);
      case CleanUp(todo, mark) => OwnCleanUp(orchs, w, id, r, now, todo, mark);
      case _ => OwnLateStages(orchs, w, id, r, now);
    }
    OwnerOfOwned(id, orch);
    ReadsStay(orchs, w, v);
    forall other <- v.rows | other != id ensures EnvSafe(orchs, v, other) {
      OthersStaySafe(orchs, w, v, id, other);
    }
  }

  /** A provisioner touches its own row, its own stage and its own pods only. */
  lemma ProvisionFrame(w: World, orch: Orchestration, id: string, r: Answer, now: int)
    requires id in w.rows && id in w.stages
    ensures var v := ProvisionStep(w, orch, id, r, now);
            && v.rows.Keys == w.rows.Keys && v.stages.Keys == w.stages.Keys && v.order == w.order
            && v.seen == w.seen && (w.stages[id] == Ended ==> v == w)
            && v.rows[id].slot == w.rows[id].slot
            && (forall other <- w.rows | other != id :: v.rows[other] == w.rows[other])
            && (forall other <- w.stages | other != id :: v.stages[other] == w.stages[other])
            && v.live <= w.live + OwnedPods(id, orch)
  {
    hide ServicePods, ForkPodName, TimeLimit, AllPods;
    match w.stages[id]
    case StartWorkspace =>
    case StartService(i) =>
      if i < |ServicePods(id, orch)| {
        ServiceIsOwned(id, orch, i);
      }
    case StartFork =>
    case CleanUp(_, _) =>
    case _ =>
  }

  ghost predicate StageOf(orchs: Orchestrations, w: World, id: string, stage: Stage) {
    EnvSafe(orchs, w, id) && w.stages[id] == stage
  }

  lemma OwnStartWorkspace(orchs: Orchestrations, w: World, id: string, r: Answer, now: int)
    requires r.gone && StageOf(orchs, w, id, StartWorkspace)
    ensures EnvSafe(orchs, ProvisionStep(w, orchs[w.rows[id].slot.challenge], id, r, now), id)
  {}

  lemma OwnStartService(orchs: Orchestrations, w: World, id: string, r: Answer, now: int, i: nat)
    requires r.gone && StageOf(orchs, w, id, StartService(i))
    ensures EnvSafe(orchs, ProvisionStep(w, orchs[w.rows[id].slot.challenge], id, r, now), id)
  {
    var services := ServicePods(id, orchs[w.rows[id].slot.challenge]);
    if i < |services| && !r.ok {
      var todo := services[..i] + [id];
      assert forall k | 0 <= k < i :: services[k] == todo[k];
      assert id == todo[i];
    }
  }

  lemma OwnStartFork(orchs: Orchestrations, w: World, id: string, r: Answer, now: int)
    requires r.gone && StageOf(orchs, w, id, StartFork)
    ensures EnvSafe(orchs, ProvisionStep(w, orchs[w.rows[id].slot.challenge], id, r, now), id)
  {
    var services := ServicePods(id, orchs[w.rows[id].slot.challenge]);
    var todo := services + [id];
    assert forall k | 0 <= k < |services| :: services[k] == todo[k];
    assert id == todo[|services|];
  }

  lemma OwnCleanUp(orchs: Orchestrations, w: World, id: string, r: Answer, now: int, todo: seq<string>, mark: bool)
    requires r.gone && StageOf(orchs, w, id, CleanUp(todo, mark))
    ensures EnvSafe(orchs, ProvisionStep(w, orchs[w.rows[id].slot.challenge], id, r, now), id)
  {
    var orch := orchs[w.rows[id].slot.challenge];
    var v := ProvisionStep(w, orch, id, r, now);
    if todo != [] {
      forall name | name in v.live * OwnedPods(id, orch) ensures name in todo[1..] {
        assert name in MayLive(id, orch, w.rows[id], w.stages[id]);
      }
    } else {
      assert MayLive(id, orch, w.rows[id], w.stages[id]) == {};
      assert v.live * OwnedPods(id, orch) == {};
    }
  }

  lemma ElementsOfThree(a: seq<string>, x: string, b: seq<string>)
    ensures (set name <- a + [x] + b) == (set name <- a) + {x} + (set name <- b)
  {
    var all := a + [x] + b;
    assert forall k | 0 <= k < |a| :: all[k] == a[k];
    assert all[|a|] == x;
    assert forall k | 0 <= k < |b| :: all[|a| + 1 + k] == b[k];
  }

  lemma OwnedListed(id: string, orch: Orchestration)
    ensures OwnedPods(id, orch) == set name <- AllPods(id, orch)
  {
    ElementsOfThree(ServicePods(id, orch), id, if orch.fork then [ForkPodName(id)] else []);
  }

  lemma OwnSeedOrReread(orchs: Orchestrations, w: World, id: string, r: Answer, now: int)
    requires r.gone && EnvSafe(orchs, w, id) && w.stages[id] in {Seed, Reread}
    ensures EnvSafe(orchs, ProvisionStep(w, orchs[w.rows[id].slot.challenge], id, r, now), id)
  {
    hide ServicePods, ForkPodName, IsEnvID;
    OwnedListed(id, orchs[w.rows[id].slot.challenge]);
  }

  lemma OwnPublish(orchs: Orchestrations, w: World, id: string, r: Answer, now: int)
    requires r.gone && EnvSafe(orchs, w, id) && w.stages[id] in {Publish, Ended}
    requires LosesPublish(w, Provision(id, r, now)) ==> w.live !! OwnedPods(id, orchs[w.rows[id].slot.challenge])
    ensures EnvSafe(orchs, ProvisionStep(w, orchs[w.rows[id].slot.challenge], id, r, now), id)
  {
  }

  lemma OwnLateStages(orchs: Orchestrations, w: World, id: string, r: Answer, now: int)
    requires r.gone && EnvSafe(orchs, w, id) && w.stages[id] in {Seed, Reread, Publish, Ended}
    requires LosesPublish(w, Provision(id, r, now)) ==> w.live !! OwnedPods(id, orchs[w.rows[id].slot.challenge])
    ensures EnvSafe(orchs, ProvisionStep(w, orchs[w.rows[id].slot.challenge], id, r, now), id)
  {
    if w.stages[id] in {Seed, Reread} {
      OwnSeedOrReread(orchs, w, id, r, now);
    } else {
      OwnPublish(orchs, w, id, r, now);
    }
  }

  /** The request is not overtaken, or no pod is there to be lost. */
  ghost predicate Spared(orchs: Orchestrations, w: World, read: Read) {
    Overtakes(w, read) ==> w.live !! PodsOf(orchs, read)
  }

  /** A request that terminates the row it has read, or leaves the table alone, and stops the pods
      the row names is safe, unless it is overtaken. */
  lemma RequestKeepsSafe(orchs: Orchestrations, w: World, v: World, read: Read)
    requires Safe(orchs, w) && ReadFits(orchs, w, read)
    requires v.rows == w.rows
             || (v.rows == w.rows[read.id := read.row.(status := Terminated)] && Spared(orchs, w, read))
    requires v.stages == w.stages && v.live <= w.live && v.seen == w.seen
    requires read.row.podName != "" ==>
               v.live == w.live - Stopped(read.id, read.row, orchs[read.row.slot.challenge])
    ensures Safe(orchs, v) && v.rows.Keys == w.rows.Keys
  {
    hide MayLive, RowFits, Stopped, OwnedPods, IsEnvID;
    assert EnvSafe(orchs, w, read.id);
    RetiredIsSafe(orchs, w, v, read);
    ReadsStay(orchs, w, v);
    forall other <- v.rows | other != read.id ensures EnvSafe(orchs, v, other) {
      OthersStaySafe(orchs, w, v, read.id, other);
    }
  }

  lemma StopKeepsSafe(orchs: Orchestrations, w: World, read: Option<Read>, saved: bool)
    requires Safe(orchs, w) && (read.Some? ==> ReadFits(orchs, w, read.value))
    requires read.Some? && saved ==> Spared(orchs, w, read.value)
    ensures Safe(orchs, StopRequest(orchs, w, read, saved, {}))
  {
    hide Stopped, MayLive, RowFits, IsEnvID, Safe;
    if read.Some? {
      RequestKeepsSafe(orchs, w, StopRequest(orchs, w, read, saved, {}), read.value);
    }
  }

  /** Terminating a row is safe whether its pods were published or not. */
  lemma RetiredIsSafe(orchs: Orchestrations, w: World, v: World, read: Read)
    requires EnvSafe(orchs, w, read.id) && ReadFits(orchs, w, read)
    requires v.rows == w.rows
             || (v.rows == w.rows[read.id := read.row.(status := Terminated)] && Spared(orchs, w, read))
    requires v.stages == w.stages && v.live <= w.live
    requires read.row.podName != "" ==>
               v.live == w.live - Stopped(read.id, read.row, orchs[read.row.slot.challenge])
    ensures EnvSafe(orchs, v, read.id)
  {
    hide ServicePods, ForkPodName, IsEnvID;
    if read.row.status == Running {
      PublishedStopsAll(orchs, w, read);
    }
  }

  lemma PublishedStopsAll(orchs: Orchestrations, w: World, read: Read)
    requires ReadFits(orchs, w, read) && read.row.status == Running && read.id != ""
    ensures (var orch := orchs[read.row.slot.challenge]; Stopped(read.id, read.row, orch) == OwnedPods(read.id, orch))
  {
  }

  lemma RetireKeepsSafe(orchs: Orchestrations, w: World, read: Option<Read>, c: StartCalls)
    requires Safe(orchs, w) && (read.Some? ==> ReadFits(orchs, w, read.value)) && c.kept == {}
    requires read.Some? && c.saved ==> Spared(orchs, w, read.value)
    ensures Safe(orchs, Retire(orchs, w, read, c))
    ensures Retire(orchs, w, read, c).rows.Keys == w.rows.Keys
    ensures Retire(orchs, w, read, c).live <= w.live
  {
    hide Stopped, MayLive, RowFits, IsEnvID, Safe;
    if read.Some? {
      RequestKeepsSafe(orchs, w, Retire(orchs, w, read, c), read.value);
    }
  }

  /** No pod carries a new id yet. */
  lemma NewIsSafe(orchs: Orchestrations, v: World, u: World, slot: Slot, newID: string)
    requires slot.challenge in orchs && newID !in v.rows && IsEnvID(newID)
    requires forall pod <- v.live :: OwnerOf(pod) in v.rows
    requires newID in u.rows && u.rows[newID] == Row(slot, Creating, "", "", None)
    requires newID in u.stages && u.stages[newID] == StartWorkspace && u.live == v.live
    ensures EnvSafe(orchs, u, newID)
  {
    OwnerOfOwned(newID, orchs[slot.challenge]);
  }

  lemma AddedIsSafe(orchs: Orchestrations, v: World, u: World, slot: Slot, newID: string)
    requires Safe(orchs, v) && slot.challenge in orchs && newID !in v.rows && IsEnvID(newID)
    requires u.rows == v.rows[newID := Row(slot, Creating, "", "", None)]
             && u.stages == v.stages[newID := StartWorkspace]
    requires u.live == v.live && u.seen == v.seen
    ensures Safe(orchs, u)
  {
    hide MayLive, RowFits, OwnedPods, IsEnvID;
    NewIsSafe(orchs, v, u, slot, newID);
    ReadsStay(orchs, v, u);
    forall other <- v.rows ensures EnvSafe(orchs, u, other) {
      assert EnvSafe(orchs, v, other);
    }
  }

  lemma StartKeepsSafe(orchs: Orchestrations, w: World, read: Option<Read>, slot: Slot, newID: string, now: int,
                       c: StartCalls)
    requires Safe(orchs, w) && (read.Some? ==> ReadFits(orchs, w, read.value)) && c.kept == {}
    requires slot.challenge in orchs && newID !in w.rows && IsEnvID(newID)
    requires read.Some? && c.saved && !Reusable(read.value.row, now) ==> Spared(orchs, w, read.value)
    ensures Safe(orchs, StartRequest(orchs, w, read, slot, newID, now, c))
  {
    hide Stopped, MayLive, RowFits, IsEnvID, Safe;
    var u := StartRequest(orchs, w, read, slot, newID, now, c);
    if read == None || !Reusable(read.value.row, now) {
      RetireKeepsSafe(orchs, w, read, c);
      var v := Retire(orchs, w, read, c);
      if c.inserted {
        AddedIsSafe(orchs, v, u, slot, newID);
      }
    }
  }

  lemma ExpiredIsSafe(orchs: Orchestrations, w: World, v: World, read: Read, other: string)
    requires EnvSafe(orchs, w, other) && ReadFits(orchs, w, read) && read.row.expiresAt.Some?
    requires v == w.(rows := w.rows[read.id := read.row.(status := Expired)])
    ensures EnvSafe(orchs, v, other)
  {
    if other == read.id {
      assert w.stages[other] == Ended && read.row.status == Running;
    }
  }

  lemma PollKeepsSafe(orchs: Orchestrations, w: World, read: Option<Read>, now: int)
    requires Safe(orchs, w) && (read.Some? ==> ReadFits(orchs, w, read.value))
    ensures Safe(orchs, PollRequest(w, read, now))
  {
    hide MayLive, RowFits, OwnedPods, IsEnvID, ForkPodName;
    if Expires(read, now) {
      var v := PollRequest(w, read, now);
      ReadsStay(orchs, w, v);
      forall id <- v.rows ensures EnvSafe(orchs, v, id) {
        ExpiredIsSafe(orchs, w, v, read.value, id);
      }
    }
  }

  lemma LookKeepsSafe(orchs: Orchestrations, w: World, req: nat, slot: Slot)
    requires Safe(orchs, w)
    ensures Safe(orchs, Apply(orchs, w, Look(req, slot)))
  {
    FindInFinds(w.rows, w.order, slot);
    var read, v := ReadOf(w, slot), Apply(orchs, w, Look(req, slot));
    if read.Some? {
      assert EnvSafe(orchs, w, read.value.id);
      assert ReadFits(orchs, v, read.value);
      forall r <- v.seen | r != req ensures ReadFits(orchs, v, v.seen[r]) {
        assert ReadFits(orchs, w, w.seen[r]);
      }
      forall id <- v.rows ensures EnvSafe(orchs, v, id) {
        assert EnvSafe(orchs, w, id);
      }
    }
  }

  lemma AnsweredIsSafe(orchs: Orchestrations, w: World, req: nat)
    requires Safe(orchs, w)
    ensures Safe(orchs, Answered(w, req)) && (req in w.seen ==> ReadFits(orchs, Answered(w, req), w.seen[req]))
  {
    hide MayLive, RowFits, OwnedPods;
    ReadsStay(orchs, w, Answered(w, req));
    forall id <- w.rows ensures EnvSafe(orchs, Answered(w, req), id) {
      assert EnvSafe(orchs, w, id);
    }
    if req in w.seen {
      assert ReadFits(orchs, w, w.seen[req]);
    }
  }

  // Deletions that fail. A run is compared with the same run in which every deletion works.

  /** The same action with every deletion working. */
  function Sure(a: Action): Action {
    match a
    case Provision(id, r, now) => Provision(id, r.(gone := true), now)
    case Start(req, slot, newID, now, c) => Start(req, slot, newID, now, c.(kept := {}))
    case Stop(req, saved, _) => Stop(req, saved, {})
    case _ => a
  }

  function Without(w: World, pods: set<string>): World { w.(live := w.live - pods) }

  lemma SureKeepsSafe(orchs: Orchestrations, w: World, a: Action)
    requires Safe(orchs, w) && Enabled(orchs, w, a) && w.live !! Abandoned(orchs, w, a)
    ensures Safe(orchs, Apply(orchs, w, Sure(a)))
  {
    hide Safe;
    match a
    case Provision(id, r, now) => ProvisionKeepsSafe(orchs, w, id, r.(gone := true), now);
    case Look(req, slot) => LookKeepsSafe(orchs, w, req, slot);
    case Start(req, slot, newID, now, c) =>
      AnsweredIsSafe(orchs, w, req);
      StartKeepsSafe(orchs, Answered(w, req), ReadBy(w, req), slot, newID, now, c.(kept := {}));
    case Stop(req, saved, _) =>
      AnsweredIsSafe(orchs, w, req);
      StopKeepsSafe(orchs, Answered(w, req), ReadBy(w, req), saved);
    case Poll(req, now) =>
      AnsweredIsSafe(orchs, w, req);
      PollKeepsSafe(orchs, Answered(w, req), ReadBy(w, req), now);
  }

  lemma FewerPodsAreSafe(orchs: Orchestrations, w: World, v: World)
    requires Safe(orchs, w) && v.rows == w.rows && v.stages == w.stages && v.live <= w.live && v.seen == w.seen
    ensures Safe(orchs, v)
  {
    hide MayLive, RowFits, OwnedPods, IsEnvID;
    ReadsStay(orchs, w, v);
    forall id <- v.rows ensures EnvSafe(orchs, v, id) {
      assert EnvSafe(orchs, w, id);
    }
  }

  /** `v` is `u` with more pods live, all of them among `lost`. */
  ghost predicate Follows(v: World, u: World, lost: set<string>) {
    v.rows == u.rows && v.stages == u.stages && v.order == u.order && v.seen == u.seen && v.live - lost <= u.live
  }

  lemma ProvisionFollows(w: World, orch: Orchestration, id: string, r: Answer, now: int, lost: set<string>)
    requires id in w.rows && id in w.stages
    ensures Follows(ProvisionStep(w, orch, id, r, now),
                    ProvisionStep(Without(w, lost), orch, id, r.(gone := true), now),
                    lost + if r.gone then {} else FailedDelete(w, orch, id, r.ok))
  {
    hide ServicePods, ForkPodName, TimeLimit, AllPods;
    match w.stages[id]
    case StartWorkspace =>
    case StartService(_) =>
    case StartFork =>
    case Publish =>
    case CleanUp(_, _) =>
    case _ =>
  }

  lemma RequestFollows(live: set<string>, lost: set<string>, stopped: set<string>, kept: set<string>)
    ensures (live - (stopped - kept)) - (lost + kept * stopped * live) <= (live - lost) - (stopped - {})
  {
  }

  lemma StopFollows(orchs: Orchestrations, w: World, req: nat, saved: bool, kept: set<string>, lost: set<string>)
    ensures var a := Stop(req, saved, kept);
            Follows(Apply(orchs, w, a), Apply(orchs, Without(w, lost), Sure(a)), lost + Undeleted(orchs, w, a))
  {
    hide Stopped;
    var read := ReadBy(w, req);
    if read.Some? && read.value.row.slot.challenge in orchs {
      RequestFollows(w.live, lost, Stopped(read.value.id, read.value.row, orchs[read.value.row.slot.challenge]), kept);
    }
  }

  lemma StartFollows(orchs: Orchestrations, w: World, a: Action, lost: set<string>)
    requires a.Start? && Enabled(orchs, w, a)
    ensures Enabled(orchs, Without(w, lost), Sure(a))
    ensures Follows(Apply(orchs, w, a), Apply(orchs, Without(w, lost), Sure(a)), lost + Undeleted(orchs, w, a))
  {
    hide Stopped, IsEnvID;
    var read := ReadBy(w, a.req);
    if read.Some? && read.value.row.slot.challenge in orchs {
      RequestFollows(w.live, lost, Stopped(read.value.id, read.value.row, orchs[read.value.row.slot.challenge]),
                     a.c.kept);
    }
  }

  /** Pods that were not deleted are the only ones an action leaves behind. */
  lemma ApplyFollows(orchs: Orchestrations, w: World, a: Action, lost: set<string>)
    requires Enabled(orchs, w, a)
    ensures Enabled(orchs, Without(w, lost), Sure(a))
    ensures Follows(Apply(orchs, w, a), Apply(orchs, Without(w, lost), Sure(a)), lost + Undeleted(orchs, w, a))
  {
    hide FindIn, ProvisionStep, StartRequest, StopRequest;
    match a
    case Provision(id, r, now) => ProvisionFollows(w, orchs[w.rows[id].slot.challenge], id, r, now, lost);
    case Start(req, slot, newID, now, c) => StartFollows(orchs, w, a, lost);
    case Stop(req, saved, kept) => StopFollows(orchs, w, req, saved, kept, lost);
    case Look(_, slot) => assert FindActive(w, slot) == FindActive(Without(w, lost), slot);
    case Poll(_, _) =>
  }

  /** Whatever fails, each step keeps every environment safe, up to the pods left to nobody. */
  lemma ApplyKeepsSafe(orchs: Orchestrations, w: World, a: Action, lost: set<string>)
    requires Safe(orchs, Without(w, lost)) && Enabled(orchs, w, a)
    ensures Safe(orchs, Without(Apply(orchs, w, a), lost + Orphans(orchs, w, a)))
  {
    hide Safe, Undeleted, Apply, OwnedPods, PodsOf;
    var gone := lost + Abandoned(orchs, w, a);
    var u := Without(w, gone);
    FewerPodsAreSafe(orchs, Without(w, lost), u);
    ApplyFollows(orchs, w, a, gone);
    assert Abandoned(orchs, u, a) == Abandoned(orchs, w, a);
    SureKeepsSafe(orchs, u, a);
    FewerPodsAreSafe(orchs, Apply(orchs, u, Sure(a)), Without(Apply(orchs, w, a), lost + Orphans(orchs, w, a)));
  }

  lemma OverHasNoPods(orchs: Orchestrations, w: World, id: string)
    requires EnvSafe(orchs, w, id) && Over(w, id)
    ensures w.live !! OwnedPods(id, orchs[w.rows[id].slot.challenge])
  {
    hide OwnedPods, RowFits;
    var owned := OwnedPods(id, orchs[w.rows[id].slot.challenge]);
    assert w.live * owned == {};
    forall pod <- w.live ensures pod !in owned {
      assert pod !in w.live * owned;
    }
  }

  lemma SafeHasNoLeak(orchs: Orchestrations, w: World)
    requires Safe(orchs, w)
    ensures NoLeak(orchs, w)
  {
    hide OwnedPods, RowFits, MayLive;
    forall id <- w.rows | w.rows[id].slot.challenge in orchs && Over(w, id)
      ensures w.live !! OwnedPods(id, orchs[w.rows[id].slot.challenge])
    {
      OverHasNoPods(orchs, w, id);
    }
  }

  lemma {:induction false} RunKeepsSafe(orchs: Orchestrations, f: Faults, w: World, actions: seq<Action>,
                                        lost: set<string>)
    requires Safe(orchs, Without(w, lost)) && IsRun(orchs, f, w, actions)
    ensures Safe(orchs, Without(Execute(orchs, f, w, actions), lost + Orphaned(orchs, f, w, actions)))
    decreases |actions|
  {
    hide Safe, Apply, Orphans;
    if actions == [] {
      assert lost + {} == lost;
    } else {
      var more := Orphans(orchs, w, actions[0]);
      var v, rest := Apply(orchs, w, actions[0]), actions[1..];
      ApplyKeepsSafe(orchs, w, actions[0], lost);
      RunKeepsSafe(orchs, f, v, rest, lost + more);
      assert lost + more + Orphaned(orchs, f, v, rest) == lost + (more + Orphaned(orchs, f, v, rest));
    }
  }

  lemma EmptyIsSafe(orchs: Orchestrations)
    ensures Safe(orchs, Without(EMPTY, {}))
  {
  }

  /** Over every run, whatever fails: a pod that is live although its environment is over failed to
      be deleted, or its environment lost the publishing write or had it overwritten. */
  lemma LeaksAreOrphans(orchs: Orchestrations, f: Faults, actions: seq<Action>, id: string)
    requires IsRun(orchs, f, EMPTY, actions)
    requires Over(Execute(orchs, f, EMPTY, actions), id)
    requires Execute(orchs, f, EMPTY, actions).rows[id].slot.challenge in orchs
    ensures var w := Execute(orchs, f, EMPTY, actions);
            w.live * OwnedPods(id, orchs[w.rows[id].slot.challenge]) <= Orphaned(orchs, f, EMPTY, actions)
  {
    hide OwnedPods, MayLive, RowFits, Execute, Orphaned;
    var w, lost := Execute(orchs, f, EMPTY, actions), Orphaned(orchs, f, EMPTY, actions);
    EmptyIsSafe(orchs);
    RunKeepsSafe(orchs, f, EMPTY, actions, {});
    assert {} + lost == lost;
    OverHasNoPods(orchs, Without(w, lost), id);
    var owned := OwnedPods(id, orchs[w.rows[id].slot.challenge]);
    forall pod | pod in w.live * owned ensures pod in lost {
      assert pod in owned && pod !in Without(w, lost).live;
    }
  }

  lemma {:induction false} NothingOrphaned(orchs: Orchestrations, f: Faults, w: World, actions: seq<Action>)
    requires IsRun(orchs, f, w, actions) && !f.lostPublish && !f.keptPods && !f.overtaken
    ensures Orphaned(orchs, f, w, actions) == {}
    decreases |actions|
  {
    hide Apply, Undeleted, Enabled;
    if actions != [] {
      NothingOrphaned(orchs, f, Apply(orchs, w, actions[0]), actions[1..]);
    }
  }

  ghost predicate NeverLeaks(orchs: Orchestrations, f: Faults) {
    forall actions | IsRun(orchs, f, EMPTY, actions) :: NoLeak(orchs, Execute(orchs, f, EMPTY, actions))
  }

  lemma RunCons(orchs: Orchestrations, f: Faults, w: World, a: Action, rest: seq<Action>, end: World)
    requires Allowed(orchs, f, w, a)
    requires IsRun(orchs, f, Apply(orchs, w, a), rest) && Execute(orchs, f, Apply(orchs, w, a), rest) == end
    ensures IsRun(orchs, f, w, [a] + rest) && Execute(orchs, f, w, [a] + rest) == end
  {
    assert ([a] + rest)[1..] == rest;
  }

  /** The only environment, not yet published, at a stage of its provisioner. */
  function At(id: string, stage: Stage, live: set<string>): World {
    World(map[id := Row(Slot(0, 0, 0), Creating, "", "", None)], map[id := stage], [id], live, map[])
  }

  const SLOT := Slot(0, 0, 0)
  const GO := Answer(true, true)
  const LOST := Answer(false, true)
  const CLEAN_START := StartCalls(true, true, {})

  lemma StageCons(orchs: Orchestrations, f: Faults, id: string, stage: Stage, live: set<string>,
                  next: Stage, nextLive: set<string>, rest: seq<Action>, end: World)
    requires 0 in orchs
    requires ProvisionStep(At(id, stage, live), orchs[0], id, GO, 0) == At(id, next, nextLive)
    requires IsRun(orchs, f, At(id, next, nextLive), rest) && Execute(orchs, f, At(id, next, nextLive), rest) == end
    ensures var a := Provision(id, GO, 0);
            && IsRun(orchs, f, At(id, stage, live), [a] + rest)
            && Execute(orchs, f, At(id, stage, live), [a] + rest) == end
  {
    RunCons(orchs, f, At(id, stage, live), Provision(id, GO, 0), rest, end);
  }

  lemma LeakFromFork(orchs: Orchestrations, f: Faults, id: string, rest: seq<Action>, end: World)
    requires 0 in orchs && ServicePods(id, orchs[0]) == [] && !orchs[0].fork
    requires IsRun(orchs, f, At(id, Publish, {id}), rest) && Execute(orchs, f, At(id, Publish, {id}), rest) == end
    ensures var go := Provision(id, GO, 0);
            var r := [go] + ([go] + ([go] + rest));
            && IsRun(orchs, f, At(id, StartFork, {id}), r)
            && Execute(orchs, f, At(id, StartFork, {id}), r) == end
  {
    var go := Provision(id, GO, 0);
    var r1 := [go] + rest;
    var r2 := [go] + r1;
    StageCons(orchs, f, id, Reread, {id}, Publish, {id}, rest, end);
    StageCons(orchs, f, id, Seed, {id}, Reread, {id}, r1, end);
    StageCons(orchs, f, id, StartFork, {id}, Seed, {id}, r2, end);
  }

  lemma LeakFromStart(orchs: Orchestrations, f: Faults, id: string, rest: seq<Action>, end: World)
    requires orchs == map[0 := Orchestration([], false, 0)]
    requires IsRun(orchs, f, At(id, Publish, {id}), rest) && Execute(orchs, f, At(id, Publish, {id}), rest) == end
    ensures var go := Provision(id, GO, 0);
            var r := [go] + ([go] + ([go] + ([go] + ([go] + rest))));
            && IsRun(orchs, f, At(id, StartWorkspace, {}), r)
            && Execute(orchs, f, At(id, StartWorkspace, {}), r) == end
  {
    var go := Provision(id, GO, 0);
    assert ServicePods(id, orchs[0]) == [];
    LeakFromFork(orchs, f, id, rest, end);
    var r3 := [go] + ([go] + ([go] + rest));
    var r4 := [go] + r3;
    StageCons(orchs, f, id, StartService(0), {id}, StartFork, {id}, r3, end);
    StageCons(orchs, f, id, StartWorkspace, {}, StartService(0), {id}, r4, end);
  }

  lemma NoLeakFails(orchs: Orchestrations, w: World, id: string)
    requires Over(w, id) && id in w.live && w.rows[id].slot.challenge in orchs
    ensures !NoLeak(orchs, w)
  {
    assert id in OwnedPods(id, orchs[w.rows[id].slot.challenge]);
  }

  lemma FirstStarts(orchs: Orchestrations, f: Faults, id: string)
    requires 0 in orchs && IsEnvID(id)
    ensures var start := Start(0, SLOT, id, 0, CLEAN_START);
            Allowed(orchs, f, EMPTY, start) && Apply(orchs, EMPTY, start) == At(id, StartWorkspace, {})
  {
  }

  /** A run that leaks from the publishing write on leaks from the beginning. */
  lemma LeakFromEmpty(orchs: Orchestrations, f: Faults, id: string, rest: seq<Action>, end: World)
    requires orchs == map[0 := Orchestration([], false, 0)] && IsEnvID(id)
    requires IsRun(orchs, f, At(id, Publish, {id}), rest) && Execute(orchs, f, At(id, Publish, {id}), rest) == end
    requires Over(end, id) && id in end.live && end.rows[id].slot == SLOT
    ensures !NeverLeaks(orchs, f)
  {
    var go, start := Provision(id, GO, 0), Start(0, SLOT, id, 0, CLEAN_START);
    LeakFromStart(orchs, f, id, rest, end);
    var r := [go] + ([go] + ([go] + ([go] + ([go] + rest))));
    FirstStarts(orchs, f, id);
    hide Apply, Allowed, IsRun, Execute, NoLeak;
    RunCons(orchs, f, EMPTY, start, r, end);
    assert IsRun(orchs, f, EMPTY, [start] + r);
    NoLeakFails(orchs, end, id);
  }

  /** A Stop that finds the row `row`, and what it leaves. */
  lemma LookAndStop(orchs: Orchestrations, f: Faults, id: string, row: Row, kept: set<string>, end: World)
    requires 0 in orchs && row.slot == SLOT && Active(row.status) && (f.keptPods || kept == {})
    requires var w := World(map[id := row], map[id := Ended], [id], {id}, map[]);
             && end == StopRequest(orchs, w, Some(Read(id, row)), true, kept)
             && !Overtakes(w, Read(id, row))
    ensures var w := World(map[id := row], map[id := Ended], [id], {id}, map[]);
            var actions := [Look(0, SLOT)] + ([Stop(0, true, kept)] + []);
            IsRun(orchs, f, w, actions) && Execute(orchs, f, w, actions) == end
  {
    var w, look, stop := World(map[id := row], map[id := Ended], [id], {id}, map[]), Look(0, SLOT), Stop(0, true, kept);
    assert FindActive(w, SLOT) == Some(id);
    var u := w.(seen := map[0 := Read(id, row)]);
    assert Apply(orchs, w, look) == u;
    assert Answered(u, 0) == w;
    assert Apply(orchs, u, stop) == end;
    RunCons(orchs, f, u, stop, [], end);
    RunCons(orchs, f, w, look, [stop] + [], end);
  }

  /** Lose the publishing write, then stop: the row names no pod, so none is stopped. */
  lemma LostPublishLeaks(orchs: Orchestrations, f: Faults, id: string)
    requires orchs == map[0 := Orchestration([], false, 0)] && IsEnvID(id) && f.lostPublish
    ensures !NeverLeaks(orchs, f)
  {
    var row := Row(SLOT, Creating, "", "", None);
    var end := World(map[id := row.(status := Terminated)], map[id := Ended], [id], {id}, map[]);
    var lost := Provision(id, LOST, 0);
    LookAndStop(orchs, f, id, row, {}, end);
    var rest := [Look(0, SLOT)] + ([Stop(0, true, {})] + []);
    assert Apply(orchs, At(id, Publish, {id}), lost) == At(id, Ended, {id});
    hide Apply, StopRequest;
    RunCons(orchs, f, At(id, Publish, {id}), lost, rest, end);
    LeakFromEmpty(orchs, f, id, [lost] + rest, end);
  }

  /** The row as it is published at time 0. */
  function Published(id: string): Row { Row(SLOT, Running, id, "", Some(120)) }

  lemma Publishes(orchs: Orchestrations, id: string, seen: map<nat, Read>)
    requires orchs == map[0 := Orchestration([], false, 0)]
    ensures Apply(orchs, At(id, Publish, {id}).(seen := seen), Provision(id, GO, 0))
         == World(map[id := Published(id)], map[id := Ended], [id], {id}, seen)
  {
  }

  /** Stop a running environment whose workspace cannot be deleted. */
  lemma KeptPodLeaks(orchs: Orchestrations, f: Faults, id: string)
    requires orchs == map[0 := Orchestration([], false, 0)] && IsEnvID(id) && f.keptPods
    ensures !NeverLeaks(orchs, f)
  {
    var running := Published(id);
    var end := World(map[id := running.(status := Terminated)], map[id := Ended], [id], {id}, map[]);
    var go := Provision(id, GO, 0);
    assert ServicePods(id, orchs[0]) == [];
    assert Stopped(id, running, orchs[0]) == {id};
    LookAndStop(orchs, f, id, running, {id}, end);
    var rest := [Look(0, SLOT)] + ([Stop(0, true, {id})] + []);
    Publishes(orchs, id, map[]);
    hide Apply, StopRequest;
    RunCons(orchs, f, At(id, Publish, {id}), go, rest, end);
    LeakFromEmpty(orchs, f, id, [go] + rest, end);
  }

  /** A Stop reads the row, the provisioner publishes it, and the Stop writes what it has read. */
  lemma OvertakenLeaks(orchs: Orchestrations, f: Faults, id: string)
    requires orchs == map[0 := Orchestration([], false, 0)] && IsEnvID(id) && f.overtaken
    ensures !NeverLeaks(orchs, f)
  {
    var row := Row(SLOT, Creating, "", "", None);
    var look, go, stop := Look(0, SLOT), Provision(id, GO, 0), Stop(0, true, {});
    var seen := map[0 := Read(id, row)];
    var w := At(id, Publish, {id});
    var u := World(map[id := Published(id)], map[id := Ended], [id], {id}, seen);
    var end := World(map[id := row.(status := Terminated)], map[id := Ended], [id], {id}, map[]);
    assert FindActive(w, SLOT) == Some(id);
    assert Apply(orchs, w, look) == w.(seen := seen);
    Publishes(orchs, id, seen);
    assert Answered(u, 0).seen == map[];
    assert Apply(orchs, u, stop) == end;
    RunCons(orchs, f, u, stop, [], end);
    RunCons(orchs, f, w.(seen := seen), go, [stop] + [], end);
    RunCons(orchs, f, w, look, [go] + ([stop] + []), end);
    LeakFromEmpty(orchs, f, id, [look] + ([go] + ([stop] + [])), end);
  }

  lemma AnEnvID()
    ensures IsEnvID("jeo-0-0-0")
  {
    assert Dashes("-0") == 1 && Dashes("-0-0") == 2 && Dashes("-0-0-0") == 3 && Dashes("o-0-0-0") == 3;
  }

  lemma NoFaultsNoLeak(orchs: Orchestrations, f: Faults)
    requires !f.lostPublish && !f.keptPods && !f.overtaken
    ensures NeverLeaks(orchs, f)
  {
    hide IsRun, Execute, Orphaned, Safe, NoLeak;
    forall actions | IsRun(orchs, f, EMPTY, actions) ensures NoLeak(orchs, Execute(orchs, f, EMPTY, actions)) {
      var w := Execute(orchs, f, EMPTY, actions);
      EmptyIsSafe(orchs);
      RunKeepsSafe(orchs, f, EMPTY, actions, {});
      NothingOrphaned(orchs, f, EMPTY, actions);
      assert Without(w, {} + {}) == w;
      SafeHasNoLeak(orchs, w);
    }
  }

  /** No pod leaks, for any challenges, any number of services and any interleaving, if and only
      if no publishing write is lost, no pod that was to be deleted stays, and no request is
      overtaken by the publishing write; every other call may fail, and every other request may act
      on a row that has changed. Each of the three alone leaks a pod. */
  lemma NoPodLeaksIff(f: Faults)
    ensures (forall orchs :: NeverLeaks(orchs, f)) <==> !f.lostPublish && !f.keptPods && !f.overtaken
  {
    hide NeverLeaks;
    var orchs: Orchestrations := map[0 := Orchestration([], false, 0)];
    AnEnvID();
    if f.lostPublish {
      LostPublishLeaks(orchs, f, "jeo-0-0-0");
    } else if f.keptPods {
      KeptPodLeaks(orchs, f, "jeo-0-0-0");
    } else if f.overtaken {
      OvertakenLeaks(orchs, f, "jeo-0-0-0");
    } else {
      forall orchs ensures NeverLeaks(orchs, f) {
        NoFaultsNoLeak(orchs, f);
      }
    }
  }

  // ---- A running environment keeps every pod ----------------------------------------------------

  /** The row update of a Start or Stop request is stored. */
  predicate Saves(a: Action) {
    (a.Start? ==> a.c.saved) && (a.Stop? ==> a.saved)
  }

  /** What a provisioner has started stays live until it, or a request for the row, stops it. */
  ghost predicate Delivered(orchs: Orchestrations, w: World) {
    forall id <- w.rows :: Whole(orchs, w, id)
  }

  ghost predicate Whole(orchs: Orchestrations, w: World, id: string) {
    id in w.rows && id in w.stages && w.rows[id].slot.challenge in orchs ==>
      || w.stages[id].CleanUp?
      || MayLive(id, orchs[w.rows[id].slot.challenge], w.rows[id], w.stages[id]) <= w.live
  }

  function Bare(w: World): World { w.(live := {}) }

  /** Rows and stages fit each other, whatever is live. */
  ghost predicate Sound(orchs: Orchestrations, w: World) { Safe(orchs, Bare(w)) }

  lemma ApplyKeepsSound(orchs: Orchestrations, w: World, a: Action)
    requires Sound(orchs, w) && Enabled(orchs, w, a)
    ensures Sound(orchs, Apply(orchs, w, a))
  {
    hide Safe, Apply, Orphans;
    assert Without(w, w.live) == Bare(w);
    ApplyKeepsSafe(orchs, w, a, w.live);
    var v := Apply(orchs, w, a);
    FewerPodsAreSafe(orchs, Without(v, w.live + Orphans(orchs, w, a)), Bare(v));
  }

  lemma OtherPodsSpared(orchs: Orchestrations, w: World, id: string, other: string, stopped: set<string>)
    requires Sound(orchs, w) && id in w.rows && other in w.rows && id != other
    requires stopped <= OwnedPods(id, orchs[w.rows[id].slot.challenge])
    ensures stopped !! MayLive(other, orchs[w.rows[other].slot.challenge], w.rows[other], w.stages[other])
         || w.stages[other].CleanUp?
  {
    assert EnvSafe(orchs, Bare(w), id) && EnvSafe(orchs, Bare(w), other);
    OwnedDisjoint(id, orchs[w.rows[id].slot.challenge], other, orchs[w.rows[other].slot.challenge]);
    MayLiveOwned(other, orchs[w.rows[other].slot.challenge], w.rows[other], w.stages[other]);
  }

  lemma MayLiveOwned(id: string, orch: Orchestration, row: Row, stage: Stage)
    ensures stage.CleanUp? || MayLive(id, orch, row, stage) <= OwnedPods(id, orch)
  {}

  lemma ProvisionDelivers(orchs: Orchestrations, w: World, id: string, r: Answer, now: int)
    requires Sound(orchs, w) && Delivered(orchs, w) && Enabled(orchs, w, Provision(id, r, now))
    ensures Delivered(orchs, Apply(orchs, w, Provision(id, r, now)))
  {
    var orch := orchs[w.rows[id].slot.challenge];
    var v := ProvisionStep(w, orch, id, r, now);
    assert EnvSafe(orchs, Bare(w), id);
    ProvisionFrame(w, orch, id, r, now);
    ProvisionStops(w, orch, id, r, now);
    assert Whole(orchs, w, id);
    OwnDelivered(w, orch, id, r, now);
    forall other <- v.rows | other != id ensures Whole(orchs, v, other) {
      assert Whole(orchs, w, other);
      OtherPodsSpared(orchs, w, id, other, w.live - v.live);
    }
  }

  lemma ProvisionStops(w: World, orch: Orchestration, id: string, r: Answer, now: int)
    requires id in w.rows && id in w.stages && RowFits(id, orch, w.rows[id], w.stages[id])
    ensures w.live - ProvisionStep(w, orch, id, r, now).live <= OwnedPods(id, orch)
  {}

  ghost predicate Has(w: World, id: string, orch: Orchestration) {
    && id in w.rows && id in w.stages
    && (w.stages[id].CleanUp? || MayLive(id, orch, w.rows[id], w.stages[id]) <= w.live)
  }

  lemma ServiceDelivered(w: World, orch: Orchestration, id: string, r: Answer, now: int, i: nat)
    requires Has(w, id, orch) && w.stages[id] == StartService(i)
    ensures Has(ProvisionStep(w, orch, id, r, now), id, orch)
  {
    FirstNamesGrow(ServicePods(id, orch), i);
  }

  lemma ForkDelivered(w: World, orch: Orchestration, id: string, r: Answer, now: int)
    requires Has(w, id, orch) && w.stages[id] == StartFork
    ensures Has(ProvisionStep(w, orch, id, r, now), id, orch)
  {
    assert OwnedPods(id, orch)
        == MayLive(id, orch, w.rows[id], StartFork) + (if orch.fork then {ForkPodName(id)} else {});
  }

  lemma RestDelivered(w: World, orch: Orchestration, id: string, r: Answer, now: int)
    requires Has(w, id, orch) && RowFits(id, orch, w.rows[id], w.stages[id])
    requires !w.stages[id].StartService? && w.stages[id] != StartFork
    ensures Has(ProvisionStep(w, orch, id, r, now), id, orch)
  {
    if w.stages[id] == StartWorkspace && r.ok {
      assert MayLive(id, orch, w.rows[id], StartService(0)) == {id};
    }
  }

  lemma OwnDelivered(w: World, orch: Orchestration, id: string, r: Answer, now: int)
    requires Has(w, id, orch) && RowFits(id, orch, w.rows[id], w.stages[id])
    ensures Has(ProvisionStep(w, orch, id, r, now), id, orch)
  {
    match w.stages[id]
    case StartService(i) => ServiceDelivered(w, orch, id, r, now, i);
    case StartFork => ForkDelivered(w, orch, id, r, now);
    case _ => RestDelivered(w, orch, id, r, now);
  }

  lemma RequestDelivers(orchs: Orchestrations, w: World, v: World, read: Read)
    requires Sound(orchs, w) && Delivered(orchs, w) && ReadFits(orchs, w, read)
    requires v.stages == w.stages && v.rows == w.rows[read.id := read.row.(status := Terminated)]
    requires w.live - v.live <= Stopped(read.id, read.row, orchs[read.row.slot.challenge])
    requires read.row.status == Creating ==> v.live == w.live
    ensures Delivered(orchs, v)
  {
    hide ServicePods, ForkPodName, RowFits, IsEnvID, OwnedPods;
    var id := read.id;
    assert EnvSafe(orchs, Bare(w), id);
    forall other <- v.rows ensures Whole(orchs, v, other) {
      assert EnvSafe(orchs, Bare(w), other) && Whole(orchs, w, other);
      if other != id {
        StoppedIsOwned(orchs, w, read);
        OtherPodsSpared(orchs, w, id, other, w.live - v.live);
        SparedIsWhole(orchs, w, v, other);
      }
    }
  }

  lemma StoppedIsOwned(orchs: Orchestrations, w: World, read: Read)
    requires ReadFits(orchs, w, read)
    ensures Stopped(read.id, read.row, orchs[read.row.slot.challenge]) <= PodsOf(orchs, read)
  {
    hide ServicePods;
  }

  lemma SparedIsWhole(orchs: Orchestrations, w: World, v: World, other: string)
    requires EnvSafe(orchs, Bare(w), other) && Whole(orchs, w, other)
    requires v.stages == w.stages && other in v.rows && v.rows[other] == w.rows[other]
    requires (w.live - v.live) !! MayLive(other, orchs[w.rows[other].slot.challenge], w.rows[other], w.stages[other])
             || w.stages[other].CleanUp?
    ensures Whole(orchs, v, other)
  {
  }

  lemma StopDelivers(orchs: Orchestrations, w: World, read: Option<Read>, kept: set<string>)
    requires Sound(orchs, w) && Delivered(orchs, w) && (read.Some? ==> ReadFits(orchs, w, read.value))
    ensures Delivered(orchs, StopRequest(orchs, w, read, true, kept))
  {
    hide Stopped, MayLive, RowFits, EnvSafe, Whole;
    if read.Some? {
      RequestDelivers(orchs, w, StopRequest(orchs, w, read, true, kept), read.value);
    }
  }

  lemma StartDelivers(orchs: Orchestrations, w: World, read: Option<Read>, slot: Slot, newID: string, now: int,
                      c: StartCalls)
    requires Sound(orchs, w) && Delivered(orchs, w) && (read.Some? ==> ReadFits(orchs, w, read.value))
    requires c.saved && newID !in w.rows && newID !in w.stages
    ensures Delivered(orchs, StartRequest(orchs, w, read, slot, newID, now, c))
  {
    hide MayLive, RowFits, EnvSafe, Whole, Stopped;
    var v, u := Retire(orchs, w, read, c), StartRequest(orchs, w, read, slot, newID, now, c);
    if read.Some? && !Reusable(read.value.row, now) {
      RequestDelivers(orchs, w, v, read.value);
    }
    if u != w && u != v {
      AddedDelivers(orchs, v, u, newID);
    }
  }

  lemma AddedDelivers(orchs: Orchestrations, v: World, u: World, newID: string)
    requires Delivered(orchs, v) && v.rows.Keys == v.stages.Keys && newID !in v.rows
    requires newID in u.rows && u.rows == v.rows[newID := u.rows[newID]]
    requires u.stages == v.stages[newID := StartWorkspace] && u.live == v.live
    ensures Delivered(orchs, u)
  {
    hide ServicePods;
    forall id <- u.rows ensures Whole(orchs, u, id) {
      if id != newID {
        assert Whole(orchs, v, id);
      }
    }
  }

  lemma PollDelivers(orchs: Orchestrations, w: World, read: Option<Read>, now: int)
    requires Delivered(orchs, w) && (read.Some? ==> ReadFits(orchs, w, read.value))
    requires Expires(read, now) ==> w.rows[read.value.id].status in {Running, Expired}
    ensures Delivered(orchs, PollRequest(w, read, now))
  {
    hide ServicePods, ForkPodName;
    var v := PollRequest(w, read, now);
    forall other <- v.rows ensures Whole(orchs, v, other) {
      assert Whole(orchs, w, other);
    }
  }

  lemma AnsweredDelivers(orchs: Orchestrations, w: World, req: nat)
    requires Sound(orchs, w) && Delivered(orchs, w)
    ensures Sound(orchs, Answered(w, req)) && Delivered(orchs, Answered(w, req))
    ensures req in w.seen ==> ReadFits(orchs, Answered(w, req), w.seen[req])
  {
    hide Safe, MayLive;
    AnsweredIsSafe(orchs, Bare(w), req);
    assert Answered(Bare(w), req) == Bare(Answered(w, req));
    forall id <- w.rows ensures Whole(orchs, Answered(w, req), id) {
      assert Whole(orchs, w, id);
    }
  }

  lemma ApplyDelivers(orchs: Orchestrations, w: World, a: Action)
    requires Sound(orchs, w) && Delivered(orchs, w) && Enabled(orchs, w, a) && Saves(a) && !PollsLate(w, a)
    ensures Delivered(orchs, Apply(orchs, w, a))
  {
    hide Sound, Delivered, ReadFits, ProvisionStep, StopRequest, StartRequest, PollRequest;
    match a
    case Provision(id, r, now) => ProvisionDelivers(orchs, w, id, r, now);
    case Look(req, slot) => LookDelivers(orchs, w, req, slot);
    case Stop(req, saved, kept) =>
      AnsweredDelivers(orchs, w, req);
      StopDelivers(orchs, Answered(w, req), ReadBy(w, req), kept);
    case Start(req, slot, newID, now, c) =>
      AnsweredDelivers(orchs, w, req);
      StartDelivers(orchs, Answered(w, req), ReadBy(w, req), slot, newID, now, c);
    case Poll(req, now) =>
      AnsweredDelivers(orchs, w, req);
      PollAnswered(orchs, w, req, now);
  }

  lemma PollAnswered(orchs: Orchestrations, w: World, req: nat, now: int)
    requires Delivered(orchs, Answered(w, req)) && !PollsLate(w, Poll(req, now))
    requires req in w.seen ==> ReadFits(orchs, Answered(w, req), w.seen[req])
    ensures Delivered(orchs, PollRequest(Answered(w, req), ReadBy(w, req), now))
  {
    hide Whole;
    PollDelivers(orchs, Answered(w, req), ReadBy(w, req), now);
  }

  lemma LookDelivers(orchs: Orchestrations, w: World, req: nat, slot: Slot)
    requires Delivered(orchs, w)
    ensures Delivered(orchs, Apply(orchs, w, Look(req, slot)))
  {
    hide MayLive, FindIn;
    forall id <- w.rows ensures Whole(orchs, Apply(orchs, w, Look(req, slot)), id) {
      assert Whole(orchs, w, id);
    }
  }

  ghost predicate AllWhole(orchs: Orchestrations, w: World) {
    forall id <- w.rows | w.rows[id].slot.challenge in orchs && w.rows[id].status in {Running, Expired} ::
      OwnedPods(id, orchs[w.rows[id].slot.challenge]) <= w.live
  }

  /** In every run whose row updates are stored and whose status requests are not late, whatever
      else fails, a running environment has its workspace, all its service pods and its fork. So
      does an expired one, which no later request ever cleans up. */
  lemma {:induction false} RunningEnvsAreWhole(orchs: Orchestrations, f: Faults, w: World, actions: seq<Action>)
    requires Sound(orchs, w) && Delivered(orchs, w)
    requires IsRun(orchs, f, w, actions) && !f.latePoll && forall a <- actions :: Saves(a)
    ensures AllWhole(orchs, Execute(orchs, f, w, actions))
    decreases |actions|
  {
    hide ServicePods, OwnedPods, ProvisionStep, StopRequest, StartRequest, PollRequest;
    if actions != [] {
      assert actions[0] in actions;
      ApplyKeepsSound(orchs, w, actions[0]);
      ApplyDelivers(orchs, w, actions[0]);
      RunningEnvsAreWhole(orchs, f, Apply(orchs, w, actions[0]), actions[1..]);
    } else {
      forall id <- w.rows | w.rows[id].slot.challenge in orchs && w.rows[id].status in {Running, Expired}
        ensures OwnedPods(id, orchs[w.rows[id].slot.challenge]) <= w.live
      {
        assert EnvSafe(orchs, Bare(w), id) && Whole(orchs, w, id);
      }
    }
  }

  // ---- When a Stop is final -----------------------------------------------------------------------

  /** Every look at the stored row before publishing succeeds. */
  predicate SureReads(orchs: Orchestrations, f: Faults, w: World, actions: seq<Action>)
    requires IsRun(orchs, f, w, actions)
    decreases |actions|
  {
    actions == [] || (!MissesRow(w, actions[0]) && SureReads(orchs, f, Apply(orchs, w, actions[0]), actions[1..]))
  }

  predicate MissesRow(w: World, a: Action) {
    a.Provision? && !a.r.ok && a.id in w.stages && w.stages[a.id] == Reread
  }

  predicate RunsAgain(w: World, id: string) { id in w.rows && w.rows[id].status == Running }

  /** Whatever happens later, the environment never runs again. */
  ghost predicate Final(orchs: Orchestrations, f: Faults, w: World, id: string, sureReads: bool) {
    forall actions | IsRun(orchs, f, w, actions) && (sureReads ==> SureReads(orchs, f, w, actions)) ::
      !RunsAgain(Execute(orchs, f, w, actions), id)
  }

  /** The provisioner has ended or is tearing down, or it will still see that the row is terminated. */
  predicate Done(w: World, id: string, sureReads: bool) {
    && id in w.rows && id in w.stages
    && if w.stages[id].CleanUp? || w.stages[id] == Ended then w.rows[id].status != Running
       else sureReads && w.stages[id] != Publish && w.rows[id].status == Terminated
  }

  /** Only rows that were published are ever written as expired, and only when their provisioner has
      ended: so says what requests have read. */
  lemma DoneStays(orchs: Orchestrations, w: World, a: Action, id: string, sureReads: bool)
    requires Sound(orchs, w) && Done(w, id, sureReads) && Enabled(orchs, w, a) && (sureReads ==> !MissesRow(w, a))
    ensures Done(Apply(orchs, w, a), id, sureReads)
  {
    hide MayLive, Stopped, FindIn, ServicePods, OwnedPods, ForkPodName, EnvSafe;
    match a
    case Provision(other, r, now) =>
      ProvisionFrame(w, orchs[w.rows[other].slot.challenge], other, r, now);
    case Look(_, _) =>
    case _ => RequestKeepsDone(orchs, w, a, id, sureReads);
  }

  lemma RequestKeepsDone(orchs: Orchestrations, w: World, a: Action, id: string, sureReads: bool)
    requires Sound(orchs, w) && Done(w, id, sureReads) && Enabled(orchs, w, a)
    requires a.Start? || a.Stop? || a.Poll?
    ensures Done(Apply(orchs, w, a), id, sureReads)
  {
    hide MayLive, Stopped, FindIn, ServicePods, OwnedPods, ForkPodName, EnvSafe, ProvisionStep, IsEnvID, LosesPublish;
    if a.req in w.seen {
      assert ReadFits(orchs, Bare(w), w.seen[a.req]);
    }
  }

  lemma {:induction false} DoneIsFinal(orchs: Orchestrations, f: Faults, w: World, actions: seq<Action>, id: string,
                                       sureReads: bool)
    requires Sound(orchs, w) && Done(w, id, sureReads) && IsRun(orchs, f, w, actions)
    requires sureReads ==> SureReads(orchs, f, w, actions)
    ensures !RunsAgain(Execute(orchs, f, w, actions), id)
    decreases |actions|
  {
    hide Sound, Apply;
    if actions != [] {
      DoneStays(orchs, w, actions[0], id, sureReads);
      ApplyKeepsSound(orchs, w, actions[0]);
      DoneIsFinal(orchs, f, Apply(orchs, w, actions[0]), actions[1..], id, sureReads);
    }
  }

  /** The actions a provisioner still takes before it publishes, if nothing makes it tear down. */
  function ToPublish(orch: Orchestration, id: string, stage: Stage): nat {
    var n := |ServicePods(id, orch)|;
    match stage
    case StartWorkspace => n + 5
    case StartService(i) => if i < n then n - i + 4 else 4
    case StartFork => 3
    case Seed => 2
    case Reread => 1
    case _ => 0
  }

  /** Left alone, with its look at the row failing, a provisioner that has not begun to tear down
      publishes a row that has been terminated. */
  lemma Republishes(orchs: Orchestrations, f: Faults, w: World, id: string) returns (actions: seq<Action>)
    requires id in w.rows && id in w.stages && w.rows[id].slot.challenge in orchs
    requires !w.stages[id].CleanUp? && w.stages[id] != Ended
    ensures IsRun(orchs, f, w, actions) && RunsAgain(Execute(orchs, f, w, actions), id)
    ensures w.stages[id] == Publish ==> SureReads(orchs, f, w, actions)
    decreases ToPublish(orchs[w.rows[id].slot.challenge], id, w.stages[id])
  {
    var orch, r := orchs[w.rows[id].slot.challenge], Answer(w.stages[id] != Reread, true);
    var a := Provision(id, r, 0);
    var v := Apply(orchs, w, a);
    var rest: seq<Action> := [];
    if w.stages[id] != Publish {
      ProvisionFrame(w, orch, id, r, 0);
      rest := Republishes(orchs, f, v, id);
    }
    actions := [a] + rest;
    assert actions[1..] == rest;
  }

  predicate WillSee(w: World, id: string, sureReads: bool) {
    id in w.stages && (w.stages[id].CleanUp? || w.stages[id] == Ended || (sureReads && w.stages[id] != Publish))
  }

  /** A stored Stop is final exactly when the provisioner has ended or is already tearing down, or
      when it has not yet looked at the row and every such look succeeds. Otherwise some later run
      makes the stopped environment run again. */
  lemma StopIsFinalIff(orchs: Orchestrations, f: Faults, w: World, req: nat, kept: set<string>, sureReads: bool)
    requires Sound(orchs, w) && req in w.seen
    ensures var id, v := w.seen[req].id, Apply(orchs, w, Stop(req, true, kept));
            Final(orchs, f, v, id, sureReads) <==> WillSee(w, id, sureReads)
  {
    hide EnvSafe, Stopped;
    var id, v := w.seen[req].id, Apply(orchs, w, Stop(req, true, kept));
    assert ReadFits(orchs, Bare(w), w.seen[req]);
    ApplyKeepsSound(orchs, w, Stop(req, true, kept));
    if Done(v, id, sureReads) {
      forall actions | IsRun(orchs, f, v, actions) && (sureReads ==> SureReads(orchs, f, v, actions))
        ensures !RunsAgain(Execute(orchs, f, v, actions), id)
      {
        DoneIsFinal(orchs, f, v, actions, id, sureReads);
      }
    } else {
      var actions := Republishes(orchs, f, v, id);
      assert !Final(orchs, f, v, id, sureReads);
    }
  }
}

/** What users and provisioners get from challenge environments, written out: which row a request
    works on, what each request then does to rows and pods, and how provisioning ends
    (backend/internal/service/contest_env_service.go).  The steps are those of `ChallengeEnv`. */
module ChallengeOutcomes {
  import opened Common
  import opened ChallengePods
  import opened ChallengeEnv
  import opened ChallengeRuntime

  // ---- Requests ---------------------------------------------------------------------------------

  /** A row of the slot that has neither expired nor been terminated. */
  ghost predicate Open(rows: map<string, Row>, id: string, slot: Slot) {
    id in rows && rows[id].slot == slot && rows[id].status in {Pending, Creating, Running, Failed}
  }

  /** A request works on the last open row of its slot, if there is one. */
  lemma {:induction false} NewestActive(rows: map<string, Row>, order: seq<string>, slot: Slot)
    ensures match FindIn(rows, order, slot)
            case Some(id) =>
              exists k | 0 <= k < |order| :: order[k] == id && Open(rows, order[k], slot)
                                             && forall j | k < j < |order| :: !Open(rows, order[j], slot)
            case None => forall j | 0 <= j < |order| :: !Open(rows, order[j], slot)
  {
    if order != [] {
      var last := |order| - 1;
      if !Open(rows, order[last], slot) {
        var front := order[..last];
        NewestActive(rows, front, slot);
        if FindIn(rows, front, slot).Some? {
          var k :| 0 <= k < last && front[k] == FindIn(rows, front, slot).value && Open(rows, front[k], slot)
                   && forall j | k < j < last :: !Open(rows, front[j], slot);
          assert order[k] == front[k] && Open(rows, order[k], slot);
          assert forall j | k < j < last :: order[j] == front[j];
        } else {
          assert forall j | 0 <= j < last :: order[j] == front[j];
        }
      }
    }
  }

  /** The service pods of an environment, and those its row names. */
  ghost function Named(id: string, row: Row, orch: Orchestration): set<string> {
    (set name <- ServicePods(id, orch)) + ({row.podName, row.forkPodName} - {""})
  }

  ghost function AsTerminated(row: Row): Row { Row(row.slot, Terminated, row.podName, row.forkPodName, row.expiresAt) }

  /** A Start that has read a running row with time left, or one still being set up, changes nothing. */
  lemma StartHandsBack(orchs: Orchestrations, w: World, id: string, row: Row, newID: string, now: int, c: StartCalls)
    requires || (row.status == Running && row.expiresAt.Some? && now < row.expiresAt.value)
             || row.status == Pending || row.status == Creating
    ensures StartRequest(orchs, w, Some(Read(id, row)), row.slot, newID, now, c) == w
  {
  }

  /** One that has read any other row stops its pods, terminates it, and inserts a new row. */
  lemma StartReplaces(orchs: Orchestrations, w: World, id: string, row: Row, newID: string, now: int, c: StartCalls)
    requires row.slot.challenge in orchs
    requires || row.status == Failed || row.status == Expired || row.status == Terminated
             || (row.status == Running && (row.expiresAt.Some? ==> row.expiresAt.value <= now))
    ensures var live := w.live - (Named(id, row, orchs[row.slot.challenge]) - c.kept);
            var rows := if c.saved then w.rows[id := AsTerminated(row)] else w.rows;
            StartRequest(orchs, w, Some(Read(id, row)), row.slot, newID, now, c)
            == if c.inserted then
                 World(rows[newID := Row(row.slot, Creating, "", "", None)], w.stages[newID := StartWorkspace],
                       w.order + [newID], live, w.seen)
               else World(rows, w.stages, w.order, live, w.seen)
  {
    assert Stopped(id, row, orchs[row.slot.challenge]) == Named(id, row, orchs[row.slot.challenge]);
  }

  /** A Stop stops the pods of a row that names its workspace, and terminates the row. */
  lemma StopTerminates(orchs: Orchestrations, w: World, id: string, row: Row, saved: bool, kept: set<string>)
    requires row.slot.challenge in orchs
    ensures var stopped := if row.podName == "" then {} else Named(id, row, orchs[row.slot.challenge]) - kept;
            StopRequest(orchs, w, Some(Read(id, row)), saved, kept)
            == World(if saved then w.rows[id := AsTerminated(row)] else w.rows, w.stages, w.order, w.live - stopped,
                     w.seen)
  {
    assert Stopped(id, row, orchs[row.slot.challenge]) == Named(id, row, orchs[row.slot.challenge]);
  }

  /** A status request writes a row back as expired once its time is over, and never before. */
  lemma PollExpires(w: World, id: string, row: Row, now: int)
    ensures PollRequest(w, Some(Read(id, row)), now)
         == if row.expiresAt.Some? && row.expiresAt.value < now then
              World(w.rows[id := Row(row.slot, Expired, row.podName, row.forkPodName, row.expiresAt)],
                    w.stages, w.order, w.live, w.seen)
            else w
  {
  }

  // ---- A running environment runs until it is stopped or its time is over ------------------------

  /** What requests have read of rows that run: the row as it is. */
  ghost predicate ReadsAreCurrent(w: World) {
    forall req <- w.seen :: IsCurrent(w, w.seen[req])
  }

  ghost predicate IsCurrent(w: World, read: Read) {
    read.id in w.rows && w.rows[read.id].status == Running ==>
      read.row.status in {Pending, Creating} || read.row == w.rows[read.id]
  }

  lemma ProvisionKeepsCurrent(orchs: Orchestrations, w: World, id: string, r: Answer, now: int)
    requires Sound(orchs, w) && ReadsAreCurrent(w) && Enabled(orchs, w, Provision(id, r, now))
    ensures ReadsAreCurrent(Apply(orchs, w, Provision(id, r, now)))
  {
    var v := Apply(orchs, w, Provision(id, r, now));
    ProvisionFrame(w, orchs[w.rows[id].slot.challenge], id, r, now);
    forall req <- v.seen ensures IsCurrent(v, v.seen[req]) {
      assert IsCurrent(w, w.seen[req]) && ReadFits(orchs, Bare(w), w.seen[req]);
      assert EnvSafe(orchs, Bare(w), id);
    }
  }

  /** No request makes a row run. */
  lemma NothingNewRuns(orchs: Orchestrations, w: World, a: Action)
    requires Enabled(orchs, w, a) && (a.Start? || a.Stop? || a.Poll?)
    ensures var v := Apply(orchs, w, a);
            && (forall req <- v.seen :: req in w.seen && v.seen[req] == w.seen[req])
            && (forall id <- v.rows | v.rows[id].status == Running :: id in w.rows && v.rows[id] == w.rows[id])
  {
    hide Stopped, IsEnvID;
    match a
    case Start(_, _, _, _, _) =>
    case Stop(_, _, _) =>
    case _ =>
  }

  lemma ApplyKeepsCurrent(orchs: Orchestrations, w: World, a: Action)
    requires Sound(orchs, w) && ReadsAreCurrent(w) && Enabled(orchs, w, a)
    ensures ReadsAreCurrent(Apply(orchs, w, a))
  {
    match a
    case Provision(id, r, now) => ProvisionKeepsCurrent(orchs, w, id, r, now);
    case Look(req, slot) =>
      forall other <- w.seen ensures IsCurrent(w, w.seen[other]) {}
    case _ =>
      NothingNewRuns(orchs, w, a);
      var v := Apply(orchs, w, a);
      hide Apply;
      forall req <- v.seen ensures IsCurrent(v, v.seen[req]) {
        assert IsCurrent(w, w.seen[req]);
      }
  }

  /** No request stops `id`, and those that have read it come before `until`. */
  predicate LeavesAlone(w: World, a: Action, id: string, until: int) {
    match a
    case Start(req, _, _, now, _) => req in w.seen && w.seen[req].id == id ==> now < until
    case Stop(req, _, _) => req in w.seen ==> w.seen[req].id != id
    case Poll(req, now) => req in w.seen && w.seen[req].id == id ==> now <= until
    case _ => true
  }

  predicate AllLeaveAlone(orchs: Orchestrations, f: Faults, w: World, actions: seq<Action>, id: string, until: int)
    requires IsRun(orchs, f, w, actions)
    decreases |actions|
  {
    actions == [] || (LeavesAlone(w, actions[0], id, until)
                      && AllLeaveAlone(orchs, f, Apply(orchs, w, actions[0]), actions[1..], id, until))
  }

  /** The row is as it was, and no pod of the environment is gone. */
  ghost predicate RunsOn(orchs: Orchestrations, w: World, v: World, id: string)
    requires id in w.rows && w.rows[id].slot.challenge in orchs
  {
    && id in v.rows && v.rows[id] == w.rows[id]
    && w.live * OwnedPods(id, orchs[w.rows[id].slot.challenge]) <= v.live
  }

  ghost predicate RunsWithTime(w: World, id: string, until: int) {
    id in w.rows && w.rows[id].status == Running && w.rows[id].expiresAt == Some(until)
  }

  lemma ItsChallenge(orchs: Orchestrations, w: World, id: string)
    requires Sound(orchs, w) && id in w.rows
    ensures w.rows[id].slot.challenge in orchs
  {
    assert EnvSafe(orchs, Bare(w), id);
  }

  lemma OthersKeepPods(orchs: Orchestrations, w: World, v: World, id: string, other: string, stopped: set<string>)
    requires Sound(orchs, w) && id in w.rows && other in w.rows && id != other
    requires stopped <= OwnedPods(other, orchs[w.rows[other].slot.challenge]) && w.live - v.live <= stopped
    requires id in v.rows && v.rows[id] == w.rows[id]
    ensures RunsOn(orchs, w, v, id)
  {
    hide OwnedPods;
    assert EnvSafe(orchs, Bare(w), id) && EnvSafe(orchs, Bare(w), other);
    OwnedDisjoint(id, orchs[w.rows[id].slot.challenge], other, orchs[w.rows[other].slot.challenge]);
  }

  lemma RequestSpares(orchs: Orchestrations, w: World, a: Action, id: string, until: int)
    requires Sound(orchs, w) && ReadsAreCurrent(w) && Enabled(orchs, w, a) && (a.Start? || a.Stop? || a.Poll?)
    requires RunsWithTime(w, id, until) && LeavesAlone(w, a, id, until)
    ensures RunsOn(orchs, w, Apply(orchs, w, a), id)
  {
    ItsChallenge(orchs, w, id);
    RequestFrame(orchs, w, a);
    hide Apply, OwnedPods, Stopped, IsEnvID, RowFits, MayLive;
    var v := Apply(orchs, w, a);
    if a.req in w.seen {
      var read := w.seen[a.req];
      assert IsCurrent(w, read) && ReadFits(orchs, Bare(w), read);
      if read.id != id {
        StoppedIsOwned(orchs, Bare(w), read);
        OthersKeepPods(orchs, w, v, id, read.id, Stopped(read.id, read.row, orchs[read.row.slot.challenge]));
      } else {
        OwnRequestSpares(orchs, w, a, until);
      }
    }
  }

  /** A request touches the row it has read, the pods that row names, and a new row. */
  lemma RequestFrame(orchs: Orchestrations, w: World, a: Action)
    requires Enabled(orchs, w, a) && (a.Start? || a.Stop? || a.Poll?)
    ensures var v := Apply(orchs, w, a);
            if a.req !in w.seen then v.live == w.live && forall id <- w.rows :: id in v.rows && v.rows[id] == w.rows[id]
            else
              var read := w.seen[a.req];
              && (forall id <- w.rows | id != read.id :: id in v.rows && v.rows[id] == w.rows[id])
              && (v.live != w.live ==>
                    && read.row.slot.challenge in orchs
                    && w.live - v.live <= Stopped(read.id, read.row, orchs[read.row.slot.challenge]))
  {
    hide Stopped, IsEnvID;
    match a
    case Start(_, _, _, _, _) =>
    case Stop(_, _, _) =>
    case _ =>
  }

  /** A request that has read a row with time left and does not stop it leaves it as it is. */
  lemma OwnRequestSpares(orchs: Orchestrations, w: World, a: Action, until: int)
    requires Enabled(orchs, w, a) && (a.Start? || a.Stop? || a.Poll?) && a.req in w.seen
    requires var read := w.seen[a.req];
             RunsWithTime(w, read.id, until) && LeavesAlone(w, a, read.id, until)
             && (read.row == w.rows[read.id] || (read.row.status in {Pending, Creating} && read.row.expiresAt == None))
    ensures Apply(orchs, w, a).live == w.live && w.seen[a.req].id in Apply(orchs, w, a).rows
    ensures Apply(orchs, w, a).rows[w.seen[a.req].id] == w.rows[w.seen[a.req].id]
  {
    hide Stopped, IsEnvID;
  }

  lemma ApplySpares(orchs: Orchestrations, w: World, a: Action, id: string, until: int)
    requires Sound(orchs, w) && ReadsAreCurrent(w) && Enabled(orchs, w, a)
    requires RunsWithTime(w, id, until) && LeavesAlone(w, a, id, until)
    ensures RunsOn(orchs, w, Apply(orchs, w, a), id)
  {
    hide OwnedPods, ProvisionStep, FindIn;
    assert EnvSafe(orchs, Bare(w), id);
    match a
    case Provision(other, r, now) =>
      var orch := orchs[w.rows[other].slot.challenge];
      ProvisionFrame(w, orch, other, r, now);
      if other != id {
        assert EnvSafe(orchs, Bare(w), other);
        ProvisionStops(w, orch, other, r, now);
        var v := Apply(orchs, w, a);
        OthersKeepPods(orchs, w, v, id, other, w.live - v.live);
      } else {
        assert w.stages[id] == Ended;
      }
    case Look(_, _) =>
    case _ => RequestSpares(orchs, w, a, id, until);
  }

  /** In every run, whatever fails: an environment that runs keeps its row and its pods, however many
      requests look at it, start again or ask for its status, until one stops it or its time is over. */
  lemma {:induction false} RunsUntilStopped(orchs: Orchestrations, f: Faults, w: World, actions: seq<Action>,
                                            id: string, until: int)
    requires Sound(orchs, w) && ReadsAreCurrent(w) && IsRun(orchs, f, w, actions)
    requires RunsWithTime(w, id, until) && AllLeaveAlone(orchs, f, w, actions, id, until)
    ensures w.rows[id].slot.challenge in orchs && RunsOn(orchs, w, Execute(orchs, f, w, actions), id)
    decreases |actions|
  {
    hide Sound, ReadsAreCurrent, Apply, LeavesAlone, OwnedPods, EnvSafe;
    ItsChallenge(orchs, w, id);
    if actions != [] {
      ApplySpares(orchs, w, actions[0], id, until);
      ApplyKeepsSound(orchs, w, actions[0]);
      ApplyKeepsCurrent(orchs, w, actions[0]);
      RunsUntilStopped(orchs, f, Apply(orchs, w, actions[0]), actions[1..], id, until);
    }
  }

  /** The reads of every run are current. */
  lemma {:induction false} RunKeepsCurrent(orchs: Orchestrations, f: Faults, w: World, actions: seq<Action>)
    requires Sound(orchs, w) && ReadsAreCurrent(w) && IsRun(orchs, f, w, actions)
    ensures Sound(orchs, Execute(orchs, f, w, actions)) && ReadsAreCurrent(Execute(orchs, f, w, actions))
    decreases |actions|
  {
    hide Sound, ReadsAreCurrent, Apply;
    if actions != [] {
      ApplyKeepsSound(orchs, w, actions[0]);
      ApplyKeepsCurrent(orchs, w, actions[0]);
      RunKeepsCurrent(orchs, f, Apply(orchs, w, actions[0]), actions[1..]);
    }
  }

  // ---- How provisioning ends ---------------------------------------------------------------------

  /** `w` is `before` with the pods that the provisioner of `id` has started and not stopped. */
  ghost predicate Underway(before: World, w: World, orch: Orchestration, id: string) {
    && id in w.rows && id in w.stages && w.stages[id] != Ended
    && w == World(before.rows, before.stages[id := w.stages[id]], before.order, w.live, before.seen)
    && match w.stages[id]
       case CleanUp(todo, _) =>
         before.live <= w.live <= before.live + (set name <- todo) && (set name <- todo) <= OwnedPods(id, orch)
       case stage => w.live == before.live + MayLive(id, orch, w.rows[id], stage)
  }

  datatype Ending = Serving | Unpublished | TornDown | MarkedFailed

  /** Nothing but the provisioner's own row, stage and pods differs at the end. */
  ghost function EndingWith(before: World, orch: Orchestration, id: string, now: int, how: Ending): World
    requires id in before.rows
  {
    var slot := before.rows[id].slot;
    var started := {id} + (set name <- ServicePods(id, orch)) + if orch.fork then {"fork-" + id} else {};
    var limit := if orch.timeLimit > 0 then orch.timeLimit else 120;
    var stages := before.stages[id := Ended];
    match how
    case Serving =>
      var row := Row(slot, Running, id, if orch.fork then "fork-" + id else "", Some(now + limit));
      World(before.rows[id := row], stages, before.order, before.live + started, before.seen)
    case Unpublished => World(before.rows, stages, before.order, before.live + started, before.seen)
    case TornDown => World(before.rows, stages, before.order, before.live, before.seen)
    case MarkedFailed =>
      World(before.rows[id := Row(slot, Failed, "", "", None)], stages, before.order, before.live, before.seen)
  }

  /** The provisioner of `id` has ended as `how` says, from `w` on. */
  ghost predicate EndsAs(before: World, w: World, orch: Orchestration, id: string, answers: nat -> Answer, tick: nat,
                         now: int, how: Ending)
  {
    && id in w.rows && id in w.stages && id in before.rows
    && Drive(w, orch, id, answers, tick, now) == EndingWith(before, orch, id, now, how)
  }

  /** What holds after a step holds before it. */
  lemma StepsBack(before: World, w: World, orch: Orchestration, id: string, answers: nat -> Answer, tick: nat, now: int,
                  how: Ending)
    requires id in w.rows && id in w.stages && w.stages[id] != Ended
    requires EndsAs(before, ProvisionStep(w, orch, id, answers(tick), now), orch, id, answers, tick + 1, now, how)
    ensures EndsAs(before, w, orch, id, answers, tick, now, how)
  {
    DriveStep(w, ProvisionStep(w, orch, id, answers(tick), now), orch, id, answers, tick, now);
  }

  /** What all steps have in common: the provisioner alone, every deletion working. */
  ghost predicate Alone(before: World, w: World, orch: Orchestration, id: string, answers: nat -> Answer, stage: Stage)
  {
    && Underway(before, w, orch, id) && w.stages[id] == stage && before.live !! OwnedPods(id, orch)
    && forall t :: answers(t).gone
  }

  lemma StopsNext(before: World, w: World, orch: Orchestration, id: string, answers: nat -> Answer, r: Answer, now: int,
                  todo: seq<string>, mark: bool)
    requires Alone(before, w, orch, id, answers, CleanUp(todo, mark)) && todo != [] && r.gone
    ensures Alone(before, ProvisionStep(w, orch, id, r, now), orch, id, answers, CleanUp(todo[1..], mark))
  {
    hide ServicePods, ForkPodName, OwnedPods, MayLive, TimeLimit, AllPods;
    var v := ProvisionStep(w, orch, id, r, now);
    assert v == w.(live := w.live - {todo[0]}, stages := w.stages[id := CleanUp(todo[1..], mark)]);
    hide ProvisionStep;
    assert todo == [todo[0]] + todo[1..];
    assert (set name <- todo) == {todo[0]} + set name <- todo[1..];
  }

  lemma {:induction false} EndsFromCleanUp(before: World, w: World, orch: Orchestration, id: string,
                                           answers: nat -> Answer, tick: nat, now: int, todo: seq<string>, mark: bool)
    requires Alone(before, w, orch, id, answers, CleanUp(todo, mark))
    ensures EndsAs(before, w, orch, id, answers, tick, now,
                   if mark && answers(tick + |todo|).ok then MarkedFailed else TornDown)
    decreases |todo|
  {
    hide ServicePods, ForkPodName, OwnedPods;
    var v := ProvisionStep(w, orch, id, answers(tick), now);
    DriveStep(w, v, orch, id, answers, tick, now);
    if todo != [] {
      StopsNext(before, w, orch, id, answers, answers(tick), now, todo, mark);
      hide ProvisionStep;
      EndsFromCleanUp(before, v, orch, id, answers, tick + 1, now, todo[1..], mark);
    }
  }

  lemma EndsFromPublish(before: World, w: World, orch: Orchestration, id: string, answers: nat -> Answer, tick: nat,
                        now: int)
    requires Alone(before, w, orch, id, answers, Publish)
    ensures EndsAs(before, w, orch, id, answers, tick, now, if answers(tick).ok then Serving else Unpublished)
  {
    hide ServicePods;
    var v := ProvisionStep(w, orch, id, answers(tick), now);
    DriveStep(w, v, orch, id, answers, tick, now);
  }

  /** What is left once everything has been started: the last look at the row, and its publishing. */
  ghost function Last(row: Row, answers: nat -> Answer, tick: nat): Ending {
    if answers(tick).ok && row.status == Terminated then TornDown
    else if answers(tick + 1).ok then Serving else Unpublished
  }

  lemma EndsFromReread(before: World, w: World, orch: Orchestration, id: string, answers: nat -> Answer, tick: nat,
                       now: int)
    requires Alone(before, w, orch, id, answers, Reread)
    ensures EndsAs(before, w, orch, id, answers, tick, now, Last(before.rows[id], answers, tick))
  {
    hide ServicePods, ForkPodName;
    var v := ProvisionStep(w, orch, id, answers(tick), now);
    DriveStep(w, v, orch, id, answers, tick, now);
    OwnedListed(id, orch);
    if v.stages[id] == Publish {
      EndsFromPublish(before, v, orch, id, answers, tick + 1, now);
    } else {
      EndsFromCleanUp(before, v, orch, id, answers, tick + 1, now, AllPods(id, orch), false);
    }
  }

  lemma SeedStep(before: World, w: World, orch: Orchestration, id: string, answers: nat -> Answer, r: Answer, now: int)
    requires Alone(before, w, orch, id, answers, Seed)
    ensures Alone(before, ProvisionStep(w, orch, id, r, now), orch, id, answers,
                  if r.ok then Reread else CleanUp(AllPods(id, orch), true))
  {
    hide ServicePods, ForkPodName, AllPods;
    OwnedListed(id, orch);
  }

  lemma EndsFromSeed(before: World, w: World, orch: Orchestration, id: string, answers: nat -> Answer, tick: nat,
                     now: int) returns (how: Ending)
    requires Alone(before, w, orch, id, answers, Seed)
    ensures EndsAs(before, w, orch, id, answers, tick, now, how)
    ensures if answers(tick).ok then how == Last(before.rows[id], answers, tick + 1)
            else how in {TornDown, MarkedFailed}
  {
    hide ServicePods, ForkPodName, ProvisionStep, OwnedPods, MayLive, EndsAs, Last, AllPods;
    var v := ProvisionStep(w, orch, id, answers(tick), now);
    SeedStep(before, w, orch, id, answers, answers(tick), now);
    if answers(tick).ok {
      EndsFromReread(before, v, orch, id, answers, tick + 1, now);
      how := Last(before.rows[id], answers, tick + 1);
    } else {
      EndsFromCleanUp(before, v, orch, id, answers, tick + 1, now, AllPods(id, orch), true);
      how := if answers(tick + 1 + |AllPods(id, orch)|).ok then MarkedFailed else TornDown;
    }
    StepsBack(before, w, orch, id, answers, tick, now, how);
  }

  lemma ForkStep(before: World, w: World, orch: Orchestration, id: string, answers: nat -> Answer, r: Answer, now: int)
    requires Alone(before, w, orch, id, answers, StartFork) && r.gone
    ensures Alone(before, ProvisionStep(w, orch, id, r, now), orch, id, answers,
                  if orch.fork && !r.ok then CleanUp(ServicePods(id, orch) + [id], true) else Seed)
  {
    hide ServicePods, ForkPodName;
    var todo := ServicePods(id, orch) + [id];
    ElementsOfThree(ServicePods(id, orch), id, []);
    assert todo + [] == todo;
  }

  lemma EndsFromFork(before: World, w: World, orch: Orchestration, id: string, answers: nat -> Answer, tick: nat,
                     now: int) returns (how: Ending)
    requires Alone(before, w, orch, id, answers, StartFork)
    ensures EndsAs(before, w, orch, id, answers, tick, now, how)
    ensures if (orch.fork ==> answers(tick).ok) && answers(tick + 1).ok
            then how == Last(before.rows[id], answers, tick + 2) else how in {TornDown, MarkedFailed}
  {
    hide ServicePods, ForkPodName, ProvisionStep, OwnedPods, MayLive, EndsAs, Last;
    var v := ProvisionStep(w, orch, id, answers(tick), now);
    ForkStep(before, w, orch, id, answers, answers(tick), now);
    if orch.fork && !answers(tick).ok {
      var todo := ServicePods(id, orch) + [id];
      EndsFromCleanUp(before, v, orch, id, answers, tick + 1, now, todo, true);
      how := if answers(tick + 1 + |todo|).ok then MarkedFailed else TornDown;
    } else {
      how := EndsFromSeed(before, v, orch, id, answers, tick + 1, now);
    }
    StepsBack(before, w, orch, id, answers, tick, now, how);
  }

  lemma ServiceStep(before: World, w: World, orch: Orchestration, id: string, answers: nat -> Answer, r: Answer,
                    now: int, i: nat)
    requires Alone(before, w, orch, id, answers, StartService(i)) && r.gone && i <= |ServicePods(id, orch)|
    ensures Alone(before, ProvisionStep(w, orch, id, r, now), orch, id, answers,
                  if i == |ServicePods(id, orch)| then StartFork
                  else if r.ok then StartService(i + 1) else CleanUp(ServicePods(id, orch)[..i] + [id], true))
  {
    var services := ServicePods(id, orch);
    hide ServicePods, ForkPodName;
    FirstNamesGrow(services, i);
    if i < |services| {
      StartedListed(id, services, i);
    }
  }

  lemma {:induction false} EndsFromServices(before: World, w: World, orch: Orchestration, id: string,
                                            answers: nat -> Answer, tick: nat, now: int, i: nat) returns (how: Ending)
    requires Alone(before, w, orch, id, answers, StartService(i)) && i <= |ServicePods(id, orch)|
    ensures EndsAs(before, w, orch, id, answers, tick, now, how)
    ensures var last := tick + |ServicePods(id, orch)| - i;
            if && (forall t | tick <= t < last :: answers(t).ok)
               && (orch.fork ==> answers(last + 1).ok) && answers(last + 2).ok
            then how == Last(before.rows[id], answers, last + 3) else how in {TornDown, MarkedFailed}
    decreases |ServicePods(id, orch)| - i
  {
    hide ServicePods, ForkPodName, ProvisionStep, OwnedPods, MayLive, EndsAs, Last;
    var services := ServicePods(id, orch);
    var v := ProvisionStep(w, orch, id, answers(tick), now);
    ServiceStep(before, w, orch, id, answers, answers(tick), now, i);
    if i == |services| {
      how := EndsFromFork(before, v, orch, id, answers, tick + 1, now);
    } else if answers(tick).ok {
      how := EndsFromServices(before, v, orch, id, answers, tick + 1, now, i + 1);
    } else {
      var todo := services[..i] + [id];
      EndsFromCleanUp(before, v, orch, id, answers, tick + 1, now, todo, true);
      how := if answers(tick + 1 + |todo|).ok then MarkedFailed else TornDown;
    }
    StepsBack(before, w, orch, id, answers, tick, now, how);
  }

  lemma StartedListed(id: string, services: seq<string>, i: nat)
    requires i < |services|
    ensures (set name <- services[..i] + [id]) == {id} + FirstNames(services, i)
    ensures FirstNames(services, i) <= set name <- services
  {
    var todo := services[..i] + [id];
    assert todo[i] == id && forall k | 0 <= k < i :: todo[k] == services[k];
  }

  lemma LastIs(row: Row, answers: nat -> Answer, tick: nat)
    ensures Last(row, answers, tick) == if answers(tick).ok && row.status == Terminated then TornDown
                                        else if answers(tick + 1).ok then Serving else Unpublished
  {
  }

  lemma WorkspaceStep(before: World, orch: Orchestration, id: string, answers: nat -> Answer, r: Answer, now: int)
    requires id in before.rows && id in before.stages && before.stages[id] == StartWorkspace && r.gone
    requires before.live !! OwnedPods(id, orch) && forall t :: answers(t).gone
    ensures Alone(before, ProvisionStep(before, orch, id, r, now), orch, id, answers,
                  if r.ok then StartService(0) else CleanUp([], true))
  {
    hide ServicePods, ForkPodName;
    assert FirstNames(ServicePods(id, orch), 0) == {};
  }

  /** How an undisturbed provisioner ends when every pod it deletes is gone: with every pod live and the
      row running, or not stored; or with no pod left and the row failed, or as it was. `last` counts
      the calls up to the last service pod. */
  lemma ProvisionEnds(before: World, orch: Orchestration, id: string, answers: nat -> Answer, tick: nat, now: int)
    returns (how: Ending)
    requires id in before.rows && id in before.stages && before.stages[id] == StartWorkspace
    requires before.live !! OwnedPods(id, orch) && forall t :: answers(t).gone
    ensures Drive(before, orch, id, answers, tick, now) == EndingWith(before, orch, id, now, how)
    ensures var last := tick + |ServicePods(id, orch)| + 1;
            if && (forall t | tick <= t < last :: answers(t).ok)
               && (orch.fork ==> answers(last + 1).ok) && answers(last + 2).ok
            then how == if answers(last + 3).ok && before.rows[id].status == Terminated then TornDown
                        else if answers(last + 4).ok then Serving else Unpublished
            else how in {TornDown, MarkedFailed}
  {
    hide ServicePods, ForkPodName, ProvisionStep, OwnedPods, MayLive, Last;
    var v := ProvisionStep(before, orch, id, answers(tick), now);
    WorkspaceStep(before, orch, id, answers, answers(tick), now);
    if answers(tick).ok {
      how := EndsFromServices(before, v, orch, id, answers, tick + 1, now, 0);
      LastIs(before.rows[id], answers, tick + |ServicePods(id, orch)| + 4);
    } else {
      EndsFromCleanUp(before, v, orch, id, answers, tick + 1, now, [], true);
      how := if answers(tick + 1).ok then MarkedFailed else TornDown;
    }
    StepsBack(before, before, orch, id, answers, tick, now, how);
  }
}

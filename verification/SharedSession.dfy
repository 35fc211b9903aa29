/** Experiment environments that share one session's pods
    (backend/internal/service/env_manager_service.go,
    backend/internal/repository/experiment_repository.go).

    The tables are values here; `EnvManager` is the service that updates them. */
module SharedSession {
  import opened Common

  datatype Status = Pending | Creating | Running | Paused | Terminated | Failed

  predicate ActiveStatus(s: Status) { s in {Pending, Creating, Running, Paused} }

  /** What the manager needs of an experiment: whether it is collaborative, its member limit, and
      the endings that its further instances add to the environment id to name their pods, in the
      order in which they are started behind the workspace. */
  datatype Blueprint = Blueprint(collaboration: bool, maxMembers: int, suffixes: seq<string>)

  datatype Config = Config(blueprints: map<nat, Blueprint>, maxUserEnvs: int, maxSchoolEnvs: int)

  datatype Env = Env(id: string, experiment: nat, session: nat, user: nat, school: nat, status: Status,
                     pods: set<string>)

  datatype Session = Session(experiment: nat, collaboration: bool, status: Status, primary: string, maxMembers: int,
                             count: int)

  datatype MemberKey = MemberKey(session: nat, user: nat)

  /** Sessions are indexed by id; envs and sessions are in order of creation. A member maps to
      whether it is joined. */
  datatype Db = Db(envs: seq<Env>, sessions: seq<Session>, members: map<MemberKey, bool>, live: set<string>)

  datatype Error = NotFound | UserLimit | SchoolLimit | StartFailed | DatabaseError

  // ---- Queries --------------------------------------------------------------------------------

  predicate ActiveIn(e: Env, s: nat) { e.session == s && ActiveStatus(e.status) }

  function ActiveEnvs(envs: seq<Env>, s: nat): set<nat> {
    set i: nat | i < |envs| && ActiveIn(envs[i], s)
  }

  function Joined(members: map<MemberKey, bool>, s: nat): set<MemberKey> {
    set k | k in members && k.session == s && members[k]
  }

  function FindEnv(envs: seq<Env>, id: string): (r: Option<nat>)
    ensures r.Some? ==> r.value < |envs| && envs[r.value].id == id
    ensures r == None ==> forall i | 0 <= i < |envs| :: envs[i].id != id
  {
    FindEnvFrom(envs, id, 0)
  }

  function FindEnvFrom(envs: seq<Env>, id: string, i: nat): (r: Option<nat>)
    requires i <= |envs|
    ensures r.Some? ==> i <= r.value < |envs| && envs[r.value].id == id
    ensures r == None ==> forall j | i <= j < |envs| :: envs[j].id != id
    decreases |envs| - i
  {
    if i == |envs| then None else if envs[i].id == id then Some(i) else FindEnvFrom(envs, id, i + 1)
  }

  function ActiveOfUser(envs: seq<Env>, user: nat, experiment: nat, i: nat): (r: Option<nat>)
    requires i <= |envs|
    ensures r.Some? ==> i <= r.value < |envs| && envs[r.value].user == user && envs[r.value].experiment == experiment
                        && ActiveStatus(envs[r.value].status)
    ensures r == None ==> forall j | i <= j < |envs| ::
                            !(envs[j].user == user && envs[j].experiment == experiment && ActiveStatus(envs[j].status))
    decreases |envs| - i
  {
    if i == |envs| then None
    else if envs[i].user == user && envs[i].experiment == experiment && ActiveStatus(envs[i].status) then Some(i)
    else ActiveOfUser(envs, user, experiment, i + 1)
  }

  /** The oldest active environment of a session other than the one with id `exclude`. */
  function FirstActive(envs: seq<Env>, s: nat, exclude: string, i: nat): (r: Option<nat>)
    requires i <= |envs|
    ensures r.Some? ==> i <= r.value < |envs| && ActiveIn(envs[r.value], s) && envs[r.value].id != exclude
    ensures r == None ==> forall j | i <= j < |envs| :: !(ActiveIn(envs[j], s) && envs[j].id != exclude)
    decreases |envs| - i
  {
    if i == |envs| then None
    else if ActiveIn(envs[i], s) && envs[i].id != exclude then Some(i)
    else FirstActive(envs, s, exclude, i + 1)
  }

  /** The oldest collaborative session of an experiment that is still active. */
  function Reusable(sessions: seq<Session>, experiment: nat, i: nat): (r: Option<nat>)
    requires i <= |sessions|
    ensures r.Some? ==> i <= r.value < |sessions| && sessions[r.value].experiment == experiment
                        && sessions[r.value].collaboration && ActiveStatus(sessions[r.value].status)
    decreases |sessions| - i
  {
    if i == |sessions| then None
    else if sessions[i].experiment == experiment && sessions[i].collaboration && ActiveStatus(sessions[i].status)
    then Some(i)
    else Reusable(sessions, experiment, i + 1)
  }

  /** The statuses that count against a limit: fewer than the active ones. */
  predicate CountedStatus(s: Status) { s in {Running, Creating} }

  function OfUser(envs: seq<Env>, user: nat): set<nat> {
    set i: nat | i < |envs| && envs[i].user == user && CountedStatus(envs[i].status)
  }

  function OfSchool(envs: seq<Env>, school: nat): set<nat> {
    set i: nat | i < |envs| && envs[i].school == school && CountedStatus(envs[i].status)
  }

  function ActiveByUser(envs: seq<Env>, user: nat): nat { |OfUser(envs, user)| }

  function ActiveBySchool(envs: seq<Env>, school: nat): nat { |OfSchool(envs, school)| }

  function MaxCollaborators(bp: Blueprint): int { if bp.maxMembers > 0 then bp.maxMembers else 4 }

  /** The pods of a runtime compiled for environment `id`. */
  function RuntimePods(id: string, suffixes: seq<string>): set<string> {
    {id} + set suffix <- suffixes :: id + "-" + suffix
  }

  /** The same pods in the order in which they are started. */
  function StartOrder(id: string, suffixes: seq<string>): seq<string> {
    [id] + seq(|suffixes|, i requires 0 <= i < |suffixes| => id + "-" + suffixes[i])
  }

  /** The pods that are live once the one at `refused` was refused: those before it, and that one
      itself when it came up and could not be deleted again. */
  function Started(pods: seq<string>, refused: Option<nat>, gone: bool): set<string> {
    var n := if refused == None || refused.value >= |pods| then |pods|
             else if gone then refused.value
             else refused.value + 1;
    set pod <- pods[..n]
  }

  predicate AllStart(pods: seq<string>, refused: Option<nat>) { refused.Some? ==> refused.value >= |pods| }

  // ---- What can fail ----------------------------------------------------------------------------

  /** Binding to a session fails before the member is stored, or before the session is counted. */
  datatype Binding = Bound | NotJoined | NotCounted

  /** How the calls of a creation go: the reads of the user's own environment, of a session to
      share and of the two counts; the insert of the environment; the binding; the place of the
      instance whose pod is refused, whether that pod is gone, and whether the failed status is
      stored. A creation whose insert of a session fails changes nothing. */
  datatype CreateCalls = CreateCalls(seesOwn: bool, seesShared: bool, countsUser: bool, countsSchool: bool,
                                     inserted: bool, binding: Binding,
                                     refused: Option<nat>, gone: bool, marked: bool)

  /** How the calls of a stop go: the count of the session's active environments, the pods whose
      deletion fails, the update of the row, of the member and of the session, and the search for
      an heir. */
  datatype StopCalls = StopCalls(counted: bool, kept: set<string>, updated: bool,
                                 memberLeft: bool, refreshed: bool, seesHeir: bool)

  const CLEAN_CREATE := CreateCalls(true, true, true, true, true, Bound, None, true, true)
  const CLEAN_STOP := StopCalls(true, {}, true, true, true, true)

  // ---- Operations -------------------------------------------------------------------------------

  function UpdateCounters(x: Session, count: int, primary: string, status: Status): Session {
    x.(count := count, primary := if primary != "" then primary else x.primary, status := status)
  }

  /** Records `user` as joined to session `s` and refreshes the session's counters. */
  function Bind(db: Db, s: nat, user: nat, status: Status, binding: Binding): Db
    requires s < |db.sessions|
  {
    var members := db.members[MemberKey(s, user) := true];
    var x := db.sessions[s];
    match binding
    case NotJoined => db
    case NotCounted => db.(members := members)
    case Bound =>
      db.(members := members,
          sessions := db.sessions[s := UpdateCounters(x, |Joined(members, s)|, x.primary, status)])
  }

  datatype Request = Request(experiment: nat, user: nat, school: nat)

  function Attach(db: Db, s: nat, req: Request, newID: string, c: CreateCalls): (Db, Result<string, Error>)
    requires s < |db.sessions|
  {
    match FindEnv(db.envs, db.sessions[s].primary)
    case None => (db, Err(NotFound))
    case Some(p) =>
      if !c.inserted then (db, Err(DatabaseError))
      else
        var env := Env(newID, req.experiment, s, req.user, req.school, db.envs[p].status, db.envs[p].pods);
        (Bind(db.(envs := db.envs + [env]), s, req.user, env.status, c.binding),
         if c.binding == Bound then Ok(newID) else Err(DatabaseError))
  }

  /** Pods are started one by one; the ones started before a refused one are left running. */
  function CreateNew(cfg: Config, db: Db, req: Request, newID: string, c: CreateCalls): (Db, Result<string, Error>)
    requires req.experiment in cfg.blueprints
  {
    var bp := cfg.blueprints[req.experiment];
    var s := |db.sessions|;
    var max := if bp.collaboration then MaxCollaborators(bp) else 1;
    var session := Session(req.experiment, bp.collaboration, Creating, newID, max, 0);
    var created := db.(sessions := db.sessions + [session]);
    if !c.inserted then (created, Err(DatabaseError))
    else
      var env := Env(newID, req.experiment, s, req.user, req.school, Creating, RuntimePods(newID, bp.suffixes));
      var bound := Bind(created.(envs := db.envs + [env]), s, req.user, Creating, c.binding);
      if c.binding != Bound then (bound, Err(DatabaseError))
      else
        var pods := StartOrder(newID, bp.suffixes);
        var provisioned := bound.(live := bound.live + Started(pods, c.refused, c.gone));
        if AllStart(pods, c.refused) then (provisioned, Ok(newID))
        else
          (if c.marked then provisioned.(envs := db.envs + [env.(status := Failed)]) else provisioned, Err(StartFailed))
  }

  /** The environment of the user that a creation hands back: none when it cannot be read. */
  function Own(db: Db, req: Request, c: CreateCalls): Option<nat> {
    if c.seesOwn then ActiveOfUser(db.envs, req.user, req.experiment, 0) else None
  }

  /** The session that a creation can join: none when it cannot be read. */
  function Shared(bp: Blueprint, db: Db, req: Request, c: CreateCalls): (r: Option<nat>)
    ensures r.Some? ==> r.value < |db.sessions|
  {
    if bp.collaboration && c.seesShared then Reusable(db.sessions, req.experiment, 0) else None
  }

  function Create(cfg: Config, db: Db, req: Request, newID: string, c: CreateCalls): (Db, Result<string, Error>) {
    if req.experiment !in cfg.blueprints then (db, Err(NotFound))
    else
      var bp := cfg.blueprints[req.experiment];
      var mine, shared := Own(db, req, c), Shared(bp, db, req, c);
      if mine.Some? && mine.value < |db.envs| then (db, Ok(db.envs[mine.value].id))
      else if shared.Some? && db.sessions[shared.value].count < MaxCollaborators(bp) then
        Attach(db, shared.value, req, newID, c)
      else if (if c.countsUser then ActiveByUser(db.envs, req.user) else 0) >= cfg.maxUserEnvs then (db, Err(UserLimit))
      else if (if c.countsSchool then ActiveBySchool(db.envs, req.school) else 0) >= cfg.maxSchoolEnvs then
        (db, Err(SchoolLimit))
      else CreateNew(cfg, db, req, newID, c)
  }

  /** Recounts a session's members and gives it a status, unless that write fails. */
  function SyncSession(db: Db, s: nat, status: Status, refreshed: bool): Db {
    if s >= |db.sessions| || !refreshed then db
    else
      var x := db.sessions[s];
      db.(sessions := db.sessions[s := UpdateCounters(x, |Joined(db.members, s)|, x.primary, status)])
  }

  /** The pods go first; when the row cannot be updated after that, the call gives up. */
  function Terminate(db: Db, i: nat, c: StopCalls): Db
    requires i < |db.envs|
  {
    var env := db.envs[i];
    var swept := db.(live := db.live - (env.pods - c.kept));
    if !c.updated then swept
    else SyncSession(swept.(envs := db.envs[i := env.(status := Terminated)]), env.session, Terminated, c.refreshed)
  }

  /** `env` has just been terminated: its user leaves the session and hands it on. */
  function Leave(db: Db, env: Env, c: StopCalls): Db {
    var s, key := env.session, MemberKey(env.session, env.user);
    var members := if c.memberLeft && key in db.members then db.members[key := false] else db.members;
    if s >= |db.sessions| || !c.refreshed then db.(members := members)
    else
      var session := db.sessions[s];
      var heir := if c.seesHeir then FirstActive(db.envs, s, env.id, 0) else None;
      var primary := if session.primary == env.id && heir.Some? && heir.value < |db.envs| then db.envs[heir.value].id
                     else session.primary;
      var joined := |Joined(members, s)|;
      var count := if joined == 0 then |ActiveEnvs(db.envs, s)| else joined;
      db.(members := members, sessions := db.sessions[s := UpdateCounters(session, count, primary, Running)])
  }

  function Detach(db: Db, i: nat, c: StopCalls): Db
    requires i < |db.envs|
  {
    if !c.updated then db
    else Leave(db.(envs := db.envs[i := db.envs[i].(status := Terminated)]), db.envs[i], c)
  }

  predicate Collaborates(cfg: Config, env: Env) {
    env.experiment in cfg.blueprints && cfg.blueprints[env.experiment].collaboration
  }

  predicate Detaches(cfg: Config, db: Db, i: nat, c: StopCalls)
    requires i < |db.envs|
  {
    Collaborates(cfg, db.envs[i]) && c.counted && |ActiveEnvs(db.envs, db.envs[i].session)| > 1
  }

  function Stop(cfg: Config, db: Db, id: string, c: StopCalls): Db {
    match FindEnv(db.envs, id)
    case None => db
    case Some(i) => if Detaches(cfg, db, i, c) then Detach(db, i, c) else Terminate(db, i, c)
  }

  /** The background wait for the pods of a created environment ends, well or badly, and its row
      is updated; a wait whose update of the row fails changes nothing. */
  function Ready(db: Db, id: string, refreshed: bool): Db {
    match FindEnv(db.envs, id)
    case None => db
    case Some(i) =>
      SyncSession(db.(envs := db.envs[i := db.envs[i].(status := Running)]), db.envs[i].session, Running, refreshed)
  }

  function NotReady(db: Db, id: string): Db {
    match FindEnv(db.envs, id)
    case None => db
    case Some(i) => db.(envs := db.envs[i := db.envs[i].(status := Failed)])
  }

  // ---- The service ---------------------------------------------------------------------------------

  class EnvManager {
    const cfg: Config
    var envs: seq<Env>
    var sessions: seq<Session>
    var members: map<MemberKey, bool>
    var live: set<string>

    constructor (cfg: Config)
      ensures this.cfg == cfg && State() == EMPTY
    {
      this.cfg := cfg;
      envs, sessions, members, live := [], [], map[], {};
    }

    function State(): Db reads this { Db(envs, sessions, members, live) }

    method CreateEnv(req: Request, newID: string, c: CreateCalls) returns (r: Result<string, Error>)
      modifies this
      ensures (State(), r) == Create(cfg, old(State()), req, newID, c)
    {
      if req.experiment !in cfg.blueprints {
        return Err(NotFound);
      }
      var bp := cfg.blueprints[req.experiment];
      if c.seesOwn {
        var mine := ActiveOfUser(envs, req.user, req.experiment, 0);
        if mine.Some? {
          return Ok(envs[mine.value].id);
        }
      }
      if bp.collaboration && c.seesShared {
        var shared := Reusable(sessions, req.experiment, 0);
        if shared.Some? && sessions[shared.value].count < MaxCollaborators(bp) {
          r := AttachToSharedSession(shared.value, req, newID, c);
          return;
        }
      }
      var userActiveCount := if c.countsUser then ActiveByUser(envs, req.user) else 0;
      if userActiveCount >= cfg.maxUserEnvs {
        return Err(UserLimit);
      }
      var schoolActiveCount := if c.countsSchool then ActiveBySchool(envs, req.school) else 0;
      if schoolActiveCount >= cfg.maxSchoolEnvs {
        return Err(SchoolLimit);
      }
      r := OpenSession(req, newID, bp, c);
    }

    /** The rest of a creation: a session and an environment of its own, and its pods. */
    method OpenSession(req: Request, newID: string, bp: Blueprint, c: CreateCalls) returns (r: Result<string, Error>)
      requires req.experiment in cfg.blueprints && bp == cfg.blueprints[req.experiment]
      modifies this
      ensures (State(), r) == CreateNew(cfg, old(State()), req, newID, c)
    {
      var s := |sessions|;
      sessions := sessions + [Session(req.experiment, bp.collaboration, Creating, newID,
                                      if bp.collaboration then MaxCollaborators(bp) else 1, 0)];
      if !c.inserted {
        return Err(DatabaseError);
      }
      var env := Env(newID, req.experiment, s, req.user, req.school, Creating, RuntimePods(newID, bp.suffixes));
      envs := envs + [env];
      var bound := BindEnvToSession(s, req.user, env.status, c.binding);
      if !bound {
        return Err(DatabaseError);
      }
      var ok := CreateRuntimeInstances(StartOrder(newID, bp.suffixes), c.refused, c.gone);
      if !ok {
        if c.marked {
          envs := envs[|envs| - 1 := env.(status := Failed)];
          assert envs == old(envs) + [env.(status := Failed)];
        }
        return Err(StartFailed);
      }
      return Ok(newID);
    }

    /** Starts the pods in order and gives up at the first refusal, leaving the earlier ones. */
    method CreateRuntimeInstances(pods: seq<string>, refused: Option<nat>, gone: bool) returns (ok: bool)
      modifies this`live
      ensures ok <==> AllStart(pods, refused)
      ensures live == old(live) + Started(pods, refused, gone)
    {
      for i := 0 to |pods|
        invariant live == old(live) + set pod <- pods[..i]
        invariant refused.Some? ==> i <= refused.value
      {
        assert pods[..i + 1] == pods[..i] + [pods[i]];
        if refused == Some(i) {
          if !gone {
            live := live + {pods[i]};
          }
          return false;
        }
        live := live + {pods[i]};
      }
      assert pods[..|pods|] == pods;
      return true;
    }

    method AttachToSharedSession(s: nat, req: Request, newID: string, c: CreateCalls)
      returns (r: Result<string, Error>)
      requires s < |sessions|
      modifies this
      ensures (State(), r) == Attach(old(State()), s, req, newID, c)
    {
      var primary := FindEnv(envs, sessions[s].primary);
      if primary == None {
        return Err(NotFound);
      }
      if !c.inserted {
        return Err(DatabaseError);
      }
      var env := Env(newID, req.experiment, s, req.user, req.school, envs[primary.value].status,
                     envs[primary.value].pods);
      envs := envs + [env];
      var bound := BindEnvToSession(s, req.user, env.status, c.binding);
      if !bound {
        return Err(DatabaseError);
      }
      return Ok(newID);
    }

    method BindEnvToSession(s: nat, user: nat, status: Status, binding: Binding) returns (ok: bool)
      requires s < |sessions|
      modifies this`members, this`sessions
      ensures State() == Bind(old(State()), s, user, status, binding)
      ensures ok <==> binding == Bound
    {
      if binding == NotJoined {
        return false;
      }
      members := members[MemberKey(s, user) := true];
      if binding == NotCounted {
        return false;
      }
      sessions := sessions[s := UpdateCounters(sessions[s], |Joined(members, s)|, sessions[s].primary, status)];
      return true;
    }

    method StopEnv(id: string, c: StopCalls) returns (r: Result<(), Error>)
      modifies this
      ensures State() == Stop(cfg, old(State()), id, c)
      ensures r == if FindEnv(old(envs), id) == None then Err(NotFound)
                   else if c.updated then Ok(()) else Err(DatabaseError)
    {
      var at := FindEnv(envs, id);
      if at == None {
        return Err(NotFound);
      }
      var env := envs[at.value];
      if Collaborates(cfg, env) {
        if c.counted && |ActiveEnvs(envs, env.session)| > 1 {
          if !c.updated {
            return Err(DatabaseError);
          }
          envs := envs[at.value := env.(status := Terminated)];
          HandleSessionDetach(env, c);
          return Ok(());
        }
      }
      r := TerminateEnv(at.value, c);
    }

    method TerminateEnv(i: nat, c: StopCalls) returns (r: Result<(), Error>)
      requires i < |envs|
      modifies this
      ensures State() == Terminate(old(State()), i, c)
      ensures r == if c.updated then Ok(()) else Err(DatabaseError)
    {
      var env := envs[i];
      DeleteRuntimeInstances(env.pods, c.kept);
      if !c.updated {
        return Err(DatabaseError);
      }
      envs := envs[i := env.(status := Terminated)];
      SyncSessionStatus(env.session, Terminated, c.refreshed);
      return Ok(());
    }

    /** A deletion that fails is only logged, and the next pod is tried. */
    method DeleteRuntimeInstances(pods: set<string>, kept: set<string>)
      modifies this`live
      ensures live == old(live) - (pods - kept)
    {
      var pending := pods;
      while pending != {}
        invariant pending <= pods && live == old(live) - (pods - pending - kept)
        decreases pending
      {
        var pod :| pod in pending;
        if pod !in kept {
          live := live - {pod};
        }
        pending := pending - {pod};
      }
    }

    method SyncSessionStatus(s: nat, status: Status, refreshed: bool)
      modifies this`sessions
      ensures State() == SyncSession(old(State()), s, status, refreshed)
    {
      if s < |sessions| && refreshed {
        var memberCount := |Joined(members, s)|;
        sessions := sessions[s := UpdateCounters(sessions[s], memberCount, sessions[s].primary, status)];
      }
    }

    method HandleSessionDetach(env: Env, c: StopCalls)
      modifies this`members, this`sessions
      ensures State() == Leave(old(State()), env, c)
    {
      var s, key := env.session, MemberKey(env.session, env.user);
      if c.memberLeft && key in members && members[key] {
        members := members[key := false];
      }
      assert members == if c.memberLeft && key in old(members) then old(members)[key := false] else old(members);
      if s >= |sessions| || !c.refreshed {
        return;
      }
      var primary := sessions[s].primary;
      if primary == env.id && c.seesHeir {
        var replacement := FirstActive(envs, s, env.id, 0);
        if replacement.Some? {
          primary := envs[replacement.value].id;
        }
      }
      var memberCount := |Joined(members, s)|;
      if memberCount == 0 {
        memberCount := |ActiveEnvs(envs, s)|;
      }
      sessions := sessions[s := UpdateCounters(sessions[s], memberCount, primary, Running)];
    }

    /** Ends the wait for the pods of the environment `id`. */
    method FinishWait(id: string, ready: bool, refreshed: bool)
      modifies this
      ensures State() == if ready then Ready(old(State()), id, refreshed) else NotReady(old(State()), id)
      ensures var at := FindEnv(old(envs), id);
              at.Some? ==>
                && at.value < |envs| && envs[at.value].status == (if ready then Running else Failed)
                && live == old(live) && (!ready ==> sessions == old(sessions))
                && (var s := envs[at.value].session;
                    ready && refreshed && s < |sessions| ==> sessions[s].status == Running)
    {
      var at := FindEnv(envs, id);
      if at == None {
        return;
      }
      var env := envs[at.value];
      envs := envs[at.value := env.(status := if ready then Running else Failed)];
      if ready {
        SyncSessionStatus(env.session, Running, refreshed);
      }
    }
  }

  const EMPTY := Db([], [], map[], {})

  // ---- Runs ------------------------------------------------------------------------------------------

  datatype Event =
    | Opens(req: Request, newID: string, create: CreateCalls)
    | Stops(id: string, stop: StopCalls)
    | Waited(id: string, ready: bool, refreshed: bool)

  function Step(cfg: Config, db: Db, e: Event): Db {
    match e
    case Opens(req, newID, c) => Create(cfg, db, req, newID, c).0
    case Stops(id, c) => Stop(cfg, db, id, c)
    case Waited(id, ready, refreshed) => if ready then Ready(db, id, refreshed) else NotReady(db, id)
  }

  /** What may go wrong beyond the failures that do no harm. */
  datatype Fault =
    | UnseenOwn        // the read of the user's own active environment fails
    | LostMember       // the member of a new environment is not stored
    | LostCount        // the session of a new environment is not counted
    | PartialStart     // a pod is refused after another one was started
    | LostFailure      // a creation is refused a pod, and its failed status is not stored
    | FailedWait       // the wait for the pods ends badly
    | LateWait         // the wait ends well after its environment has stopped waiting
    | RepeatedStop     // an environment that is no longer active is stopped
    | UnseenOthers     // the count of a session's active environments fails
    | KeptPod          // a pod that exists is not deleted
    | LostStop         // the pods are deleted, and the row is not updated
    | KeptMember       // a user who leaves stays a member
    | LostLeave        // a user leaves, and the session is not counted again
    | LostHeir         // the primary environment leaves, and no other one can be read

  /** The faults that an event shows. */
  function FaultsOf(cfg: Config, db: Db, e: Event): set<Fault> {
    match e
    case Opens(req, _, c) => FaultsOfCreate(db, req, c)
    case Stops(id, c) =>
      var at := FindEnv(db.envs, id);
      if at == None then {} else FaultsOfStop(cfg, db, at.value, c)
    case Waited(id, ready, _) =>
      var at := FindEnv(db.envs, id);
      if at == None then {} else FaultsOfWait(db.envs[at.value].status, ready)
  }

  function When(b: bool, f: Fault): set<Fault> { if b then {f} else {} }

  function FaultsOfCreate(db: Db, req: Request, c: CreateCalls): set<Fault> {
    When(!c.seesOwn && ActiveOfUser(db.envs, req.user, req.experiment, 0).Some?, UnseenOwn)
    + When(c.binding == NotJoined, LostMember) + When(c.binding == NotCounted, LostCount)
    + When(c.refused.Some? && c.refused.value > 0, PartialStart)
    + When(c.refused.Some? && !c.gone, KeptPod) + When(c.refused.Some? && !c.marked, LostFailure)
  }

  function FaultsOfStop(cfg: Config, db: Db, i: nat, c: StopCalls): set<Fault>
    requires i < |db.envs|
  {
    var env := db.envs[i];
    When(!ActiveStatus(env.status), RepeatedStop)
    + if Detaches(cfg, db, i, c) then
        if !c.updated then {}
        else
          When(!c.memberLeft, KeptMember) + When(!c.refreshed, LostLeave)
          + When(!c.seesHeir && (env.session < |db.sessions| ==> db.sessions[env.session].primary == env.id), LostHeir)
      else
        When(!c.counted && Collaborates(cfg, env) && |ActiveEnvs(db.envs, env.session)| > 1, UnseenOthers)
        + When(c.kept * env.pods * db.live != {}, KeptPod) + When(!c.updated, LostStop)
  }

  function FaultsOfWait(status: Status, ready: bool): set<Fault> {
    if status == Creating then When(!ready, FailedWait) else When(ready || ActiveStatus(status), LateWait)
  }

  /** Ids are new: no environment and no session has used them. */
  predicate Unused(db: Db, id: string) {
    Dashes(id) == 3 && FindEnv(db.envs, id) == None && forall x <- db.sessions :: x.primary != id
  }

  predicate Allowed(cfg: Config, f: set<Fault>, db: Db, e: Event) {
    (e.Opens? ==> Unused(db, e.newID)) && FaultsOf(cfg, db, e) <= f
  }

  predicate IsRun(cfg: Config, f: set<Fault>, db: Db, es: seq<Event>)
    decreases |es|
  {
    es == [] || (Allowed(cfg, f, db, es[0]) && IsRun(cfg, f, Step(cfg, db, es[0]), es[1..]))
  }

  function Execute(cfg: Config, db: Db, es: seq<Event>): Db
    decreases |es|
  {
    if es == [] then db else Execute(cfg, Step(cfg, db, es[0]), es[1..])
  }

  /** Reference counting done right. While some environment of a session is active, its pods are
      live, its primary is one of its active environments, and its member count is the number of
      active environments and of joined members, within the limit; otherwise its pods are gone. */
  ghost predicate Counted(db: Db, s: nat)
    requires s < |db.sessions|
  {
    var x, active := db.sessions[s], ActiveEnvs(db.envs, s);
    if active != {} then
      && (forall i <- active :: db.envs[i].pods <= db.live)
      && (exists i <- active :: db.envs[i].id == x.primary)
      && x.count == |active| == |Joined(db.members, s)|
      && x.count <= x.maxMembers
    else forall i | 0 <= i < |db.envs| && db.envs[i].session == s :: db.envs[i].pods !! db.live
  }

  ghost predicate AllCounted(db: Db) {
    forall s | 0 <= s < |db.sessions| :: Counted(db, s)
  }

  // ---- The invariant -----------------------------------------------------------------------------------

  ghost predicate EnvFits(cfg: Config, db: Db, creators: seq<string>, i: nat)
    requires i < |db.envs|
  {
    var e := db.envs[i];
    && Dashes(e.id) == 3
    && e.session < |db.sessions| && e.session < |creators|
    && e.experiment in cfg.blueprints
    && db.sessions[e.session].experiment == e.experiment
    && e.pods == RuntimePods(creators[e.session], cfg.blueprints[e.experiment].suffixes)
  }

  /** The members who count: the users of a session's active environments. */
  ghost function ActiveMembers(envs: seq<Env>, s: nat): set<MemberKey> {
    set i | i in ActiveEnvs(envs, s) :: MemberKey(s, envs[i].user)
  }

  ghost function SessionPods(cfg: Config, db: Db, creators: seq<string>, s: nat): set<string>
    requires s < |db.sessions| && s < |creators|
  {
    RuntimePods(creators[s], if db.sessions[s].experiment in cfg.blueprints
                             then cfg.blueprints[db.sessions[s].experiment].suffixes else [])
  }

  ghost predicate HasEnv(envs: seq<Env>, id: string) {
    exists i | 0 <= i < |envs| :: envs[i].id == id
  }

  /** `id` names an active environment of session `s`. */
  ghost predicate HasPrimary(envs: seq<Env>, s: nat, id: string) {
    exists i <- ActiveEnvs(envs, s) :: envs[i].id == id
  }

  /** No environment but an inactive one of session `s` has the id `id`. */
  ghost predicate IdlePrimary(envs: seq<Env>, s: nat, id: string) {
    forall i | 0 <= i < |envs| && envs[i].id == id :: envs[i].session == s && !ActiveStatus(envs[i].status)
  }

  ghost predicate MembersMatch(db: Db, s: nat, count: int) {
    && Joined(db.members, s) == ActiveMembers(db.envs, s)
    && count == |ActiveEnvs(db.envs, s)| == |Joined(db.members, s)|
  }

  ghost predicate SessionFits(cfg: Config, db: Db, creators: seq<string>, s: nat)
    requires s < |db.sessions| && s < |creators|
  {
    var x := db.sessions[s];
    && x.experiment in cfg.blueprints
    && x.collaboration == cfg.blueprints[x.experiment].collaboration
    && x.maxMembers == (if x.collaboration then MaxCollaborators(cfg.blueprints[x.experiment]) else 1)
    && (HasEnv(db.envs, creators[s]) || x.primary == creators[s])
    && Dashes(creators[s]) == 3
    && if ActiveEnvs(db.envs, s) != {} then
         && ActiveStatus(x.status)
         && HasPrimary(db.envs, s, x.primary)
         && MembersMatch(db, s, x.count) && x.count <= x.maxMembers
         && SessionPods(cfg, db, creators, s) <= db.live
       else
         && SessionPods(cfg, db, creators, s) !! db.live
         && (ActiveStatus(x.status) ==> IdlePrimary(db.envs, s, x.primary))
  }

  /** No id is used twice, and no user has two active environments of one experiment. */
  ghost predicate Apart(envs: seq<Env>) {
    forall i, j | 0 <= i < j < |envs| ::
      && envs[i].id != envs[j].id
      && (ActiveStatus(envs[i].status) && ActiveStatus(envs[j].status) && envs[i].experiment == envs[j].experiment
          ==> envs[i].user != envs[j].user)
  }

  /** `creators[s]` is the id of the environment that session `s` was created for. */
  ghost predicate Inv(cfg: Config, db: Db, creators: seq<string>) {
    && |creators| == |db.sessions|
    && Distinct(creators)
    && Apart(db.envs)
    && (forall i | 0 <= i < |db.envs| :: EnvFits(cfg, db, creators, i))
    && (forall s | 0 <= s < |db.sessions| :: SessionFits(cfg, db, creators, s))
    && LiveFits(db.live, creators)
  }

  /** Every live pod carries the id of the environment some session was created for. */
  ghost predicate LiveFits(live: set<string>, creators: seq<string>) {
    forall pod <- live :: Head(pod, 3) in creators
  }

  lemma InvCounts(cfg: Config, db: Db, creators: seq<string>)
    requires Inv(cfg, db, creators)
    ensures AllCounted(db)
  {
    forall s | 0 <= s < |db.sessions| ensures Counted(db, s) {
      assert SessionFits(cfg, db, creators, s);
      forall i | 0 <= i < |db.envs| && db.envs[i].session == s
        ensures db.envs[i].pods == SessionPods(cfg, db, creators, s)
      {
        assert EnvFits(cfg, db, creators, i);
      }
    }
  }

  lemma PodsOfDifferentIDs(a: string, sa: seq<string>, b: string, sb: seq<string>)
    requires Dashes(a) == 3 && Dashes(b) == 3 && a != b
    ensures RuntimePods(a, sa) !! RuntimePods(b, sb)
  {
    PodOwner(a, sa);
    PodOwner(b, sb);
  }

  lemma PodOwner(id: string, suffixes: seq<string>)
    requires Dashes(id) == 3
    ensures forall pod <- RuntimePods(id, suffixes) :: Head(pod, 3) == id
  {
    forall pod <- RuntimePods(id, suffixes) ensures Head(pod, 3) == id {
      if pod == id {
        HeadOfName(id, "");
        assert id + "" == id;
      } else {
        var suffix :| suffix in suffixes && pod == id + "-" + suffix;
        HeadOfName(id, "-" + suffix);
        assert pod == id + ("-" + suffix);
      }
    }
  }

  lemma SessionsApart(cfg: Config, db: Db, creators: seq<string>, s: nat, t: nat)
    requires Inv(cfg, db, creators) && s < |db.sessions| && t < |db.sessions| && s != t
    ensures SessionPods(cfg, db, creators, s) !! SessionPods(cfg, db, creators, t)
  {
    assert SessionFits(cfg, db, creators, s) && SessionFits(cfg, db, creators, t);
    PodsOfDifferentIDs(creators[s], cfg.blueprints[db.sessions[s].experiment].suffixes,
                       creators[t], cfg.blueprints[db.sessions[t].experiment].suffixes);
  }

  /** A session none of whose rows changed, and whose pods were spared, still fits. */
  lemma UntouchedFits(cfg: Config, db: Db, v: Db, creators: seq<string>, more: seq<string>, s: nat)
    requires s < |db.sessions| && s < |creators| && SessionFits(cfg, db, creators, s)
    requires s < |v.sessions| && v.sessions[s] == db.sessions[s] && s < |more| && more[s] == creators[s]
    requires |db.envs| <= |v.envs|
    requires forall i | 0 <= i < |db.envs| :: v.envs[i].id == db.envs[i].id
    requires forall i | 0 <= i < |db.envs| ::
               db.envs[i].session == s || v.envs[i].session == s ==> v.envs[i] == db.envs[i]
    requires forall i | |db.envs| <= i < |v.envs| :: v.envs[i].session != s && v.envs[i].id != db.sessions[s].primary
    requires Joined(v.members, s) == Joined(db.members, s)
    requires SessionPods(cfg, db, creators, s) * v.live == SessionPods(cfg, db, creators, s) * db.live
    ensures SessionFits(cfg, v, more, s)
  {
    assert ActiveEnvs(v.envs, s) == ActiveEnvs(db.envs, s);
    assert ActiveMembers(v.envs, s) == ActiveMembers(db.envs, s);
    forall pod <- SessionPods(cfg, db, creators, s) ensures pod in v.live <==> pod in db.live {
      assert pod in SessionPods(cfg, db, creators, s) * v.live <==> pod in SessionPods(cfg, db, creators, s) * db.live;
    }
    assert SessionPods(cfg, v, more, s) == SessionPods(cfg, db, creators, s);
    if HasEnv(db.envs, creators[s]) {
      EnvStays(db.envs, v.envs, creators[s]);
    }
  }

  lemma EnvStays(envs: seq<Env>, more: seq<Env>, id: string)
    requires HasEnv(envs, id) && |envs| <= |more|
    requires forall i | 0 <= i < |envs| :: more[i].id == envs[i].id
    ensures HasEnv(more, id)
  {
    var i :| 0 <= i < |envs| && envs[i].id == id;
    assert more[i].id == id;
  }

  /** A session with active environments was created for one of its own. */
  lemma CreatorHasEnv(cfg: Config, db: Db, creators: seq<string>, s: nat)
    requires s < |db.sessions| && s < |creators| && SessionFits(cfg, db, creators, s) && ActiveEnvs(db.envs, s) != {}
    ensures HasEnv(db.envs, creators[s])
  {
    var p :| p in ActiveEnvs(db.envs, s) && db.envs[p].id == db.sessions[s].primary;
    if db.sessions[s].primary == creators[s] {
      assert db.envs[p].id == creators[s];
    }
  }

  lemma FindEnvUnique(envs: seq<Env>, i: nat)
    requires i < |envs| && Apart(envs)
    ensures FindEnv(envs, envs[i].id) == Some(i)
  {}

  lemma JoinedAfter(members: map<MemberKey, bool>, key: MemberKey, joined: bool, s: nat)
    ensures Joined(members[key := joined], s)
         == if key.session != s then Joined(members, s)
            else if joined then Joined(members, s) + {key} else Joined(members, s) - {key}
  {}

  // Joining a session.

  /** Attaching appends one environment that copies the status and pods of the primary one. */
  lemma AttachShape(cfg: Config, db: Db, creators: seq<string>, s: nat, req: Request, newID: string,
                    c: CreateCalls)
    requires Inv(cfg, db, creators) && s < |db.sessions| && db.sessions[s].experiment == req.experiment
    requires ActiveEnvs(db.envs, s) != {} && c.inserted && c.binding == Bound
    ensures var v := Attach(db, s, req, newID, c).0;
            && |v.envs| == |db.envs| + 1 && v.envs[..|db.envs|] == db.envs
            && (var e := v.envs[|db.envs|];
                e == Env(newID, req.experiment, s, req.user, req.school, e.status, SessionPods(cfg, db, creators, s))
                && ActiveStatus(e.status) && v.sessions[s].status == e.status)
            && |v.sessions| == |db.sessions| && v.live == db.live
            && v.members == db.members[MemberKey(s, req.user) := true]
            && v.sessions == db.sessions[s := v.sessions[s]]
            && v.sessions[s] == db.sessions[s].(count := |Joined(v.members, s)|, status := v.sessions[s].status)
  {
    assert SessionFits(cfg, db, creators, s);
    var p :| p in ActiveEnvs(db.envs, s) && db.envs[p].id == db.sessions[s].primary;
    FindEnvUnique(db.envs, p);
    assert EnvFits(cfg, db, creators, p);
  }

  lemma AttachedFits(cfg: Config, db: Db, v: Db, creators: seq<string>, s: nat, e: Env)
    requires Inv(cfg, db, creators) && s < |db.sessions| && db.sessions[s].experiment == e.experiment
    requires ActiveEnvs(db.envs, s) != {} && db.sessions[s].count < db.sessions[s].maxMembers
    requires ActiveOfUser(db.envs, e.user, e.experiment, 0) == None
    requires v.envs == db.envs + [e] && ActiveStatus(e.status) && e.session == s
    requires v.members == db.members[MemberKey(s, e.user) := true] && v.live == db.live
    requires |v.sessions| == |db.sessions| && ActiveStatus(v.sessions[s].status)
    requires v.sessions[s] == db.sessions[s].(count := |Joined(v.members, s)|, status := v.sessions[s].status)
    ensures SessionFits(cfg, v, creators, s)
  {
    assert SessionFits(cfg, db, creators, s);
    NotYetMember(cfg, db, creators, s, e.user);
    MembersGrow(db, v, s, e);
    assert |db.envs| in ActiveEnvs(v.envs, s);
    assert HasPrimary(v.envs, s, v.sessions[s].primary) by {
      var p :| p in ActiveEnvs(db.envs, s) && db.envs[p].id == db.sessions[s].primary;
      assert v.envs[p] == db.envs[p];
    }
    CreatorHasEnv(cfg, db, creators, s);
    EnvStays(db.envs, v.envs, creators[s]);
    assert SessionPods(cfg, v, creators, s) == SessionPods(cfg, db, creators, s);
  }

  lemma ActiveGrow(envs: seq<Env>, s: nat, e: Env)
    requires ActiveIn(e, s)
    ensures ActiveEnvs(envs + [e], s) == ActiveEnvs(envs, s) + {|envs|}
    ensures ActiveMembers(envs + [e], s) == ActiveMembers(envs, s) + {MemberKey(s, e.user)}
  {
    var more := envs + [e];
    assert ActiveEnvs(more, s) == ActiveEnvs(envs, s) + {|envs|};
    assert forall i | i in ActiveEnvs(envs, s) :: more[i] == envs[i];
    assert more[|envs|] == e;
    forall k | k in ActiveMembers(envs, s) ensures k in ActiveMembers(more, s) {
      var i :| i in ActiveEnvs(envs, s) && k == MemberKey(s, envs[i].user);
      assert i in ActiveEnvs(more, s);
    }
    assert |envs| in ActiveEnvs(more, s);
  }

  lemma MembersGrow(db: Db, v: Db, s: nat, e: Env)
    requires v.envs == db.envs + [e] && ActiveStatus(e.status) && e.session == s
    requires v.members == db.members[MemberKey(s, e.user) := true]
    requires MembersMatch(db, s, |Joined(db.members, s)|) && MemberKey(s, e.user) !in ActiveMembers(db.envs, s)
    ensures MembersMatch(v, s, |Joined(db.members, s)| + 1)
  {
    ActiveGrow(db.envs, s, e);
    JoinedAfter(db.members, MemberKey(s, e.user), true, s);
  }

  lemma NotYetMember(cfg: Config, db: Db, creators: seq<string>, s: nat, user: nat)
    requires Inv(cfg, db, creators) && s < |db.sessions|
    requires ActiveOfUser(db.envs, user, db.sessions[s].experiment, 0) == None
    ensures MemberKey(s, user) !in ActiveMembers(db.envs, s)
  {
    forall i <- ActiveEnvs(db.envs, s) ensures db.envs[i].user != user {
      assert EnvFits(cfg, db, creators, i);
    }
  }

  lemma AppendKeepsApart(cfg: Config, db: Db, creators: seq<string>, envs: seq<Env>, user: nat, experiment: nat)
    requires Inv(cfg, db, creators)
    requires |envs| == |db.envs| + 1 && envs[..|db.envs|] == db.envs
    requires var e := envs[|db.envs|]; e.user == user && e.experiment == experiment && FindEnv(db.envs, e.id) == None
    requires ActiveOfUser(db.envs, user, experiment, 0) == None
    ensures Apart(envs)
  {
    assert forall i | 0 <= i < |db.envs| :: envs[i] == envs[..|db.envs|][i];
  }

  /** An environment appended to session `s` disturbs no other environment and no other session. */
  lemma AppendedOthersFit(cfg: Config, db: Db, v: Db, creators: seq<string>, s: nat, user: nat)
    requires Inv(cfg, db, creators) && s < |db.sessions|
    requires |v.envs| == |db.envs| + 1 && v.envs[..|db.envs|] == db.envs && v.envs[|db.envs|].session == s
    requires |v.sessions| == |db.sessions| && v.sessions == db.sessions[s := v.sessions[s]]
    requires v.sessions[s].experiment == db.sessions[s].experiment
    requires v.members == db.members[MemberKey(s, user) := true] && v.live == db.live
    requires Unused(db, v.envs[|db.envs|].id)
    ensures forall i | 0 <= i < |db.envs| :: EnvFits(cfg, v, creators, i)
    ensures forall t | 0 <= t < |v.sessions| && t != s :: SessionFits(cfg, v, creators, t)
  {
    assert forall i | 0 <= i < |db.envs| :: v.envs[i] == v.envs[..|db.envs|][i];
    forall i | 0 <= i < |db.envs| ensures EnvFits(cfg, v, creators, i) {
      assert EnvFits(cfg, db, creators, i);
    }
    forall t | 0 <= t < |v.sessions| && t != s ensures SessionFits(cfg, v, creators, t) {
      assert SessionFits(cfg, db, creators, t);
      JoinedAfter(db.members, MemberKey(s, user), true, t);
      UntouchedFits(cfg, db, v, creators, creators, t);
    }
  }

  lemma AttachKeepsInv(cfg: Config, db: Db, creators: seq<string>, s: nat, req: Request, newID: string,
                       c: CreateCalls)
    requires Inv(cfg, db, creators) && s < |db.sessions| && db.sessions[s].experiment == req.experiment
    requires ActiveEnvs(db.envs, s) != {} && db.sessions[s].count < db.sessions[s].maxMembers
    requires ActiveOfUser(db.envs, req.user, req.experiment, 0) == None
    requires Unused(db, newID) && c.inserted && c.binding == Bound
    ensures Inv(cfg, Attach(db, s, req, newID, c).0, creators)
  {
    hide Attach, LiveFits, Apart, RuntimePods;
    var v := Attach(db, s, req, newID, c).0;
    AttachShape(cfg, db, creators, s, req, newID, c);
    assert v.envs == db.envs + [v.envs[|db.envs|]];
    assert SessionFits(cfg, db, creators, s);
    AttachedFits(cfg, db, v, creators, s, v.envs[|db.envs|]);
    AppendKeepsApart(cfg, db, creators, v.envs, req.user, req.experiment);
    AppendedOthersFit(cfg, db, v, creators, s, req.user);
  }

  // Opening a session.

  lemma NoMembersYet(cfg: Config, db: Db, creators: seq<string>, s: nat)
    requires Inv(cfg, db, creators) && MembersInRange(db) && s >= |db.sessions|
    ensures Joined(db.members, s) == {} && ActiveEnvs(db.envs, s) == {}
  {
    forall i | 0 <= i < |db.envs| ensures db.envs[i].session != s {
      assert EnvFits(cfg, db, creators, i);
    }
  }

  /** Members belong to sessions that exist. */
  ghost predicate MembersInRange(db: Db) {
    forall k <- db.members :: k.session < |db.sessions|
  }

  lemma AllStarted(id: string, suffixes: seq<string>)
    ensures forall gone :: Started(StartOrder(id, suffixes), None, gone) == RuntimePods(id, suffixes)
  {
    var order := StartOrder(id, suffixes);
    forall suffix <- suffixes ensures id + "-" + suffix in order {
      var i :| 0 <= i < |suffixes| && suffixes[i] == suffix;
      assert order[i + 1] == id + "-" + suffix;
    }
    assert order[0] == id;
  }

  function NewEnv(cfg: Config, s: nat, req: Request, newID: string, status: Status): Env
    requires req.experiment in cfg.blueprints
  {
    Env(newID, req.experiment, s, req.user, req.school, status,
        RuntimePods(newID, cfg.blueprints[req.experiment].suffixes))
  }

  function NewSession(cfg: Config, req: Request, newID: string, count: int): Session
    requires req.experiment in cfg.blueprints
  {
    var bp := cfg.blueprints[req.experiment];
    Session(req.experiment, bp.collaboration, Creating, newID,
            if bp.collaboration then MaxCollaborators(bp) else 1, count)
  }

  /** What opening a session appends. */
  lemma CreatedShape(cfg: Config, db: Db, req: Request, newID: string, c: CreateCalls)
    requires req.experiment in cfg.blueprints && c.inserted && c.binding == Bound
    ensures var v := CreateNew(cfg, db, req, newID, c).0;
            var s, pods := |db.sessions|, StartOrder(newID, cfg.blueprints[req.experiment].suffixes);
            && v.envs == db.envs + [NewEnv(cfg, s, req, newID,
                                           if AllStart(pods, c.refused) || !c.marked then Creating else Failed)]
            && v.sessions == db.sessions + [NewSession(cfg, req, newID, |Joined(v.members, s)|)]
            && v.live == db.live + Started(pods, c.refused, c.gone)
            && v.members == db.members[MemberKey(s, req.user) := true]
  {
  }

  lemma NoneStarted(id: string, suffixes: seq<string>)
    ensures Started(StartOrder(id, suffixes), Some(0), true) == {} && !AllStart(StartOrder(id, suffixes), Some(0))
  {
  }

  /** The calls of a creation that gets all of its pods, or none. */
  predicate Whole(c: CreateCalls) {
    c.inserted && c.binding == Bound && (c.refused == None || (c.refused == Some(0) && c.gone && c.marked))
  }

  lemma CreatedWhole(cfg: Config, db: Db, req: Request, newID: string, c: CreateCalls)
    requires req.experiment in cfg.blueprints && Whole(c)
    ensures var v := CreateNew(cfg, db, req, newID, c).0;
            var suffixes := cfg.blueprints[req.experiment].suffixes;
            && v.envs == db.envs + [NewEnv(cfg, |db.sessions|, req, newID,
                                           if c.refused == None then Creating else Failed)]
            && v.live == db.live + (if c.refused == None then RuntimePods(newID, suffixes) else {})
  {
    CreatedShape(cfg, db, req, newID, c);
    AllStarted(newID, cfg.blueprints[req.experiment].suffixes);
    NoneStarted(newID, cfg.blueprints[req.experiment].suffixes);
  }

  lemma OpenedFits(cfg: Config, db: Db, creators: seq<string>, req: Request, newID: string, c: CreateCalls)
    requires Inv(cfg, db, creators) && MembersInRange(db) && req.experiment in cfg.blueprints && Dashes(newID) == 3
    requires Whole(c) && c.refused == None
    ensures var v := CreateNew(cfg, db, req, newID, c).0;
            |v.sessions| == |db.sessions| + 1 && SessionFits(cfg, v, creators + [newID], |db.sessions|)
  {
    hide CreateNew, EnvFits, Apart, LiveFits, RuntimePods, StartOrder, Started;
    var v := CreateNew(cfg, db, req, newID, c).0;
    var s, n, key := |db.sessions|, |db.envs|, MemberKey(|db.sessions|, req.user);
    CreatedShape(cfg, db, req, newID, c);
    CreatedWhole(cfg, db, req, newID, c);
    NoMembersYet(cfg, db, creators, s);
    JoinedAfter(db.members, key, true, s);
    assert Joined(v.members, s) == {key};
    assert v.envs[n].id == newID;
    assert ActiveEnvs(v.envs, s) == {n};
    assert ActiveMembers(v.envs, s) == {key};
  }

  /** A new session without an active environment, whose pods are not live. */
  lemma IdleFits(cfg: Config, db: Db, v: Db, creators: seq<string>, req: Request, newID: string, added: seq<Env>)
    requires Inv(cfg, db, creators) && MembersInRange(db) && req.experiment in cfg.blueprints
    requires Unused(db, newID) && newID !in creators
    requires v.envs == db.envs + added && forall e <- added :: e.session == |db.sessions| && !ActiveStatus(e.status)
    requires |v.sessions| == |db.sessions| + 1 && v.live == db.live
    requires v.sessions[|db.sessions|] == NewSession(cfg, req, newID, v.sessions[|db.sessions|].count)
    ensures SessionFits(cfg, v, creators + [newID], |db.sessions|)
  {
    hide Apart, Joined;
    var s := |db.sessions|;
    NoMembersYet(cfg, db, creators, s);
    forall i | 0 <= i < |v.envs| ensures !ActiveIn(v.envs[i], s) && (v.envs[i].id == newID ==> v.envs[i].session == s) {
      if i < |db.envs| {
        assert v.envs[i] == db.envs[i] && i !in ActiveEnvs(db.envs, s);
      } else {
        assert v.envs[i] in added;
      }
    }
    assert ActiveEnvs(v.envs, s) == {};
    assert IdlePrimary(v.envs, s, newID);
    PodOwner(newID, cfg.blueprints[req.experiment].suffixes);
  }

  lemma CreatedFits(cfg: Config, db: Db, creators: seq<string>, req: Request, newID: string, c: CreateCalls)
    requires Inv(cfg, db, creators) && MembersInRange(db) && req.experiment in cfg.blueprints
    requires Unused(db, newID) && newID !in creators && Whole(c)
    ensures var v := CreateNew(cfg, db, req, newID, c).0;
            && |v.sessions| == |db.sessions| + 1
            && EnvFits(cfg, v, creators + [newID], |db.envs|)
            && SessionFits(cfg, v, creators + [newID], |db.sessions|)
            && LiveFits(v.live, creators + [newID])
  {
    hide CreateNew, Joined, SessionFits, Apart;
    var v := CreateNew(cfg, db, req, newID, c).0;
    CreatedShape(cfg, db, req, newID, c);
    CreatedWhole(cfg, db, req, newID, c);
    PodOwner(newID, cfg.blueprints[req.experiment].suffixes);
    if c.refused == None {
      OpenedFits(cfg, db, creators, req, newID, c);
    } else {
      IdleFits(cfg, db, v, creators, req, newID, [NewEnv(cfg, |db.sessions|, req, newID, Failed)]);
    }
  }

  lemma CreateNewKeepsInv(cfg: Config, db: Db, creators: seq<string>, req: Request, newID: string, c: CreateCalls)
    requires Inv(cfg, db, creators) && MembersInRange(db) && req.experiment in cfg.blueprints
    requires ActiveOfUser(db.envs, req.user, req.experiment, 0) == None && Whole(c) && Unused(db, newID)
    ensures Inv(cfg, CreateNew(cfg, db, req, newID, c).0, creators + [newID])
  {
    hide CreateNew, EnvFits, SessionFits, Apart, LiveFits, RuntimePods, StartOrder, Started;
    var v, more, s := CreateNew(cfg, db, req, newID, c).0, creators + [newID], |db.sessions|;
    NotACreator(cfg, db, creators, newID);
    CreatedShape(cfg, db, req, newID, c);
    CreatedWhole(cfg, db, req, newID, c);
    CreatedFits(cfg, db, creators, req, newID, c);
    AppendKeepsApart(cfg, db, creators, v.envs, req.user, req.experiment);
    EarlierEnvsFit(cfg, db, v, creators, newID);
    forall t | 0 <= t < s ensures SessionFits(cfg, v, more, t) {
      EarlierFits(cfg, db, v, creators, more, req, newID, t);
    }
  }

  /** A creation whose environment cannot be inserted leaves a session that nobody is in. */
  lemma NotInsertedKeepsInv(cfg: Config, db: Db, creators: seq<string>, req: Request, newID: string, c: CreateCalls)
    requires Inv(cfg, db, creators) && MembersInRange(db) && req.experiment in cfg.blueprints
    requires !c.inserted && Unused(db, newID)
    ensures Inv(cfg, CreateNew(cfg, db, req, newID, c).0, creators + [newID])
  {
    hide EnvFits, SessionFits, Apart, RuntimePods;
    var v, more, s := CreateNew(cfg, db, req, newID, c).0, creators + [newID], |db.sessions|;
    assert v == db.(sessions := db.sessions + [NewSession(cfg, req, newID, 0)]);
    NotACreator(cfg, db, creators, newID);
    assert v.envs == db.envs + [];
    IdleFits(cfg, db, v, creators, req, newID, []);
    EarlierEnvsFit(cfg, db, v, creators, newID);
    forall t | 0 <= t < s ensures SessionFits(cfg, v, more, t) {
      EarlierFits(cfg, db, v, creators, more, req, newID, t);
    }
  }

  lemma EarlierEnvsFit(cfg: Config, db: Db, v: Db, creators: seq<string>, newID: string)
    requires Inv(cfg, db, creators)
    requires |v.envs| >= |db.envs| && v.envs[..|db.envs|] == db.envs
    requires |v.sessions| == |db.sessions| + 1 && v.sessions[..|db.sessions|] == db.sessions
    ensures forall i | 0 <= i < |db.envs| :: EnvFits(cfg, v, creators + [newID], i)
  {
    forall i | 0 <= i < |db.envs| ensures EnvFits(cfg, v, creators + [newID], i) {
      assert EnvFits(cfg, db, creators, i) && v.envs[i] == v.envs[..|db.envs|][i];
    }
  }

  /** A new id is not that of a session's creator. */
  lemma NotACreator(cfg: Config, db: Db, creators: seq<string>, newID: string)
    requires Inv(cfg, db, creators) && Unused(db, newID)
    ensures newID !in creators
  {
    forall t | 0 <= t < |creators| ensures creators[t] != newID {
      assert SessionFits(cfg, db, creators, t) && db.sessions[t] in db.sessions;
    }
  }

  /** Opening a session leaves the earlier ones as they were. */
  lemma EarlierFits(cfg: Config, db: Db, v: Db, creators: seq<string>, more: seq<string>, req: Request, newID: string,
                    t: nat)
    requires Inv(cfg, db, creators) && req.experiment in cfg.blueprints && Unused(db, newID) && newID !in creators
    requires t < |db.sessions| && more == creators + [newID]
    requires |v.envs| >= |db.envs| && v.envs[..|db.envs|] == db.envs
    requires forall i | |db.envs| <= i < |v.envs| :: v.envs[i].session == |db.sessions| && v.envs[i].id == newID
    requires |v.sessions| == |db.sessions| + 1 && v.sessions[..|db.sessions|] == db.sessions
    requires v.members == db.members || v.members == db.members[MemberKey(|db.sessions|, req.user) := true]
    requires db.live <= v.live <= db.live + RuntimePods(newID, cfg.blueprints[req.experiment].suffixes)
    ensures SessionFits(cfg, v, more, t)
  {
    assert SessionFits(cfg, db, creators, t);
    JoinedAfter(db.members, MemberKey(|db.sessions|, req.user), true, t);
    PodsOfDifferentIDs(creators[t], cfg.blueprints[db.sessions[t].experiment].suffixes,
                       newID, cfg.blueprints[req.experiment].suffixes);
    assert v.sessions[t] == v.sessions[..|db.sessions|][t] && db.sessions[t] in db.sessions;
    assert forall i | 0 <= i < |db.envs| :: v.envs[i] == v.envs[..|db.envs|][i];
    UntouchedFits(cfg, db, v, creators, more, t);
  }

  // Attaching to a session that has no active environment and is still open.

  /** The environment copies the status of an inactive one, and the session is closed with it. */
  lemma AttachToIdleShape(cfg: Config, db: Db, creators: seq<string>, s: nat, req: Request, newID: string,
                          c: CreateCalls)
    requires Inv(cfg, db, creators) && s < |db.sessions| && db.sessions[s].experiment == req.experiment
    requires ActiveEnvs(db.envs, s) == {} && ActiveStatus(db.sessions[s].status)
    requires FindEnv(db.envs, db.sessions[s].primary).Some? && c.inserted && c.binding == Bound
    ensures var v := Attach(db, s, req, newID, c).0;
            && |v.envs| == |db.envs| + 1
            && v.envs == db.envs + [Env(newID, req.experiment, s, req.user, req.school, v.envs[|db.envs|].status,
                                        SessionPods(cfg, db, creators, s))]
            && !ActiveStatus(v.envs[|db.envs|].status)
            && |v.sessions| == |db.sessions| && v.sessions == db.sessions[s := v.sessions[s]]
            && v.sessions[s]
               == db.sessions[s].(count := v.sessions[s].count, status := v.envs[|db.envs|].status)
            && v.members == db.members[MemberKey(s, req.user) := true] && v.live == db.live
  {
    assert SessionFits(cfg, db, creators, s);
    var p := FindEnv(db.envs, db.sessions[s].primary).value;
    assert EnvFits(cfg, db, creators, p);
  }

  lemma AttachToIdleKeepsInv(cfg: Config, db: Db, creators: seq<string>, s: nat, req: Request, newID: string,
                             c: CreateCalls)
    requires Inv(cfg, db, creators) && s < |db.sessions| && db.sessions[s].experiment == req.experiment
    requires ActiveEnvs(db.envs, s) == {} && ActiveStatus(db.sessions[s].status)
    requires FindEnv(db.envs, db.sessions[s].primary).Some? && c.inserted && c.binding == Bound
    requires ActiveOfUser(db.envs, req.user, req.experiment, 0) == None && Unused(db, newID)
    ensures Inv(cfg, Attach(db, s, req, newID, c).0, creators)
  {
    hide Attach, RuntimePods, LiveFits, Apart;
    var v := Attach(db, s, req, newID, c).0;
    assert SessionFits(cfg, db, creators, s);
    AttachToIdleShape(cfg, db, creators, s, req, newID, c);
    AppendKeepsApart(cfg, db, creators, v.envs, req.user, req.experiment);
    assert ActiveEnvs(v.envs, s) == ActiveEnvs(db.envs, s);
    if HasEnv(db.envs, creators[s]) {
      EnvStays(db.envs, v.envs, creators[s]);
    }
    assert SessionPods(cfg, v, creators, s) == SessionPods(cfg, db, creators, s);
    AppendedOthersFit(cfg, db, v, creators, s, req.user);
  }

  // Leaving a session.

  lemma ActiveFacts(cfg: Config, db: Db, creators: seq<string>, i: nat)
    requires Inv(cfg, db, creators) && i < |db.envs| && ActiveStatus(db.envs[i].status)
    ensures var e := db.envs[i];
            && e.session < |db.sessions| && e.experiment in cfg.blueprints
            && db.sessions[e.session].experiment == e.experiment
            && ActiveStatus(db.sessions[e.session].status)
            && SessionFits(cfg, db, creators, e.session)
            && i in ActiveEnvs(db.envs, e.session)
            && MemberKey(e.session, e.user) in Joined(db.members, e.session)
            && e.pods == SessionPods(cfg, db, creators, e.session)
            && HasEnv(db.envs, creators[e.session])
  {
    var e := db.envs[i];
    assert EnvFits(cfg, db, creators, i);
    assert SessionFits(cfg, db, creators, e.session);
    assert i in ActiveEnvs(db.envs, e.session);
    CreatorHasEnv(cfg, db, creators, e.session);
  }

  lemma TerminatedEnvs(cfg: Config, db: Db, creators: seq<string>, i: nat)
    requires Inv(cfg, db, creators) && i < |db.envs| && ActiveStatus(db.envs[i].status)
    ensures var e := db.envs[i];
            var envs := db.envs[i := e.(status := Terminated)];
            && Apart(envs)
            && ActiveEnvs(envs, e.session) == ActiveEnvs(db.envs, e.session) - {i}
            && ActiveMembers(envs, e.session) == ActiveMembers(db.envs, e.session) - {MemberKey(e.session, e.user)}
  {
    var e := db.envs[i];
    var envs := db.envs[i := e.(status := Terminated)];
    assert forall j | 0 <= j < |envs| :: envs[j].id == db.envs[j].id && envs[j].user == db.envs[j].user
                                         && envs[j].experiment == db.envs[j].experiment
                                         && envs[j].session == db.envs[j].session;
    var before, after := ActiveEnvs(db.envs, e.session), ActiveEnvs(envs, e.session);
    assert after == before - {i};
    forall j | j in after ensures db.envs[j].user != e.user {
      assert EnvFits(cfg, db, creators, i) && EnvFits(cfg, db, creators, j);
      if j < i {
        assert db.envs[j].user != db.envs[i].user;
      } else {
        assert db.envs[i].user != db.envs[j].user;
      }
    }
    forall k | k in ActiveMembers(db.envs, e.session) && k != MemberKey(e.session, e.user)
      ensures k in ActiveMembers(envs, e.session)
    {
      var j :| j in before && k == MemberKey(e.session, db.envs[j].user);
      assert j in after;
    }
    forall k | k in ActiveMembers(envs, e.session)
      ensures k in ActiveMembers(db.envs, e.session) && k != MemberKey(e.session, e.user)
    {
      var j :| j in after && k == MemberKey(e.session, envs[j].user);
      assert j in before;
    }
  }

  /** When the primary environment leaves, the oldest remaining one takes over. */
  lemma HeirTakesOver(cfg: Config, db: Db, creators: seq<string>, i: nat)
    requires Inv(cfg, db, creators) && i < |db.envs| && ActiveStatus(db.envs[i].status)
    requires |ActiveEnvs(db.envs, db.envs[i].session)| > 1 && db.envs[i].session < |db.sessions|
    ensures var s := db.envs[i].session;
            && |Detach(db, i, CLEAN_STOP).sessions| == |db.sessions|
            && HasPrimary(Detach(db, i, CLEAN_STOP).envs, s, Detach(db, i, CLEAN_STOP).sessions[s].primary)
  {
    ActiveFacts(cfg, db, creators, i);
    var e, v := db.envs[i], Detach(db, i, CLEAN_STOP);
    var s := e.session;
    TerminatedEnvs(cfg, db, creators, i);
    var active := ActiveEnvs(v.envs, s);
    assert active == ActiveEnvs(db.envs, s) - {i} && |active| >= 1;
    if db.sessions[s].primary == e.id {
      var j :| j in active;
      assert v.envs[j].id != e.id;
      var heir := FirstActive(v.envs, s, e.id, 0);
      assert heir.Some? && heir.value in active;
      assert EnvFits(cfg, db, creators, heir.value);
      assert v.envs[heir.value].id != "" by {
        assert Dashes("") == 0;
      }
      assert v.sessions[s].primary == v.envs[heir.value].id;
    } else {
      var p :| p in ActiveEnvs(db.envs, s) && db.envs[p].id == db.sessions[s].primary;
      assert p in active && v.envs[p].id == db.sessions[s].primary;
    }
  }

  /** What a detachment changes: one row, one member, and the counters of the session. */
  lemma LeftShape(cfg: Config, db: Db, creators: seq<string>, i: nat)
    requires Inv(cfg, db, creators) && i < |db.envs| && ActiveStatus(db.envs[i].status)
    ensures var s := db.envs[i].session;
            var v := Detach(db, i, CLEAN_STOP);
            && s < |db.sessions| == |v.sessions|
            && v.sessions == db.sessions[s := v.sessions[s]]
            && v.envs == db.envs[i := db.envs[i].(status := Terminated)]
            && v.members == db.members[MemberKey(s, db.envs[i].user) := false]
            && v.live == db.live
            && (var joined := |Joined(v.members, s)|;
                v.sessions[s] == db.sessions[s].(count := if joined == 0 then |ActiveEnvs(v.envs, s)| else joined,
                                                 primary := v.sessions[s].primary, status := Running))
  {
    hide SessionFits, ActiveEnvs, ActiveMembers, FirstActive;
    ActiveFacts(cfg, db, creators, i);
  }

  lemma LeftFits(cfg: Config, db: Db, creators: seq<string>, i: nat)
    requires Inv(cfg, db, creators) && i < |db.envs| && ActiveStatus(db.envs[i].status)
    requires |ActiveEnvs(db.envs, db.envs[i].session)| > 1
    ensures var s := db.envs[i].session;
            var v := Detach(db, i, CLEAN_STOP);
            && |v.sessions| == |db.sessions| && s < |v.sessions|
            && v.sessions == db.sessions[s := v.sessions[s]]
            && v.sessions[s].experiment == db.sessions[s].experiment
            && v.envs == db.envs[i := db.envs[i].(status := Terminated)]
            && v.members == db.members[MemberKey(s, db.envs[i].user) := false]
            && v.live == db.live
            && SessionFits(cfg, v, creators, s)
  {
    hide EnvFits, Apart, LiveFits, RuntimePods, Dashes, HasEnv, IdlePrimary, HasPrimary, Detach;
    ActiveFacts(cfg, db, creators, i);
    var s, v := db.envs[i].session, Detach(db, i, CLEAN_STOP);
    LeftShape(cfg, db, creators, i);
    TerminatedEnvs(cfg, db, creators, i);
    HeirTakesOver(cfg, db, creators, i);
    JoinedAfter(db.members, MemberKey(s, db.envs[i].user), false, s);
    EnvStays(db.envs, v.envs, creators[s]);
  }

  lemma OthersFit(cfg: Config, db: Db, v: Db, creators: seq<string>, i: nat)
    requires Inv(cfg, db, creators) && i < |db.envs| && db.envs[i].session < |db.sessions|
    requires |v.envs| == |db.envs| && v.envs == db.envs[i := db.envs[i].(status := v.envs[i].status)]
    requires |v.sessions| == |db.sessions|
    requires var s := db.envs[i].session;
             v.sessions == db.sessions[s := v.sessions[s]] && v.sessions[s].experiment == db.sessions[s].experiment
    requires v.live == db.live || v.live == db.live - SessionPods(cfg, db, creators, db.envs[i].session)
    requires v.members == db.members || v.members == db.members[MemberKey(db.envs[i].session, db.envs[i].user) := false]
    requires SessionFits(cfg, v, creators, db.envs[i].session) && Apart(v.envs)
    ensures Inv(cfg, v, creators)
  {
    var s := db.envs[i].session;
    forall j | 0 <= j < |v.envs| ensures EnvFits(cfg, v, creators, j) {
      assert EnvFits(cfg, db, creators, j);
    }
    forall t | 0 <= t < |v.sessions| && t != s ensures SessionFits(cfg, v, creators, t) {
      assert SessionFits(cfg, db, creators, t);
      SessionsApart(cfg, db, creators, s, t);
      JoinedAfter(db.members, MemberKey(s, db.envs[i].user), false, t);
      UntouchedFits(cfg, db, v, creators, creators, t);
    }
  }

  /** Calls that show no fault do what they do when all of them succeed. */
  lemma HarmlessDetach(cfg: Config, db: Db, i: nat, c: StopCalls)
    requires i < |db.envs| && Detaches(cfg, db, i, c) && FaultsOfStop(cfg, db, i, c) == {} && c.updated
    ensures Detach(db, i, c) == Detach(db, i, CLEAN_STOP)
  {
    hide ActiveEnvs, FirstActive, Joined;
    assert KeptMember !in FaultsOfStop(cfg, db, i, c) && LostLeave !in FaultsOfStop(cfg, db, i, c);
    assert LostHeir !in FaultsOfStop(cfg, db, i, c);
  }

  lemma HarmlessTerminate(cfg: Config, db: Db, i: nat, c: StopCalls)
    requires i < |db.envs| && !Detaches(cfg, db, i, c) && FaultsOfStop(cfg, db, i, c) == {}
    ensures c.updated && (Collaborates(cfg, db.envs[i]) ==> |ActiveEnvs(db.envs, db.envs[i].session)| <= 1)
    ensures Terminate(db, i, c) == Terminate(db, i, CLEAN_STOP.(refreshed := c.refreshed))
  {
    hide ActiveEnvs, Joined;
    var pods := db.envs[i].pods;
    assert LostStop !in FaultsOfStop(cfg, db, i, c) && UnseenOthers !in FaultsOfStop(cfg, db, i, c);
    assert KeptPod !in FaultsOfStop(cfg, db, i, c);
    forall pod | pod in db.live && pod in pods ensures pod !in c.kept {
      assert pod !in c.kept * pods * db.live;
    }
    assert db.live - (pods - c.kept) == db.live - (pods - {});
  }

  lemma StopKeepsInv(cfg: Config, db: Db, creators: seq<string>, i: nat, c: StopCalls)
    requires Inv(cfg, db, creators) && i < |db.envs| && FaultsOfStop(cfg, db, i, c) == {}
    ensures Inv(cfg, Stop(cfg, db, db.envs[i].id, c), creators)
  {
    hide EnvFits, SessionFits, LiveFits, Detach, Terminate, SyncSession;
    var e := db.envs[i];
    assert ActiveStatus(e.status) by {
      assert RepeatedStop !in FaultsOfStop(cfg, db, i, c);
    }
    FindEnvUnique(db.envs, i);
    ActiveFacts(cfg, db, creators, i);
    TerminatedEnvs(cfg, db, creators, i);
    if Detaches(cfg, db, i, c) {
      if c.updated {
        HarmlessDetach(cfg, db, i, c);
        LeftFits(cfg, db, creators, i);
        OthersFit(cfg, db, Detach(db, i, c), creators, i);
      } else {
        NotDetached(db, i, c);
      }
    } else {
      HarmlessTerminate(cfg, db, i, c);
      LastStopFits(cfg, db, creators, i, c.refreshed);
      OthersFit(cfg, db, Terminate(db, i, c), creators, i);
    }
  }

  lemma NotDetached(db: Db, i: nat, c: StopCalls)
    requires i < |db.envs| && !c.updated
    ensures Detach(db, i, c) == db
  {
  }

  lemma LastStopFits(cfg: Config, db: Db, creators: seq<string>, i: nat, refreshed: bool)
    requires Inv(cfg, db, creators) && i < |db.envs| && ActiveStatus(db.envs[i].status)
    requires db.envs[i].session < |db.sessions|
    requires Collaborates(cfg, db.envs[i]) ==> |ActiveEnvs(db.envs, db.envs[i].session)| <= 1
    ensures var s, v := db.envs[i].session, Terminate(db, i, CLEAN_STOP.(refreshed := refreshed));
            && v.envs == db.envs[i := db.envs[i].(status := Terminated)]
            && |v.sessions| == |db.sessions| && v.sessions == db.sessions[s := v.sessions[s]]
            && v.sessions[s].experiment == db.sessions[s].experiment
            && v.members == db.members && v.live == db.live - SessionPods(cfg, db, creators, s)
            && SessionFits(cfg, v, creators, s)
  {
    hide EnvFits, LiveFits, RuntimePods, Dashes;
    var e, v := db.envs[i], Terminate(db, i, CLEAN_STOP.(refreshed := refreshed));
    var s := e.session;
    ActiveFacts(cfg, db, creators, i);
    TerminatedEnvs(cfg, db, creators, i);
    OnlyActive(cfg, db, creators, i);
    assert ActiveEnvs(v.envs, s) == {};
    assert e.pods - {} == e.pods;
    assert SessionPods(cfg, v, creators, s) == e.pods;
    EnvStays(db.envs, v.envs, creators[s]);
    LastIsPrimary(cfg, db, creators, i);
  }

  lemma OnlyActive(cfg: Config, db: Db, creators: seq<string>, i: nat)
    requires Inv(cfg, db, creators) && i < |db.envs| && ActiveStatus(db.envs[i].status)
    requires db.envs[i].session < |db.sessions|
    requires Collaborates(cfg, db.envs[i]) ==> |ActiveEnvs(db.envs, db.envs[i].session)| <= 1
    ensures ActiveEnvs(db.envs, db.envs[i].session) == {i}
  {
    ActiveFacts(cfg, db, creators, i);
    var active := ActiveEnvs(db.envs, db.envs[i].session);
    assert |active| == 1 && |active - {i}| == 0;
  }

  lemma LastIsPrimary(cfg: Config, db: Db, creators: seq<string>, i: nat)
    requires Inv(cfg, db, creators) && i < |db.envs| && ActiveEnvs(db.envs, db.envs[i].session) == {i}
    requires db.envs[i].session < |db.sessions|
    ensures IdlePrimary(db.envs[i := db.envs[i].(status := Terminated)], db.envs[i].session,
                        db.sessions[db.envs[i].session].primary)
  {
    hide EnvFits, LiveFits, RuntimePods, Dashes;
    var s := db.envs[i].session;
    assert SessionFits(cfg, db, creators, s);
    var p :| p in ActiveEnvs(db.envs, s) && db.envs[p].id == db.sessions[s].primary;
    assert p == i;
  }

  // Becoming ready.

  lemma ReadyKeepsInv(cfg: Config, db: Db, creators: seq<string>, i: nat, refreshed: bool)
    requires Inv(cfg, db, creators) && i < |db.envs| && ActiveStatus(db.envs[i].status)
    ensures Inv(cfg, Ready(db, db.envs[i].id, refreshed), creators)
  {
    hide EnvFits, SessionFits, LiveFits;
    FindEnvUnique(db.envs, i);
    ActiveFacts(cfg, db, creators, i);
    ReadyFits(cfg, db, creators, i, refreshed);
    OthersFit(cfg, db, Ready(db, db.envs[i].id, refreshed), creators, i);
  }

  lemma ReadyFits(cfg: Config, db: Db, creators: seq<string>, i: nat, refreshed: bool)
    requires Inv(cfg, db, creators) && i < |db.envs| && ActiveStatus(db.envs[i].status)
    requires db.envs[i].session < |db.sessions|
    ensures SessionFits(cfg, Ready(db, db.envs[i].id, refreshed), creators, db.envs[i].session)
  {
    hide EnvFits, Apart, LiveFits, RuntimePods, Dashes;
    var e := db.envs[i];
    var s, v := e.session, Ready(db, e.id, refreshed);
    FindEnvUnique(db.envs, i);
    ActiveFacts(cfg, db, creators, i);
    assert ActiveEnvs(v.envs, s) == ActiveEnvs(db.envs, s);
    assert ActiveMembers(v.envs, s) == ActiveMembers(db.envs, s);
    var p :| p in ActiveEnvs(db.envs, s) && db.envs[p].id == db.sessions[s].primary;
    assert v.envs[p].id == v.sessions[s].primary;
    EnvStays(db.envs, v.envs, creators[s]);
  }

  lemma LateFailureFits(cfg: Config, db: Db, creators: seq<string>, i: nat)
    requires Inv(cfg, db, creators) && i < |db.envs| && !ActiveStatus(db.envs[i].status)
    requires db.envs[i].session < |db.sessions|
    ensures SessionFits(cfg, db.(envs := db.envs[i := db.envs[i].(status := Failed)]), creators, db.envs[i].session)
  {
    var s, v := db.envs[i].session, db.(envs := db.envs[i := db.envs[i].(status := Failed)]);
    assert SessionFits(cfg, db, creators, s);
    assert ActiveEnvs(v.envs, s) == ActiveEnvs(db.envs, s);
    assert ActiveMembers(v.envs, s) == ActiveMembers(db.envs, s);
    if ActiveEnvs(db.envs, s) != {} {
      var p :| p in ActiveEnvs(db.envs, s) && db.envs[p].id == db.sessions[s].primary;
      assert v.envs[p] == db.envs[p];
    }
    if HasEnv(db.envs, creators[s]) {
      EnvStays(db.envs, v.envs, creators[s]);
    }
  }

  /** A wait that ends badly for an environment that is no longer active changes nothing that counts. */
  lemma LateFailureKeepsInv(cfg: Config, db: Db, creators: seq<string>, i: nat)
    requires Inv(cfg, db, creators) && i < |db.envs| && !ActiveStatus(db.envs[i].status)
    ensures Inv(cfg, NotReady(db, db.envs[i].id), creators)
  {
    FindEnvUnique(db.envs, i);
    assert EnvFits(cfg, db, creators, i);
    LateFailureFits(cfg, db, creators, i);
    OthersFit(cfg, db, NotReady(db, db.envs[i].id), creators, i);
  }

  // ---- The theorem ---------------------------------------------------------------------------------------

  ghost predicate Kept(cfg: Config, db: Db) {
    MembersInRange(db) && exists creators :: Inv(cfg, db, creators)
  }

  /** A creation without faults is one of those the invariant survives. */
  lemma HarmlessCreate(db: Db, req: Request, c: CreateCalls)
    requires FaultsOfCreate(db, req, c) == {}
    ensures c.binding == Bound && (c.inserted ==> Whole(c))
    ensures Own(db, req, c) == ActiveOfUser(db.envs, req.user, req.experiment, 0)
  {
    var faults := FaultsOfCreate(db, req, c);
    assert LostMember !in faults && LostCount !in faults && PartialStart !in faults && KeptPod !in faults;
    assert LostFailure !in faults && UnseenOwn !in faults;
  }

  lemma JoinKeeps(cfg: Config, db: Db, creators: seq<string>, s: nat, req: Request, newID: string, c: CreateCalls)
    requires MembersInRange(db) && Inv(cfg, db, creators) && Unused(db, newID) && FaultsOfCreate(db, req, c) == {}
    requires ActiveOfUser(db.envs, req.user, req.experiment, 0) == None
    requires s < |db.sessions| && db.sessions[s].experiment == req.experiment && ActiveStatus(db.sessions[s].status)
    requires db.sessions[s].collaboration && req.experiment in cfg.blueprints
    requires db.sessions[s].count < MaxCollaborators(cfg.blueprints[req.experiment])
    ensures Kept(cfg, Attach(db, s, req, newID, c).0)
  {
    hide EnvFits, Apart, LiveFits, RuntimePods;
    HarmlessCreate(db, req, c);
    assert SessionFits(cfg, db, creators, s);
    if FindEnv(db.envs, db.sessions[s].primary) == None || !c.inserted {
      assert Attach(db, s, req, newID, c).0 == db;
    } else if ActiveEnvs(db.envs, s) != {} {
      AttachKeepsInv(cfg, db, creators, s, req, newID, c);
    } else {
      AttachToIdleKeepsInv(cfg, db, creators, s, req, newID, c);
    }
  }

  lemma NewKeeps(cfg: Config, db: Db, creators: seq<string>, req: Request, newID: string, c: CreateCalls)
    requires MembersInRange(db) && Inv(cfg, db, creators) && Unused(db, newID) && FaultsOfCreate(db, req, c) == {}
    requires ActiveOfUser(db.envs, req.user, req.experiment, 0) == None && req.experiment in cfg.blueprints
    ensures Kept(cfg, CreateNew(cfg, db, req, newID, c).0)
  {
    hide EnvFits, Apart, LiveFits, RuntimePods, StartOrder, Started;
    HarmlessCreate(db, req, c);
    if c.inserted {
      CreatedShape(cfg, db, req, newID, c);
      CreateNewKeepsInv(cfg, db, creators, req, newID, c);
    } else {
      NotInsertedKeepsInv(cfg, db, creators, req, newID, c);
    }
  }

  lemma OpenKeeps(cfg: Config, db: Db, creators: seq<string>, req: Request, newID: string, c: CreateCalls)
    requires MembersInRange(db) && Inv(cfg, db, creators) && Unused(db, newID) && FaultsOfCreate(db, req, c) == {}
    ensures Kept(cfg, Create(cfg, db, req, newID, c).0)
  {
    hide CreateNew, Attach, Inv, MembersInRange, FaultsOfCreate, Unused;
    HarmlessCreate(db, req, c);
    if Create(cfg, db, req, newID, c).0 != db {
      var bp := cfg.blueprints[req.experiment];
      var shared := Shared(bp, db, req, c);
      if shared.Some? && db.sessions[shared.value].count < MaxCollaborators(bp) {
        JoinKeeps(cfg, db, creators, shared.value, req, newID, c);
      } else {
        NewKeeps(cfg, db, creators, req, newID, c);
      }
    }
  }

  lemma StepKeeps(cfg: Config, db: Db, e: Event)
    requires Kept(cfg, db) && Allowed(cfg, {}, db, e)
    ensures Kept(cfg, Step(cfg, db, e))
  {
    var creators :| Inv(cfg, db, creators);
    match e
    case Opens(req, newID, c) => OpenKeeps(cfg, db, creators, req, newID, c);
    case Stops(id, c) =>
      var at := FindEnv(db.envs, id);
      if at.Some? {
        StopKeepsInv(cfg, db, creators, at.value, c);
      }
    case Waited(id, ready, refreshed) =>
      var at := FindEnv(db.envs, id);
      if at.Some? {
        WaitKeepsInv(cfg, db, creators, at.value, ready, refreshed);
      }
  }

  lemma WaitKeepsInv(cfg: Config, db: Db, creators: seq<string>, i: nat, ready: bool, refreshed: bool)
    requires Inv(cfg, db, creators) && i < |db.envs| && FaultsOfWait(db.envs[i].status, ready) == {}
    ensures Inv(cfg, if ready then Ready(db, db.envs[i].id, refreshed) else NotReady(db, db.envs[i].id), creators)
  {
    assert FailedWait !in FaultsOfWait(db.envs[i].status, ready) && LateWait !in FaultsOfWait(db.envs[i].status, ready);
    if ready {
      ReadyKeepsInv(cfg, db, creators, i, refreshed);
    } else {
      LateFailureKeepsInv(cfg, db, creators, i);
    }
  }

  lemma {:induction false} RunKeeps(cfg: Config, db: Db, es: seq<Event>)
    requires Kept(cfg, db) && IsRun(cfg, {}, db, es)
    ensures AllCounted(Execute(cfg, db, es))
    decreases |es|
  {
    if es == [] {
      var creators :| Inv(cfg, db, creators);
      InvCounts(cfg, db, creators);
    } else {
      StepKeeps(cfg, db, es[0]);
      RunKeeps(cfg, Step(cfg, db, es[0]), es[1..]);
    }
  }

  // Runs that break the counting, one for each fault.

  ghost predicate AlwaysCounted(f: set<Fault>) {
    forall cfg, es | IsRun(cfg, f, EMPTY, es) :: AllCounted(Execute(cfg, EMPTY, es))
  }

  /** Two collaborators: user 1 opened the session with environment `a`, user 2 joined with `b`. */
  const PAIR_CFG := Config(map[0 := Blueprint(true, 0, [])], 9, 9)

  ghost predicate IDs(a: string, b: string) { Dashes(a) == 3 && Dashes(b) == 3 && a != b }

  function FirstEnv(a: string, status: Status): Env { Env(a, 0, 0, 1, 0, status, {a}) }
  function SecondEnv(a: string, b: string): Env { Env(b, 0, 0, 2, 0, Creating, {a}) }

  function Pair(a: string, b: string, first: Status, status: Status, primary: string, count: int, joined: bool,
                live: set<string>): Db {
    Db([FirstEnv(a, first), SecondEnv(a, b)], [Session(0, true, status, primary, 4, count)],
       map[MemberKey(0, 1) := joined, MemberKey(0, 2) := true], live)
  }

  function One(a: string, first: Status, status: Status, live: set<string>): Db {
    Db([FirstEnv(a, first)], [Session(0, true, status, a, 4, 1)], map[MemberKey(0, 1) := true], live)
  }

  function Alone(a: string): Db { One(a, Creating, Creating, {a}) }

  function Together(a: string, b: string): Db { Pair(a, b, Creating, Creating, a, 2, true, {a}) }

  const FIRST := Request(0, 1, 0)
  const SECOND := Request(0, 2, 0)

  lemma NobodyActive(envs: seq<Env>, n: nat)
    requires envs == []
    ensures ActiveByUser(envs, n) == 0 && ActiveBySchool(envs, n) == 0
  {
    assert forall i :: i !in OfUser(envs, n) && i !in OfSchool(envs, n);
    assert OfUser(envs, n) == {} && OfSchool(envs, n) == {};
  }

  /** The first request of all opens a session. */
  lemma FirstCreates(cfg: Config, req: Request, newID: string, c: CreateCalls)
    requires req.experiment in cfg.blueprints && cfg.maxUserEnvs > 0 && cfg.maxSchoolEnvs > 0
    ensures Create(cfg, EMPTY, req, newID, c) == CreateNew(cfg, EMPTY, req, newID, c)
  {
    NobodyActive(EMPTY.envs, req.user);
    NobodyActive(EMPTY.envs, req.school);
  }

  lemma FirstJoins(cfg: Config, req: Request, newID: string, c: CreateCalls)
    requires req.experiment in cfg.blueprints && c.inserted && c.binding == Bound
    ensures CreateNew(cfg, EMPTY, req, newID, c).0.sessions == [NewSession(cfg, req, newID, 1)]
  {
    CreatedShape(cfg, EMPTY, req, newID, c);
    var key := MemberKey(0, req.user);
    JoinedAfter(EMPTY.members, key, true, 0);
    assert Joined(EMPTY.members[key := true], 0) == {key};
  }

  lemma FirstOpens(f: set<Fault>, a: string)
    requires Dashes(a) == 3
    ensures Allowed(PAIR_CFG, f, EMPTY, Opens(FIRST, a, CLEAN_CREATE))
    ensures Step(PAIR_CFG, EMPTY, Opens(FIRST, a, CLEAN_CREATE)) == Alone(a)
  {
    FirstCreates(PAIR_CFG, FIRST, a, CLEAN_CREATE);
    FirstJoins(PAIR_CFG, FIRST, a, CLEAN_CREATE);
    CreatedShape(PAIR_CFG, EMPTY, FIRST, a, CLEAN_CREATE);
    CreatedWhole(PAIR_CFG, EMPTY, FIRST, a, CLEAN_CREATE);
    assert RuntimePods(a, []) == {a};
  }

  lemma SecondOpens(f: set<Fault>, a: string, b: string)
    requires IDs(a, b)
    ensures Allowed(PAIR_CFG, f, Alone(a), Opens(SECOND, b, CLEAN_CREATE))
    ensures Step(PAIR_CFG, Alone(a), Opens(SECOND, b, CLEAN_CREATE)) == Together(a, b)
  {
    var db := Alone(a);
    assert Joined(db.members[MemberKey(0, 2) := true], 0) == {MemberKey(0, 1), MemberKey(0, 2)};
    assert FindEnv(db.envs, a) == Some(0) && FindEnv(db.envs, b) == None;
    assert ActiveOfUser(db.envs, 2, 0, 0) == None && Reusable(db.sessions, 0, 0) == Some(0);
  }

  lemma EventThen(f: set<Fault>, db: Db, e: Event, rest: seq<Event>)
    requires Allowed(PAIR_CFG, f, db, e) && IsRun(PAIR_CFG, f, Step(PAIR_CFG, db, e), rest)
    ensures IsRun(PAIR_CFG, f, db, [e] + rest)
    ensures Execute(PAIR_CFG, db, [e] + rest) == Execute(PAIR_CFG, Step(PAIR_CFG, db, e), rest)
  {
    assert ([e] + rest)[1..] == rest;
  }

  // An event that breaks the counting, from the beginning and after one or two creations.

  ghost predicate Breaks(f: set<Fault>, db: Db, e: Event) {
    Allowed(PAIR_CFG, f, db, e) && !AllCounted(Step(PAIR_CFG, db, e))
  }

  lemma BreaksAtOnce(f: set<Fault>, e: Event)
    requires Breaks(f, EMPTY, e)
    ensures !AlwaysCounted(f)
  {
    hide Allowed, Step, AllCounted;
    EventThen(f, EMPTY, e, []);
    assert IsRun(PAIR_CFG, f, EMPTY, [e] + []);
  }

  lemma BreaksAlone(f: set<Fault>, a: string, e: Event)
    requires Dashes(a) == 3 && Breaks(f, Alone(a), e)
    ensures !AlwaysCounted(f)
  {
    hide Allowed, Step, AllCounted;
    var first := Opens(FIRST, a, CLEAN_CREATE);
    FirstOpens(f, a);
    EventThen(f, Alone(a), e, []);
    EventThen(f, EMPTY, first, [e] + []);
    assert IsRun(PAIR_CFG, f, EMPTY, [first] + ([e] + []));
  }

  lemma PairRun(f: set<Fault>, a: string, b: string, rest: seq<Event>)
    requires IDs(a, b) && IsRun(PAIR_CFG, f, Together(a, b), rest)
    requires !AllCounted(Execute(PAIR_CFG, Together(a, b), rest))
    ensures !AlwaysCounted(f)
  {
    hide Allowed, Step, AllCounted;
    FirstOpens(f, a);
    SecondOpens(f, a, b);
    var e1, e2 := Opens(FIRST, a, CLEAN_CREATE), Opens(SECOND, b, CLEAN_CREATE);
    EventThen(f, Alone(a), e2, rest);
    EventThen(f, EMPTY, e1, [e2] + rest);
    assert IsRun(PAIR_CFG, f, EMPTY, [e1] + ([e2] + rest));
  }

  lemma BreaksTogether(f: set<Fault>, a: string, b: string, e: Event)
    requires IDs(a, b) && Breaks(f, Together(a, b), e)
    ensures !AlwaysCounted(f)
  {
    EventThen(f, Together(a, b), e, []);
    PairRun(f, a, b, [e] + []);
  }

  lemma OnlySecondActive(db: Db)
    requires |db.envs| == 2 && !ActiveStatus(db.envs[0].status) && ActiveIn(db.envs[1], 0)
    ensures ActiveEnvs(db.envs, 0) == {1}
  {}

  // Creations.

  /** An active environment whose pods never started. */
  lemma PodlessMiscounts(db: Db, a: string)
    requires |db.envs| == 1 && db.envs[0].id == a && ActiveIn(db.envs[0], 0) && a in db.envs[0].pods
    requires |db.sessions| == 1 && db.live == {}
    ensures !AllCounted(db)
  {
    assert 0 in ActiveEnvs(db.envs, 0);
    assert !Counted(db, 0);
  }

  lemma FirstUnbound(a: string, c: CreateCalls)
    requires c.inserted && c.binding != Bound
    ensures var db := Step(PAIR_CFG, EMPTY, Opens(FIRST, a, c));
            db.envs == [FirstEnv(a, Creating)] && |db.sessions| == 1 && db.live == {}
  {
    FirstCreates(PAIR_CFG, FIRST, a, c);
    assert RuntimePods(a, []) == {a};
  }

  /** The member of a new environment is not stored: the environment stays without pods. */
  lemma LostMemberMiscounts(f: set<Fault>, a: string)
    requires LostMember in f && Dashes(a) == 3
    ensures !AlwaysCounted(f)
  {
    var c := CLEAN_CREATE.(binding := NotJoined);
    FirstUnbound(a, c);
    hide Create, CreateNew;
    PodlessMiscounts(Step(PAIR_CFG, EMPTY, Opens(FIRST, a, c)), a);
    BreaksAtOnce(f, Opens(FIRST, a, c));
  }

  /** The same when the session is not counted. */
  lemma LostCountMiscounts(f: set<Fault>, a: string)
    requires LostCount in f && Dashes(a) == 3
    ensures !AlwaysCounted(f)
  {
    var c := CLEAN_CREATE.(binding := NotCounted);
    FirstUnbound(a, c);
    hide Create, CreateNew;
    PodlessMiscounts(Step(PAIR_CFG, EMPTY, Opens(FIRST, a, c)), a);
    BreaksAtOnce(f, Opens(FIRST, a, c));
  }

  lemma FirstRefused(a: string)
    ensures var db := Step(PAIR_CFG, EMPTY, Opens(FIRST, a, CLEAN_CREATE.(refused := Some(0), marked := false)));
            db.envs == [FirstEnv(a, Creating)] && |db.sessions| == 1 && db.live == {}
  {
    var c := CLEAN_CREATE.(refused := Some(0), marked := false);
    FirstCreates(PAIR_CFG, FIRST, a, c);
    CreatedShape(PAIR_CFG, EMPTY, FIRST, a, c);
    assert RuntimePods(a, []) == {a};
    assert StartOrder(a, []) == [a] && [a][..1] == [a];
  }

  /** A refused creation stays active when its failure is not stored. */
  lemma LostFailureMiscounts(f: set<Fault>, a: string)
    requires LostFailure in f && Dashes(a) == 3
    ensures !AlwaysCounted(f)
  {
    var c := CLEAN_CREATE.(refused := Some(0), marked := false);
    FirstRefused(a);
    hide Create, CreateNew;
    PodlessMiscounts(Step(PAIR_CFG, EMPTY, Opens(FIRST, a, c)), a);
    BreaksAtOnce(f, Opens(FIRST, a, c));
  }

  /** A pod that is live in a session where nobody is active. */
  lemma LeftPodMiscounts(db: Db, a: string)
    requires |db.envs| == 1 && !ActiveStatus(db.envs[0].status) && db.envs[0].session == 0
    requires |db.sessions| == 1 && a in db.envs[0].pods && a in db.live
    ensures !AllCounted(db)
  {
    assert ActiveEnvs(db.envs, 0) == {};
    assert !Counted(db, 0);
  }

  const TWO_PODS := Config(map[0 := Blueprint(true, 0, ["x"])], 9, 9)

  lemma OnlyFirstStarted(a: string)
    ensures Started(StartOrder(a, ["x"]), Some(1), true) == {a} && !AllStart(StartOrder(a, ["x"]), Some(1))
  {
    var order := StartOrder(a, ["x"]);
    assert |order| == 2 && order[..1] == [a];
  }

  lemma SecondPodRefused(a: string)
    requires Dashes(a) == 3
    ensures var db := Step(TWO_PODS, EMPTY, Opens(FIRST, a, CLEAN_CREATE.(refused := Some(1))));
            db.envs == [Env(a, 0, 0, 1, 0, Failed, RuntimePods(a, ["x"]))] && |db.sessions| == 1 && db.live == {a}
  {
    var c := CLEAN_CREATE.(refused := Some(1));
    FirstCreates(TWO_PODS, FIRST, a, c);
    CreatedShape(TWO_PODS, EMPTY, FIRST, a, c);
    OnlyFirstStarted(a);
  }

  /** A session whose second pod is refused keeps its first one, and nobody in it is active. */
  lemma PartialStartMiscounts(f: set<Fault>, a: string)
    requires PartialStart in f && Dashes(a) == 3
    ensures !AlwaysCounted(f)
  {
    var e := Opens(FIRST, a, CLEAN_CREATE.(refused := Some(1)));
    SecondPodRefused(a);
    hide Create, CreateNew;
    LeftPodMiscounts(Step(TWO_PODS, EMPTY, e), a);
    assert [e][1..] == [];
    assert IsRun(TWO_PODS, f, EMPTY, [e]) && Execute(TWO_PODS, EMPTY, [e]) == Step(TWO_PODS, EMPTY, e);
  }

  lemma FirstOpensAgain(a: string, b: string)
    requires IDs(a, b)
    ensures var db := Step(PAIR_CFG, Alone(a), Opens(FIRST, b, CLEAN_CREATE.(seesOwn := false)));
            && db.envs == [FirstEnv(a, Creating), FirstEnv(a, Creating).(id := b)]
            && |db.sessions| == 1 && db.members == map[MemberKey(0, 1) := true]
  {
    var db := Alone(a);
    assert FindEnv(db.envs, a) == Some(0) && Reusable(db.sessions, 0, 0) == Some(0);
  }

  /** A user whose own environment cannot be read gets a second one, with one membership for both. */
  lemma UnseenOwnMiscounts(f: set<Fault>, a: string, b: string)
    requires UnseenOwn in f && IDs(a, b)
    ensures !AlwaysCounted(f)
  {
    var e := Opens(FIRST, b, CLEAN_CREATE.(seesOwn := false));
    var end := Step(PAIR_CFG, Alone(a), e);
    FirstOpensAgain(a, b);
    hide Create, CreateNew;
    assert ActiveEnvs(end.envs, 0) == {0, 1} && Joined(end.members, 0) == {MemberKey(0, 1)};
    assert !Counted(end, 0);
    assert FindEnv(Alone(a).envs, b) == None;
    BreaksAlone(f, a, e);
  }

  // Waits.

  lemma FirstFails(a: string, b: string)
    requires IDs(a, b)
    ensures Step(PAIR_CFG, Together(a, b), Waited(a, false, true)) == Pair(a, b, Failed, Creating, a, 2, true, {a})
  {
    var db := Together(a, b);
    assert FindEnv(db.envs, a) == Some(0);
    assert db.envs[0 := db.envs[0].(status := Failed)] == [FirstEnv(a, Failed), SecondEnv(a, b)];
  }

  /** The primary environment fails to start after a second user has joined. */
  lemma FailedWaitMiscounts(f: set<Fault>, a: string, b: string)
    requires FailedWait in f && IDs(a, b)
    ensures !AlwaysCounted(f)
  {
    var end := Pair(a, b, Failed, Creating, a, 2, true, {a});
    FirstFails(a, b);
    OnlySecondActive(end);
    assert !Counted(end, 0);
    assert FindEnv(Together(a, b).envs, a) == Some(0);
    BreaksTogether(f, a, b, Waited(a, false, true));
  }

  lemma OnlyOneLeaves(a: string, c: StopCalls)
    requires Dashes(a) == 3 && c.refreshed && c.updated
    ensures Detaches(PAIR_CFG, Alone(a), 0, c) == false
    ensures Step(PAIR_CFG, Alone(a), Stops(a, c)) == One(a, Terminated, Terminated, {a} - ({a} - c.kept))
  {
    var db := Alone(a);
    assert FindEnv(db.envs, a) == Some(0);
    assert ActiveEnvs(db.envs, 0) == {0};
    assert Joined(db.members, 0) == {MemberKey(0, 1)};
    assert Dashes("") == 0;
  }

  /** The wait finds the row of the environment that was stopped meanwhile, and marks it running. */
  lemma LateWaitRevives(stopped: Db, a: string)
    requires stopped.envs == [FirstEnv(a, Terminated)] && |stopped.sessions| == 1 && stopped.live == {}
    ensures !AllCounted(Step(PAIR_CFG, stopped, Waited(a, true, true)))
  {
    assert FindEnv(stopped.envs, a) == Some(0);
    PodlessMiscounts(Step(PAIR_CFG, stopped, Waited(a, true, true)), a);
  }

  /** The wait ends well after the only user has stopped: the environment runs on without pods. */
  lemma LateWaitMiscounts(f: set<Fault>, a: string)
    requires LateWait in f && Dashes(a) == 3
    ensures !AlwaysCounted(f)
  {
    hide Step, AllCounted;
    var open, stop, wait := Opens(FIRST, a, CLEAN_CREATE), Stops(a, CLEAN_STOP), Waited(a, true, true);
    var stopped := Step(PAIR_CFG, Alone(a), stop);
    FirstOpens(f, a);
    OnlyOneLeaves(a, CLEAN_STOP);
    assert {a} - ({a} - {}) == {};
    LateWaitRevives(stopped, a);
    assert FindEnv(stopped.envs, a) == Some(0) && FindEnv(Alone(a).envs, a) == Some(0);
    EventThen(f, stopped, wait, []);
    EventThen(f, Alone(a), stop, [wait] + []);
    EventThen(f, EMPTY, open, [stop] + ([wait] + []));
    assert IsRun(PAIR_CFG, f, EMPTY, [open] + ([stop] + ([wait] + [])));
  }

  // Stops of the only environment.

  /** The pod cannot be deleted, and outlives the session. */
  lemma KeptPodMiscounts(f: set<Fault>, a: string)
    requires KeptPod in f && Dashes(a) == 3
    ensures !AlwaysCounted(f)
  {
    var c := CLEAN_STOP.(kept := {a});
    OnlyOneLeaves(a, c);
    assert FindEnv(Alone(a).envs, a) == Some(0);
    LeftPodMiscounts(Step(PAIR_CFG, Alone(a), Stops(a, c)), a);
    BreaksAlone(f, a, Stops(a, c));
  }

  /** The pods are deleted, and the environment stays active. */
  lemma LostStopMiscounts(f: set<Fault>, a: string)
    requires LostStop in f && Dashes(a) == 3
    ensures !AlwaysCounted(f)
  {
    var c := CLEAN_STOP.(updated := false);
    var db := Alone(a);
    assert FindEnv(db.envs, a) == Some(0);
    assert ActiveEnvs(db.envs, 0) == {0};
    assert {a} - ({a} - {}) == {};
    PodlessMiscounts(Step(PAIR_CFG, db, Stops(a, c)), a);
    BreaksAlone(f, a, Stops(a, c));
  }

  // Stops of the first of two environments.

  lemma FirstLeaves(a: string, b: string, c: StopCalls)
    requires IDs(a, b) && c.counted && c.updated
    ensures Detaches(PAIR_CFG, Together(a, b), 0, c)
    ensures var s := if c.refreshed then Running else Creating;
            var heir := if c.refreshed && c.seesHeir then b else a;
            var count := if c.refreshed && c.memberLeft then 1 else 2;
            Step(PAIR_CFG, Together(a, b), Stops(a, c)) == Pair(a, b, Terminated, s, heir, count, !c.memberLeft, {a})
  {
    var db := Together(a, b);
    var left := Pair(a, b, Terminated, Running, b, 1, !c.memberLeft, {a});
    assert FindEnv(db.envs, a) == Some(0);
    assert ActiveEnvs(db.envs, 0) == {0, 1};
    assert db.envs[0 := db.envs[0].(status := Terminated)] == left.envs;
    assert FirstActive(left.envs, 0, a, 1) == Some(1);
    assert FirstActive(left.envs, 0, a, 0) == Some(1);
    assert db.members[MemberKey(0, 1) := false] == map[MemberKey(0, 1) := false, MemberKey(0, 2) := true];
    assert Joined(db.members, 0) == {MemberKey(0, 1), MemberKey(0, 2)};
    assert Joined(db.members[MemberKey(0, 1) := false], 0) == {MemberKey(0, 2)};
    assert Dashes("") == 0 && b != "" && a != "";
  }

  /** What is left of the two is not counted unless the member left, the count fell and `b` leads. */
  lemma LeftMiscounts(a: string, b: string, status: Status, primary: string, count: int, joined: bool)
    requires a != b && (count != 1 || joined || primary == a)
    ensures !AllCounted(Pair(a, b, Terminated, status, primary, count, joined, {a}))
  {
    var end := Pair(a, b, Terminated, status, primary, count, joined, {a});
    OnlySecondActive(end);
    if joined {
      assert Joined(end.members, 0) == {MemberKey(0, 1), MemberKey(0, 2)};
    }
    assert !Counted(end, 0);
  }

  /** The user who left is still a member. */
  lemma KeptMemberMiscounts(f: set<Fault>, a: string, b: string)
    requires KeptMember in f && IDs(a, b)
    ensures !AlwaysCounted(f)
  {
    var c := CLEAN_STOP.(memberLeft := false);
    FirstLeaves(a, b, c);
    assert FindEnv(Together(a, b).envs, a) == Some(0);
    hide Stop;
    LeftMiscounts(a, b, Running, b, 2, true);
    BreaksTogether(f, a, b, Stops(a, c));
  }

  /** The session still counts the user who left. */
  lemma LostLeaveMiscounts(f: set<Fault>, a: string, b: string)
    requires LostLeave in f && IDs(a, b)
    ensures !AlwaysCounted(f)
  {
    var c := CLEAN_STOP.(refreshed := false);
    FirstLeaves(a, b, c);
    assert FindEnv(Together(a, b).envs, a) == Some(0);
    hide Stop;
    LeftMiscounts(a, b, Creating, a, 2, false);
    BreaksTogether(f, a, b, Stops(a, c));
  }

  /** The session is still led by the environment that was stopped. */
  lemma LostHeirMiscounts(f: set<Fault>, a: string, b: string)
    requires LostHeir in f && IDs(a, b)
    ensures !AlwaysCounted(f)
  {
    var c := CLEAN_STOP.(seesHeir := false);
    FirstLeaves(a, b, c);
    assert FindEnv(Together(a, b).envs, a) == Some(0);
    hide Stop;
    LeftMiscounts(a, b, Running, a, 1, false);
    BreaksTogether(f, a, b, Stops(a, c));
  }

  lemma TornDownMiscounts(db: Db)
    requires |db.envs| == 2 && ActiveIn(db.envs[1], 0) && |db.sessions| == 1
    requires db.envs[1].pods != {} && db.live == {}
    ensures !AllCounted(db)
  {
    assert 1 in ActiveEnvs(db.envs, 0);
    var pod :| pod in db.envs[1].pods;
    assert pod !in db.live;
    assert !Counted(db, 0);
  }

  /** The other environments of the session cannot be counted, and lose their pods. */
  lemma UnseenOthersMiscounts(f: set<Fault>, a: string, b: string)
    requires UnseenOthers in f && IDs(a, b)
    ensures !AlwaysCounted(f)
  {
    var c, db := CLEAN_STOP.(counted := false), Together(a, b);
    assert FindEnv(db.envs, a) == Some(0);
    assert {a} - ({a} - {}) == {};
    TornDownMiscounts(Step(PAIR_CFG, db, Stops(a, c)));
    BreaksTogether(f, a, b, Stops(a, c));
  }

  lemma FirstStopsAgain(a: string, b: string)
    requires IDs(a, b)
    ensures !AllCounted(Step(PAIR_CFG, Pair(a, b, Terminated, Running, b, 1, false, {a}), Stops(a, CLEAN_STOP)))
    ensures !Detaches(PAIR_CFG, Pair(a, b, Terminated, Running, b, 1, false, {a}), 0, CLEAN_STOP)
  {
    var left := Pair(a, b, Terminated, Running, b, 1, false, {a});
    assert FindEnv(left.envs, a) == Some(0);
    OnlySecondActive(left);
    assert {a} - ({a} - {}) == {};
    TornDownMiscounts(Step(PAIR_CFG, left, Stops(a, CLEAN_STOP)));
  }

  /** The first user stops twice: the second stop takes the pods from the user who stayed. */
  lemma RepeatedStopMiscounts(f: set<Fault>, a: string, b: string)
    requires RepeatedStop in f && IDs(a, b)
    ensures !AlwaysCounted(f)
  {
    var left, stop := Pair(a, b, Terminated, Running, b, 1, false, {a}), Stops(a, CLEAN_STOP);
    FirstLeaves(a, b, CLEAN_STOP);
    FirstStopsAgain(a, b);
    assert FindEnv(left.envs, a) == Some(0) && FindEnv(Together(a, b).envs, a) == Some(0);
    hide Stop, AllCounted;
    EventThen(f, left, stop, []);
    EventThen(f, Together(a, b), stop, [stop] + []);
    PairRun(f, a, b, [stop] + ([stop] + []));
  }

  /** Each fault alone breaks the counting. */
  lemma EachFaultMiscounts(f: set<Fault>, fault: Fault)
    requires fault in f
    ensures !AlwaysCounted(f)
  {
    hide AlwaysCounted;
    var a, b := "a---", "b---";
    assert IDs(a, b) by {
      assert a[0] != b[0] && Dashes("-") == 1 && Dashes("--") == 2 && Dashes("---") == 3;
    }
    match fault
    case UnseenOwn => UnseenOwnMiscounts(f, a, b);
    case LostMember => LostMemberMiscounts(f, a);
    case LostCount => LostCountMiscounts(f, a);
    case PartialStart => PartialStartMiscounts(f, a);
    case LostFailure => LostFailureMiscounts(f, a);
    case FailedWait => FailedWaitMiscounts(f, a, b);
    case LateWait => LateWaitMiscounts(f, a);
    case RepeatedStop => RepeatedStopMiscounts(f, a, b);
    case UnseenOthers => UnseenOthersMiscounts(f, a, b);
    case KeptPod => KeptPodMiscounts(f, a);
    case LostStop => LostStopMiscounts(f, a);
    case KeptMember => KeptMemberMiscounts(f, a, b);
    case LostLeave => LostLeaveMiscounts(f, a, b);
    case LostHeir => LostHeirMiscounts(f, a, b);
  }

  /** Over all runs the reference counting is right if and only if none of the faults can happen:
      every other call may fail at any time, and each of the faults alone breaks it. */
  lemma AlwaysCountedIff(f: set<Fault>)
    ensures AlwaysCounted(f) <==> f == {}
  {
    if f != {} {
      var fault :| fault in f;
      EachFaultMiscounts(f, fault);
    } else {
      forall cfg, es | IsRun(cfg, f, EMPTY, es) ensures AllCounted(Execute(cfg, EMPTY, es)) {
        assert Inv(cfg, EMPTY, []);
        RunKeeps(cfg, EMPTY, es);
      }
    }
  }
}

/** What a creation, a stop and a wait of an experiment environment do, written out, and how far the
    limits on environments hold (backend/internal/service/env_manager_service.go,
    backend/internal/repository/experiment_repository.go). */
module SessionOutcomes {
  import opened Common
  import opened SharedSession

  // ---- Creations --------------------------------------------------------------------------------

  /** An environment that its user gets back instead of a new one. */
  ghost predicate IsOwn(e: Env, req: Request) {
    e.user == req.user && e.experiment == req.experiment && e.status in {Pending, Creating, Running, Paused}
  }

  /** A collaborative session of the experiment that is still going on. */
  ghost predicate IsOpen(x: Session, experiment: nat) {
    x.experiment == experiment && x.collaboration && x.status in {Pending, Creating, Running, Paused}
  }

  /** The user's own environments cannot be seen, or there is none for the experiment. */
  ghost predicate HasNone(db: Db, req: Request, c: CreateCalls) {
    c.seesOwn ==> forall e <- db.envs :: !IsOwn(e, req)
  }

  ghost function MembersAllowed(bp: Blueprint): int { if bp.maxMembers > 0 then bp.maxMembers else 4 }

  /** Session `s` is the one a creation looks at: the oldest that is open. */
  ghost predicate IsOldest(sessions: seq<Session>, experiment: nat, s: nat) {
    s < |sessions| && IsOpen(sessions[s], experiment) && forall t | 0 <= t < s :: !IsOpen(sessions[t], experiment)
  }

  /** No session can be joined: none is seen, or the oldest open one is full. */
  ghost predicate JoinsNone(bp: Blueprint, db: Db, req: Request, c: CreateCalls) {
    bp.collaboration && c.seesShared ==>
      forall s: nat | IsOldest(db.sessions, req.experiment, s) :: db.sessions[s].count >= MembersAllowed(bp)
  }

  lemma {:induction false} OldestOpen(sessions: seq<Session>, experiment: nat, i: nat)
    requires i <= |sessions| && forall t | 0 <= t < i :: !IsOpen(sessions[t], experiment)
    ensures match Reusable(sessions, experiment, i)
            case Some(s) => IsOldest(sessions, experiment, s)
            case None => forall t | 0 <= t < |sessions| :: !IsOpen(sessions[t], experiment)
    decreases |sessions| - i
  {
    if i < |sessions| && !IsOpen(sessions[i], experiment) {
      OldestOpen(sessions, experiment, i + 1);
    }
  }

  /** The environments that count against the limit of their user, and of their school. */
  ghost function HeldBy(db: Db, user: nat): set<nat> {
    set i: nat |
      i < |db.envs| && db.envs[i].user == user && (db.envs[i].status == Running || db.envs[i].status == Creating)
  }

  ghost function HeldAt(db: Db, school: nat): set<nat> {
    set i: nat |
      i < |db.envs| && db.envs[i].school == school && (db.envs[i].status == Running || db.envs[i].status == Creating)
  }

  /** The creation reaches the limits: the experiment is known, and nothing is handed back or joined. */
  ghost predicate WantsItsOwn(cfg: Config, db: Db, req: Request, c: CreateCalls) {
    && req.experiment in cfg.blueprints && HasNone(db, req, c)
    && JoinsNone(cfg.blueprints[req.experiment], db, req, c)
  }

  /** An experiment that is not there changes nothing. */
  lemma NoExperiment(cfg: Config, db: Db, req: Request, newID: string, c: CreateCalls)
    requires req.experiment !in cfg.blueprints
    ensures Create(cfg, db, req, newID, c) == (db, Err(NotFound))
  {
  }

  lemma FindsNothing(cfg: Config, db: Db, req: Request, c: CreateCalls)
    requires WantsItsOwn(cfg, db, req, c)
    ensures var bp := cfg.blueprints[req.experiment];
            && Own(db, req, c) == None
            && (Shared(bp, db, req, c).Some? ==>
                  db.sessions[Shared(bp, db, req, c).value].count >= MaxCollaborators(bp))
  {
    OldestOpen(db.sessions, req.experiment, 0);
    if Own(db, req, c).Some? {
      assert IsOwn(db.envs[Own(db, req, c).value], req);
    }
  }

  /** The first active environment of the user for the experiment is handed back. */
  lemma HandsBackOwn(cfg: Config, db: Db, req: Request, newID: string, c: CreateCalls, i: nat)
    requires req.experiment in cfg.blueprints && c.seesOwn
    requires i < |db.envs| && IsOwn(db.envs[i], req) && forall j | 0 <= j < i :: !IsOwn(db.envs[j], req)
    ensures Create(cfg, db, req, newID, c) == (db, Ok(db.envs[i].id))
  {
    FirstOwn(db.envs, req, 0, i);
  }

  lemma {:induction false} FirstOwn(envs: seq<Env>, req: Request, from: nat, i: nat)
    requires from <= i < |envs| && IsOwn(envs[i], req) && forall j | from <= j < i :: !IsOwn(envs[j], req)
    ensures ActiveOfUser(envs, req.user, req.experiment, from) == Some(i)
    decreases i - from
  {
    if from < i {
      FirstOwn(envs, req, from + 1, i);
    }
  }

  /** A request for an environment of one's own is refused when as many running and creating
      environments of the user are counted as the limit allows, and then by those of the school. */
  lemma RefusedAtTheLimits(cfg: Config, db: Db, req: Request, newID: string, c: CreateCalls)
    requires WantsItsOwn(cfg, db, req, c)
    ensures c.countsUser && |HeldBy(db, req.user)| >= cfg.maxUserEnvs ==>
              Create(cfg, db, req, newID, c) == (db, Err(UserLimit))
    ensures (if c.countsUser then |HeldBy(db, req.user)| else 0) < cfg.maxUserEnvs
            && c.countsSchool && |HeldAt(db, req.school)| >= cfg.maxSchoolEnvs ==>
              Create(cfg, db, req, newID, c) == (db, Err(SchoolLimit))
  {
    FindsNothing(cfg, db, req, c);
    assert OfUser(db.envs, req.user) == HeldBy(db, req.user);
    assert OfSchool(db.envs, req.school) == HeldAt(db, req.school);
  }

  ghost function Pods(id: string, suffixes: seq<string>): set<string> {
    {id} + set suffix <- suffixes :: id + "-" + suffix
  }

  ghost function CountOf(members: map<MemberKey, bool>, s: nat): int {
    |set key | key in members && key.session == s && members[key]|
  }

  /** The tables with a new session and its environment. */
  ghost function Opened(bp: Blueprint, db: Db, req: Request, newID: string): Db {
    var s := |db.sessions|;
    var members := db.members[MemberKey(s, req.user) := true];
    var pods := Pods(newID, bp.suffixes);
    var env := Env(newID, req.experiment, s, req.user, req.school, Creating, pods);
    var session := Session(req.experiment, bp.collaboration, Creating, newID,
                           if bp.collaboration then MembersAllowed(bp) else 1, CountOf(members, s));
    Db(db.envs + [env], db.sessions + [session], members, db.live + pods)
  }

  lemma OpensItsOwn(cfg: Config, db: Db, req: Request, newID: string, c: CreateCalls)
    requires WantsItsOwn(cfg, db, req, c)
    requires (if c.countsUser then |HeldBy(db, req.user)| else 0) < cfg.maxUserEnvs
    requires (if c.countsSchool then |HeldAt(db, req.school)| else 0) < cfg.maxSchoolEnvs
    ensures Create(cfg, db, req, newID, c) == CreateNew(cfg, db, req, newID, c)
  {
    FindsNothing(cfg, db, req, c);
    assert OfUser(db.envs, req.user) == HeldBy(db, req.user);
    assert OfSchool(db.envs, req.school) == HeldAt(db, req.school);
  }

  /** Below both limits it is not: a session and a creating environment are stored, the user is a
      member, and every pod is started. */
  lemma OpensBelowTheLimits(cfg: Config, db: Db, req: Request, newID: string, c: CreateCalls)
    requires WantsItsOwn(cfg, db, req, c)
    requires (if c.countsUser then |HeldBy(db, req.user)| else 0) < cfg.maxUserEnvs
    requires (if c.countsSchool then |HeldAt(db, req.school)| else 0) < cfg.maxSchoolEnvs
    ensures Create(cfg, db, req, newID, c).1 !in {Err(NotFound), Err(UserLimit), Err(SchoolLimit)}
    ensures c.inserted && c.binding == Bound
            && (c.refused.Some? ==> c.refused.value > |cfg.blueprints[req.experiment].suffixes|) ==>
              Create(cfg, db, req, newID, c) == (Opened(cfg.blueprints[req.experiment], db, req, newID), Ok(newID))
  {
    OpensItsOwn(cfg, db, req, newID, c);
    if c.inserted && c.binding == Bound
       && (c.refused.Some? ==> c.refused.value > |cfg.blueprints[req.experiment].suffixes|)
    {
      OpensCleanly(cfg, db, req, newID, c);
    }
  }

  lemma OpensCleanly(cfg: Config, db: Db, req: Request, newID: string, c: CreateCalls)
    requires req.experiment in cfg.blueprints && c.inserted && c.binding == Bound
    requires c.refused.Some? ==> c.refused.value > |cfg.blueprints[req.experiment].suffixes|
    ensures CreateNew(cfg, db, req, newID, c) == (Opened(cfg.blueprints[req.experiment], db, req, newID), Ok(newID))
  {
    var s, bp := |db.sessions|, cfg.blueprints[req.experiment];
    var members := db.members[MemberKey(s, req.user) := true];
    StartsAll(newID, bp.suffixes, c.refused, c.gone);
    assert |Joined(members, s)| == CountOf(members, s);
    var v, u := CreateNew(cfg, db, req, newID, c).0, Opened(bp, db, req, newID);
    assert v.sessions == u.sessions;
  }

  lemma StartsAll(id: string, suffixes: seq<string>, refused: Option<nat>, gone: bool)
    requires refused.Some? ==> refused.value > |suffixes|
    ensures Started(StartOrder(id, suffixes), refused, gone) == Pods(id, suffixes)
  {
    var pods := StartOrder(id, suffixes);
    assert pods[..|pods|] == pods && pods[0] == id;
    assert forall i | 0 <= i < |suffixes| :: pods[i + 1] == id + "-" + suffixes[i];
  }

  /** What is left of a creation that breaks off: the session; with it the environment, unless its insert
      fails; with them the member; and, when a pod is refused, the pods before it and, if it cannot be
      deleted again, that one. */
  lemma OpensBrokenOff(cfg: Config, db: Db, req: Request, newID: string, c: CreateCalls, k: nat)
    requires WantsItsOwn(cfg, db, req, c)
    requires (if c.countsUser then |HeldBy(db, req.user)| else 0) < cfg.maxUserEnvs
    requires (if c.countsSchool then |HeldAt(db, req.school)| else 0) < cfg.maxSchoolEnvs
    ensures var full := Opened(cfg.blueprints[req.experiment], db, req, newID);
            var s := |db.sessions|;
            var uncounted := full.sessions[s := full.sessions[s].(count := 0)];
            var r := Create(cfg, db, req, newID, c);
            if !c.inserted then r == (Db(db.envs, uncounted, db.members, db.live), Err(DatabaseError))
            else if c.binding == NotJoined then r == (Db(full.envs, uncounted, db.members, db.live), Err(DatabaseError))
            else if c.binding == NotCounted then
              r == (Db(full.envs, uncounted, full.members, db.live), Err(DatabaseError))
            else
              var pods := StartOrder(newID, cfg.blueprints[req.experiment].suffixes);
              c.refused == Some(k) && k < |pods| ==>
                var env := full.envs[|db.envs|];
                var left := db.live + (set pod <- pods[..k]) + if c.gone then {} else {pods[k]};
                r == (Db(if c.marked then db.envs + [WithStatus(env, Failed)] else full.envs,
                         full.sessions, full.members, left), Err(StartFailed))
  {
    OpensItsOwn(cfg, db, req, newID, c);
    var bp, s := cfg.blueprints[req.experiment], |db.sessions|;
    var full := Opened(bp, db, req, newID);
    assert |Joined(full.members, s)| == CountOf(full.members, s);
    assert full.sessions[s := full.sessions[s].(count := 0)] == db.sessions + [full.sessions[s].(count := 0)];
    hide Create, Started, StartOrder;
    if c.inserted && c.binding == Bound && c.refused == Some(k) {
      RefusedPod(cfg, db, req, newID, c, k);
      hide CreateNew;
    }
  }

  lemma RefusedPod(cfg: Config, db: Db, req: Request, newID: string, c: CreateCalls, k: nat)
    requires req.experiment in cfg.blueprints && c.inserted && c.binding == Bound && c.refused == Some(k)
    ensures var full := Opened(cfg.blueprints[req.experiment], db, req, newID);
            var pods := StartOrder(newID, cfg.blueprints[req.experiment].suffixes);
            k < |pods| ==>
              var env := full.envs[|db.envs|];
              var left := db.live + (set pod <- pods[..k]) + if c.gone then {} else {pods[k]};
              CreateNew(cfg, db, req, newID, c)
              == (Db(if c.marked then db.envs + [WithStatus(env, Failed)] else full.envs,
                     full.sessions, full.members, left), Err(StartFailed))
  {
    var bp, s := cfg.blueprints[req.experiment], |db.sessions|;
    var full := Opened(bp, db, req, newID);
    var pods := StartOrder(newID, bp.suffixes);
    assert |Joined(full.members, s)| == CountOf(full.members, s);
    if k < |pods| {
      StartsUpTo(pods, k, c.gone);
      hide Create, Started, StartOrder;
      var rest := if c.gone then {} else {pods[k]};
      assert db.live + ((set pod <- pods[..k]) + rest) == db.live + (set pod <- pods[..k]) + rest;
      var v := CreateNew(cfg, db, req, newID, c).0;
      assert v.sessions == full.sessions && v.members == full.members;
      assert full.envs[|db.envs|].(status := Failed) == WithStatus(full.envs[|db.envs|], Failed);
    }
  }

  lemma StartsUpTo(pods: seq<string>, k: nat, gone: bool)
    ensures k < |pods| ==>
              Started(pods, Some(k), gone) == (set pod <- pods[..k]) + (if gone then {} else {pods[k]})
  {
    if k < |pods| {
      assert pods[..k + 1] == pods[..k] + [pods[k]];
    }
  }

  /** The creation joins session `s`: the oldest open one, with room. */
  ghost predicate Joins(cfg: Config, db: Db, req: Request, c: CreateCalls, s: nat) {
    && req.experiment in cfg.blueprints && HasNone(db, req, c)
    && cfg.blueprints[req.experiment].collaboration && c.seesShared && IsOldest(db.sessions, req.experiment, s)
    && db.sessions[s].count < MembersAllowed(cfg.blueprints[req.experiment])
  }

  lemma JoinsIt(cfg: Config, db: Db, req: Request, newID: string, c: CreateCalls, s: nat)
    requires Joins(cfg, db, req, c, s)
    ensures Create(cfg, db, req, newID, c) == Attach(db, s, req, newID, c)
  {
    OldestOpen(db.sessions, req.experiment, 0);
    assert Reusable(db.sessions, req.experiment, 0) == Some(s);
    if Own(db, req, c).Some? {
      assert IsOwn(db.envs[Own(db, req, c).value], req);
    }
  }

  /** A collaborative session with room is joined, whatever the limits: the new environment has the
      status and the pods of the session's primary one, no pod is started, and the user is counted. */
  lemma JoinsWithRoom(cfg: Config, db: Db, req: Request, newID: string, c: CreateCalls, s: nat, p: nat)
    requires Joins(cfg, db, req, c, s) && IsFirst(db.envs, db.sessions[s].primary, p)
    ensures var env := Env(newID, req.experiment, s, req.user, req.school, db.envs[p].status, db.envs[p].pods);
            var members := db.members[MemberKey(s, req.user) := true];
            var x := db.sessions[s];
            var session := Session(x.experiment, x.collaboration, env.status, x.primary, x.maxMembers,
                                   CountOf(members, s));
            Create(cfg, db, req, newID, c)
            == if !c.inserted then (db, Err(DatabaseError))
               else match c.binding
                 case NotJoined => (Db(db.envs + [env], db.sessions, db.members, db.live), Err(DatabaseError))
                 case NotCounted => (Db(db.envs + [env], db.sessions, members, db.live), Err(DatabaseError))
                 case Bound => (Db(db.envs + [env], db.sessions[s := session], members, db.live), Ok(newID))
  {
    JoinsIt(cfg, db, req, newID, c, s);
    FirstOfID(db.envs, db.sessions[s].primary, 0, p);
  }

  /** A session whose primary environment is not there cannot be joined. */
  lemma JoinsNobody(cfg: Config, db: Db, req: Request, newID: string, c: CreateCalls, s: nat)
    requires Joins(cfg, db, req, c, s) && forall e <- db.envs :: e.id != db.sessions[s].primary
    ensures Create(cfg, db, req, newID, c) == (db, Err(NotFound))
  {
    JoinsIt(cfg, db, req, newID, c, s);
  }

  ghost predicate IsFirst(envs: seq<Env>, id: string, i: nat) {
    i < |envs| && envs[i].id == id && forall j | 0 <= j < i :: envs[j].id != id
  }

  lemma {:induction false} FirstOfID(envs: seq<Env>, id: string, from: nat, i: nat)
    requires from <= i < |envs| && envs[i].id == id && forall j | from <= j < i :: envs[j].id != id
    ensures FindEnvFrom(envs, id, from) == Some(i)
    decreases i - from
  {
    if from < i {
      FirstOfID(envs, id, from + 1, i);
    }
  }

  // ---- Waits and stops --------------------------------------------------------------------------

  /** `x` with its members counted again. */
  ghost function Recounted(x: Session, db: Db, s: nat, status: Status): Session {
    Session(x.experiment, x.collaboration, status, x.primary, x.maxMembers, CountOf(db.members, s))
  }

  ghost function WithStatus(e: Env, status: Status): Env {
    Env(e.id, e.experiment, e.session, e.user, e.school, status, e.pods)
  }

  /** After a wait that ended well the environment and its session run; after one that ended badly
      the environment has failed, and nothing else is touched. No pod is started or stopped. */
  lemma WaitEnds(db: Db, id: string, i: nat, refreshed: bool)
    requires IsFirst(db.envs, id, i)
    ensures var e := db.envs[i];
            var envs := db.envs[i := WithStatus(e, Running)];
            Ready(db, id, refreshed)
            == if refreshed && e.session < |db.sessions| then
                 var x := db.sessions[e.session];
                 Db(envs, db.sessions[e.session := Recounted(x, db, e.session, Running)], db.members, db.live)
               else Db(envs, db.sessions, db.members, db.live)
    ensures NotReady(db, id) == Db(db.envs[i := WithStatus(db.envs[i], Failed)], db.sessions, db.members, db.live)
  {
    FirstOfID(db.envs, id, 0, i);
  }

  /** The active environments of a session, and the joined members. */
  ghost function ActiveOf(db: Db, s: nat): set<nat> {
    set i: nat | i < |db.envs| && db.envs[i].session == s && db.envs[i].status in {Pending, Creating, Running, Paused}
  }

  /** A stop of the only active environment, or of one that is not collaborative, deletes the pods
      and terminates the environment and its session. */
  lemma StopTearsDown(cfg: Config, db: Db, id: string, i: nat, c: StopCalls)
    requires IsFirst(db.envs, id, i)
    requires var e := db.envs[i];
             || e.experiment !in cfg.blueprints || !cfg.blueprints[e.experiment].collaboration
             || !c.counted || |ActiveOf(db, e.session)| <= 1
    ensures var e := db.envs[i];
            var envs := db.envs[i := WithStatus(e, Terminated)];
            var live := db.live - (e.pods - c.kept);
            Stop(cfg, db, id, c)
            == if !c.updated then Db(db.envs, db.sessions, db.members, live)
               else if c.refreshed && e.session < |db.sessions| then
                 var x := db.sessions[e.session];
                 Db(envs, db.sessions[e.session := Recounted(x, db, e.session, Terminated)], db.members, live)
               else Db(envs, db.sessions, db.members, live)
  {
    FirstOfID(db.envs, id, 0, i);
    assert ActiveEnvs(db.envs, db.envs[i].session) == ActiveOf(db, db.envs[i].session);
  }

  /** The environment that leads session `s` once `id` has left: the first other active one. */
  ghost predicate Heads(envs: seq<Env>, s: nat, id: string, h: nat) {
    && h < |envs| && Leads(envs[h], s, id)
    && forall j | 0 <= j < h :: !Leads(envs[j], s, id)
  }

  ghost predicate Leads(e: Env, s: nat, id: string) {
    e.session == s && e.status in {Pending, Creating, Running, Paused} && e.id != id
  }

  /** While others are active a stop deletes no pod: the environment is terminated, its user leaves,
      and if it led the session the first other active environment does. `h` is that one. */
  lemma StopDetaches(cfg: Config, db: Db, id: string, i: nat, h: nat, c: StopCalls)
    requires IsFirst(db.envs, id, i) && c.counted
    requires var e := db.envs[i];
             && e.experiment in cfg.blueprints && cfg.blueprints[e.experiment].collaboration
             && |ActiveOf(db, e.session)| > 1 && e.session < |db.sessions|
             && MemberKey(e.session, e.user) in db.members
             && Heads(db.envs[i := WithStatus(e, Terminated)], e.session, id, h) && db.envs[h].id != ""
    ensures var e := db.envs[i];
            var envs := db.envs[i := WithStatus(e, Terminated)];
            var members := if c.memberLeft then db.members[MemberKey(e.session, e.user) := false] else db.members;
            var x, joined := db.sessions[e.session], CountOf(members, e.session);
            var left := Session(x.experiment, x.collaboration, Running,
                                if c.seesHeir && x.primary == id then db.envs[h].id else x.primary, x.maxMembers,
                                if joined == 0 then |ActiveOf(Db(envs, [], map[], {}), e.session)| else joined);
            Stop(cfg, db, id, c)
            == if !c.updated then db
               else Db(envs, if c.refreshed then db.sessions[e.session := left] else db.sessions, members, db.live)
  {
    FirstOfID(db.envs, id, 0, i);
    assert ActiveEnvs(db.envs, db.envs[i].session) == ActiveOf(db, db.envs[i].session);
    var e := db.envs[i];
    var envs := db.envs[i := WithStatus(e, Terminated)];
    assert e.(status := Terminated) == WithStatus(e, Terminated);
    FirstToLead(envs, e.session, id, 0, h);
    assert ActiveEnvs(envs, e.session) == ActiveOf(Db(envs, [], map[], {}), e.session);
  }

  lemma {:induction false} FirstToLead(envs: seq<Env>, s: nat, id: string, from: nat, h: nat)
    requires from <= h && Heads(envs, s, id, h)
    ensures FirstActive(envs, s, id, from) == Some(h)
    decreases h - from
  {
    if from < h {
      FirstToLead(envs, s, id, from + 1, h);
    }
  }

  // ---- How far the limits hold ------------------------------------------------------------------

  datatype Holder = User(user: nat) | School(school: nat)

  /** `e` counts against the limit of `who`, and was not joined: its experiment is not collaborative. */
  ghost predicate IsOwned(cfg: Config, e: Env, who: Holder) {
    && (match who case User(user) => e.user == user case School(school) => e.school == school)
    && e.status in {Running, Creating}
    && e.experiment in cfg.blueprints && !cfg.blueprints[e.experiment].collaboration
  }

  ghost function Owned(cfg: Config, envs: seq<Env>, who: Holder): set<nat> {
    set i: nat | i < |envs| && IsOwned(cfg, envs[i], who)
  }

  ghost function LimitOf(cfg: Config, who: Holder): nat {
    Max(0, if who.User? then cfg.maxUserEnvs else cfg.maxSchoolEnvs)
  }

  ghost predicate WithinLimits(cfg: Config, db: Db) {
    forall who: Holder :: |Owned(cfg, db.envs, who)| <= LimitOf(cfg, who)
  }

  /** Both counts are read. */
  predicate Counts(e: Event) { e.Opens? ==> e.create.countsUser && e.create.countsSchool }

  lemma NoneAdded(cfg: Config, db: Db, v: Db)
    requires WithinLimits(cfg, db)
    requires forall who, i | i in Owned(cfg, v.envs, who) :: i in Owned(cfg, db.envs, who)
    ensures WithinLimits(cfg, v)
  {
    forall who: Holder ensures |Owned(cfg, v.envs, who)| <= LimitOf(cfg, who) {
      SubsetSize(Owned(cfg, v.envs, who), Owned(cfg, db.envs, who));
    }
  }

  /** An environment was added below the limits. */
  lemma OneAdded(cfg: Config, db: Db, v: Db, req: Request)
    requires WithinLimits(cfg, db) && |v.envs| == |db.envs| + 1 && v.envs[..|db.envs|] == db.envs
    requires v.envs[|db.envs|].user == req.user && v.envs[|db.envs|].school == req.school
    requires |HeldBy(db, req.user)| < cfg.maxUserEnvs && |HeldAt(db, req.school)| < cfg.maxSchoolEnvs
    ensures WithinLimits(cfg, v)
  {
    var n := |db.envs|;
    forall who: Holder ensures |Owned(cfg, v.envs, who)| <= LimitOf(cfg, who) {
      var before := Owned(cfg, db.envs, who);
      assert forall i | 0 <= i < n :: v.envs[i] == v.envs[..n][i];
      SubsetSize(Owned(cfg, v.envs, who), before + {n});
      if who == User(req.user) {
        SubsetSize(before, HeldBy(db, req.user));
      } else if who == School(req.school) {
        SubsetSize(before, HeldAt(db, req.school));
      } else {
        SubsetSize(Owned(cfg, v.envs, who), before);
      }
    }
  }

  /** A creation adds at most one environment, and one that cannot be shared only below the limits. */
  lemma CreateAppends(cfg: Config, db: Db, req: Request, newID: string, c: CreateCalls)
    ensures var v := Create(cfg, db, req, newID, c).0;
            || v.envs == db.envs
            || (&& |v.envs| == |db.envs| + 1 && v.envs[..|db.envs|] == db.envs
                && var e := v.envs[|db.envs|];
                && e.user == req.user && e.school == req.school && e.experiment == req.experiment
                && req.experiment in cfg.blueprints
                && (!cfg.blueprints[req.experiment].collaboration && c.countsUser && c.countsSchool ==>
                      |HeldBy(db, req.user)| < cfg.maxUserEnvs && |HeldAt(db, req.school)| < cfg.maxSchoolEnvs))
  {
    hide ActiveOfUser, Started, RuntimePods;
    assert OfUser(db.envs, req.user) == HeldBy(db, req.user);
    assert OfSchool(db.envs, req.school) == HeldAt(db, req.school);
  }

  lemma OpenKeepsLimits(cfg: Config, db: Db, req: Request, newID: string, c: CreateCalls)
    requires WithinLimits(cfg, db) && c.countsUser && c.countsSchool
    ensures WithinLimits(cfg, Create(cfg, db, req, newID, c).0)
  {
    hide Create;
    var v := Create(cfg, db, req, newID, c).0;
    CreateAppends(cfg, db, req, newID, c);
    if v.envs != db.envs {
      if cfg.blueprints[req.experiment].collaboration {
        assert forall i | 0 <= i < |db.envs| :: v.envs[i] == v.envs[..|db.envs|][i];
        NoneAdded(cfg, db, v);
      } else {
        OneAdded(cfg, db, v, req);
      }
    }
  }

  /** Environments only change their status, and none starts to count again. */
  ghost predicate NoneRevived(db: Db, v: Db) {
    && |v.envs| == |db.envs|
    && forall i | 0 <= i < |db.envs| ::
         || v.envs[i] == db.envs[i]
         || (v.envs[i] == WithStatus(db.envs[i], v.envs[i].status)
             && (v.envs[i].status !in {Running, Creating} || db.envs[i].status in {Running, Creating}))
  }

  lemma OthersReviveNone(cfg: Config, db: Db, e: Event)
    requires !e.Opens? && LateWait !in FaultsOf(cfg, db, e)
    ensures NoneRevived(db, Step(cfg, db, e))
  {
    match e
    case Stops(id, c) => StopRevivesNone(cfg, db, id, c);
    case Waited(_, _, _) => hide Joined, UpdateCounters;
  }

  lemma StopRevivesNone(cfg: Config, db: Db, id: string, c: StopCalls)
    ensures NoneRevived(db, Stop(cfg, db, id, c))
  {
    hide FirstActive, Joined, ActiveEnvs, UpdateCounters, Detaches, FindEnvFrom;
  }

  lemma StepKeepsLimits(cfg: Config, db: Db, e: Event)
    requires WithinLimits(cfg, db) && Counts(e) && LateWait !in FaultsOf(cfg, db, e)
    ensures WithinLimits(cfg, Step(cfg, db, e))
  {
    hide WithinLimits, Create;
    match e
    case Opens(req, newID, c) => OpenKeepsLimits(cfg, db, req, newID, c);
    case _ =>
      OthersReviveNone(cfg, db, e);
      hide Step;
      NoneAdded(cfg, db, Step(cfg, db, e));
  }

  lemma {:induction false} RunKeepsLimits(cfg: Config, f: set<Fault>, db: Db, es: seq<Event>)
    requires WithinLimits(cfg, db) && IsRun(cfg, f, db, es) && LateWait !in f && forall e <- es :: Counts(e)
    ensures WithinLimits(cfg, Execute(cfg, db, es))
    decreases |es|
  {
    hide WithinLimits, Step, FaultsOf, Unused;
    if es != [] {
      assert es[0] in es;
      StepKeepsLimits(cfg, db, es[0]);
      RunKeepsLimits(cfg, f, Step(cfg, db, es[0]), es[1..]);
    }
  }

  ghost predicate NeverExceeds(f: set<Fault>, sees: bool) {
    forall cfg, es | IsRun(cfg, f, EMPTY, es) && (sees ==> forall e <- es :: Counts(e)) ::
      WithinLimits(cfg, Execute(cfg, EMPTY, es))
  }

  // One user with a limit of one environment, and two experiments that are not shared.

  const TIGHT := Config(map[0 := Blueprint(false, 0, []), 1 := Blueprint(false, 0, [])], 1, 9)

  function Wish(experiment: nat): Request { Request(experiment, 1, 1) }

  function Created(id: string, experiment: nat, session: nat, status: Status): Env {
    Env(id, experiment, session, 1, 1, status, {id})
  }

  lemma TightOpens(f: set<Fault>, db: Db, id: string, experiment: nat, c: CreateCalls)
    requires Unused(db, id) && experiment < 2 && c.inserted && c.binding == Bound && c.refused == None && c.seesOwn
    requires forall e <- db.envs :: e.experiment != experiment
    requires (if c.countsUser then |HeldBy(db, 1)| else 0) < 1 && |HeldAt(db, 1)| < 9
    ensures Allowed(TIGHT, f, db, Opens(Wish(experiment), id, c))
    ensures Step(TIGHT, db, Opens(Wish(experiment), id, c)).envs
         == db.envs + [Created(id, experiment, |db.sessions|, Creating)]
    ensures var v := Step(TIGHT, db, Opens(Wish(experiment), id, c)).sessions;
            |v| == |db.sessions| + 1 && v[..|db.sessions|] == db.sessions && v[|db.sessions|].primary == id
  {
    OpensBelowTheLimits(TIGHT, db, Wish(experiment), id, c);
    assert FaultsOfCreate(db, Wish(experiment), c) == {};
    assert Pods(id, []) == {id};
  }

  lemma TwoExceed(db: Db, a: Env, b: Env)
    requires db.envs == [a, b] && IsOwned(TIGHT, a, User(1)) && IsOwned(TIGHT, b, User(1))
    ensures !WithinLimits(TIGHT, db)
  {
    assert Owned(TIGHT, db.envs, User(1)) == {0, 1};
  }

  lemma Chain(cfg: Config, f: set<Fault>, db: Db, e: Event, rest: seq<Event>)
    requires Allowed(cfg, f, db, e) && IsRun(cfg, f, Step(cfg, db, e), rest)
    ensures IsRun(cfg, f, db, [e] + rest)
    ensures Execute(cfg, db, [e] + rest) == Execute(cfg, Step(cfg, db, e), rest)
  {
    assert ([e] + rest)[1..] == rest;
  }

  lemma FirstIsOpen(f: set<Fault>, a: string)
    requires Dashes(a) == 3
    ensures var e := Opens(Wish(0), a, CLEAN_CREATE);
            var db := Step(TIGHT, EMPTY, e);
            && Allowed(TIGHT, f, EMPTY, e) && db.envs == [Created(a, 0, 0, Creating)]
            && |db.sessions| == 1 && db.sessions[0].primary == a
  {
    assert HeldBy(EMPTY, 1) == {} && HeldAt(EMPTY, 1) == {};
    TightOpens(f, EMPTY, a, 0, CLEAN_CREATE);
  }

  /** The second creation does not learn of the first. */
  lemma UncountedExceeds(f: set<Fault>)
    ensures !NeverExceeds(f, false)
  {
    hide Step, WithinLimits, Allowed;
    var a, b := "a---", "b---";
    assert Dashes("-") == 1 && Dashes("--") == 2 && Dashes("---") == 3 && a[0] != b[0];
    var first, second := Opens(Wish(0), a, CLEAN_CREATE), Opens(Wish(1), b, CLEAN_CREATE.(countsUser := false));
    FirstIsOpen(f, a);
    var db := Step(TIGHT, EMPTY, first);
    assert HeldAt(db, 1) == {0};
    assert FindEnv(db.envs, b) == None;
    TightOpens(f, db, b, 1, second.create);
    TwoExceed(Step(TIGHT, db, second), Created(a, 0, 0, Creating), Created(b, 1, 1, Creating));
    Chain(TIGHT, f, db, second, []);
    Chain(TIGHT, f, EMPTY, first, [second] + []);
  }

  lemma FirstIsStopped(f: set<Fault>, db: Db, a: string)
    requires db.envs == [Created(a, 0, 0, Creating)] && |db.sessions| == 1 && db.sessions[0].primary == a
    ensures var e := Stops(a, CLEAN_STOP);
            var v := Step(TIGHT, db, e);
            && Allowed(TIGHT, f, db, e) && v.envs == [Created(a, 0, 0, Terminated)]
            && |v.sessions| == 1 && v.sessions[0].primary == a
  {
    StopTearsDown(TIGHT, db, a, 0, CLEAN_STOP);
    FirstOfID(db.envs, a, 0, 0);
  }

  lemma WaitRevives(f: set<Fault>, db: Db, a: string, b: string)
    requires LateWait in f && a != b
    requires db.envs == [Created(a, 0, 0, Terminated), Created(b, 1, 1, Creating)]
    ensures var e := Waited(a, true, true);
            Allowed(TIGHT, f, db, e) && !WithinLimits(TIGHT, Step(TIGHT, db, e))
  {
    WaitEnds(db, a, 0, true);
    FirstOfID(db.envs, a, 0, 0);
    TwoExceed(Step(TIGHT, db, Waited(a, true, true)), Created(a, 0, 0, Running), Created(b, 1, 1, Creating));
  }

  /** The first environment is stopped, the second created, and then the wait for the first ends well. */
  lemma LateWaitExceeds(f: set<Fault>)
    requires LateWait in f
    ensures !NeverExceeds(f, true)
  {
    hide Step, WithinLimits, Allowed;
    var a, b := "a---", "b---";
    assert Dashes("-") == 1 && Dashes("--") == 2 && Dashes("---") == 3 && a[0] != b[0];
    var first, stop, second, wait :=
      Opens(Wish(0), a, CLEAN_CREATE), Stops(a, CLEAN_STOP), Opens(Wish(1), b, CLEAN_CREATE), Waited(a, true, true);
    FirstIsOpen(f, a);
    var open := Step(TIGHT, EMPTY, first);
    FirstIsStopped(f, open, a);
    var stopped := Step(TIGHT, open, stop);
    assert HeldBy(stopped, 1) == {} && HeldAt(stopped, 1) == {} && FindEnv(stopped.envs, b) == None;
    TightOpens(f, stopped, b, 1, CLEAN_CREATE);
    var both := Step(TIGHT, stopped, second);
    WaitRevives(f, both, a, b);
    Chain(TIGHT, f, both, wait, []);
    Chain(TIGHT, f, stopped, second, [wait] + []);
    Chain(TIGHT, f, open, stop, [second] + ([wait] + []));
    Chain(TIGHT, f, EMPTY, first, [stop] + ([second] + ([wait] + [])));
  }

  /** Over all runs, whatever else fails, nobody has more environments of experiments that are not
      shared than the limits allow, if and only if the counts are read and no wait is late. */
  lemma NeverExceedsIff(f: set<Fault>, sees: bool)
    ensures NeverExceeds(f, sees) <==> sees && LateWait !in f
  {
    hide WithinLimits;
    if !sees {
      UncountedExceeds(f);
    } else if LateWait in f {
      LateWaitExceeds(f);
    } else {
      forall cfg, es | IsRun(cfg, f, EMPTY, es) && forall e <- es :: Counts(e)
        ensures WithinLimits(cfg, Execute(cfg, EMPTY, es))
      {
        NothingHeld(cfg);
        RunKeepsLimits(cfg, f, EMPTY, es);
      }
    }
  }

  lemma NothingHeld(cfg: Config)
    ensures WithinLimits(cfg, EMPTY)
  {
    assert forall who :: Owned(cfg, EMPTY.envs, who) == {};
  }

  // One shared experiment and one that is not, with a limit of one environment.

  const MIXED := Config(map[0 := Blueprint(true, 0, []), 1 := Blueprint(false, 0, [])], 1, 9)

  lemma SharedIsOpen(a: string)
    requires Dashes(a) == 3
    ensures var e := Opens(Request(0, 2, 2), a, CLEAN_CREATE);
            && Allowed(MIXED, {}, EMPTY, e)
            && Step(MIXED, EMPTY, e)
            == Db([Env(a, 0, 0, 2, 2, Creating, {a})], [Session(0, true, Creating, a, 4, 1)],
                  map[MemberKey(0, 2) := true], {a})
  {
    assert HeldBy(EMPTY, 2) == {} && HeldAt(EMPTY, 2) == {};
    OpensBelowTheLimits(MIXED, EMPTY, Request(0, 2, 2), a, CLEAN_CREATE);
    assert FaultsOfCreate(EMPTY, Request(0, 2, 2), CLEAN_CREATE) == {};
    var members := map[MemberKey(0, 2) := true];
    assert (set key | key in members && key.session == 0 && members[key]) == {MemberKey(0, 2)};
    assert Pods(a, []) == {a};
  }

  lemma OwnIsOpen(a: string, b: string, db: Db)
    requires Dashes(b) == 3 && a != b
    requires db == Db([Env(a, 0, 0, 2, 2, Creating, {a})], [Session(0, true, Creating, a, 4, 1)],
                      map[MemberKey(0, 2) := true], {a})
    ensures var e := Opens(Wish(1), b, CLEAN_CREATE);
            && Allowed(MIXED, {}, db, e)
            && Step(MIXED, db, e).envs == db.envs + [Created(b, 1, 1, Creating)]
            && |Step(MIXED, db, e).sessions| == 2 && Step(MIXED, db, e).sessions[0] == db.sessions[0]
            && Step(MIXED, db, e).sessions[1].primary == b
  {
    assert HeldBy(db, 1) == {} && HeldAt(db, 1) == {};
    OpensBelowTheLimits(MIXED, db, Wish(1), b, CLEAN_CREATE);
    assert FaultsOfCreate(db, Wish(1), CLEAN_CREATE) == {};
    assert Pods(b, []) == {b};
  }

  lemma JoinsAtTheLimit(a: string, b: string, c: string, db: Db)
    requires Dashes(c) == 3 && a != b && c != a && c != b
    requires db.envs == [Env(a, 0, 0, 2, 2, Creating, {a}), Created(b, 1, 1, Creating)]
    requires |db.sessions| == 2 && db.sessions[0] == Session(0, true, Creating, a, 4, 1) && db.sessions[1].primary == b
    ensures var e := Opens(Wish(0), c, CLEAN_CREATE);
            Allowed(MIXED, {}, db, e) && |HeldBy(Step(MIXED, db, e), 1)| == 2
  {
    JoinsWithRoom(MIXED, db, Wish(0), c, CLEAN_CREATE, 0, 0);
    assert FaultsOfCreate(db, Wish(0), CLEAN_CREATE) == {};
    assert HeldBy(Step(MIXED, db, Opens(Wish(0), c, CLEAN_CREATE)), 1) == {1, 2};
  }

  /** Environments that are joined do not ask for the limits: without any failure, a user who holds
      as many as allowed gets one more by joining a session. */
  lemma JoiningExceeds() returns (es: seq<Event>)
    ensures IsRun(MIXED, {}, EMPTY, es) && forall e <- es :: Counts(e)
    ensures |HeldBy(Execute(MIXED, EMPTY, es), 1)| > MIXED.maxUserEnvs
  {
    hide Step, Allowed;
    var a, b, c := "a---", "b---", "c---";
    assert Dashes("-") == 1 && Dashes("--") == 2 && Dashes("---") == 3 && a[0] != b[0] && c[0] != a[0] && c[0] != b[0];
    var other, own, join :=
      Opens(Request(0, 2, 2), a, CLEAN_CREATE), Opens(Wish(1), b, CLEAN_CREATE), Opens(Wish(0), c, CLEAN_CREATE);
    SharedIsOpen(a);
    var open := Step(MIXED, EMPTY, other);
    OwnIsOpen(a, b, open);
    var both := Step(MIXED, open, own);
    JoinsAtTheLimit(a, b, c, both);
    Chain(MIXED, {}, both, join, []);
    Chain(MIXED, {}, open, own, [join] + []);
    Chain(MIXED, {}, EMPTY, other, [own] + ([join] + []));
    es := [other] + ([own] + ([join] + []));
  }
}

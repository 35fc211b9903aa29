/** Teams of a contest: create, join, register, leave, invite, remove
    (backend/internal/service/contest_team_service.go:13-141, 217-269 and the team tables of
    backend/internal/repository/contest_repository.go:378-526). */
module Teams {
  import opened Common

  datatype Contest = Contest(teamMaxSize: int, maxParticipants: int)

  /** A team is named by its position. */
  datatype Team = Team(contest: nat, leader: nat)

  /** A row of the member table. A removed member's row stays, marked `gone`, and still blocks
      the pair of team and user: the unique index does not know about soft deletion. */
  datatype Member = Member(team: nat, user: nat, leader: bool, gone: bool)

  datatype Db = Db(teams: seq<Team>, members: seq<Member>)

  type Contests = map<nat, Contest>

  datatype Error =
    | ContestNotFound | TeamNotFound | Closed | SizeMismatch | AlreadyInTeam | TeamFull | Denied | OnSelf | Duplicate

  datatype Outcome = Done | Failed(error: Error)

  /** `open` says whether the contest is accessible and open for registration at that moment. */
  datatype Op =
    | Create(user: nat, contest: nat, open: bool)
    | Join(user: nat, team: nat, open: bool)
    | Register(user: nat, contest: nat, open: bool)
    | Leave(user: nat, team: nat)
    | Invite(leader: nat, team: nat, user: nat)
    | Remove(leader: nat, team: nat, user: nat)

  // ---- Queries -------------------------------------------------------------------------------------

  predicate LiveIn(db: Db, i: nat, contest: nat)
    requires i < |db.members|
  {
    var m := db.members[i];
    !m.gone && m.team < |db.teams| && db.teams[m.team].contest == contest
  }

  predicate IsInAnyTeam(db: Db, contest: nat, user: nat) {
    exists i | 0 <= i < |db.members| :: LiveIn(db, i, contest) && db.members[i].user == user
  }

  predicate HasRow(db: Db, team: nat, user: nat) {
    exists i | 0 <= i < |db.members| :: db.members[i].team == team && db.members[i].user == user
  }

  function CountMembers(members: seq<Member>, team: nat): nat {
    if members == [] then 0
    else
      var last := members[|members| - 1];
      CountMembers(members[..|members| - 1], team) + if !last.gone && last.team == team then 1 else 0
  }

  function CountParticipants(teams: seq<Team>, members: seq<Member>, contest: nat): nat {
    if members == [] then 0
    else
      var last := members[|members| - 1];
      CountParticipants(teams, members[..|members| - 1], contest)
      + if !last.gone && last.team < |teams| && teams[last.team].contest == contest then 1 else 0
  }

  // ---- Operations ------------------------------------------------------------------------------------

  function AddTeam(db: Db, contest: nat, user: nat): Db {
    Db(db.teams + [Team(contest, user)], db.members + [Member(|db.teams|, user, true, false)])
  }

  /** Inserting a member row fails when the pair has a row already, live or gone. */
  function AddMember(db: Db, team: nat, user: nat): (Db, Outcome) {
    if HasRow(db, team, user) then (db, Failed(Duplicate))
    else (db.(members := db.members + [Member(team, user, false, false)]), Done)
  }

  function Drop(members: seq<Member>, team: nat, user: nat): seq<Member> {
    seq(|members|, i requires 0 <= i < |members| =>
      if members[i].team == team && members[i].user == user then members[i].(gone := true) else members[i])
  }

  function Apply(cs: Contests, db: Db, op: Op): (Db, Outcome) {
    match op
    case Create(user, contest, open) =>
      if contest !in cs then (db, Failed(ContestNotFound))
      else if !open then (db, Failed(Closed))
      else if cs[contest].teamMaxSize <= 1 then (db, Failed(SizeMismatch))
      else if IsInAnyTeam(db, contest, user) then (db, Failed(AlreadyInTeam))
      else (AddTeam(db, contest, user), Done)
    case Join(user, team, open) =>
      if team >= |db.teams| then (db, Failed(TeamNotFound))
      else
        var contest := db.teams[team].contest;
        if IsInAnyTeam(db, contest, user) then (db, Failed(AlreadyInTeam))
        else if contest !in cs then (db, Failed(ContestNotFound))
        else if !open then (db, Failed(Closed))
        else if cs[contest].teamMaxSize <= 1 then (db, Failed(SizeMismatch))
        else if CountMembers(db.members, team) >= cs[contest].teamMaxSize then (db, Failed(TeamFull))
        else AddMember(db, team, user)
    case Register(user, contest, open) =>
      if contest !in cs then (db, Failed(ContestNotFound))
      else if !open then (db, Failed(Closed))
      else if cs[contest].maxParticipants > 0
              && CountParticipants(db.teams, db.members, contest) >= cs[contest].maxParticipants
      then (db, Failed(TeamFull))
      else if IsInAnyTeam(db, contest, user) then (db, Failed(AlreadyInTeam))
      else if cs[contest].teamMaxSize == 1 then (AddTeam(db, contest, user), Done)
      else (db, Done)
    case Leave(user, team) =>
      if team >= |db.teams| then (db, Failed(TeamNotFound))
      else if db.teams[team].leader == user then (db, Failed(Denied))
      else (db.(members := Drop(db.members, team, user)), Done)
    case Invite(leader, team, user) =>
      if team >= |db.teams| then (db, Failed(TeamNotFound))
      else if db.teams[team].leader != leader then (db, Failed(Denied))
      else if IsInAnyTeam(db, db.teams[team].contest, user) then (db, Failed(AlreadyInTeam))
      else if db.teams[team].contest in cs
              && CountMembers(db.members, team) >= cs[db.teams[team].contest].teamMaxSize then (db, Failed(TeamFull))
      else AddMember(db, team, user)
    case Remove(leader, team, user) =>
      if team >= |db.teams| then (db, Failed(TeamNotFound))
      else if db.teams[team].leader != leader then (db, Failed(Denied))
      else if user == leader then (db, Failed(OnSelf))
      else (db.(members := Drop(db.members, team, user)), Done)
  }

  class ContestService {
    const contests: Contests
    var teams: seq<Team>
    var members: seq<Member>

    ghost function Tables(): Db
      reads this
    {
      Db(teams, members)
    }

    constructor (contests: Contests)
      ensures this.contests == contests && Tables() == Db([], [])
    {
      this.contests := contests;
      teams, members := [], [];
    }

    method StoreTeam(contest: nat, user: nat)
      modifies this
      ensures Tables() == AddTeam(old(Tables()), contest, user)
    {
      var team := |teams|;
      teams := teams + [Team(contest, user)];
      members := members + [Member(team, user, true, false)];
    }

    method StoreMember(team: nat, user: nat) returns (outcome: Outcome)
      modifies this`members
      ensures (Tables(), outcome) == AddMember(old(Tables()), team, user)
    {
      if HasRow(Db(teams, members), team, user) {
        return Failed(Duplicate);
      }
      members := members + [Member(team, user, false, false)];
      return Done;
    }

    method CreateTeam(user: nat, contest: nat, open: bool) returns (outcome: Outcome)
      modifies this
      ensures (Tables(), outcome) == Apply(contests, old(Tables()), Create(user, contest, open))
    {
      if contest !in contests {
        return Failed(ContestNotFound);
      }
      if !open {
        return Failed(Closed);
      }
      if contests[contest].teamMaxSize <= 1 {
        return Failed(SizeMismatch);
      }
      if IsInAnyTeam(Db(teams, members), contest, user) {
        return Failed(AlreadyInTeam);
      }
      StoreTeam(contest, user);
      return Done;
    }

    method JoinTeam(user: nat, team: nat, open: bool) returns (outcome: Outcome)
      modifies this`members
      ensures (Tables(), outcome) == Apply(contests, old(Tables()), Join(user, team, open))
    {
      if team >= |teams| {
        return Failed(TeamNotFound);
      }
      var contest := teams[team].contest;
      if IsInAnyTeam(Db(teams, members), contest, user) {
        return Failed(AlreadyInTeam);
      }
      if contest !in contests {
        return Failed(ContestNotFound);
      }
      if !open {
        return Failed(Closed);
      }
      if contests[contest].teamMaxSize <= 1 {
        return Failed(SizeMismatch);
      }
      if CountMembers(members, team) >= contests[contest].teamMaxSize {
        return Failed(TeamFull);
      }
      outcome := StoreMember(team, user);
    }

    method RegisterContest(user: nat, contest: nat, open: bool) returns (outcome: Outcome)
      modifies this
      ensures (Tables(), outcome) == Apply(contests, old(Tables()), Register(user, contest, open))
    {
      if contest !in contests {
        return Failed(ContestNotFound);
      }
      if !open {
        return Failed(Closed);
      }
      if contests[contest].maxParticipants > 0 {
        var count := CountParticipants(teams, members, contest);
        if count >= contests[contest].maxParticipants {
          return Failed(TeamFull);
        }
      }
      if IsInAnyTeam(Db(teams, members), contest, user) {
        return Failed(AlreadyInTeam);
      }
      if contests[contest].teamMaxSize == 1 {
        StoreTeam(contest, user);
      }
      return Done;
    }

    method LeaveTeam(user: nat, team: nat) returns (outcome: Outcome)
      modifies this`members
      ensures (Tables(), outcome) == Apply(contests, old(Tables()), Leave(user, team))
    {
      if team >= |teams| {
        return Failed(TeamNotFound);
      }
      if teams[team].leader == user {
        return Failed(Denied);
      }
      members := Drop(members, team, user);
      return Done;
    }

    method InviteTeamMember(leader: nat, team: nat, user: nat) returns (outcome: Outcome)
      modifies this`members
      ensures (Tables(), outcome) == Apply(contests, old(Tables()), Invite(leader, team, user))
    {
      if team >= |teams| {
        return Failed(TeamNotFound);
      }
      if teams[team].leader != leader {
        return Failed(Denied);
      }
      var contest := teams[team].contest;
      if IsInAnyTeam(Db(teams, members), contest, user) {
        return Failed(AlreadyInTeam);
      }
      var count := CountMembers(members, team);
      if contest in contests && count >= contests[contest].teamMaxSize {
        return Failed(TeamFull);
      }
      outcome := StoreMember(team, user);
    }

    method RemoveTeamMember(leader: nat, team: nat, user: nat) returns (outcome: Outcome)
      modifies this`members
      ensures (Tables(), outcome) == Apply(contests, old(Tables()), Remove(leader, team, user))
    {
      if team >= |teams| {
        return Failed(TeamNotFound);
      }
      if teams[team].leader != leader {
        return Failed(Denied);
      }
      if user == leader {
        return Failed(OnSelf);
      }
      members := Drop(members, team, user);
      return Done;
    }
  }

  // ---- What every run keeps ------------------------------------------------------------------------------

  /** Two live rows of one user are in different contests. */
  ghost predicate OneTeamEach(db: Db) {
    forall i, j | 0 <= i < j < |db.members| && !db.members[i].gone && !db.members[j].gone
                  && db.members[i].user == db.members[j].user
                  && db.members[i].team < |db.teams| && db.members[j].team < |db.teams| ::
      db.teams[db.members[i].team].contest != db.teams[db.members[j].team].contest
  }

  ghost predicate LeaderIsIn(db: Db, team: nat)
    requires team < |db.teams|
  {
    exists i | 0 <= i < |db.members| ::
      db.members[i].team == team && db.members[i].user == db.teams[team].leader && !db.members[i].gone
  }

  ghost predicate SizeFits(cs: Contests, db: Db, team: nat)
    requires team < |db.teams|
  {
    && db.teams[team].contest in cs
    && CountMembers(db.members, team) <= cs[db.teams[team].contest].teamMaxSize
  }

  ghost predicate HasRoom(cs: Contests, db: Db, team: nat)
    requires team < |db.teams|
  {
    && db.teams[team].contest in cs
    && CountMembers(db.members, team) < cs[db.teams[team].contest].teamMaxSize
  }

  ghost predicate Known(db: Db) { forall i | 0 <= i < |db.members| :: db.members[i].team < |db.teams| }

  ghost predicate Fair(cs: Contests, db: Db) {
    && Known(db) && OneTeamEach(db)
    && (forall t | 0 <= t < |db.teams| :: LeaderIsIn(db, t))
    && (forall t | 0 <= t < |db.teams| :: SizeFits(cs, db, t))
  }

  lemma {:induction false} NoRowsNoCount(members: seq<Member>, team: nat)
    requires forall i | 0 <= i < |members| :: members[i].team != team
    ensures CountMembers(members, team) == 0
  {
    if members != [] {
      NoRowsNoCount(members[..|members| - 1], team);
    }
  }

  lemma AppendedCounts(members: seq<Member>, m: Member, team: nat)
    ensures CountMembers(members + [m], team)
            == CountMembers(members, team) + if !m.gone && m.team == team then 1 else 0
  {
    assert (members + [m])[..|members|] == members;
  }

  lemma AddedTeamIsFair(cs: Contests, db: Db, contest: nat, user: nat)
    requires Fair(cs, db) && contest in cs && cs[contest].teamMaxSize >= 1 && !IsInAnyTeam(db, contest, user)
    ensures Fair(cs, AddTeam(db, contest, user))
  {
    var v, m := AddTeam(db, contest, user), Member(|db.teams|, user, true, false);
    assert forall i | 0 <= i < |db.members| :: v.members[i] == db.members[i];
    assert v.members[|db.members|] == m;
    assert OneTeamEach(v) by {
      assert forall i | 0 <= i < |db.members| && db.members[i].user == user && !db.members[i].gone ::
        !LiveIn(db, i, contest);
    }
    forall t | 0 <= t < |v.teams| ensures LeaderIsIn(v, t) && SizeFits(cs, v, t) {
      AppendedCounts(db.members, m, t);
      if t < |db.teams| {
        assert LeaderIsIn(db, t) && SizeFits(cs, db, t);
        LeaderStays(db, v, t);
      } else {
        NoRowsNoCount(db.members, t);
      }
    }
  }

  lemma LeaderStays(db: Db, v: Db, team: nat)
    requires team < |db.teams| <= |v.teams| && v.teams[team] == db.teams[team] && LeaderIsIn(db, team)
    requires |db.members| <= |v.members|
    requires forall i | 0 <= i < |db.members| && db.members[i].team == team
             && db.members[i].user == db.teams[team].leader ::
      v.members[i] == db.members[i]
    ensures LeaderIsIn(v, team)
  {
    var i :| 0 <= i < |db.members| && db.members[i].team == team && db.members[i].user == db.teams[team].leader
             && !db.members[i].gone;
    assert v.members[i] == db.members[i];
  }

  lemma AddedMemberIsFair(cs: Contests, db: Db, team: nat, user: nat)
    requires Fair(cs, db) && team < |db.teams| && !IsInAnyTeam(db, db.teams[team].contest, user)
    requires HasRoom(cs, db, team)
    ensures Fair(cs, AddMember(db, team, user).0)
  {
    if !HasRow(db, team, user) {
      var v, m := AddMember(db, team, user).0, Member(team, user, false, false);
      assert forall i | 0 <= i < |db.members| :: v.members[i] == db.members[i];
      assert v.members[|db.members|] == m;
      assert OneTeamEach(v) by {
        assert forall i | 0 <= i < |db.members| && db.members[i].user == user && !db.members[i].gone ::
          !LiveIn(db, i, db.teams[team].contest);
      }
      forall t | 0 <= t < |v.teams| ensures LeaderIsIn(v, t) && SizeFits(cs, v, t) {
        AppendedCounts(db.members, m, t);
        assert LeaderIsIn(db, t) && SizeFits(cs, db, t);
        LeaderStays(db, v, t);
      }
    }
  }

  lemma {:induction false} DropCounts(members: seq<Member>, team: nat, user: nat, t: nat)
    ensures CountMembers(Drop(members, team, user), t) <= CountMembers(members, t)
  {
    if members != [] {
      var front := members[..|members| - 1];
      DropCounts(front, team, user, t);
      assert Drop(members, team, user)[..|front|] == Drop(front, team, user);
    }
  }

  lemma DroppedIsFair(cs: Contests, db: Db, team: nat, user: nat)
    requires Fair(cs, db) && team < |db.teams| && db.teams[team].leader != user
    ensures Fair(cs, db.(members := Drop(db.members, team, user)))
  {
    var v := db.(members := Drop(db.members, team, user));
    forall t | 0 <= t < |v.teams| ensures LeaderIsIn(v, t) && SizeFits(cs, v, t) {
      DropCounts(db.members, team, user, t);
      assert LeaderIsIn(db, t) && SizeFits(cs, db, t);
      LeaderStays(db, v, t);
    }
  }

  lemma ApplyKeepsFair(cs: Contests, db: Db, op: Op)
    requires Fair(cs, db)
    ensures Fair(cs, Apply(cs, db, op).0)
  {
    match op
    case Create(user, contest, open) =>
      if contest in cs && cs[contest].teamMaxSize > 1 && !IsInAnyTeam(db, contest, user) {
        AddedTeamIsFair(cs, db, contest, user);
      }
    case Register(user, contest, open) =>
      if contest in cs && cs[contest].teamMaxSize == 1 && !IsInAnyTeam(db, contest, user) {
        AddedTeamIsFair(cs, db, contest, user);
      }
    case Join(user, team, open) =>
      if team < |db.teams| {
        MemberCase(cs, db, team, user);
      }
    case Invite(leader, team, user) =>
      if team < |db.teams| {
        MemberCase(cs, db, team, user);
      }
    case Leave(user, team) =>
      if team < |db.teams| && db.teams[team].leader != user {
        DroppedIsFair(cs, db, team, user);
      }
    case Remove(leader, team, user) =>
      if team < |db.teams| && db.teams[team].leader == leader && user != leader {
        DroppedIsFair(cs, db, team, user);
      }
  }

  lemma MemberCase(cs: Contests, db: Db, team: nat, user: nat)
    requires Fair(cs, db) && team < |db.teams|
    ensures db.teams[team].contest in cs
    ensures !IsInAnyTeam(db, db.teams[team].contest, user) && HasRoom(cs, db, team)
            ==> Fair(cs, AddMember(db, team, user).0)
  {
    assert SizeFits(cs, db, team);
    if !IsInAnyTeam(db, db.teams[team].contest, user) && HasRoom(cs, db, team) {
      AddedMemberIsFair(cs, db, team, user);
    }
  }

  function Run(cs: Contests, ops: seq<Op>): Db {
    if ops == [] then Db([], []) else Apply(cs, Run(cs, ops[..|ops| - 1]), ops[|ops| - 1]).0
  }

  /** After any run: nobody is in two teams of a contest, every leader is a member of the team,
      and no team is larger than its contest allows. */
  lemma {:induction false} RunIsFair(cs: Contests, ops: seq<Op>)
    ensures Fair(cs, Run(cs, ops))
  {
    if ops != [] {
      RunIsFair(cs, ops[..|ops| - 1]);
      ApplyKeepsFair(cs, Run(cs, ops[..|ops| - 1]), ops[|ops| - 1]);
    }
  }

  // ---- No way back ------------------------------------------------------------------------------------------

  /** The pair has a row, and it is gone. */
  ghost predicate Out(db: Db, team: nat, user: nat) {
    && HasRow(db, team, user)
    && forall i | 0 <= i < |db.members| && db.members[i].team == team && db.members[i].user == user ::
      db.members[i].gone
  }

  lemma ApplyKeepsOut(cs: Contests, db: Db, op: Op, team: nat, user: nat)
    requires Known(db) && Out(db, team, user)
    ensures Known(Apply(cs, db, op).0) && Out(Apply(cs, db, op).0, team, user)
  {
    var v := Apply(cs, db, op).0;
    var i :| 0 <= i < |db.members| && db.members[i].team == team && db.members[i].user == user;
    assert v.members[i].team == team && v.members[i].user == user;
  }

  function Continue(cs: Contests, db: Db, ops: seq<Op>): Db
    decreases |ops|
  {
    if ops == [] then db else Continue(cs, Apply(cs, db, ops[0]).0, ops[1..])
  }

  lemma {:induction false} ContinueKeepsOut(cs: Contests, db: Db, ops: seq<Op>, team: nat, user: nat)
    requires Known(db) && Out(db, team, user)
    ensures Out(Continue(cs, db, ops), team, user)
    decreases |ops|
  {
    if ops != [] {
      ApplyKeepsOut(cs, db, ops[0], team, user);
      ContinueKeepsOut(cs, Apply(cs, db, ops[0]).0, ops[1..], team, user);
    }
  }

  /** Who leaves a team, or is removed from it, is never again a live member of that team,
      whatever happens later. */
  lemma LeavingIsFinal(cs: Contests, before: seq<Op>, op: Op, after: seq<Op>)
    requires op.Leave? || op.Remove?
    requires HasRow(Run(cs, before), op.team, op.user)
    requires Apply(cs, Run(cs, before), op).1 == Done
    ensures Out(Continue(cs, Apply(cs, Run(cs, before), op).0, after), op.team, op.user)
  {
    var db := Run(cs, before);
    RunIsFair(cs, before);
    var v := Apply(cs, db, op).0;
    var i :| 0 <= i < |db.members| && db.members[i].team == op.team && db.members[i].user == op.user;
    assert v.members[i].team == op.team && v.members[i].user == op.user;
    ContinueKeepsOut(cs, v, after, op.team, op.user);
  }

  /** Neither joining nor an invitation brings such a user back. */
  lemma OutCannotReturn(cs: Contests, db: Db, team: nat, user: nat, leader: nat, open: bool)
    requires Out(db, team, user)
    ensures Apply(cs, db, Join(user, team, open)) == (db, Apply(cs, db, Join(user, team, open)).1)
    ensures Apply(cs, db, Join(user, team, open)).1.Failed? && Apply(cs, db, Invite(leader, team, user)).1.Failed?
  {
    var i :| 0 <= i < |db.members| && db.members[i].team == team && db.members[i].user == user;
    assert HasRow(db, team, user);
  }

  // ---- The limit on participants --------------------------------------------------------------------------------

  function Participants(db: Db, contest: nat): nat { CountParticipants(db.teams, db.members, contest) }

  lemma {:induction false} MoreTeamsSameCount(teams: seq<Team>, more: seq<Team>, members: seq<Member>, contest: nat)
    requires forall i | 0 <= i < |members| :: members[i].team < |teams|
    ensures CountParticipants(teams + more, members, contest) == CountParticipants(teams, members, contest)
  {
    if members != [] {
      MoreTeamsSameCount(teams, more, members[..|members| - 1], contest);
    }
  }

  lemma AddedTeamCounts(db: Db, contest: nat, user: nat, c: nat)
    requires Known(db)
    ensures Participants(AddTeam(db, contest, user), c) == Participants(db, c) + if c == contest then 1 else 0
  {
    var v := AddTeam(db, contest, user);
    MoreTeamsSameCount(db.teams, [Team(contest, user)], db.members, c);
    assert v.members[..|db.members|] == db.members;
  }

  lemma AddedMemberCounts(db: Db, team: nat, user: nat, c: nat)
    requires team < |db.teams|
    ensures Participants(AddMember(db, team, user).0, c)
            <= Participants(db, c) + if db.teams[team].contest == c then 1 else 0
  {
    assert (db.members + [Member(team, user, false, false)])[..|db.members|] == db.members;
  }

  lemma {:induction false} DroppedCounts(teams: seq<Team>, members: seq<Member>, team: nat, user: nat, c: nat)
    ensures CountParticipants(teams, Drop(members, team, user), c) <= CountParticipants(teams, members, c)
  {
    if members != [] {
      var front := members[..|members| - 1];
      DroppedCounts(teams, front, team, user, c);
      assert Drop(members, team, user)[..|front|] == Drop(front, team, user);
    }
  }

  lemma {:induction false} LeaderCounts(members: seq<Member>, i: nat, team: nat)
    requires i < |members| && members[i].team == team && !members[i].gone
    ensures CountMembers(members, team) >= 1
  {
    if i < |members| - 1 {
      LeaderCounts(members[..|members| - 1], i, team);
    }
  }

  /** The leader takes one place of every team. */
  lemma TeamHasLeader(cs: Contests, db: Db, team: nat)
    requires Fair(cs, db) && team < |db.teams|
    ensures CountMembers(db.members, team) >= 1
  {
    assert LeaderIsIn(db, team);
    var i :| 0 <= i < |db.members| && db.members[i].team == team && db.members[i].user == db.teams[team].leader
             && !db.members[i].gone;
    LeaderCounts(db.members, i, team);
  }

  /** In a solo contest only registration adds members: the leader takes the only place. */
  lemma SoloStep(cs: Contests, db: Db, op: Op, c: nat)
    requires Fair(cs, db) && c in cs && cs[c].teamMaxSize <= 1 && cs[c].maxParticipants > 0
    requires Participants(db, c) <= cs[c].maxParticipants
    ensures Participants(Apply(cs, db, op).0, c) <= cs[c].maxParticipants
  {
    hide LeaderIsIn, SizeFits, OneTeamEach, CountMembers, CountParticipants, IsInAnyTeam;
    match op
    case Create(user, contest, open) => AddedTeamCounts(db, contest, user, c);
    case Register(user, contest, open) => AddedTeamCounts(db, contest, user, c);
    case Join(user, team, open) =>
      if team < |db.teams| {
        AddedMemberCounts(db, team, user, c);
      }
    case Invite(leader, team, user) =>
      if team < |db.teams| {
        AddedMemberCounts(db, team, user, c);
        TeamHasLeader(cs, db, team);
      }
    case Leave(user, team) => DroppedCounts(db.teams, db.members, team, user, c);
    case Remove(leader, team, user) => DroppedCounts(db.teams, db.members, team, user, c);
  }

  lemma {:induction false} SoloStaysWithin(cs: Contests, ops: seq<Op>, c: nat)
    requires c in cs && cs[c].teamMaxSize <= 1 && cs[c].maxParticipants > 0
    ensures Participants(Run(cs, ops), c) <= cs[c].maxParticipants
  {
    if ops != [] {
      var front := ops[..|ops| - 1];
      SoloStaysWithin(cs, front, c);
      RunIsFair(cs, front);
      SoloStep(cs, Run(cs, front), ops[|ops| - 1], c);
    }
  }

  /** Users 0 to n-1 each create a team: nothing counts participants then. */
  function Founders(c: nat, n: nat): seq<Op> {
    if n == 0 then [] else Founders(c, n - 1) + [Create(n - 1, c, true)]
  }

  ghost predicate Founded(db: Db, c: nat, n: nat) {
    Known(db) && Participants(db, c) == n && forall i | 0 <= i < |db.members| :: db.members[i].user < n
  }

  lemma OneMoreFounder(cs: Contests, db: Db, c: nat, n: nat)
    requires c in cs && cs[c].teamMaxSize > 1 && Founded(db, c, n)
    ensures Founded(Apply(cs, db, Create(n, c, true)).0, c, n + 1)
  {
    var v := AddTeam(db, c, n);
    assert Apply(cs, db, Create(n, c, true)) == (v, Done) by {
      assert !IsInAnyTeam(db, c, n);
    }
    AddedTeamCounts(db, c, n, c);
    forall i | 0 <= i < |v.members| ensures v.members[i].user < n + 1 && v.members[i].team < |v.teams| {
      assert i < |db.members| ==> v.members[i] == db.members[i];
    }
  }

  lemma RunAppended(cs: Contests, ops: seq<Op>, op: Op)
    ensures Run(cs, ops + [op]) == Apply(cs, Run(cs, ops), op).0
  {
    assert (ops + [op])[..|ops|] == ops;
  }

  lemma {:induction false} FoundersAllFit(cs: Contests, c: nat, n: nat)
    requires c in cs && cs[c].teamMaxSize > 1
    ensures Founded(Run(cs, Founders(c, n)), c, n)
  {
    if n > 0 {
      FoundersAllFit(cs, c, n - 1);
      RunAppended(cs, Founders(c, n - 1), Create(n - 1, c, true));
      OneMoreFounder(cs, Run(cs, Founders(c, n - 1)), c, n - 1);
    }
  }

  ghost predicate NeverOverfull(cs: Contests, c: nat)
    requires c in cs
  {
    forall ops :: Participants(Run(cs, ops), c) <= cs[c].maxParticipants
  }

  /** A positive limit on participants holds over every run exactly in solo contests. */
  lemma NeverOverfullIff(cs: Contests, c: nat)
    requires c in cs && cs[c].maxParticipants > 0
    ensures NeverOverfull(cs, c) <==> cs[c].teamMaxSize <= 1
  {
    if cs[c].teamMaxSize <= 1 {
      forall ops ensures Participants(Run(cs, ops), c) <= cs[c].maxParticipants {
        SoloStaysWithin(cs, ops, c);
      }
    } else {
      var n := cs[c].maxParticipants + 1;
      FoundersAllFit(cs, c, n);
      assert Participants(Run(cs, Founders(c, n)), c) > cs[c].maxParticipants;
    }
  }
}

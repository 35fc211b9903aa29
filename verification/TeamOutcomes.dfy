/** When each operation on the teams of a contest succeeds, why it is refused otherwise, and what it
    changes, written out over the stored rows (backend/internal/service/contest_team_service.go,
    backend/internal/repository/contest_repository.go). */
module TeamOutcomes {
  import opened Common
  import opened Teams

  /** The places of a team's live members, and of everybody who is in a team of a contest. */
  ghost function MembersOf(members: seq<Member>, team: nat): set<nat> {
    set i: nat | i < |members| && members[i].team == team && !members[i].gone
  }

  ghost function ParticipantsOf(teams: seq<Team>, members: seq<Member>, contest: nat): set<nat> {
    set i: nat |
      i < |members| && members[i].team < |teams| && teams[members[i].team].contest == contest && !members[i].gone
  }

  /** The user is in some team of the contest. */
  ghost predicate Takes(db: Db, contest: nat, user: nat) {
    exists i <- ParticipantsOf(db.teams, db.members, contest) :: db.members[i].user == user
  }

  /** The user has been in the team, and may have left or been removed since. */
  ghost predicate WasIn(db: Db, team: nat, user: nat) { exists m <- db.members :: m.team == team && m.user == user }

  lemma {:induction false} MembersAreCounted(members: seq<Member>, team: nat)
    ensures CountMembers(members, team) == |MembersOf(members, team)|
  {
    if members != [] {
      var n := |members| - 1;
      MembersAreCounted(members[..n], team);
      assert MembersOf(members, team)
          == MembersOf(members[..n], team) + if members[n].team == team && !members[n].gone then {n as nat} else {};
    }
  }

  lemma {:induction false} ParticipantsAreCounted(teams: seq<Team>, members: seq<Member>, contest: nat)
    ensures CountParticipants(teams, members, contest) == |ParticipantsOf(teams, members, contest)|
  {
    if members != [] {
      var n := |members| - 1;
      ParticipantsAreCounted(teams, members[..n], contest);
      var last := members[n];
      assert ParticipantsOf(teams, members, contest)
          == ParticipantsOf(teams, members[..n], contest)
             + if last.team < |teams| && teams[last.team].contest == contest && !last.gone then {n as nat} else {};
    }
  }

  lemma TakesIff(db: Db, contest: nat, user: nat)
    ensures IsInAnyTeam(db, contest, user) <==> Takes(db, contest, user)
  {
    if IsInAnyTeam(db, contest, user) {
      var i :| 0 <= i < |db.members| && LiveIn(db, i, contest) && db.members[i].user == user;
      assert i in ParticipantsOf(db.teams, db.members, contest);
    }
  }

  /** A team of one's own needs a contest of teams that is open, and no other team there. */
  lemma CreateOutcome(cs: Contests, db: Db, user: nat, contest: nat, open: bool)
    ensures Apply(cs, db, Create(user, contest, open))
         == if contest !in cs then (db, Failed(ContestNotFound))
            else if !open then (db, Failed(Closed))
            else if cs[contest].teamMaxSize < 2 then (db, Failed(SizeMismatch))
            else if Takes(db, contest, user) then (db, Failed(AlreadyInTeam))
            else (Db(db.teams + [Team(contest, user)], db.members + [Member(|db.teams|, user, true, false)]), Done)
  {
    TakesIff(db, contest, user);
  }

  /** Joining needs a team with room in an open contest of teams, nobody who takes part already, and
      nobody who has been in the team before. */
  lemma JoinOutcome(cs: Contests, db: Db, user: nat, team: nat, open: bool)
    ensures Apply(cs, db, Join(user, team, open))
         == if team >= |db.teams| then (db, Failed(TeamNotFound))
            else
              var contest := db.teams[team].contest;
              if Takes(db, contest, user) then (db, Failed(AlreadyInTeam))
              else if contest !in cs then (db, Failed(ContestNotFound))
              else if !open then (db, Failed(Closed))
              else if cs[contest].teamMaxSize < 2 then (db, Failed(SizeMismatch))
              else if |MembersOf(db.members, team)| >= cs[contest].teamMaxSize then (db, Failed(TeamFull))
              else if WasIn(db, team, user) then (db, Failed(Duplicate))
              else (Db(db.teams, db.members + [Member(team, user, false, false)]), Done)
  {
    if team < |db.teams| {
      TakesIff(db, db.teams[team].contest, user);
      MembersAreCounted(db.members, team);
      assert HasRow(db, team, user) <==> WasIn(db, team, user);
    }
  }

  /** Registering needs an open contest with places left, and nobody who takes part already; where
      teams have one member it makes a team of the user, elsewhere it stores nothing. */
  lemma RegisterOutcome(cs: Contests, db: Db, user: nat, contest: nat, open: bool)
    ensures Apply(cs, db, Register(user, contest, open))
         == if contest !in cs then (db, Failed(ContestNotFound))
            else if !open then (db, Failed(Closed))
            else if 0 < cs[contest].maxParticipants <= |ParticipantsOf(db.teams, db.members, contest)| then
              (db, Failed(TeamFull))
            else if Takes(db, contest, user) then (db, Failed(AlreadyInTeam))
            else if cs[contest].teamMaxSize == 1 then
              (Db(db.teams + [Team(contest, user)], db.members + [Member(|db.teams|, user, true, false)]), Done)
            else (db, Done)
  {
    TakesIff(db, contest, user);
    ParticipantsAreCounted(db.teams, db.members, contest);
  }

  /** The rows once those of `user` in `team` are marked as gone. */
  ghost predicate Marked(members: seq<Member>, after: seq<Member>, team: nat, user: nat) {
    && |after| == |members|
    && forall i | 0 <= i < |members| ::
         var m := members[i];
         after[i] == if m.team == team && m.user == user then Member(team, user, m.leader, true) else m
  }

  /** Everybody but the leader can leave. */
  lemma LeaveOutcome(cs: Contests, db: Db, user: nat, team: nat)
    ensures var r := Apply(cs, db, Leave(user, team));
            if team >= |db.teams| then r == (db, Failed(TeamNotFound))
            else if db.teams[team].leader == user then r == (db, Failed(Denied))
            else r.1 == Done && r.0.teams == db.teams && Marked(db.members, r.0.members, team, user)
  {
  }

  /** Only the leader invites, into a team with room, somebody who does not take part and has not been
      in the team; a contest that is not there has no limit. */
  lemma InviteOutcome(cs: Contests, db: Db, leader: nat, team: nat, user: nat)
    ensures Apply(cs, db, Invite(leader, team, user))
         == if team >= |db.teams| then (db, Failed(TeamNotFound))
            else
              var contest := db.teams[team].contest;
              if db.teams[team].leader != leader then (db, Failed(Denied))
              else if Takes(db, contest, user) then (db, Failed(AlreadyInTeam))
              else if contest in cs && |MembersOf(db.members, team)| >= cs[contest].teamMaxSize then
                (db, Failed(TeamFull))
              else if WasIn(db, team, user) then (db, Failed(Duplicate))
              else (Db(db.teams, db.members + [Member(team, user, false, false)]), Done)
  {
    if team < |db.teams| {
      TakesIff(db, db.teams[team].contest, user);
      MembersAreCounted(db.members, team);
      assert HasRow(db, team, user) <==> WasIn(db, team, user);
    }
  }

  /** Only the leader removes members, and never the leader. */
  lemma RemoveOutcome(cs: Contests, db: Db, leader: nat, team: nat, user: nat)
    ensures var r := Apply(cs, db, Remove(leader, team, user));
            if team >= |db.teams| then r == (db, Failed(TeamNotFound))
            else if db.teams[team].leader != leader then r == (db, Failed(Denied))
            else if user == leader then r == (db, Failed(OnSelf))
            else r.1 == Done && r.0.teams == db.teams && Marked(db.members, r.0.members, team, user)
  {
  }
}

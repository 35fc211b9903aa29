/** What a flag submission answers and stores, what a solve earns, and what a user sees of the board,
    written out (backend/internal/service/contest_score_service.go). */
module LedgerOutcomes {
  import opened Common
  import opened ScoreTable
  import opened ScoreLedger

  // ---- Points -----------------------------------------------------------------------------------

  /** `n` is the whole part of `x`, cut off towards zero. */
  ghost predicate IsCut(n: int, x: real) {
    if x >= 0.0 then n as real <= x < (n + 1) as real else (n - 1) as real < x <= n as real
  }

  /** What a challenge is worth after `solves` solves: each takes a share of its points off, down to
      the smaller of points and minimum, or to the points themselves without a minimum. */
  ghost predicate IsWorth(c: Challenge, solves: nat, worth: int) {
    var least := if 0 < c.minPoints < c.points then c.minPoints else c.points;
    var left := c.points as real - solves as real * (c.decay * c.points as real);
    IsCut(worth, if left >= least as real then left else least as real)
  }

  lemma DecayedIsWorth(c: Challenge, solves: nat)
    ensures IsWorth(c, solves, Decayed(c, solves))
  {
    TakenIsLinear(c.decay, c.points as real, solves);
    assert Floor(c) == if 0 < c.minPoints < c.points then c.minPoints else c.points;
  }

  /** How many correct submissions of a challenge there are. */
  ghost function SolvesOf(subs: seq<Submission>, ch: nat): set<nat> {
    set i: nat | i < |subs| && subs[i].challenge == ch && subs[i].correct
  }

  lemma {:induction false} SolvesAreCounted(subs: seq<Submission>, ch: nat)
    ensures CountSolves(subs, ch) == |SolvesOf(subs, ch)|
  {
    if subs != [] {
      var n := |subs| - 1;
      SolvesAreCounted(subs[..n], ch);
      assert SolvesOf(subs, ch)
          == SolvesOf(subs[..n], ch) + if subs[n].challenge == ch && subs[n].correct then {n as nat} else {};
    }
  }

  // ---- Submissions ------------------------------------------------------------------------------

  /** The team has a correct submission for the challenge. */
  ghost predicate HasIt(subs: seq<Submission>, team: nat, ch: nat) {
    exists sub <- subs :: sub.team == team && sub.challenge == ch && sub.correct
  }

  ghost predicate SomebodyHasIt(subs: seq<Submission>, ch: nat) {
    exists sub <- subs :: sub.challenge == ch && sub.correct
  }

  lemma HasItIff(subs: seq<Submission>, team: nat, ch: nat)
    ensures HasSolved(subs, team, ch) <==> HasIt(subs, team, ch)
    ensures HasFirstBlood(subs, ch) <==> SomebodyHasIt(subs, ch)
  {
    if HasIt(subs, team, ch) {
      var sub :| sub in subs && sub.team == team && sub.challenge == ch && sub.correct;
      var i :| 0 <= i < |subs| && subs[i] == sub;
      assert Solves(subs[i], ch);
    }
    if SomebodyHasIt(subs, ch) {
      var sub :| sub in subs && sub.challenge == ch && sub.correct;
      var i :| 0 <= i < |subs| && subs[i] == sub;
      assert Solves(subs[i], ch);
    }
  }

  /** A team that has the flag, and a challenge that is not there, change nothing. */
  lemma NothingToJudge(s: Settings, db: Db, team: nat, user: nat, ch: nat, correct: bool, now: int)
    requires |db.current| == |s.challenges|
    ensures HasIt(db.submissions, team, ch) ==> Submit(s, db, team, user, ch, correct, now) == (db, AlreadySolved)
    ensures !HasIt(db.submissions, team, ch) && ch >= |s.challenges| ==>
              Submit(s, db, team, user, ch, correct, now) == (db, ChallengeNotFound)
  {
    HasItIff(db.submissions, team, ch);
  }

  /** A wrong flag is stored without points; nothing else changes. */
  lemma WrongFlag(s: Settings, db: Db, team: nat, user: nat, ch: nat, now: int)
    requires |db.current| == |s.challenges| && ch < |s.challenges| && !HasIt(db.submissions, team, ch)
    ensures Submit(s, db, team, user, ch, false, now)
         == (Db(db.current, db.submissions + [Submission(team, ch, false, 0)], db.scores), Judged(false, 0))
  {
    HasItIff(db.submissions, team, ch);
  }

  /** A correct one is stored with the current points, and the bonus if nobody was faster; the team's
      row grows by them, all ranks are renewed, and dynamic points are computed again. */
  lemma CorrectFlag(s: Settings, db: Db, team: nat, user: nat, ch: nat, now: int)
    requires |db.current| == |s.challenges| && ch < |s.challenges| && !HasIt(db.submissions, team, ch)
    ensures var points := db.current[ch]
                          + if s.bonus > 0 && !SomebodyHasIt(db.submissions, ch) then s.bonus else 0;
            var v := Submit(s, db, team, user, ch, true, now);
            && v.1 == Judged(true, points)
            && v.0.submissions == db.submissions + [Submission(team, ch, true, points)]
            && v.0.scores == UpdateRanks(AddScore(db.scores, team, user, points, now))
            && |v.0.current| == |db.current|
            && (s.dynamicScore ==> IsWorth(s.challenges[ch], |SolvesOf(db.submissions, ch)|, v.0.current[ch]))
            && forall c | 0 <= c < |db.current| && (c != ch || !s.dynamicScore) :: v.0.current[c] == db.current[c]
  {
    HasItIff(db.submissions, team, ch);
    SolvesAreCounted(db.submissions, ch);
    DecayedIsWorth(s.challenges[ch], CountSolves(db.submissions, ch));
    hide Decayed, IsWorth;
  }

  /** In every run a solve earns what the challenge was worth one solve before it, the first one with
      the bonus, and a wrong flag nothing. */
  lemma SolveEarns(s: Settings, attempts: seq<Attempt>, i: nat)
    requires i < |Run(s, attempts).submissions|
    ensures var subs := Run(s, attempts).submissions;
            var ch := subs[i].challenge;
            ch < |s.challenges|
            && if !subs[i].correct then subs[i].points == 0
               else
                 var before := |SolvesOf(subs[..i], ch)|;
                 var worth := subs[i].points - if before == 0 && s.bonus > 0 then s.bonus else 0;
                 if s.dynamicScore then IsWorth(s.challenges[ch], if before == 0 then 0 else before - 1, worth)
                 else worth == s.challenges[ch].points
  {
    var subs := Run(s, attempts).submissions;
    RunKeepsLedger(s, attempts);
    assert Paid(s, subs, i);
    var ch := subs[i].challenge;
    SolvesAreCounted(subs[..i], ch);
    var before := CountSolves(subs[..i], ch);
    DecayedIsWorth(s.challenges[ch], if before == 0 then 0 else before - 1);
    hide Decayed, IsWorth;
    assert Award(s, ch, before) == Share(s, ch, before) + if before == 0 then Max(0, s.bonus) else 0;
  }

  // ---- The board --------------------------------------------------------------------------------

  ghost predicate IsMine(e: Entry, team: Option<nat>, user: nat) {
    match team case Some(t) => e.team == t case None => e.user == user
  }

  /** The user's place is that of the first entry of the team, or of the user without a team. */
  lemma {:induction false} FirstIsMine(list: seq<Entry>, team: Option<nat>, user: nat)
    ensures || (Mine(list, team, user) == (0, 0) && forall e <- list :: !IsMine(e, team, user))
            || exists k | 0 <= k < |list| :: IsMine(list[k], team, user)
                                             && (forall j | 0 <= j < k :: !IsMine(list[j], team, user))
                                             && Mine(list, team, user) == (list[k].rank, list[k].total)
  {
    if list != [] {
      var rest := list[1..];
      assert list == [list[0]] + rest;
      if !IsMine(list[0], team, user) {
        FirstIsMine(rest, team, user);
        if k :| 0 <= k < |rest| && IsMine(rest[k], team, user)
                && (forall j | 0 <= j < k :: !IsMine(rest[j], team, user))
                && Mine(rest, team, user) == (rest[k].rank, rest[k].total) {
          assert list[k + 1] == rest[k];
          assert forall j | 0 < j < k + 1 :: list[j] == rest[j - 1];
        }
      }
    }
  }
}

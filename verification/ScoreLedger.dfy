/** Flag submission: points, first blood, decay, and the score table kept beside the submissions
    (backend/internal/service/contest_score_service.go). The answer of the flag check is a
    parameter, and one submission is one step. */
module ScoreLedger {
  import opened Common
  import opened ScoreTable

  /** `minPoints` and `decay` belong to the challenge, `points` to its place in the contest. */
  datatype Challenge = Challenge(points: int, minPoints: int, decay: real)

  /** Challenges are named by their position. */
  datatype Settings = Settings(challenges: seq<Challenge>, bonus: int, dynamicScore: bool)

  datatype Submission = Submission(team: nat, challenge: nat, correct: bool, points: int)

  datatype Db = Db(current: seq<int>, submissions: seq<Submission>, scores: Rows)

  datatype Response = AlreadySolved | ChallengeNotFound | Judged(correct: bool, points: int)

  // ---- Points ---------------------------------------------------------------------------------

  function MaxReal(a: real, b: real): real { if a >= b then a else b }

  function Floor(c: Challenge): int { if c.minPoints > 0 then Min(c.points, c.minPoints) else c.points }

  /** What `n` counted solves take off the points. */
  function Taken(d: real, b: real, n: nat): real { d * n as real * b }

  /** The points of a challenge after `solves` counted solves. */
  function Decayed(c: Challenge, solves: nat): int {
    var base := c.points as real;
    Truncate(MaxReal(Floor(c) as real, base - Taken(c.decay, base, solves)))
  }

  // ---- Tables ---------------------------------------------------------------------------------

  predicate Solves(sub: Submission, ch: nat) { sub.correct && sub.challenge == ch }

  predicate HasSolved(subs: seq<Submission>, team: nat, ch: nat) {
    exists i | 0 <= i < |subs| :: Solves(subs[i], ch) && subs[i].team == team
  }

  function CountSolves(subs: seq<Submission>, ch: nat): nat {
    if subs == [] then 0 else CountSolves(subs[..|subs| - 1], ch) + if Solves(subs[|subs| - 1], ch) then 1 else 0
  }

  predicate HasFirstBlood(subs: seq<Submission>, ch: nat) { exists i | 0 <= i < |subs| :: Solves(subs[i], ch) }

  function TeamTotal(subs: seq<Submission>, team: nat): int {
    if subs == [] then 0
    else
      var last := subs[|subs| - 1];
      TeamTotal(subs[..|subs| - 1], team) + if last.correct && last.team == team then last.points else 0
  }

  function TeamSolves(subs: seq<Submission>, team: nat): nat {
    if subs == [] then 0
    else
      var last := subs[|subs| - 1];
      TeamSolves(subs[..|subs| - 1], team) + if last.correct && last.team == team then 1 else 0
  }

  // ---- Submission -----------------------------------------------------------------------------

  function Offer(s: Settings, db: Db, ch: nat): int
    requires ch < |db.current|
  {
    db.current[ch] + if !HasFirstBlood(db.submissions, ch) && s.bonus > 0 then s.bonus else 0
  }

  function Submit(s: Settings, db: Db, team: nat, user: nat, ch: nat, correct: bool, now: int): (Db, Response)
    requires |db.current| == |s.challenges|
  {
    if HasSolved(db.submissions, team, ch) then (db, AlreadySolved)
    else if ch >= |s.challenges| then (db, ChallengeNotFound)
    else if !correct then
      (db.(submissions := db.submissions + [Submission(team, ch, false, 0)]), Judged(false, 0))
    else
      var points := Offer(s, db, ch);
      var current :=
        if s.dynamicScore then
          db.current[ch := Decayed(s.challenges[ch], CountSolves(db.submissions, ch))]
        else db.current;
      (Db(current, db.submissions + [Submission(team, ch, true, points)],
          UpdateRanks(AddScore(db.scores, team, user, points, now))),
       Judged(true, points))
  }

  function Mine(list: seq<Entry>, team: Option<nat>, user: nat): (int, int) {
    if list == [] then (0, 0)
    else if (if team.Some? then list[0].team == team.value else list[0].user == user) then (list[0].rank, list[0].total)
    else Mine(list[1..], team, user)
  }

  class ScoreService {
    const settings: Settings
    var current: seq<int>
    var submissions: seq<Submission>
    var scores: Rows
    var cache: Option<seq<Entry>>

    ghost predicate Valid()
      reads this
    {
      |current| == |settings.challenges|
    }

    ghost function Tables(): Db
      reads this
    {
      Db(current, submissions, scores)
    }

    constructor (settings: Settings)
      ensures Valid() && this.settings == settings && Tables() == Start(settings) && cache == None
    {
      this.settings := settings;
      current := seq(|settings.challenges|, i requires 0 <= i < |settings.challenges| => settings.challenges[i].points);
      submissions, scores, cache := [], [], None;
    }

    method UpdateDynamicScore(ch: nat)
      requires Valid() && ch < |settings.challenges|
      modifies this`current
      ensures Valid()
      ensures current == old(current)[ch := Decayed(settings.challenges[ch], CountSolves(submissions, ch))]
    {
      var solves := CountSolves(submissions, ch);
      var challenge := settings.challenges[ch];
      var base := challenge.points as real;
      var least := base;
      if challenge.minPoints > 0 {
        var floor := challenge.minPoints as real;
        least := if base <= floor then base else floor;
      }
      assert least == Floor(challenge) as real;
      var points := Truncate(MaxReal(least, base - Taken(challenge.decay, base, solves)));
      assert points == Decayed(challenge, solves);
      current := current[ch := points];
    }

    method SubmitFlag(team: nat, user: nat, ch: nat, correct: bool, now: int) returns (response: Response)
      requires Valid()
      modifies this
      ensures Valid()
      ensures (Tables(), response) == Submit(settings, old(Tables()), team, user, ch, correct, now)
      ensures cache == if response.Judged? && response.correct then None else old(cache)
    {
      if HasSolved(submissions, team, ch) {
        return AlreadySolved;
      }
      if ch >= |settings.challenges| {
        return ChallengeNotFound;
      }
      var points := 0;
      if correct {
        points := current[ch];
        if !HasFirstBlood(submissions, ch) && settings.bonus > 0 {
          points := points + settings.bonus;
        }
        if settings.dynamicScore {
          UpdateDynamicScore(ch);
        }
        scores := AddScore(scores, team, user, points, now);
        scores := UpdateRanks(scores);
      }
      submissions := submissions + [Submission(team, ch, correct, points)];
      if correct {
        cache := None;
      }
      return Judged(correct, points);
    }

    /** `stored` says whether the cache takes the list; when it does not, that is only logged. */
    method GetScoreboard(team: Option<nat>, user: nat, stored: bool) returns (list: seq<Entry>, rank: int, score: int)
      modifies this`cache
      ensures list == if old(cache).Some? then old(cache).value else Load(scores)
      ensures cache == if old(cache) == None && stored then Some(list) else old(cache)
      ensures (rank, score) == Mine(list, team, user)
    {
      if cache.Some? {
        list := cache.value;
      } else {
        list := LoadScoreboardList(scores);
        if stored {
          cache := Some(list);
        }
      }
      rank, score := 0, 0;
      var i := 0;
      while i < |list|
        invariant 0 <= i <= |list|
        invariant Mine(list, team, user) == Mine(list[i..], team, user)
        invariant rank == 0 && score == 0
      {
        var entry := list[i];
        if team.Some? && entry.team == team.value {
          return list, entry.rank, entry.total;
        }
        if team == None && entry.user == user {
          return list, entry.rank, entry.total;
        }
        i := i + 1;
      }
    }
  }

  // ---- Runs -----------------------------------------------------------------------------------

  datatype Attempt = Attempt(team: nat, user: nat, challenge: nat, correct: bool, now: int)

  /** A challenge enters the contest with its current points equal to its points. */
  function Start(s: Settings): Db {
    Db(seq(|s.challenges|, i requires 0 <= i < |s.challenges| => s.challenges[i].points), [], [])
  }

  function Run(s: Settings, attempts: seq<Attempt>): (db: Db)
    ensures |db.current| == |s.challenges|
  {
    if attempts == [] then Start(s)
    else
      var a := attempts[|attempts| - 1];
      Submit(s, Run(s, attempts[..|attempts| - 1]), a.team, a.user, a.challenge, a.correct, a.now).0
  }

  // ---- What every run keeps -------------------------------------------------------------------

  /** What the solve counted `k` from 0 earns before the bonus: the second solver still gets
      the full points, because the points are recomputed before the solve is stored. */
  function Share(s: Settings, ch: nat, k: nat): int
    requires ch < |s.challenges|
  {
    if s.dynamicScore then Decayed(s.challenges[ch], Max(0, k - 1)) else s.challenges[ch].points
  }

  function Award(s: Settings, ch: nat, k: nat): int
    requires ch < |s.challenges|
  {
    Share(s, ch, k) + if k == 0 then Max(0, s.bonus) else 0
  }

  ghost predicate Paid(s: Settings, subs: seq<Submission>, i: nat)
    requires i < |subs|
  {
    var sub := subs[i];
    && sub.challenge < |s.challenges|
    && sub.points == if sub.correct then Award(s, sub.challenge, CountSolves(subs[..i], sub.challenge)) else 0
  }

  /** A team solves a challenge at most once. */
  ghost predicate SolvedOnce(subs: seq<Submission>) {
    forall i, j | 0 <= i < j < |subs| && subs[i].correct && subs[j].correct && subs[i].team == subs[j].team ::
      subs[i].challenge != subs[j].challenge
  }

  /** The row agrees with the team's correct submissions. */
  ghost predicate Tallied(subs: seq<Submission>, row: Row) {
    row.total == TeamTotal(subs, row.team) && row.solves == TeamSolves(subs, row.team)
  }

  ghost predicate OneRowEach(rows: Rows) {
    forall i, j | 0 <= i < j < |rows| :: rows[i].team != rows[j].team
  }

  ghost predicate Priced(s: Settings, db: Db, ch: nat)
    requires ch < |s.challenges| == |db.current|
  {
    db.current[ch] == Share(s, ch, CountSolves(db.submissions, ch))
  }

  ghost predicate Ledger(s: Settings, db: Db) {
    && |db.current| == |s.challenges|
    && SolvedOnce(db.submissions)
    && (forall i | 0 <= i < |db.submissions| :: Paid(s, db.submissions, i))
    && OneRowEach(db.scores)
    && (forall i | 0 <= i < |db.scores| :: Tallied(db.submissions, db.scores[i]))
    && (forall t: nat :: HasRow(db.scores, t) <==> TeamSolves(db.submissions, t) > 0)
    && (forall ch | 0 <= ch < |s.challenges| :: Priced(s, db, ch))
    && Ranked(db.scores)
  }

  lemma Unpriced(c: Challenge)
    ensures Decayed(c, 0) == c.points
  {
    TakenIsLinear(c.decay, c.points as real, 0);
  }

  lemma {:induction false} FirstBloodIsCount(subs: seq<Submission>, ch: nat)
    ensures HasFirstBlood(subs, ch) <==> CountSolves(subs, ch) > 0
  {
    if subs != [] {
      var front := subs[..|subs| - 1];
      FirstBloodIsCount(front, ch);
      if HasFirstBlood(front, ch) {
        var i :| 0 <= i < |front| && Solves(front[i], ch);
        assert Solves(subs[i], ch);
      }
    }
  }

  lemma {:induction false} NoSolvesNoTotal(subs: seq<Submission>, team: nat)
    requires TeamSolves(subs, team) == 0
    ensures TeamTotal(subs, team) == 0
  {
    if subs != [] {
      NoSolvesNoTotal(subs[..|subs| - 1], team);
    }
  }

  lemma StartsClean(s: Settings)
    ensures Ledger(s, Start(s))
  {
    forall ch | 0 <= ch < |s.challenges| ensures Priced(s, Start(s), ch) {
      Unpriced(s.challenges[ch]);
    }
  }

  lemma AppendedPays(s: Settings, subs: seq<Submission>, sub: Submission)
    requires forall i | 0 <= i < |subs| :: Paid(s, subs, i)
    requires sub.challenge < |s.challenges|
    requires sub.points == if sub.correct then Award(s, sub.challenge, CountSolves(subs, sub.challenge)) else 0
    ensures forall i | 0 <= i < |subs + [sub]| :: Paid(s, subs + [sub], i)
  {
    forall i | 0 <= i < |subs + [sub]| ensures Paid(s, subs + [sub], i) {
      assert (subs + [sub])[..i] == subs[..i];
      assert subs[..|subs|] == subs;
      assert i < |subs| ==> Paid(s, subs, i);
    }
  }

  lemma AppendedTallies(subs: seq<Submission>, sub: Submission, team: nat)
    ensures TeamTotal(subs + [sub], team)
            == TeamTotal(subs, team) + if sub.correct && sub.team == team then sub.points else 0
    ensures TeamSolves(subs + [sub], team) == TeamSolves(subs, team) + if sub.correct && sub.team == team then 1 else 0
  {
    assert (subs + [sub])[..|subs|] == subs;
  }

  lemma AppendedCounts(subs: seq<Submission>, sub: Submission, ch: nat)
    ensures CountSolves(subs + [sub], ch) == CountSolves(subs, ch) + if Solves(sub, ch) then 1 else 0
  {
    assert (subs + [sub])[..|subs|] == subs;
  }

  lemma AppendedOnce(subs: seq<Submission>, sub: Submission)
    requires SolvedOnce(subs) && !HasSolved(subs, sub.team, sub.challenge)
    ensures SolvedOnce(subs + [sub])
  {
    forall i, j | 0 <= i < j < |subs + [sub]| && (subs + [sub])[i].correct && (subs + [sub])[j].correct
                  && (subs + [sub])[i].team == (subs + [sub])[j].team
      ensures (subs + [sub])[i].challenge != (subs + [sub])[j].challenge
    {
      if j == |subs| {
        assert !Solves(subs[i], sub.challenge);
      }
    }
  }

  lemma ScoreTallies(rows: Rows, subs: seq<Submission>, sub: Submission, user: nat, now: int)
    requires sub.correct && OneRowEach(rows)
    requires forall i | 0 <= i < |rows| :: Tallied(subs, rows[i])
    requires forall t: nat :: HasRow(rows, t) <==> TeamSolves(subs, t) > 0
    ensures (var v := UpdateRanks(AddScore(rows, sub.team, user, sub.points, now));
             && OneRowEach(v)
             && (forall i | 0 <= i < |v| :: Tallied(subs + [sub], v[i]))
             && (forall t: nat :: HasRow(v, t) <==> TeamSolves(subs + [sub], t) > 0))
  {
    var mid := AddScore(rows, sub.team, user, sub.points, now);
    var v := UpdateRanks(mid);
    forall i, j | 0 <= i < j < |v| ensures v[i].team != v[j].team {
      assert i < |rows|;
      assert j < |rows| ==> rows[i].team != rows[j].team;
    }
    forall i | 0 <= i < |v| ensures Tallied(subs + [sub], v[i]) {
      AppendedTallies(subs, sub, v[i].team);
      if i < |rows| {
        assert Tallied(subs, rows[i]);
      } else {
        NoSolvesNoTotal(subs, sub.team);
      }
    }
    forall t: nat ensures HasRow(v, t) <==> TeamSolves(subs + [sub], t) > 0 {
      AppendedTallies(subs, sub, t);
      RowsStay(rows, sub.team, user, sub.points, now, t);
    }
  }

  lemma RowsStay(rows: Rows, team: nat, user: nat, points: int, now: int, t: nat)
    ensures HasRow(UpdateRanks(AddScore(rows, team, user, points, now)), t) <==> HasRow(rows, t) || t == team
  {
    var v := UpdateRanks(AddScore(rows, team, user, points, now));
    assert forall i | 0 <= i < |rows| :: v[i].team == rows[i].team;
    if HasRow(rows, t) {
      var i :| 0 <= i < |rows| && rows[i].team == t;
      assert v[i].team == t;
    }
    if t == team && !HasRow(rows, t) {
      assert v[|rows|].team == t;
    }
  }

  lemma SubmitKeepsLedger(s: Settings, db: Db, team: nat, user: nat, ch: nat, correct: bool, now: int)
    requires Ledger(s, db)
    ensures Ledger(s, Submit(s, db, team, user, ch, correct, now).0)
  {
    if !HasSolved(db.submissions, team, ch) && ch < |s.challenges| {
      var subs := db.submissions;
      var v := Submit(s, db, team, user, ch, correct, now).0;
      var sub := Submission(team, ch, correct, if correct then Offer(s, db, ch) else 0);
      assert v.submissions == subs + [sub];
      FirstBloodIsCount(subs, ch);
      assert Priced(s, db, ch);
      AppendedPays(s, subs, sub);
      AppendedOnce(subs, sub);
      forall c | 0 <= c < |s.challenges| ensures Priced(s, v, c) {
        assert Priced(s, db, c);
        AppendedCounts(subs, sub, c);
      }
      if correct {
        ScoreTallies(db.scores, subs, sub, user, now);
        UpdateRanksRanks(AddScore(db.scores, team, user, sub.points, now));
      } else {
        forall t: nat
          ensures TeamTotal(v.submissions, t) == TeamTotal(subs, t)
                  && TeamSolves(v.submissions, t) == TeamSolves(subs, t)
        {
          AppendedTallies(subs, sub, t);
        }
        assert forall i | 0 <= i < |v.scores| :: Tallied(subs, v.scores[i]);
      }
    }
  }

  /** After any run: each team solved a challenge at most once, every correct submission earned
      the award of its place among the solves, totals and counts are those of the correct
      submissions, and the stored ranks are those of the board. */
  lemma {:induction false} RunKeepsLedger(s: Settings, attempts: seq<Attempt>)
    ensures Ledger(s, Run(s, attempts))
  {
    if attempts == [] {
      StartsClean(s);
    } else {
      var front, a := attempts[..|attempts| - 1], attempts[|attempts| - 1];
      RunKeepsLedger(s, front);
      SubmitKeepsLedger(s, Run(s, front), a.team, a.user, a.challenge, a.correct, a.now);
    }
  }

  // ---- Decay ----------------------------------------------------------------------------------

  lemma TruncateIsMonotone(x: real, y: real)
    requires x <= y
    ensures Truncate(x) <= Truncate(y)
  {
  }

  lemma TruncateKeeps(n: int, x: real)
    ensures Truncate(n as real) == n
    ensures n as real <= x ==> n <= Truncate(x)
    ensures x <= n as real ==> Truncate(x) <= n
  {
    if n as real <= x {
      TruncateIsMonotone(n as real, x);
    }
    if x <= n as real {
      TruncateIsMonotone(x, n as real);
    }
  }

  lemma TakenIsLinear(d: real, b: real, n: nat)
    ensures Taken(d, b, n) == (d * b) * n as real
  {
    var m := n as real;
    assert d * m * b == (d * b) * m;
  }

  lemma TakenGrows(d: real, b: real, n: nat)
    requires d * b >= 0.0
    ensures 0.0 <= Taken(d, b, n) <= Taken(d, b, n + 1)
  {
    TakenIsLinear(d, b, n);
    TakenIsLinear(d, b, n + 1);
    var k, m := d * b, n as real;
    assert k * (m + 1.0) == k * m + k;
    assert k * m >= 0.0;
  }

  lemma ClampFalls(floor: int, points: int, less: real, more: real)
    requires floor <= points && 0.0 <= less <= more
    ensures (var f, p := floor as real, points as real;
             && Truncate(MaxReal(f, p - more)) <= Truncate(MaxReal(f, p - less))
             && floor <= Truncate(MaxReal(f, p - less)) <= points)
  {
    var f, p := floor as real, points as real;
    TruncateIsMonotone(MaxReal(f, p - more), MaxReal(f, p - less));
    TruncateKeeps(floor, MaxReal(f, p - less));
    TruncateKeeps(points, MaxReal(f, p - less));
  }

  ghost predicate NeverRises(c: Challenge) { forall n: nat :: Decayed(c, n + 1) <= Decayed(c, n) }

  ghost predicate StaysInRange(c: Challenge) { forall n: nat :: Floor(c) <= Decayed(c, n) <= c.points }

  lemma DecayFalls(c: Challenge, n: nat)
    requires c.decay * c.points as real >= 0.0
    ensures Decayed(c, n + 1) <= Decayed(c, n)
    ensures Floor(c) <= Decayed(c, n) <= c.points
  {
    var b := c.points as real;
    TakenGrows(c.decay, b, n);
    ClampFalls(Floor(c), c.points, Taken(c.decay, b, n), Taken(c.decay, b, n + 1));
  }

  lemma Multiple(rise: real) returns (n: nat)
    requires rise > 0.0
    ensures n as real * rise >= 1.0
  {
    var q := 1.0 / rise;
    n := q.Floor + 1;
    var m := n as real;
    assert m >= q && q * rise == 1.0;
    assert (m - q) * rise >= 0.0;
    assert (m - q) * rise == m * rise - q * rise;
  }

  /** A negative slope lifts the points above the base. */
  lemma DecayCanRise(c: Challenge) returns (n: nat)
    requires c.decay * c.points as real < 0.0
    ensures Decayed(c, n) > c.points
  {
    var b := c.points as real;
    var slope := c.decay * b;
    n := Multiple(-slope);
    TakenIsLinear(c.decay, b, n);
    assert Taken(c.decay, b, n) <= -1.0;
    TruncateKeeps(c.points + 1, MaxReal(Floor(c) as real, b - Taken(c.decay, b, n)));
  }

  lemma {:induction false} FallsMeansBelow(c: Challenge, n: nat)
    requires NeverRises(c)
    ensures Decayed(c, n) <= Decayed(c, 0)
  {
    if n > 0 {
      FallsMeansBelow(c, n - 1);
      assert Decayed(c, n - 1 + 1) <= Decayed(c, n - 1);
    }
  }

  /** The award of a challenge never rises, and stays between its floor and its points, exactly
      when decay and points do not have opposite signs. */
  lemma DecayIff(c: Challenge)
    ensures NeverRises(c) <==> c.decay * c.points as real >= 0.0
    ensures StaysInRange(c) <==> c.decay * c.points as real >= 0.0
  {
    if c.decay * c.points as real >= 0.0 {
      forall n: nat ensures Decayed(c, n + 1) <= Decayed(c, n) && Floor(c) <= Decayed(c, n) <= c.points {
        DecayFalls(c, n);
      }
    } else {
      var n := DecayCanRise(c);
      Unpriced(c);
      if NeverRises(c) {
        FallsMeansBelow(c, n);
        assert false;
      }
    }
  }

  // ---- Conservation ---------------------------------------------------------------------------

  function SumTotals(rows: Rows): int {
    if rows == [] then 0 else SumTotals(rows[..|rows| - 1]) + rows[|rows| - 1].total
  }

  function Earned(s: Settings, ch: nat, solves: nat): int
    requires ch < |s.challenges|
  {
    if solves == 0 then 0 else Earned(s, ch, solves - 1) + Award(s, ch, solves - 1)
  }

  function AllEarned(s: Settings, counts: seq<nat>, n: nat): int
    requires n <= |counts| == |s.challenges|
  {
    if n == 0 then 0 else AllEarned(s, counts, n - 1) + Earned(s, n - 1, counts[n - 1])
  }

  function Counts(s: Settings, subs: seq<Submission>): seq<nat> {
    seq(|s.challenges|, ch requires 0 <= ch < |s.challenges| => CountSolves(subs, ch))
  }

  lemma {:induction false} SumOfBump(rows: Rows, v: Rows, team: nat, points: int)
    requires |v| == |rows| && OneRowEach(rows)
    requires forall i | 0 <= i < |rows| ::
      v[i].total == rows[i].total + if rows[i].team == team then points else 0
    ensures SumTotals(v) == SumTotals(rows) + if HasRow(rows, team) then points else 0
  {
    if rows != [] {
      var n := |rows| - 1;
      var front := rows[..n];
      SumOfBump(front, v[..n], team, points);
      if HasRow(front, team) {
        var i :| 0 <= i < n && front[i].team == team;
        assert rows[i].team == team;
      } else {
        assert forall i | 0 <= i < n :: rows[i] == front[i];
      }
    }
  }

  lemma {:induction false} SumOfSame(rows: Rows, v: Rows)
    requires |v| == |rows| && forall i | 0 <= i < |rows| :: v[i].total == rows[i].total
    ensures SumTotals(v) == SumTotals(rows)
  {
    if rows != [] {
      SumOfSame(rows[..|rows| - 1], v[..|rows| - 1]);
    }
  }

  lemma AddScoreSums(rows: Rows, team: nat, user: nat, points: int, now: int)
    requires OneRowEach(rows)
    ensures SumTotals(UpdateRanks(AddScore(rows, team, user, points, now))) == SumTotals(rows) + points
  {
    var mid := AddScore(rows, team, user, points, now);
    SumOfSame(mid, UpdateRanks(mid));
    if HasRow(rows, team) {
      SumOfBump(rows, mid, team, points);
    } else {
      assert mid[..|rows|] == rows;
    }
  }

  lemma {:induction false} OneMoreSolve(s: Settings, counts: seq<nat>, more: seq<nat>, ch: nat, n: nat)
    requires n <= |counts| == |more| == |s.challenges| && ch < |counts|
    requires more == counts[ch := counts[ch] + 1]
    ensures AllEarned(s, more, n) == AllEarned(s, counts, n) + if ch < n then Award(s, ch, counts[ch]) else 0
  {
    if n > 0 {
      OneMoreSolve(s, counts, more, ch, n - 1);
    }
  }

  lemma SubmitSums(s: Settings, db: Db, team: nat, user: nat, ch: nat, correct: bool, now: int)
    requires Ledger(s, db)
    requires SumTotals(db.scores) == AllEarned(s, Counts(s, db.submissions), |s.challenges|)
    ensures (var v := Submit(s, db, team, user, ch, correct, now).0;
             SumTotals(v.scores) == AllEarned(s, Counts(s, v.submissions), |s.challenges|))
  {
    var subs := db.submissions;
    if !HasSolved(subs, team, ch) && ch < |s.challenges| {
      var v := Submit(s, db, team, user, ch, correct, now).0;
      var sub := v.submissions[|subs|];
      forall c | 0 <= c < |s.challenges|
        ensures CountSolves(v.submissions, c) == CountSolves(subs, c) + if c == ch && correct then 1 else 0
      {
        AppendedCounts(subs, sub, c);
      }
      var was, now' := Counts(s, subs), Counts(s, v.submissions);
      if correct {
        assert now' == was[ch := was[ch] + 1];
        OneMoreSolve(s, was, now', ch, |s.challenges|);
        FirstBloodIsCount(subs, ch);
        assert Priced(s, db, ch);
        AddScoreSums(db.scores, team, user, sub.points, now);
      } else {
        assert now' == was;
      }
    }
  }

  lemma {:induction false} NothingEarned(s: Settings, counts: seq<nat>, n: nat)
    requires n <= |counts| == |s.challenges| && forall c | 0 <= c < |counts| :: counts[c] == 0
    ensures AllEarned(s, counts, n) == 0
  {
    if n > 0 {
      NothingEarned(s, counts, n - 1);
    }
  }

  /** The points handed out in a run are those of its solve counts alone. */
  lemma {:induction false} TotalsAreEarned(s: Settings, attempts: seq<Attempt>)
    ensures (var db := Run(s, attempts);
             SumTotals(db.scores) == AllEarned(s, Counts(s, db.submissions), |s.challenges|))
  {
    if attempts == [] {
      NothingEarned(s, Counts(s, []), |s.challenges|);
    } else {
      var front, a := attempts[..|attempts| - 1], attempts[|attempts| - 1];
      TotalsAreEarned(s, front);
      RunKeepsLedger(s, front);
      SubmitSums(s, Run(s, front), a.team, a.user, a.challenge, a.correct, a.now);
    }
  }

  /** Two runs with the same solve counts hand out the same points, whoever solved what and when. */
  lemma SameSolvesSameTotal(s: Settings, left: seq<Attempt>, right: seq<Attempt>)
    requires forall ch: nat | ch < |s.challenges| ::
      CountSolves(Run(s, left).submissions, ch) == CountSolves(Run(s, right).submissions, ch)
    ensures SumTotals(Run(s, left).scores) == SumTotals(Run(s, right).scores)
  {
    TotalsAreEarned(s, left);
    TotalsAreEarned(s, right);
    assert Counts(s, Run(s, left).submissions) == Counts(s, Run(s, right).submissions);
  }
}

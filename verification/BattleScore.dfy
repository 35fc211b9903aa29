/** Scores of a finished battle round: sums over the round's events, the in-place ranking, and
    the rows that are saved (backend/internal/service/agent_battle_score_service.go:51-163). */
module BattleScore {
  import opened Common
  import opened CompositeScore
  import ExchangeSort
  import Replay

  // ---- Sums over the events -------------------------------------------------------------------------

  datatype EventKind = Attack | Defense | Penalty | Error | Other

  datatype BattleEvent = BattleEvent(kind: EventKind, event: Replay.Event)

  datatype Tally = Tally(attacks: map<nat, int>, defenses: map<nat, int>, penalties: map<nat, int>,
                         attackGain: map<nat, int>, defenseGain: map<nat, int>, resourceGain: map<nat, int>)

  /** Reading a Go map: a missing key is 0. */
  function Get(m: map<nat, int>, team: nat): int { if team in m then m[team] else 0 }

  function Gain(e: BattleEvent): int { Max(Replay.ScoreDelta(e.event), Replay.ResourceDelta(e.event)) }

  predicate Of(e: BattleEvent, team: nat) { e.event.team == Some(team) }

  /** A team's own sums over some events, wrapped to 64 bits. */
  function SumFor(events: seq<BattleEvent>, team: nat, part: BattleEvent -> int): int {
    if events == [] then 0
    else
      var last := events[|events| - 1];
      var so := SumFor(events[..|events| - 1], team, part);
      if Of(last, team) then Wrap64(so + part(last)) else so
  }

  function AttackOne(e: BattleEvent): int { if e.kind == Attack then 1 else 0 }
  function DefenseOne(e: BattleEvent): int { if e.kind == Defense then 1 else 0 }
  function PenaltyOne(e: BattleEvent): int { if e.kind == Penalty || e.kind == Error then 1 else 0 }
  function AttackPart(e: BattleEvent): int { if e.kind == Attack then Gain(e) else 0 }
  function DefensePart(e: BattleEvent): int { if e.kind == Defense then Gain(e) else 0 }
  function ResourcePart(e: BattleEvent): int {
    if Replay.ResourceDelta(e.event) > 0 then Replay.ResourceDelta(e.event) else 0
  }

  ghost predicate Sums(m: map<nat, int>, events: seq<BattleEvent>, part: BattleEvent -> int) {
    forall t: nat :: Get(m, t) == SumFor(events, t, part)
  }

  ghost predicate Tallies(t: Tally, events: seq<BattleEvent>) {
    && Sums(t.attacks, events, AttackOne) && Sums(t.defenses, events, DefenseOne)
    && Sums(t.penalties, events, PenaltyOne)
    && Sums(t.attackGain, events, AttackPart) && Sums(t.defenseGain, events, DefensePart)
    && Sums(t.resourceGain, events, ResourcePart)
  }

  lemma {:induction false} SumFits(events: seq<BattleEvent>, team: nat, part: BattleEvent -> int)
    ensures InInt64(SumFor(events, team, part))
  {
    if events != [] {
      SumFits(events[..|events| - 1], team, part);
    }
  }

  function Bump(m: map<nat, int>, team: nat, gain: int): map<nat, int> { m[team := Wrap64(Get(m, team) + gain)] }

  lemma Bumped(m: map<nat, int>, events: seq<BattleEvent>, e: BattleEvent, team: nat, part: BattleEvent -> int)
    requires Sums(m, events, part) && Of(e, team)
    ensures Sums(Bump(m, team, part(e)), events + [e], part)
  {
    forall t: nat ensures Get(Bump(m, team, part(e)), t) == SumFor(events + [e], t, part) {
      assert (events + [e])[..|events|] == events;
      assert Get(m, t) == SumFor(events, t, part);
    }
  }

  lemma Skipped(m: map<nat, int>, events: seq<BattleEvent>, e: BattleEvent, part: BattleEvent -> int)
    requires Sums(m, events, part) && (e.event.team == None || part(e) == 0)
    ensures Sums(m, events + [e], part)
  {
    forall t: nat ensures Get(m, t) == SumFor(events + [e], t, part) {
      assert (events + [e])[..|events|] == events;
      assert Get(m, t) == SumFor(events, t, part);
      SumFits(events, t, part);
      WrapKeeps(SumFor(events, t, part));
    }
  }

  method CountEvents(events: seq<BattleEvent>) returns (t: Tally)
    ensures Tallies(t, events)
  {
    t := Tally(map[], map[], map[], map[], map[], map[]);
    for i := 0 to |events|
      invariant Tallies(t, events[..i])
    {
      assert events[..i + 1] == events[..i] + [events[i]];
      t := CountEvent(t, events[..i], events[i]);
    }
    assert events[..|events|] == events;
  }

  /** One pass of the loop. */
  method CountEvent(was: Tally, ghost so: seq<BattleEvent>, e: BattleEvent) returns (t: Tally)
    requires Tallies(was, so)
    ensures Tallies(t, so + [e])
  {
    hide Sums, Bump, Gain, Replay.ResourceDelta;
    t := was;
    if e.event.team == None {
      SkippedAll(was, so, e);
      return;
    }
    var team := e.event.team.value;
    var gain := Gain(e);
    match e.kind {
      case Attack =>
        t := t.(attacks := Bump(t.attacks, team, 1), attackGain := Bump(t.attackGain, team, gain));
      case Defense =>
        t := t.(defenses := Bump(t.defenses, team, 1), defenseGain := Bump(t.defenseGain, team, gain));
      case Penalty =>
        t := t.(penalties := Bump(t.penalties, team, 1));
      case Error =>
        t := t.(penalties := Bump(t.penalties, team, 1));
      case Other =>
    }
    var resource := Replay.ResourceDelta(e.event);
    if resource > 0 {
      t := t.(resourceGain := Bump(t.resourceGain, team, resource));
    }
    SumsOfKind(was, so, e, team);
  }

  lemma SkippedAll(t: Tally, so: seq<BattleEvent>, e: BattleEvent)
    requires Tallies(t, so) && e.event.team == None
    ensures Tallies(t, so + [e])
  {
    Skipped(t.attacks, so, e, AttackOne);
    Skipped(t.defenses, so, e, DefenseOne);
    Skipped(t.penalties, so, e, PenaltyOne);
    Skipped(t.attackGain, so, e, AttackPart);
    Skipped(t.defenseGain, so, e, DefensePart);
    Skipped(t.resourceGain, so, e, ResourcePart);
  }

  function BumpIf(yes: bool, m: map<nat, int>, team: nat, gain: int): map<nat, int> {
    if yes then Bump(m, team, gain) else m
  }

  lemma BumpedIf(yes: bool, m: map<nat, int>, events: seq<BattleEvent>, e: BattleEvent, team: nat, gain: int,
                 part: BattleEvent -> int)
    requires Sums(m, events, part) && Of(e, team) && part(e) == if yes then gain else 0
    ensures Sums(BumpIf(yes, m, team, gain), events + [e], part)
  {
    if yes {
      Bumped(m, events, e, team, part);
    } else {
      Skipped(m, events, e, part);
    }
  }

  lemma SumsOfKind(t: Tally, so: seq<BattleEvent>, e: BattleEvent, team: nat)
    requires Tallies(t, so) && Of(e, team)
    ensures Sums(BumpIf(e.kind == Attack, t.attacks, team, 1), so + [e], AttackOne)
    ensures Sums(BumpIf(e.kind == Defense, t.defenses, team, 1), so + [e], DefenseOne)
    ensures Sums(BumpIf(e.kind == Penalty || e.kind == Error, t.penalties, team, 1), so + [e], PenaltyOne)
    ensures Sums(BumpIf(e.kind == Attack, t.attackGain, team, Gain(e)), so + [e], AttackPart)
    ensures Sums(BumpIf(e.kind == Defense, t.defenseGain, team, Gain(e)), so + [e], DefensePart)
    ensures Sums(BumpIf(Replay.ResourceDelta(e.event) > 0, t.resourceGain, team, Replay.ResourceDelta(e.event)),
                 so + [e], ResourcePart)
  {
    BumpedIf(e.kind == Attack, t.attacks, so, e, team, 1, AttackOne);
    BumpedIf(e.kind == Defense, t.defenses, so, e, team, 1, DefenseOne);
    BumpedIf(e.kind == Penalty || e.kind == Error, t.penalties, so, e, team, 1, PenaltyOne);
    BumpedIf(e.kind == Attack, t.attackGain, so, e, team, Gain(e), AttackPart);
    BumpedIf(e.kind == Defense, t.defenseGain, so, e, team, Gain(e), DefensePart);
    BumpedIf(Replay.ResourceDelta(e.event) > 0, t.resourceGain, so, e, team, Replay.ResourceDelta(e.event),
             ResourcePart);
  }

  function OwnEvents(events: seq<BattleEvent>, team: nat): seq<BattleEvent> {
    if events == [] then []
    else
      var own, last := OwnEvents(events[..|events| - 1], team), events[|events| - 1];
      if Of(last, team) then own + [last] else own
  }

  /** A team's sums, and so its score, depend on its own events alone. */
  lemma {:induction false} OwnEventsDecide(events: seq<BattleEvent>, team: nat, part: BattleEvent -> int)
    ensures SumFor(events, team, part) == SumFor(OwnEvents(events, team), team, part)
  {
    if events != [] {
      var front, last := events[..|events| - 1], events[|events| - 1];
      OwnEventsDecide(front, team, part);
      var own := OwnEvents(front, team);
      assert (own + [last])[..|own|] == own;
    }
  }

  // ---- Ranking in place -----------------------------------------------------------------------------

  datatype TeamScore = TeamScore(team: nat, balance: int, score: int)

  /** `a` goes before `b`: a higher score, or the same score and a higher balance. */
  predicate Beats(a: TeamScore, b: TeamScore) { a.score > b.score || (a.score == b.score && a.balance > b.balance) }

  ghost predicate Ordered(s: seq<TeamScore>) { ExchangeSort.Ordered(s, Beats) }

  method SortScores(a: array<TeamScore>)
    modifies a
    ensures Ordered(a[..])
    ensures multiset(a[..]) == multiset(old(a[..]))
  {
    ExchangeSort.Sort(a, Beats);
  }

  datatype RankedScore = RankedScore(team: nat, score: int, balance: int, rank: nat)

  /** Ranks are 1 to n in order; the rows are the scores, each once. */
  method RankScores(scores: seq<TeamScore>) returns (rows: seq<RankedScore>)
    ensures |rows| == |scores|
    ensures forall k | 0 <= k < |rows| :: rows[k].rank == k + 1
    ensures multiset(Unranked(rows)) == multiset(scores)
    ensures Ordered(Unranked(rows))
  {
    var a := new TeamScore[|scores|](i requires 0 <= i < |scores| => scores[i]);
    assert a[..] == scores;
    SortScores(a);
    assert |multiset(a[..])| == |multiset(scores)|;
    rows := [];
    for k := 0 to a.Length
      invariant |rows| == k && Unranked(rows) == a[..k]
      invariant forall i | 0 <= i < k :: rows[i].rank == i + 1
    {
      rows := rows + [RankedScore(a[k].team, a[k].score, a[k].balance, k + 1)];
    }
    assert a[..a.Length] == a[..];
  }

  function Unranked(rows: seq<RankedScore>): seq<TeamScore> {
    seq(|rows|, i requires 0 <= i < |rows| => TeamScore(rows[i].team, rows[i].balance, rows[i].score))
  }

  // ---- The whole round --------------------------------------------------------------------------------

  /** `balance` is what the chain answered for the contract, 0 when the query failed. */
  datatype Contract = Contract(team: nat, hasAddress: bool, balance: int, deployed: bool)

  predicate Counts(c: Contract) { c.team != 0 && c.hasAddress }

  function MetricsOf(events: seq<BattleEvent>, c: Contract): Metrics {
    Metrics(NormalizeTokenBalance(c.balance), SumFor(events, c.team, AttackOne), SumFor(events, c.team, DefenseOne),
            SumFor(events, c.team, PenaltyOne), SumFor(events, c.team, AttackPart), SumFor(events, c.team, DefensePart),
            SumFor(events, c.team, ResourcePart), c.deployed)
  }

  function ScoreOf(w: Weights, events: seq<BattleEvent>, c: Contract): TeamScore {
    TeamScore(c.team, c.balance, Composite(w, MetricsOf(events, c)))
  }

  function ScoresOf(w: Weights, events: seq<BattleEvent>, contracts: seq<Contract>): seq<TeamScore> {
    if contracts == [] then []
    else
      var so, last := ScoresOf(w, events, contracts[..|contracts| - 1]), contracts[|contracts| - 1];
      if Counts(last) then so + [ScoreOf(w, events, last)] else so
  }

  /** The rows to save: one per counted contract, with the composite score of its team's events,
      ranked 1 to n by score and balance. */
  ghost predicate Computed(w: Weights, events: seq<BattleEvent>, contracts: seq<Contract>, rows: seq<RankedScore>) {
    && multiset(Unranked(rows)) == multiset(ScoresOf(w, events, contracts))
    && Ordered(Unranked(rows))
    && forall k | 0 <= k < |rows| :: rows[k].rank == k + 1
  }

  method ComputeScores(w: Weights, events: seq<BattleEvent>, contracts: seq<Contract>) returns (rows: seq<RankedScore>)
    ensures Computed(w, events, contracts, rows)
  {
    var t := CountEvents(events);
    var scores: seq<TeamScore> := [];
    for i := 0 to |contracts|
      invariant scores == ScoresOf(w, events, contracts[..i])
    {
      assert contracts[..i + 1][..i] == contracts[..i];
      var c := contracts[i];
      if c.team == 0 || !c.hasAddress {
        continue;
      }
      var m := ReadMetrics(t, events, c);
      scores := scores + [TeamScore(c.team, c.balance, Composite(w, m))];
    }
    assert contracts[..|contracts|] == contracts;
    rows := RankScores(scores);
  }

  method ReadMetrics(t: Tally, ghost events: seq<BattleEvent>, c: Contract) returns (m: Metrics)
    requires Tallies(t, events)
    ensures m == MetricsOf(events, c)
  {
    m := Metrics(NormalizeTokenBalance(c.balance), Get(t.attacks, c.team), Get(t.defenses, c.team),
                 Get(t.penalties, c.team),
                 Get(t.attackGain, c.team), Get(t.defenseGain, c.team), Get(t.resourceGain, c.team), c.deployed);
  }

  /** What other teams did does not move a team's score. */
  lemma ScoreIsOwn(w: Weights, events: seq<BattleEvent>, others: seq<BattleEvent>, c: Contract)
    requires OwnEvents(events, c.team) == OwnEvents(others, c.team)
    ensures ScoreOf(w, events, c) == ScoreOf(w, others, c)
  {
    forall part: BattleEvent -> int ensures SumFor(events, c.team, part) == SumFor(others, c.team, part) {
      OwnEventsDecide(events, c.team, part);
      OwnEventsDecide(others, c.team, part);
    }
  }

  // ---- Saving -------------------------------------------------------------------------------------

  function TeamsOf(rows: seq<RankedScore>): seq<nat> {
    seq(|rows|, i requires 0 <= i < |rows| => rows[i].team)
  }

  /** A row is inserted as a new one; the unique key on the round and the team refuses a second. */
  function Save(table: seq<RankedScore>, row: RankedScore): seq<RankedScore> {
    if row.team in TeamsOf(table) then table else table + [row]
  }

  function SaveAll(table: seq<RankedScore>, rows: seq<RankedScore>): seq<RankedScore> {
    if rows == [] then table else Save(SaveAll(table, rows[..|rows| - 1]), rows[|rows| - 1])
  }

  /** The score rows of one round. */
  class RoundScores {
    var saved: seq<RankedScore>

    constructor ()
      ensures saved == []
    {
      saved := [];
    }

    method Upsert(row: RankedScore) returns (stored: bool)
      modifies this
      ensures saved == Save(old(saved), row)
      ensures stored <==> row.team !in TeamsOf(old(saved))
    {
      stored := row.team !in TeamsOf(saved);
      if stored {
        saved := saved + [row];
      }
    }

    /** Computes the rows and saves them in order; a refused row is only logged. */
    method CalculateFinalScores(w: Weights, events: seq<BattleEvent>, contracts: seq<Contract>)
        returns (rows: seq<RankedScore>)
      modifies this
      ensures Computed(w, events, contracts, rows)
      ensures saved == SaveAll(old(saved), rows)
    {
      rows := ComputeScores(w, events, contracts);
      for k := 0 to |rows|
        invariant saved == SaveAll(old(saved), rows[..k])
      {
        assert rows[..k + 1][..k] == rows[..k];
        var stored := Upsert(rows[k]);
      }
      assert rows[..|rows|] == rows;
    }
  }

  lemma {:induction false} TeamsSaved(table: seq<RankedScore>, rows: seq<RankedScore>)
    ensures forall t: nat :: t in TeamsOf(SaveAll(table, rows)) <==> t in TeamsOf(table) || t in TeamsOf(rows)
  {
    if rows != [] {
      var front, last := rows[..|rows| - 1], rows[|rows| - 1];
      TeamsSaved(table, front);
      var so := SaveAll(table, front);
      assert TeamsOf(so + [last]) == TeamsOf(so) + [last.team];
      assert TeamsOf(rows) == TeamsOf(front) + [last.team];
    }
  }

  /** Settling a round again is lost, whatever scores it comes to: the teams have their rows. */
  lemma {:induction false} SettlingAgainIsLost(table: seq<RankedScore>, rows: seq<RankedScore>)
    requires forall t: nat | t in TeamsOf(rows) :: t in TeamsOf(table)
    ensures SaveAll(table, rows) == table
  {
    if rows != [] {
      var front, last := rows[..|rows| - 1], rows[|rows| - 1];
      assert TeamsOf(rows) == TeamsOf(front) + [last.team];
      SettlingAgainIsLost(table, front);
    }
  }

  lemma {:induction false} SavedPrefix(rows: seq<RankedScore>, n: nat)
    requires n <= |rows|
    ensures |SaveAll([], rows[..n])| <= n
    ensures |SaveAll([], rows[..n])| <= |SaveAll([], rows)|
    ensures SaveAll([], rows[..n]) == SaveAll([], rows)[..|SaveAll([], rows[..n])|]
    decreases |rows|
  {
    assert rows[..|rows|] == rows;
    if n < |rows| {
      var front := rows[..|rows| - 1];
      assert front[..n] == rows[..n];
      SavedPrefix(front, n);
    } else if rows != [] {
      var front := rows[..|rows| - 1];
      SavedPrefix(front, |front|);
      assert front[..|front|] == front;
    }
  }

  /** The team of row `i` has an earlier row. */
  predicate Repeated(rows: seq<RankedScore>, i: nat)
    requires i < |rows|
  {
    rows[i].team in TeamsOf(rows[..i])
  }

  lemma SavedNext(rows: seq<RankedScore>, n: nat)
    requires n < |rows|
    ensures SaveAll([], rows[..n + 1])
            == if Repeated(rows, n) then SaveAll([], rows[..n]) else SaveAll([], rows[..n]) + [rows[n]]
  {
    assert rows[..n + 1][..n] == rows[..n];
    TeamsSaved([], rows[..n]);
  }

  lemma {:induction false} SavedWhole(rows: seq<RankedScore>, n: nat)
    requires n <= |rows|
    ensures SaveAll([], rows[..n]) == rows[..n] <==> forall i | 0 <= i < n :: !Repeated(rows, i)
    ensures (exists i | 0 <= i < n :: Repeated(rows, i)) ==> |SaveAll([], rows[..n])| < n
  {
    if n > 0 {
      SavedWhole(rows, n - 1);
      SavedNext(rows, n - 1);
      assert rows[..n] == rows[..n - 1] + [rows[n - 1]];
      SavedPrefix(rows, n - 1);
    }
  }

  lemma RepeatedIffNotDistinct(rows: seq<RankedScore>)
    ensures (forall i | 0 <= i < |rows| :: !Repeated(rows, i)) <==> Distinct(TeamsOf(rows))
  {
    var teams := TeamsOf(rows);
    forall i | 0 <= i < |rows| ensures TeamsOf(rows[..i]) == teams[..i] {
    }
    if Distinct(teams) {
      forall i | 0 <= i < |rows| ensures !Repeated(rows, i) {
        assert teams[i] !in teams[..i];
      }
    } else {
      var i, j :| 0 <= i < j < |teams| && teams[i] == teams[j];
      assert teams[..j][i] == teams[j];
      assert Repeated(rows, j);
    }
  }

  // ---- The teams of the contracts --------------------------------------------------------------------

  /** The teams of the counted contracts, one entry per contract. */
  function CountedTeams(contracts: seq<Contract>): seq<nat> {
    if contracts == [] then []
    else
      var so, last := CountedTeams(contracts[..|contracts| - 1]), contracts[|contracts| - 1];
      if Counts(last) then so + [last.team] else so
  }

  function Teams(scores: seq<TeamScore>): seq<nat> { seq(|scores|, i requires 0 <= i < |scores| => scores[i].team) }

  lemma {:induction false} ScoredTeams(w: Weights, events: seq<BattleEvent>, contracts: seq<Contract>)
    ensures Teams(ScoresOf(w, events, contracts)) == CountedTeams(contracts)
  {
    if contracts != [] {
      ScoredTeams(w, events, contracts[..|contracts| - 1]);
    }
  }

  function Without(scores: seq<TeamScore>, i: nat): seq<TeamScore>
    requires i < |scores|
  {
    scores[..i] + scores[i + 1..]
  }

  lemma WithoutOne(scores: seq<TeamScore>, i: nat)
    requires i < |scores|
    ensures multiset(scores) == multiset(Without(scores, i)) + multiset{scores[i]}
    ensures multiset(Teams(scores)) == multiset(Teams(Without(scores, i))) + multiset{scores[i].team}
  {
    assert scores == scores[..i] + [scores[i]] + scores[i + 1..];
    var teams, rest := Teams(scores), Teams(Without(scores, i));
    assert teams == teams[..i] + [scores[i].team] + teams[i + 1..];
    assert rest == teams[..i] + teams[i + 1..];
  }

  lemma {:induction false} SameScoresSameTeams(a: seq<TeamScore>, b: seq<TeamScore>)
    requires multiset(a) == multiset(b)
    ensures multiset(Teams(a)) == multiset(Teams(b))
    decreases |a|
  {
    if a == [] {
      assert |multiset(b)| == 0;
    } else {
      assert a[0] in multiset(b);
      var i :| 0 <= i < |b| && b[i] == a[0];
      WithoutOne(a, 0);
      WithoutOne(b, i);
      SameWithout(multiset(Without(a, 0)), multiset(Without(b, i)), a[0]);
      SameScoresSameTeams(Without(a, 0), Without(b, i));
    }
  }

  lemma SameWithout<T>(a: multiset<T>, b: multiset<T>, x: T)
    requires a + multiset{x} == b + multiset{x}
    ensures a == b
  {
    assert a == (a + multiset{x}) - multiset{x};
    assert b == (b + multiset{x}) - multiset{x};
  }

  lemma SameMultisetSameDistinct(a: seq<nat>, b: seq<nat>)
    requires multiset(a) == multiset(b)
    ensures Distinct(a) <==> Distinct(b)
  {
    DistinctIffOnce(a);
    DistinctIffOnce(b);
    assert forall x :: x in a <==> x in multiset(b);
  }

  lemma ComputedTeams(w: Weights, events: seq<BattleEvent>, contracts: seq<Contract>, rows: seq<RankedScore>)
    requires Computed(w, events, contracts, rows)
    ensures multiset(TeamsOf(rows)) == multiset(CountedTeams(contracts))
  {
    ScoredTeams(w, events, contracts);
    SameScoresSameTeams(Unranked(rows), ScoresOf(w, events, contracts));
    assert Teams(Unranked(rows)) == TeamsOf(rows);
  }

  /** Into an empty table every computed row is saved, with its rank, exactly when no team has two
      counted contracts. */
  lemma AllSavedIff(w: Weights, events: seq<BattleEvent>, contracts: seq<Contract>, rows: seq<RankedScore>)
    requires Computed(w, events, contracts, rows)
    ensures SaveAll([], rows) == rows <==> Distinct(CountedTeams(contracts))
  {
    ComputedTeams(w, events, contracts, rows);
    SameMultisetSameDistinct(TeamsOf(rows), CountedTeams(contracts));
    RepeatedIffNotDistinct(rows);
    SavedWhole(rows, |rows|);
    assert rows[..|rows|] == rows;
  }

  /** Every row of a team behind its first one comes after all first ones. */
  predicate RepeatsAreLast(rows: seq<RankedScore>) {
    forall i, j | 0 <= i < j < |rows| && Repeated(rows, i) :: Repeated(rows, j)
  }

  /** A saved row behind a refused one stands above its place. */
  lemma GapBehindRepeat(rows: seq<RankedScore>, i: nat, j: nat)
    requires i < j < |rows| && Repeated(rows, i) && !Repeated(rows, j)
    ensures exists k | 0 <= k < |SaveAll([], rows)| :: k < j && SaveAll([], rows)[k] == rows[j]
  {
    var so, next, saved := SaveAll([], rows[..j]), SaveAll([], rows[..j + 1]), SaveAll([], rows);
    SavedWhole(rows, j);
    SavedNext(rows, j);
    SavedPrefix(rows, j + 1);
    assert next[|so|] == rows[j];
    assert saved[..|next|][|so|] == saved[|so|];
  }

  /** The saved ranks are 1, 2, 3 without a gap exactly when no refused row stands before a row
      that is saved. */
  lemma GapFreeIff(rows: seq<RankedScore>)
    requires forall k | 0 <= k < |rows| :: rows[k].rank == k + 1
    ensures (forall k | 0 <= k < |SaveAll([], rows)| :: SaveAll([], rows)[k].rank == k + 1) <==> RepeatsAreLast(rows)
  {
    if RepeatsAreLast(rows) {
      SavedUpToRepeats(rows, |rows|);
      assert rows[..|rows|] == rows;
    } else {
      var i, j :| 0 <= i < j < |rows| && Repeated(rows, i) && !Repeated(rows, j);
      GapBehindRepeat(rows, i, j);
    }
  }

  lemma {:induction false} SavedUpToRepeats(rows: seq<RankedScore>, n: nat)
    requires n <= |rows| && RepeatsAreLast(rows)
    ensures |SaveAll([], rows[..n])| <= n
    ensures SaveAll([], rows[..n]) == rows[..|SaveAll([], rows[..n])|]
    ensures n < |rows| && !Repeated(rows, n) ==> |SaveAll([], rows[..n])| == n
  {
    if n > 0 {
      SavedUpToRepeats(rows, n - 1);
      SavedNext(rows, n - 1);
      assert rows[..n] == rows[..n - 1] + [rows[n - 1]];
    }
  }

  /** The row kept for a team is its best one. */
  lemma {:induction false} BestRowIsSaved(rows: seq<RankedScore>, k: nat, i: nat)
    requires forall n | 0 <= n < |rows| :: rows[n].rank == n + 1
    requires k < |SaveAll([], rows)| && i < |rows| && SaveAll([], rows)[k].team == rows[i].team
    ensures SaveAll([], rows)[k].rank <= rows[i].rank
  {
    var front, last := rows[..|rows| - 1], rows[|rows| - 1];
    assert rows == front + [last];
    var so := SaveAll([], front);
    TeamsSaved([], front);
    assert i < |front| ==> TeamsOf(front)[i] == rows[i].team;
    if k < |so| {
      assert TeamsOf(so)[k] == so[k].team && so[k].team in TeamsOf(front);
      if i < |front| {
        BestRowIsSaved(front, k, i);
      } else {
        var h :| 0 <= h < |front| && TeamsOf(front)[h] == so[k].team;
        BestRowIsSaved(front, k, h);
      }
    }
  }
}

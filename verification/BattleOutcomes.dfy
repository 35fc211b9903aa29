/** What a settled battle round says, written out: what each event adds to its team, what a team's
    score is made of, and in which order the rows come
    (backend/internal/service/agent_battle_score_service.go:51-250). */
module BattleOutcomes {
  import opened Common
  import opened CompositeScore
  import opened BattleScore
  import ExchangeSort
  import Replay

  // ---- What the events of a team add up to ------------------------------------------------------

  /** How many events of these kinds the team has. */
  ghost function Number(events: seq<BattleEvent>, team: nat, kinds: set<EventKind>): nat {
    if events == [] then 0
    else
      var last := events[|events| - 1];
      Number(events[..|events| - 1], team, kinds)
      + if last.event.team == Some(team) && last.kind in kinds then 1 else 0
  }

  /** The larger of score and resource of each event of the kind, added up. */
  ghost function Gained(events: seq<BattleEvent>, team: nat, kind: EventKind): int {
    if events == [] then 0
    else
      var last := events[|events| - 1];
      var score, resource := Replay.ScoreDelta(last.event), Replay.ResourceDelta(last.event);
      Gained(events[..|events| - 1], team, kind)
      + if last.event.team != Some(team) || last.kind != kind then 0 else if score >= resource then score else resource
  }

  /** The positive resources of all events of the team, whatever their kind. */
  ghost function Collected(events: seq<BattleEvent>, team: nat): nat {
    if events == [] then 0
    else
      var last := events[|events| - 1];
      var resource := Replay.ResourceDelta(last.event);
      Collected(events[..|events| - 1], team) + if last.event.team == Some(team) && resource > 0 then resource else 0
  }

  lemma {:induction false} CountsAreNumbers(events: seq<BattleEvent>, team: nat)
    ensures SumFor(events, team, AttackOne) == Wrap64(Number(events, team, {Attack}))
    ensures SumFor(events, team, DefenseOne) == Wrap64(Number(events, team, {Defense}))
    ensures SumFor(events, team, PenaltyOne) == Wrap64(Number(events, team, {Penalty, EventKind.Error}))
  {
    hide Wrap64;
    if events == [] {
      WrapKeeps(0);
    } else {
      var front, last := events[..|events| - 1], events[|events| - 1];
      CountsAreNumbers(front, team);
      WrapAdds(Number(front, team, {Attack}), AttackOne(last));
      WrapAdds(Number(front, team, {Defense}), DefenseOne(last));
      WrapAdds(Number(front, team, {Penalty, EventKind.Error}), PenaltyOne(last));
    }
  }

  lemma {:induction false} GainsAreSums(events: seq<BattleEvent>, team: nat)
    ensures SumFor(events, team, AttackPart) == Wrap64(Gained(events, team, Attack))
    ensures SumFor(events, team, DefensePart) == Wrap64(Gained(events, team, Defense))
    ensures SumFor(events, team, ResourcePart) == Wrap64(Collected(events, team))
  {
    hide Wrap64, Replay.ScoreDelta, Replay.ResourceDelta;
    if events == [] {
      WrapKeeps(0);
    } else {
      var front, last := events[..|events| - 1], events[|events| - 1];
      GainsAreSums(front, team);
      WrapAdds(Gained(front, team, Attack), AttackPart(last));
      WrapAdds(Gained(front, team, Defense), DefensePart(last));
      WrapAdds(Collected(front, team), ResourcePart(last));
    }
  }

  // ---- What a score is made of ------------------------------------------------------------------

  /** Whole thousandths of a token: a larger balance than 64 bits hold is cut off, a smaller one counts
      as one. */
  ghost function Points(balance: int): int {
    if balance <= 0 then 0
    else if balance < 1_000_000_000_000_000 then 1
    else if balance / 1_000_000_000_000_000 > 0x7fff_ffff_ffff_ffff then 0x7fff_ffff_ffff_ffff
    else balance / 1_000_000_000_000_000
  }

  lemma PointsOfBalance(balance: int)
    ensures NormalizeTokenBalance(balance) == Points(balance)
  {
  }

  /** The resource a team is said to hold: its points or what it collected, whichever is more. */
  lemma HeldIsTheLarger(balance: int, collected: int)
    requires InInt64(collected)
    ensures ResourceHeld(balance, collected) == if Points(balance) >= collected then Points(balance) else collected
  {
    PointsOfBalance(balance);
  }

  /** Everything a team's events add up to fits 64 bits. */
  ghost predicate RecordFits(events: seq<BattleEvent>, team: nat) {
    && InInt64(Number(events, team, {Attack})) && InInt64(Number(events, team, {Defense}))
    && InInt64(Number(events, team, {Penalty, EventKind.Error}))
    && InInt64(Gained(events, team, Attack)) && InInt64(Gained(events, team, Defense))
    && InInt64(Collected(events, team))
  }

  ghost function Record(events: seq<BattleEvent>, c: Contract): Metrics {
    Metrics(Points(c.balance), Number(events, c.team, {Attack}), Number(events, c.team, {Defense}),
            Number(events, c.team, {Penalty, EventKind.Error}), Gained(events, c.team, Attack),
            Gained(events, c.team, Defense), Collected(events, c.team), c.deployed)
  }

  lemma MetricsAreTheRecord(events: seq<BattleEvent>, c: Contract)
    requires RecordFits(events, c.team)
    ensures MetricsOf(events, c) == Record(events, c)
  {
    CountsAreNumbers(events, c.team);
    GainsAreSums(events, c.team);
    PointsOfBalance(c.balance);
    WrapKeeps(Number(events, c.team, {Attack}));
    WrapKeeps(Number(events, c.team, {Defense}));
    WrapKeeps(Number(events, c.team, {Penalty, EventKind.Error}));
    WrapKeeps(Gained(events, c.team, Attack));
    WrapKeeps(Gained(events, c.team, Defense));
    WrapKeeps(Collected(events, c.team));
  }

  ghost function AtLeastOne(weight: int): int { if weight > 1 then weight else 1 }
  ghost function AtLeastTen(weight: int): int { if weight > 10 then weight else 10 }

  /** Half of a weight, without the fraction. */
  ghost predicate IsHalf(weight: int, half: int) {
    if weight >= 0 then 2 * half <= weight <= 2 * half + 1 else 2 * half - 1 <= weight <= 2 * half
  }

  /** Tokens and collected resources by the resource weight, the latter by half of it; attacks and
      defenses with their gains by a weight of at least one; being deployed by ten times the survival
      weight; less the penalties by the other weights together. */
  ghost predicate AddsUp(w: Weights, m: Metrics, total: int) {
    exists half ::
      && IsHalf(w.resource, half)
      && total == m.resource * w.resource + m.resourceGain * half
                  + (m.attacks + m.attackGain) * AtLeastOne(w.attack)
                  + (m.defenses + m.defenseGain) * AtLeastOne(w.defense)
                  + (if m.deployed then AtLeastTen(w.survival * 10) else 0)
                  - m.penalties * AtLeastTen(w.resource + w.attack + w.defense)
  }

  lemma ExactTotalAddsUp(w: Weights, m: Metrics)
    ensures AddsUp(w, m, ExactTotal(w, m))
  {
    assert IsHalf(w.resource, Half(w.resource));
    assert Max(w.attack, 1) == AtLeastOne(w.attack) && Max(w.defense, 1) == AtLeastOne(w.defense);
    assert Max(w.survival * 10, 10) == AtLeastTen(w.survival * 10);
    assert Max(w.resource + w.attack + w.defense, 10) == AtLeastTen(w.resource + w.attack + w.defense);
    assert SurvivalScore(w, m) == if m.deployed then AtLeastTen(w.survival * 10) else 0;
  }

  /** The score of a contract: what its team's record adds up to, but never less than 0. */
  lemma ScoreIsTheRecord(w: Weights, events: seq<BattleEvent>, c: Contract)
    requires RecordFits(events, c.team) && PlainWeights(w) && InInt64(ExactTotal(w, Record(events, c)))
    ensures ScoreOf(w, events, c).team == c.team && ScoreOf(w, events, c).balance == c.balance
    ensures exists total :: AddsUp(w, Record(events, c), total)
                            && ScoreOf(w, events, c).score == if total < 0 then 0 else total
  {
    MetricsAreTheRecord(events, c);
    ExactTotalAddsUp(w, Record(events, c));
    FittingIsExact(w, Record(events, c));
  }

  // ---- The rows ---------------------------------------------------------------------------------

  /** The contracts of a team that have an address, one row each. */
  ghost function Scored(contracts: seq<Contract>): nat {
    if contracts == [] then 0
    else
      var last := contracts[|contracts| - 1];
      Scored(contracts[..|contracts| - 1]) + if last.team > 0 && last.hasAddress then 1 else 0
  }

  lemma {:induction false} ScoresAreOfContracts(w: Weights, events: seq<BattleEvent>, contracts: seq<Contract>)
    ensures |ScoresOf(w, events, contracts)| == Scored(contracts)
    ensures forall s <- ScoresOf(w, events, contracts) ::
              exists c <- contracts :: c.team > 0 && c.hasAddress && s == ScoreOf(w, events, c)
    ensures forall c <- contracts | c.team > 0 && c.hasAddress ::
              ScoreOf(w, events, c) in ScoresOf(w, events, contracts)
  {
    hide ScoreOf;
    if contracts != [] {
      var front, last := contracts[..|contracts| - 1], contracts[|contracts| - 1];
      ScoresAreOfContracts(w, events, front);
      assert contracts == front + [last];
    }
  }

  /** The rows of a settled round: one for each contract with a team and an address, ranks in order,
      scores never rising, and equal scores going by balance. */
  lemma RowsGoByScore(w: Weights, events: seq<BattleEvent>, contracts: seq<Contract>, rows: seq<RankedScore>)
    requires Computed(w, events, contracts, rows)
    ensures |rows| == Scored(contracts)
    ensures forall k | 0 <= k < |rows| ::
              exists c <- contracts :: c.team > 0 && c.hasAddress
                                       && rows[k] == RankedScore(c.team, ScoreOf(w, events, c).score, c.balance, k + 1)
    ensures forall a, b | 0 <= a < b < |rows| ::
              rows[a].score > rows[b].score || (rows[a].score == rows[b].score && rows[a].balance >= rows[b].balance)
  {
    var scores := ScoresOf(w, events, contracts);
    ScoresAreOfContracts(w, events, contracts);
    assert |multiset(Unranked(rows))| == |multiset(scores)|;
    forall k | 0 <= k < |rows|
      ensures exists c <- contracts :: c.team > 0 && c.hasAddress
                                       && rows[k] == RankedScore(c.team, ScoreOf(w, events, c).score, c.balance, k + 1)
    {
      var s := Unranked(rows)[k];
      assert s in multiset(Unranked(rows));
      assert s in scores;
      var c :| c in contracts && c.team > 0 && c.hasAddress && s == ScoreOf(w, events, c);
    }
    forall a, b | 0 <= a < b < |rows|
      ensures rows[a].score > rows[b].score || (rows[a].score == rows[b].score && rows[a].balance >= rows[b].balance)
    {
      assert !Beats(Unranked(rows)[b], Unranked(rows)[a]);
    }
  }
}

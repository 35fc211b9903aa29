/** What a replay shows, written out from the events as they are stored: which fields of an event are
    read, which events count, and what each row adds up to
    (backend/internal/service/agent_battle_service.go:385-459, 726-749). */
module ReplayOutcomes {
  import opened Common
  import opened Replay

  // ---- The fields of an event -------------------------------------------------------------------

  /** The field holds a number, whose whole part is `n`: fractions are cut off towards zero. */
  ghost predicate HoldsNumber(data: map<string, Field>, key: string, n: int) {
    && key in data
    && match data[key]
       case Whole(whole) => n == whole
       case Fraction(x) =>
         if x >= 0.0 then n as real <= x < (n + 1) as real else (n - 1) as real < x <= n as real
       case _ => false
  }

  ghost predicate HoldsNone(data: map<string, Field>, key: string) {
    key !in data || data[key].Null? || data[key].Other?
  }

  /** The first of three fields that holds a number decides; without one the value is 0. */
  ghost predicate FirstOf(data: map<string, Field>, a: string, b: string, c: string, n: int) {
    || HoldsNumber(data, a, n)
    || (HoldsNone(data, a) && HoldsNumber(data, b, n))
    || (HoldsNone(data, a) && HoldsNone(data, b) && HoldsNumber(data, c, n))
    || (HoldsNone(data, a) && HoldsNone(data, b) && HoldsNone(data, c) && n == 0)
  }

  lemma FirstNumber(data: map<string, Field>, keys: seq<string>)
    ensures var n := ReadEventInt64(Some(data), keys);
            || (keys == [] && n == 0)
            || (keys != [] && HoldsNumber(data, keys[0], n))
            || (keys != [] && HoldsNone(data, keys[0]) && n == ReadEventInt64(Some(data), keys[1..]))
  {
  }

  lemma FirstOfThree(data: map<string, Field>, a: string, b: string, c: string)
    ensures FirstOf(data, a, b, c, ReadEventInt64(Some(data), [a, b, c]))
  {
    hide HoldsNumber, HoldsNone, ReadEventInt64;
    FirstNumber(data, [a, b, c]);
    FirstNumber(data, [b, c]);
    FirstNumber(data, [c]);
    FirstNumber(data, []);
    assert [a, b, c][1..] == [b, c] && [b, c][1..] == [c] && [c][1..] == [];
  }

  /** The score comes from `score_delta`, else `points`, else `point_delta`; the resource from
      `resource_delta`, else `resource_change`, else `resource`. */
  lemma FieldsRead(e: Event)
    ensures match e.data
            case None => ScoreDelta(e) == 0 && ResourceDelta(e) == 0
            case Some(data) =>
              && FirstOf(data, "score_delta", "points", "point_delta", ScoreDelta(e))
              && FirstOf(data, "resource_delta", "resource_change", "resource", ResourceDelta(e))
  {
    hide ReadEventInt64, FirstOf;
    match e.data
    case None => NothingToRead(["score_delta", "points", "point_delta"]);
                 NothingToRead(["resource_delta", "resource_change", "resource"]);
    case Some(data) =>
      FirstOfThree(data, "score_delta", "points", "point_delta");
      FirstOfThree(data, "resource_delta", "resource_change", "resource");
  }

  lemma NothingToRead(keys: seq<string>)
    ensures ReadEventInt64(None, keys) == 0
  {
  }

  // ---- The rows ---------------------------------------------------------------------------------

  /** A block number as the unsigned number the bounds are compared with. */
  ghost function Unsigned(block: int): int
    requires InInt64(block)
  {
    if block >= 0 then block else block + 0x1_0000_0000_0000_0000
  }

  /** The event is of the team, within the bounds, and not after the block. */
  ghost predicate Counts(q: Query, e: Event, team: nat, block: int)
    requires InInt64(e.block)
  {
    && e.team == Some(team) && e.block <= block
    && (q.from.Some? ==> q.from.value <= Unsigned(e.block))
    && (q.to.Some? ==> Unsigned(e.block) <= q.to.value)
  }

  ghost predicate BlocksFit(events: seq<Event>) { forall e <- events :: InInt64(e.block) }

  /** Everything the events that count add up to, for the score or for the resource. */
  ghost function Total(q: Query, events: seq<Event>, team: nat, block: int, score: bool): int
    requires BlocksFit(events)
  {
    if events == [] then 0
    else
      var front, last := events[..|events| - 1], events[|events| - 1];
      assert last in events && forall e <- front :: e in events;
      Total(q, front, team, block, score)
      + if Counts(q, last, team, block) then (if score then ScoreDelta(last) else ResourceDelta(last)) else 0
  }

  lemma CountsIff(q: Query, e: Event, team: nat, block: int)
    requires InInt64(e.block)
    ensures Counts(q, e, team, block) <==> e.team == Some(team) && e.block <= block && InBounds(q, e)
  {
    assert U64(e.block) == Unsigned(e.block);
  }

  lemma UpToLast(events: seq<Event>, e: Event, block: int)
    ensures UpTo(events + [e], block) == UpTo(events, block) + if e.block <= block then [e] else []
  {
    assert (events + [e])[..|events|] == events;
  }

  lemma NothingTotals(team: nat, block: int)
    ensures ScoreSum(UpTo([], block), team) == 0 && ResourceSum(UpTo([], block), team) == 0
  {
  }

  lemma {:induction false} TotalsAreSums(q: Query, events: seq<Event>, team: nat, block: int)
    requires BlocksFit(events)
    ensures ScoreSum(UpTo(Kept(q, events), block), team) == Total(q, events, team, block, true)
    ensures ResourceSum(UpTo(Kept(q, events), block), team) == Total(q, events, team, block, false)
  {
    hide ScoreDelta, ResourceDelta, Counts, InBounds, UpTo, ScoreSum, ResourceSum, U64;
    if events == [] {
      NothingTotals(team, block);
    } else {
      var front, last := events[..|events| - 1], events[|events| - 1];
      assert last in events && forall e <- front :: e in events;
      TotalsAreSums(q, front, team, block);
      var so := UpTo(Kept(q, front), block);
      UpToLast(Kept(q, front), last, block);
      AppendedSum(so, last, team);
      CountsIff(q, last, team, block);
      assert so + [] == so && Kept(q, front) + [] == Kept(q, front);
    }
  }

  /** The row of a team of the scoreboard: its total over all events that count, in 64 bits. */
  lemma RowShowsTotals(q: Query, data: Data, j: nat, team: nat)
    requires IsReplay(q, data) && j < |data.snapshots| && team in q.board && BlocksFit(q.events)
    ensures exists i | 0 <= i < |data.snapshots[j].teams| ::
              data.snapshots[j].teams[i] == TeamState(team, Wrap64(Total(q, q.events, team, Blocks(q)[j], true)),
                                                      Wrap64(Total(q, q.events, team, Blocks(q)[j], false)))
  {
    SnapshotIsPrefixSum(q, data, j, team);
    TotalsAreSums(q, q.events, team, Blocks(q)[j]);
  }

  /** An event is shown, in the snapshot of its block, exactly when its block is within the bounds. */
  lemma EventIsShownIff(q: Query, data: Data, e: Event)
    requires IsReplay(q, data) && InInt64(e.block)
    ensures (exists j | 0 <= j < |data.snapshots| :: e in data.snapshots[j].events) <==>
              && e in q.events
              && (q.from.Some? ==> q.from.value <= Unsigned(e.block))
              && (q.to.Some? ==> Unsigned(e.block) <= q.to.value)
    ensures forall j | 0 <= j < |data.snapshots| && e in data.snapshots[j].events ::
              data.snapshots[j].block == Unsigned(e.block)
  {
    var kept, blocks := Kept(q, q.events), Blocks(q);
    KeptCounts(q, q.events, e);
    CountsIff(q, e, if e.team.Some? then e.team.value else 0, e.block);
    assert U64(e.block) == Unsigned(e.block);
    BlocksAreSorted(q);
    hide InBounds, U64, Blocks;
    forall j | 0 <= j < |data.snapshots| && e in data.snapshots[j].events
      ensures e in kept && data.snapshots[j].block == Unsigned(e.block)
    {
      ShownIsKept(q, data, j, e);
    }
    if e in kept {
      assert e.block in blocks;
      var j :| 0 <= j < |blocks| && blocks[j] == e.block;
      KeptIsShown(q, data, j, e);
    }
  }

  lemma ShownIsKept(q: Query, data: Data, j: nat, e: Event)
    requires IsReplay(q, data) && j < |data.snapshots| && e in data.snapshots[j].events
    ensures e in Kept(q, q.events) && data.snapshots[j].block == U64(e.block)
  {
    SnapshotIsOfItsBlock(q, data, j, e);
    var mine := Within(Kept(q, q.events), {Blocks(q)[j]});
    assert Shows(q, Blocks(q), j, data.snapshots[j]);
    ByTimeKeeps(mine);
    assert e in multiset(ByTime(mine));
    WithinSelects(Kept(q, q.events), {Blocks(q)[j]});
  }

  lemma KeptIsShown(q: Query, data: Data, j: nat, e: Event)
    requires IsReplay(q, data) && j < |Blocks(q)| && e in Kept(q, q.events) && e.block == Blocks(q)[j]
    ensures e in data.snapshots[j].events
  {
    var mine := Within(Kept(q, q.events), {Blocks(q)[j]});
    WithinSelects(Kept(q, q.events), {Blocks(q)[j]});
    assert Shows(q, Blocks(q), j, data.snapshots[j]);
    ByTimeKeeps(mine);
    assert e in multiset(mine);
  }

  /** A replay starts at its first snapshot and ends at its last; without events at the round's height. */
  lemma ReplayBounds(q: Query, data: Data)
    requires IsReplay(q, data) && InInt64(q.height)
    ensures var n := |data.snapshots|;
            if n == 0 then data.startBlock == Unsigned(q.height) && data.endBlock == Unsigned(q.height)
            else data.startBlock == data.snapshots[0].block && data.endBlock == data.snapshots[n - 1].block
  {
    var blocks := Blocks(q);
    if blocks != [] {
      assert Shows(q, blocks, 0, data.snapshots[0]);
      assert Shows(q, blocks, |blocks| - 1, data.snapshots[|blocks| - 1]);
    }
  }
}

/** Replay of a battle round: per-block snapshots rebuilt from the event list
    (backend/internal/service/agent_battle_service.go:385-459, 726-749, 836-848). */
module Replay {
  import opened Common

  datatype Field = Null | Whole(n: int) | Fraction(x: real) | Other

  /** `data` is None when the event carries no data at all; `id` is its primary key. */
  datatype Event = Event(id: nat, team: Option<nat>, block: int, createdAt: int, data: Option<map<string, Field>>)

  datatype TeamState = TeamState(team: nat, score: int, resource: int)

  datatype Snapshot = Snapshot(block: nat, teams: seq<TeamState>, events: seq<Event>)

  datatype Data = Data(startBlock: nat, endBlock: nat, snapshots: seq<Snapshot>)

  /** The events the query returned, the teams on the scoreboard of the round, and the bounds. */
  datatype Query = Query(events: seq<Event>, board: seq<nat>, from: Option<nat>, to: Option<nat>, height: int)

  // ---- Event data -----------------------------------------------------------------------------

  /** The first key that holds a number; a key that is absent, null or not a number is skipped. */
  function ReadEventInt64(data: Option<map<string, Field>>, keys: seq<string>): int {
    if data == None || keys == [] then 0
    else if keys[0] in data.value && data.value[keys[0]].Whole? then data.value[keys[0]].n
    else if keys[0] in data.value && data.value[keys[0]].Fraction? then Truncate(data.value[keys[0]].x)
    else ReadEventInt64(data, keys[1..])
  }

  function ScoreDelta(e: Event): int { ReadEventInt64(e.data, ["score_delta", "points", "point_delta"]) }

  function ResourceDelta(e: Event): int { ReadEventInt64(e.data, ["resource_delta", "resource_change", "resource"]) }

  // ---- Selecting events -----------------------------------------------------------------------

  /** Bounds are unsigned, so a negative block counts as a very high one. */
  predicate InBounds(q: Query, e: Event) {
    && (q.from.Some? ==> U64(e.block) >= q.from.value)
    && (q.to.Some? ==> U64(e.block) <= q.to.value)
  }

  function Kept(q: Query, events: seq<Event>): seq<Event> {
    if events == [] then []
    else
      var last := events[|events| - 1];
      Kept(q, events[..|events| - 1]) + if InBounds(q, last) then [last] else []
  }

  /** The events of some blocks, in their given order. */
  function Within(events: seq<Event>, blocks: set<int>): seq<Event> {
    if events == [] then []
    else
      var last := events[|events| - 1];
      Within(events[..|events| - 1], blocks) + if last.block in blocks then [last] else []
  }

  /** Blocks in the order of their first event. */
  function Found(events: seq<Event>): seq<int> {
    if events == [] then []
    else
      var found, last := Found(events[..|events| - 1]), events[|events| - 1];
      if last.block in found then found else found + [last.block]
  }

  function Insert(sorted: seq<int>, x: int): seq<int> {
    if sorted == [] || x < sorted[0] then [x] + sorted else [sorted[0]] + Insert(sorted[1..], x)
  }

  function Sort(s: seq<int>): seq<int> {
    if s == [] then [] else Insert(Sort(s[..|s| - 1]), s[|s| - 1])
  }

  function Blocks(q: Query): seq<int> { Sort(Found(Kept(q, q.events))) }

  /** A later event goes behind every event of the same time: the sort is stable. */
  function InsertByTime(sorted: seq<Event>, e: Event): seq<Event> {
    if sorted == [] || e.createdAt < sorted[0].createdAt then [e] + sorted
    else [sorted[0]] + InsertByTime(sorted[1..], e)
  }

  function ByTime(events: seq<Event>): seq<Event> {
    if events == [] then [] else InsertByTime(ByTime(events[..|events| - 1]), events[|events| - 1])
  }

  function FirstReplayBlock(blocks: seq<int>, fallback: int): nat {
    if blocks == [] then U64(fallback) else U64(blocks[0])
  }

  function LastReplayBlock(blocks: seq<int>, fallback: int): nat {
    if blocks == [] then U64(fallback) else U64(blocks[|blocks| - 1])
  }

  // ---- What a replay is -----------------------------------------------------------------------

  function ScoreSum(events: seq<Event>, team: nat): int {
    if events == [] then 0
    else
      var last := events[|events| - 1];
      ScoreSum(events[..|events| - 1], team) + if last.team == Some(team) then ScoreDelta(last) else 0
  }

  function ResourceSum(events: seq<Event>, team: nat): int {
    if events == [] then 0
    else
      var last := events[|events| - 1];
      ResourceSum(events[..|events| - 1], team) + if last.team == Some(team) then ResourceDelta(last) else 0
  }

  function Teams(board: seq<nat>, events: seq<Event>): set<nat> {
    (set t | t in board) + set e | e in events && e.team.Some? :: e.team.value
  }

  function StateOf(board: seq<nat>, events: seq<Event>, t: nat): TeamState {
    TeamState(if t in board then t else 0, Wrap64(ScoreSum(events, t)), Wrap64(ResourceSum(events, t)))
  }

  /** Every team's sums over some events. A team that is not on the scoreboard shows the id 0. */
  function States(board: seq<nat>, events: seq<Event>): map<nat, TeamState> {
    map t | t in Teams(board, events) :: StateOf(board, events, t)
  }

  function BlockSet(blocks: seq<int>): set<int> { set b | b in blocks }

  ghost predicate SortedTeams(teams: seq<TeamState>) {
    forall i, j | 0 <= i < j < |teams| :: teams[i].team <= teams[j].team
  }

  ghost predicate Pairs(teams: seq<TeamState>, states: map<nat, TeamState>, keys: seq<nat>) {
    && |keys| == |teams| && Distinct(keys) && SortedTeams(teams)
    && (forall i | 0 <= i < |keys| :: keys[i] in states && teams[i] == states[keys[i]])
  }

  /** The list shows the state of every key once. */
  ghost predicate Lists(teams: seq<TeamState>, states: map<nat, TeamState>) {
    exists keys :: Pairs(teams, states, keys) && forall k: nat :: k in keys <==> k in states
  }

  /** A snapshot shows the events of its block by time, and the sums over all kept events of
      its block and of the blocks before it. */
  ghost predicate Shows(q: Query, blocks: seq<int>, j: nat, snap: Snapshot)
    requires j < |blocks|
  {
    var kept := Kept(q, q.events);
    && snap.block == U64(blocks[j])
    && snap.events == ByTime(Within(kept, {blocks[j]}))
    && Lists(snap.teams, States(q.board, Within(kept, BlockSet(blocks[..j + 1]))))
  }

  ghost predicate IsReplay(q: Query, data: Data) {
    var blocks := Blocks(q);
    && |data.snapshots| == |blocks|
    && (forall j | 0 <= j < |blocks| :: Shows(q, blocks, j, data.snapshots[j]))
    && data.startBlock == FirstReplayBlock(blocks, q.height)
    && data.endBlock == LastReplayBlock(blocks, q.height)
  }

  // ---- The algorithm --------------------------------------------------------------------------

  function Apply(states: map<nat, TeamState>, e: Event): map<nat, TeamState> {
    if e.team == None then states
    else
      var t := e.team.value;
      var was := if t in states then states[t] else TeamState(0, 0, 0);
      states[t := TeamState(was.team, Wrap64(was.score + ScoreDelta(e)), Wrap64(was.resource + ResourceDelta(e)))]
  }

  lemma AppendedSum(events: seq<Event>, e: Event, t: nat)
    ensures ScoreSum(events + [e], t) == ScoreSum(events, t) + if e.team == Some(t) then ScoreDelta(e) else 0
    ensures ResourceSum(events + [e], t) == ResourceSum(events, t) + if e.team == Some(t) then ResourceDelta(e) else 0
  {
    assert (events + [e])[..|events|] == events;
  }

  lemma {:induction false} NoEventsNoSum(events: seq<Event>, t: nat)
    requires forall e | e in events :: e.team != Some(t)
    ensures ScoreSum(events, t) == 0 && ResourceSum(events, t) == 0
  {
    if events != [] {
      NoEventsNoSum(events[..|events| - 1], t);
    }
  }

  lemma AppendedTeams(board: seq<nat>, events: seq<Event>, e: Event)
    ensures Teams(board, events + [e]) == Teams(board, events) + if e.team == None then {} else {e.team.value}
  {
    assert e in events + [e];
    forall t | t in Teams(board, events) ensures t in Teams(board, events + [e]) {
      if t !in board {
        var x :| x in events && x.team == Some(t);
        assert x in events + [e];
      }
    }
  }

  /** Sums wrapped along the way agree with the sum wrapped at the end. */
  lemma AppliedAt(board: seq<nat>, events: seq<Event>, e: Event, t: nat)
    requires e.team == Some(t)
    ensures (var was := if t in Teams(board, events) then StateOf(board, events, t) else TeamState(0, 0, 0);
             StateOf(board, events + [e], t)
             == TeamState(was.team, Wrap64(was.score + ScoreDelta(e)), Wrap64(was.resource + ResourceDelta(e))))
  {
    AppendedSum(events, e, t);
    if t !in Teams(board, events) {
      NoEventsNoSum(events, t);
    }
    WrapAdds(ScoreSum(events, t), ScoreDelta(e));
    WrapAdds(ResourceSum(events, t), ResourceDelta(e));
  }

  lemma AppliedIsState(board: seq<nat>, events: seq<Event>, e: Event)
    ensures Apply(States(board, events), e) == States(board, events + [e])
  {
    hide ScoreSum, ResourceSum, ScoreDelta, ResourceDelta, Wrap64;
    var v, w := Apply(States(board, events), e), States(board, events + [e]);
    AppendedTeams(board, events, e);
    assert v.Keys == w.Keys;
    forall t | t in v ensures v[t] == w[t] {
      if e.team == Some(t) {
        AppliedAt(board, events, e, t);
      } else {
        AppendedSum(events, e, t);
      }
    }
  }

  method ListTeams(states: map<nat, TeamState>) returns (teams: seq<TeamState>)
    ensures Lists(teams, states)
  {
    teams := [];
    ghost var keys: seq<nat> := [];
    var rest := states.Keys;
    while rest != {}
      invariant rest <= states.Keys && Pairs(teams, states, keys)
      invariant forall k: nat :: k in keys <==> k in states && k !in rest
      decreases |rest|
    {
      var k :| k in rest;
      rest := rest - {k};
      var i := |teams|;
      while i > 0 && teams[i - 1].team > states[k].team
        invariant 0 <= i <= |teams|
        invariant forall j | i <= j < |teams| :: teams[j].team > states[k].team
      {
        i := i - 1;
      }
      Inserted(states, teams, keys, i, k);
      teams := Splice(teams, i, states[k]);
      keys := Splice(keys, i, k);
    }
  }

  function Splice<T>(s: seq<T>, i: nat, x: T): (r: seq<T>)
    requires i <= |s|
    ensures |r| == |s| + 1 && r[i] == x
    ensures forall k | 0 <= k < i :: r[k] == s[k]
    ensures forall k | i < k < |r| :: r[k] == s[k - 1]
  {
    s[..i] + [x] + s[i..]
  }

  lemma SplicedHolds(keys: seq<nat>, i: nat, k: nat)
    requires i <= |keys|
    ensures forall x: nat :: x in Splice(keys, i, k) <==> x == k || x in keys
  {
    assert keys == keys[..i] + keys[i..];
    assert forall x: nat :: x in keys <==> x in keys[..i] || x in keys[i..];
  }

  lemma SplicedKeys(keys: seq<nat>, i: nat, k: nat)
    requires i <= |keys| && k !in keys && Distinct(keys)
    ensures Distinct(Splice(keys, i, k))
    ensures forall x: nat :: x in Splice(keys, i, k) <==> x == k || x in keys
  {
    SplicedHolds(keys, i, k);
    var r := Splice(keys, i, k);
    forall a, b | 0 <= a < b < |r| ensures r[a] != r[b] {
      if a == i {
        assert r[b] == keys[b - 1];
      } else if b == i {
        assert r[a] == keys[a];
      }
    }
  }

  lemma Inserted(states: map<nat, TeamState>, teams: seq<TeamState>, keys: seq<nat>, i: nat, k: nat)
    requires Pairs(teams, states, keys) && i <= |teams| && k !in keys && k in states
    requires i == 0 || teams[i - 1].team <= states[k].team
    requires forall j | i <= j < |teams| :: teams[j].team > states[k].team
    ensures Pairs(Splice(teams, i, states[k]), states, Splice(keys, i, k))
    ensures forall x: nat :: x in Splice(keys, i, k) <==> x == k || x in keys
  {
    SplicedKeys(keys, i, k);
  }

  /** The first loop: events by block, and the blocks in the order they are found. */
  method GroupByBlock(q: Query) returns (blocks: seq<int>, blockEvents: map<int, seq<Event>>)
    ensures blocks == Found(Kept(q, q.events))
    ensures forall b :: b in blockEvents <==> b in blocks
    ensures forall b | b in blockEvents :: blockEvents[b] == Within(Kept(q, q.events), {b})
  {
    blockEvents, blocks := map[], [];
    for i := 0 to |q.events|
      invariant blocks == Found(Kept(q, q.events[..i]))
      invariant forall b :: b in blockEvents <==> b in blocks
      invariant forall b | b in blockEvents :: blockEvents[b] == Within(Kept(q, q.events[..i]), {b})
    {
      var event := q.events[i];
      ghost var kept := Kept(q, q.events[..i]);
      assert q.events[..i + 1][..i] == q.events[..i];
      assert Kept(q, q.events[..i + 1]) == if InBounds(q, event) then kept + [event] else kept;
      hide Kept, Found, Within;
      if q.from.Some? && U64(event.block) < q.from.value {
        continue;
      }
      if q.to.Some? && U64(event.block) > q.to.value {
        continue;
      }
      AppendedBlock(kept, event);
      if event.block !in blockEvents {
        NotFoundNotWithin(kept, event.block);
        blocks := blocks + [event.block];
        blockEvents := blockEvents[event.block := []];
      }
      blockEvents := blockEvents[event.block := blockEvents[event.block] + [event]];
    }
    assert q.events[..|q.events|] == q.events;
  }

  /** The loop body for one event. */
  method ReplayEvent(board: seq<nat>, ghost so: seq<Event>, evt: Event, before: map<nat, TeamState>)
      returns (states: map<nat, TeamState>)
    requires before == States(board, so)
    ensures states == States(board, so + [evt])
  {
    AppliedIsState(board, so, evt);
    if evt.team == None {
      return before;
    }
    var team := evt.team.value;
    var state := if team in before then before[team] else TeamState(0, 0, 0);
    var score := Wrap64(state.score + ScoreDelta(evt));
    var resource := Wrap64(state.resource + ResourceDelta(evt));
    states := before[team := TeamState(state.team, score, resource)];
  }

  /** The loop over the events of one block. */
  method ReplayBlock(board: seq<nat>, ghost done: seq<Event>, evts: seq<Event>, before: map<nat, TeamState>)
      returns (states: map<nat, TeamState>)
    requires before == States(board, done)
    ensures states == States(board, done + evts)
  {
    states := before;
    assert done + evts[..0] == done;
    for i := 0 to |evts|
      invariant states == States(board, done + evts[..i])
    {
      states := ReplayEvent(board, done + evts[..i], evts[i], states);
      assert done + evts[..i + 1] == done + evts[..i] + [evts[i]];
    }
    assert evts[..|evts|] == evts;
  }

  /** The loop body for one block. */
  method AddSnapshot(q: Query, ghost j: nat, block: int, found: seq<Event>, before: map<nat, TeamState>)
      returns (states: map<nat, TeamState>, snapshot: Snapshot)
    requires j < |Blocks(q)| && block == Blocks(q)[j] && found == Within(Kept(q, q.events), {block})
    requires before == States(q.board, Within(Kept(q, q.events), BlockSet(Blocks(q)[..j])))
    ensures states == States(q.board, Within(Kept(q, q.events), BlockSet(Blocks(q)[..j + 1])))
    ensures Shows(q, Blocks(q), j, snapshot)
  {
    var evts := ByTime(found);
    states := ReplayBlock(q.board, Within(Kept(q, q.events), BlockSet(Blocks(q)[..j])), evts, before);
    NextStates(q, j);
    var teams := ListTeams(states);
    snapshot := Snapshot(U64(block), teams, evts);
  }

  method GetReplayData(q: Query) returns (data: Data)
    ensures IsReplay(q, data)
  {
    hide Within, Kept, Shows;
    var blocks, blockEvents := GroupByBlock(q);
    ghost var kept := Kept(q, q.events);
    BlocksAreSorted(q);
    blocks := Sort(blocks);
    var states := map t | t in q.board :: TeamState(t, 0, 0);
    NothingYet(q.board, kept, blocks);
    var snapshots := [];
    for j := 0 to |blocks|
      invariant |snapshots| == j
      invariant states == States(q.board, Within(kept, BlockSet(blocks[..j])))
      invariant forall k | 0 <= k < j :: Shows(q, blocks, k, snapshots[k])
    {
      assert blocks[j] in blocks;
      var snapshot;
      states, snapshot := AddSnapshot(q, j, blocks[j], blockEvents[blocks[j]], states);
      snapshots := snapshots + [snapshot];
    }
    data := Data(FirstReplayBlock(blocks, q.height), LastReplayBlock(blocks, q.height), snapshots);
  }

  lemma NothingYet(board: seq<nat>, kept: seq<Event>, blocks: seq<int>)
    ensures (map t | t in board :: TeamState(t, 0, 0)) == States(board, Within(kept, BlockSet(blocks[..0])))
  {
    assert BlockSet(blocks[..0]) == {};
    NoBlocksNoEvents(kept);
  }

  lemma AppendedBlock(events: seq<Event>, e: Event)
    ensures Found(events + [e]) == if e.block in Found(events) then Found(events) else Found(events) + [e.block]
    ensures forall b :: Within(events + [e], {b}) == Within(events, {b}) + if e.block == b then [e] else []
  {
    assert (events + [e])[..|events|] == events;
  }

  // ---- Blocks ---------------------------------------------------------------------------------

  predicate Increasing(s: seq<int>) { forall i, j | 0 <= i < j < |s| :: s[i] < s[j] }

  lemma {:induction false} InsertIncreases(s: seq<int>, x: int)
    requires Increasing(s) && x !in s
    ensures Increasing(Insert(s, x))
    ensures forall y :: y in Insert(s, x) <==> y == x || y in s
  {
    if s != [] && x > s[0] {
      InsertIncreases(s[1..], x);
      var r := Insert(s[1..], x);
      assert Insert(s, x) == [s[0]] + r;
      assert forall k | 0 <= k < |r| :: r[k] in r;
    }
  }

  lemma {:induction false} SortIncreases(s: seq<int>)
    requires Distinct(s)
    ensures Increasing(Sort(s))
    ensures forall y :: y in Sort(s) <==> y in s
  {
    if s != [] {
      var front, last := s[..|s| - 1], s[|s| - 1];
      SortIncreases(front);
      assert last !in front;
      InsertIncreases(Sort(front), last);
      assert s == front + [last];
    }
  }

  lemma {:induction false} FoundShape(events: seq<Event>)
    ensures Distinct(Found(events))
    ensures forall b :: b in Found(events) <==> exists e | e in events :: e.block == b
  {
    if events != [] {
      var front, last := events[..|events| - 1], events[|events| - 1];
      FoundShape(front);
      assert events == front + [last];
      forall b ensures b in Found(events) <==> exists e | e in events :: e.block == b {
        if b == last.block {
          assert last in events;
        } else if b in Found(front) {
          var e :| e in front && e.block == b;
          assert e in events;
        }
      }
    }
  }

  /** The snapshot blocks are the blocks of the kept events, each once, in increasing order. */
  lemma BlocksAreSorted(q: Query)
    ensures Increasing(Blocks(q))
    ensures forall b :: b in Blocks(q) <==> exists e | e in Kept(q, q.events) :: e.block == b
    ensures forall b :: b in Blocks(q) <==> b in Found(Kept(q, q.events))
  {
    FoundShape(Kept(q, q.events));
    SortIncreases(Found(Kept(q, q.events)));
  }

  lemma {:induction false} NotFoundNotWithin(events: seq<Event>, b: int)
    requires b !in Found(events)
    ensures Within(events, {b}) == []
  {
    if events != [] {
      NotFoundNotWithin(events[..|events| - 1], b);
    }
  }

  lemma {:induction false} NoBlocksNoEvents(events: seq<Event>)
    ensures Within(events, {}) == []
  {
    if events != [] {
      NoBlocksNoEvents(events[..|events| - 1]);
    }
  }

  lemma {:induction false} OneMoreBlock(events: seq<Event>, blocks: set<int>, b: int)
    requires b !in blocks
    ensures multiset(Within(events, blocks + {b})) == multiset(Within(events, blocks)) + multiset(Within(events, {b}))
  {
    if events != [] {
      OneMoreBlock(events[..|events| - 1], blocks, b);
    }
  }

  lemma {:induction false} InsertByTimeKeeps(sorted: seq<Event>, e: Event)
    ensures multiset(InsertByTime(sorted, e)) == multiset(sorted) + multiset{e}
  {
    if sorted != [] && e.createdAt >= sorted[0].createdAt {
      InsertByTimeKeeps(sorted[1..], e);
      assert sorted == [sorted[0]] + sorted[1..];
    }
  }

  lemma {:induction false} ByTimeKeeps(events: seq<Event>)
    ensures multiset(ByTime(events)) == multiset(events)
  {
    if events != [] {
      var front, last := events[..|events| - 1], events[|events| - 1];
      ByTimeKeeps(front);
      InsertByTimeKeeps(ByTime(front), last);
      assert events == front + [last];
    }
  }

  lemma NextBlock(q: Query, j: nat)
    requires j < |Blocks(q)|
    ensures (var kept, blocks := Kept(q, q.events), Blocks(q);
             multiset(Within(kept, BlockSet(blocks[..j])) + ByTime(Within(kept, {blocks[j]})))
             == multiset(Within(kept, BlockSet(blocks[..j + 1]))))
  {
    hide Within, Kept, ByTime;
    var kept, blocks := Kept(q, q.events), Blocks(q);
    BlocksAreSorted(q);
    ByTimeKeeps(Within(kept, {blocks[j]}));
    assert blocks[j] !in blocks[..j];
    assert blocks[..j + 1] == blocks[..j] + [blocks[j]];
    assert BlockSet(blocks[..j + 1]) == BlockSet(blocks[..j]) + {blocks[j]};
    OneMoreBlock(kept, BlockSet(blocks[..j]), blocks[j]);
  }

  lemma NextStates(q: Query, j: nat)
    requires j < |Blocks(q)|
    ensures (var kept, blocks := Kept(q, q.events), Blocks(q);
             States(q.board, Within(kept, BlockSet(blocks[..j])) + ByTime(Within(kept, {blocks[j]})))
             == States(q.board, Within(kept, BlockSet(blocks[..j + 1]))))
  {
    var kept, blocks := Kept(q, q.events), Blocks(q);
    NextBlock(q, j);
    SameEventsSameStates(q.board, Within(kept, BlockSet(blocks[..j])) + ByTime(Within(kept, {blocks[j]})),
                         Within(kept, BlockSet(blocks[..j + 1])));
  }

  // ---- Sums depend on the events, not on their order --------------------------------------------

  function Without(events: seq<Event>, i: nat): seq<Event>
    requires i < |events|
  {
    events[..i] + events[i + 1..]
  }

  lemma WithoutKeepsRest(events: seq<Event>, i: nat)
    requires i < |events|
    ensures multiset(events) == multiset(Without(events, i)) + multiset{events[i]}
  {
    assert events == events[..i] + [events[i]] + events[i + 1..];
  }

  lemma {:induction false} WithoutOne(events: seq<Event>, i: nat, t: nat)
    requires i < |events|
    ensures ScoreSum(events, t)
            == ScoreSum(Without(events, i), t) + if events[i].team == Some(t) then ScoreDelta(events[i]) else 0
    ensures ResourceSum(events, t)
            == ResourceSum(Without(events, i), t) + if events[i].team == Some(t) then ResourceDelta(events[i]) else 0
    decreases |events|
  {
    var front, last := events[..|events| - 1], events[|events| - 1];
    if i == |events| - 1 {
      assert Without(events, i) == front;
    } else {
      WithoutOne(front, i, t);
      assert Without(events, i) == Without(front, i) + [last];
      AppendedSum(Without(front, i), last, t);
    }
  }

  lemma {:induction false} SameEventsSameSums(a: seq<Event>, b: seq<Event>, t: nat)
    requires multiset(a) == multiset(b)
    ensures ScoreSum(a, t) == ScoreSum(b, t) && ResourceSum(a, t) == ResourceSum(b, t)
    decreases |a|
  {
    hide ScoreSum, ResourceSum, Without;
    if a == [] {
      assert |multiset(b)| == 0 && b == [];
    } else {
      var front, last := a[..|a| - 1], a[|a| - 1];
      assert a == front + [last];
      AppendedSum(front, last, t);
      assert multiset(a) == multiset(front) + multiset{last};
      assert last in multiset(b);
      var i :| 0 <= i < |b| && b[i] == last;
      var rest := Without(b, i);
      WithoutOne(b, i, t);
      WithoutKeepsRest(b, i);
      assert multiset(rest) == multiset(b) - multiset{last};
      assert multiset(front) == multiset(a) - multiset{last};
      SameEventsSameSums(front, rest, t);
    }
  }

  lemma SameEventsSameStates(board: seq<nat>, a: seq<Event>, b: seq<Event>)
    requires multiset(a) == multiset(b)
    ensures States(board, a) == States(board, b)
  {
    assert forall e :: e in a <==> e in multiset(b);
    assert forall e :: e in b <==> e in multiset(a);
    assert Teams(board, a) == Teams(board, b);
    forall t | t in Teams(board, a) ensures States(board, a)[t] == States(board, b)[t] {
      SameEventsSameSums(a, b, t);
    }
  }

  // ---- What a replay means ----------------------------------------------------------------------

  /** The kept events up to a block, whatever that block is. */
  function UpTo(events: seq<Event>, block: int): seq<Event> {
    if events == [] then []
    else
      var last := events[|events| - 1];
      UpTo(events[..|events| - 1], block) + if last.block <= block then [last] else []
  }

  lemma {:induction false} WithinIsUpTo(events: seq<Event>, blocks: seq<int>, j: nat)
    requires j < |blocks| && Increasing(blocks)
    requires forall e | e in events :: e.block in blocks
    ensures Within(events, BlockSet(blocks[..j + 1])) == UpTo(events, blocks[j])
  {
    if events != [] {
      WithinIsUpTo(events[..|events| - 1], blocks, j);
      var last := events[|events| - 1];
      assert last in events;
      var i :| 0 <= i < |blocks| && blocks[i] == last.block;
      assert last.block in blocks[..j + 1] <==> i <= j by {
        if i <= j {
          assert blocks[..j + 1][i] == last.block;
        }
      }
    }
  }

  /** Some row of the snapshot carries the team's id. */
  ghost predicate HasRow(snap: Snapshot, team: nat) {
    exists i | 0 <= i < |snap.teams| :: snap.teams[i].team == team
  }

  /** Every event with a team has one of the scoreboard, or the id 0 that unknown teams get. */
  predicate TeamsKnown(board: seq<nat>, events: seq<Event>) {
    forall e | e in events && e.team.Some? :: e.team.value in board || e.team.value == 0
  }

  /** The state shown at a block for a team of the scoreboard is the sum of the team's deltas
      over the kept events up to that block, whatever other teams do. */
  lemma SnapshotIsPrefixSum(q: Query, data: Data, j: nat, team: nat)
    requires IsReplay(q, data) && j < |data.snapshots| && team in q.board
    ensures (var upTo := UpTo(Kept(q, q.events), Blocks(q)[j]);
             exists i | 0 <= i < |data.snapshots[j].teams| ::
               data.snapshots[j].teams[i] == TeamState(team, Wrap64(ScoreSum(upTo, team)),
                                                       Wrap64(ResourceSum(upTo, team))))
  {
    var states := States(q.board, UpTo(Kept(q, q.events), Blocks(q)[j]));
    ListedUpTo(q, data, j);
    assert team in states;
    ListShows(data.snapshots[j].teams, states, team);
  }

  /** A snapshot has a row for every team with a kept event up to its block, and for every team of
      the scoreboard, exactly when all these events are of teams on the scoreboard (or of team 0). */
  lemma EveryTeamShownIff(q: Query, data: Data, j: nat)
    requires IsReplay(q, data) && j < |data.snapshots|
    ensures (var upTo := UpTo(Kept(q, q.events), Blocks(q)[j]);
             (forall t | t in Teams(q.board, upTo) :: HasRow(data.snapshots[j], t)) <==> TeamsKnown(q.board, upTo))
  {
    var upTo, snap := UpTo(Kept(q, q.events), Blocks(q)[j]), data.snapshots[j];
    var states := States(q.board, upTo);
    ListedUpTo(q, data, j);
    forall t | t in Teams(q.board, upTo) ensures HasRow(snap, t) <==> t in q.board || t == 0 {
      RowOfTeam(q.board, upTo, snap.teams, t);
    }
    if !TeamsKnown(q.board, upTo) {
      var e :| e in upTo && e.team.Some? && e.team.value !in q.board && e.team.value != 0;
      assert e.team.value in Teams(q.board, upTo);
    }
  }

  lemma RowsAreKnown(board: seq<nat>, events: seq<Event>, teams: seq<TeamState>)
    requires Lists(teams, States(board, events))
    ensures forall i | 0 <= i < |teams| :: teams[i].team in board || teams[i].team == 0
  {
    var states := States(board, events);
    var keys :| Pairs(teams, states, keys) && forall k: nat :: k in keys <==> k in states;
    forall i | 0 <= i < |teams| ensures teams[i].team in board || teams[i].team == 0 {
      assert teams[i] == StateOf(board, events, keys[i]);
    }
  }

  lemma RowOfTeam(board: seq<nat>, events: seq<Event>, teams: seq<TeamState>, t: nat)
    requires Lists(teams, States(board, events)) && t in Teams(board, events)
    ensures (exists i | 0 <= i < |teams| :: teams[i].team == t) <==> t in board || t == 0
  {
    RowsAreKnown(board, events, teams);
    if t in board || t == 0 {
      ListShows(teams, States(board, events), t);
      assert StateOf(board, events, t).team == t;
    }
  }

  /** With all teams known the rows go by strictly increasing id. */
  lemma KnownTeamsAreOrdered(q: Query, data: Data, j: nat)
    requires IsReplay(q, data) && j < |data.snapshots|
    requires TeamsKnown(q.board, UpTo(Kept(q, q.events), Blocks(q)[j]))
    ensures forall a, b | 0 <= a < b < |data.snapshots[j].teams| ::
      data.snapshots[j].teams[a].team < data.snapshots[j].teams[b].team
  {
    var upTo := UpTo(Kept(q, q.events), Blocks(q)[j]);
    ListedUpTo(q, data, j);
    KnownTeams(q.board, upTo);
    ListIsByTeam(data.snapshots[j].teams, States(q.board, upTo));
  }

  /** One event and an empty scoreboard. */
  function Lone(e: Event): Query { Query([e], [], None, None, 0) }

  lemma LoneKept(e: Event)
    ensures Kept(Lone(e), [e]) == [e] && UpTo([e], e.block) == [e]
  {
    assert [e][..0] == [];
  }

  lemma LoneBlock(e: Event)
    ensures Blocks(Lone(e)) == [e.block]
  {
    LoneKept(e);
    LoneFound(e);
    LoneSorted(e.block);
  }

  lemma LoneFound(e: Event)
    ensures Found([e]) == [e.block]
  {
    var none: seq<Event> := [];
    assert [e][..0] == none;
    assert Found(none) == [];
  }

  lemma LoneSorted(b: int)
    ensures Sort([b]) == [b]
  {
    var none: seq<int> := [];
    assert [b][..0] == none;
    assert Sort(none) == [];
  }

  /** A round whose scoreboard is still empty and whose only event is of some team other than 0:
      the replay has one snapshot, and the team is not in it. */
  lemma StrangerIsNotShown(e: Event, data: Data)
    requires IsReplay(Lone(e), data) && e.team.Some? && e.team.value != 0
    ensures |data.snapshots| == 1 && !HasRow(data.snapshots[0], e.team.value)
  {
    LoneKept(e);
    LoneBlock(e);
    ListedUpTo(Lone(e), data, 0);
    RowsAreKnown([], [e], data.snapshots[0].teams);
  }

  lemma ListedUpTo(q: Query, data: Data, j: nat)
    requires IsReplay(q, data) && j < |data.snapshots|
    ensures Lists(data.snapshots[j].teams, States(q.board, UpTo(Kept(q, q.events), Blocks(q)[j])))
  {
    BlocksAreSorted(q);
    assert Shows(q, Blocks(q), j, data.snapshots[j]);
    WithinIsUpTo(Kept(q, q.events), Blocks(q), j);
  }

  lemma KnownTeams(board: seq<nat>, events: seq<Event>)
    requires TeamsKnown(board, events)
    ensures forall t | t in States(board, events) :: States(board, events)[t].team == t
  {
  }

  lemma ListShows(teams: seq<TeamState>, states: map<nat, TeamState>, team: nat)
    requires Lists(teams, states) && team in states
    ensures exists i | 0 <= i < |teams| :: teams[i] == states[team]
  {
    var keys :| Pairs(teams, states, keys) && forall k: nat :: k in keys <==> k in states;
    var i :| 0 <= i < |keys| && keys[i] == team;
    assert teams[i] == states[team];
  }

  lemma ListIsByTeam(teams: seq<TeamState>, states: map<nat, TeamState>)
    requires Lists(teams, states) && forall t | t in states :: states[t].team == t
    ensures forall a, b | 0 <= a < b < |teams| :: teams[a].team < teams[b].team
  {
    var keys :| Pairs(teams, states, keys) && forall k: nat :: k in keys <==> k in states;
    assert forall i | 0 <= i < |teams| :: teams[i].team == keys[i];
  }

  function AllEvents(snapshots: seq<Snapshot>): seq<Event> {
    if snapshots == [] then [] else AllEvents(snapshots[..|snapshots| - 1]) + snapshots[|snapshots| - 1].events
  }

  lemma {:induction false} EventsSoFar(q: Query, data: Data, j: nat)
    requires IsReplay(q, data) && j <= |data.snapshots|
    ensures multiset(AllEvents(data.snapshots[..j])) == multiset(Within(Kept(q, q.events), BlockSet(Blocks(q)[..j])))
  {
    var kept, blocks := Kept(q, q.events), Blocks(q);
    if j == 0 {
      assert BlockSet(blocks[..0]) == {};
      NoBlocksNoEvents(kept);
    } else {
      EventsSoFar(q, data, j - 1);
      assert data.snapshots[..j][..j - 1] == data.snapshots[..j - 1];
      assert Shows(q, blocks, j - 1, data.snapshots[j - 1]);
      NextBlock(q, j - 1);
    }
  }

  lemma {:induction false} WithinAll(events: seq<Event>, blocks: set<int>)
    requires forall e | e in events :: e.block in blocks
    ensures Within(events, blocks) == events
  {
    if events != [] {
      var front, last := events[..|events| - 1], events[|events| - 1];
      assert events == front + [last];
      assert last in events && forall e | e in front :: e in events;
      WithinAll(front, blocks);
      assert Within(events, blocks) == front + [last];
    }
  }

  lemma {:induction false} WithinSelects(events: seq<Event>, blocks: set<int>)
    ensures forall e :: e in Within(events, blocks) <==> e in events && e.block in blocks
  {
    if events != [] {
      WithinSelects(events[..|events| - 1], blocks);
      assert events == events[..|events| - 1] + [events[|events| - 1]];
    }
  }

  lemma SnapshotIsOfItsBlock(q: Query, data: Data, j: nat, e: Event)
    requires IsReplay(q, data) && j < |data.snapshots| && e in data.snapshots[j].events
    ensures e.block == Blocks(q)[j]
  {
    var mine := Within(Kept(q, q.events), {Blocks(q)[j]});
    assert Shows(q, Blocks(q), j, data.snapshots[j]);
    ByTimeKeeps(mine);
    assert e in multiset(ByTime(mine));
    WithinSelects(Kept(q, q.events), {Blocks(q)[j]});
  }

  /** Every kept event is shown in exactly one snapshot, the one of its block, and nothing else is. */
  lemma SnapshotsPartitionEvents(q: Query, data: Data)
    requires IsReplay(q, data)
    ensures multiset(AllEvents(data.snapshots)) == multiset(Kept(q, q.events))
    ensures forall j, e | 0 <= j < |data.snapshots| && e in data.snapshots[j].events :: e.block == Blocks(q)[j]
  {
    var kept, blocks := Kept(q, q.events), Blocks(q);
    BlocksAreSorted(q);
    EventsSoFar(q, data, |blocks|);
    assert data.snapshots[..|blocks|] == data.snapshots;
    assert blocks[..|blocks|] == blocks;
    assert forall e | e in kept :: e.block in blocks;
    WithinAll(kept, BlockSet(blocks));
    forall j, e | 0 <= j < |data.snapshots| && e in data.snapshots[j].events ensures e.block == blocks[j] {
      SnapshotIsOfItsBlock(q, data, j, e);
    }
  }

  /** Inside a snapshot events go by time, and events of one time keep their given order. */
  function AtTime(events: seq<Event>, time: int): seq<Event> {
    if events == [] then [] else (if events[0].createdAt == time then [events[0]] else []) + AtTime(events[1..], time)
  }

  ghost predicate InTimeOrder(events: seq<Event>) {
    forall i, j | 0 <= i < j < |events| :: events[i].createdAt <= events[j].createdAt
  }

  lemma {:induction false} InsertedInOrder(sorted: seq<Event>, e: Event)
    requires InTimeOrder(sorted)
    ensures InTimeOrder(InsertByTime(sorted, e))
  {
    if sorted != [] && e.createdAt >= sorted[0].createdAt {
      var rest := sorted[1..];
      assert forall i | 0 <= i < |rest| :: rest[i] == sorted[i + 1] && sorted[0].createdAt <= rest[i].createdAt;
      InsertedInOrder(rest, e);
      InsertByTimeKeeps(rest, e);
      var r := InsertByTime(rest, e);
      forall k | 0 <= k < |r| ensures sorted[0].createdAt <= r[k].createdAt {
        assert r[k] in multiset(r);
        assert r[k] in rest || r[k] == e;
      }
      assert InsertByTime(sorted, e) == [sorted[0]] + r;
    }
  }

  lemma AtTimeCons(e: Event, events: seq<Event>, time: int)
    ensures AtTime([e] + events, time) == (if e.createdAt == time then [e] else []) + AtTime(events, time)
  {
    assert ([e] + events)[1..] == events;
  }

  lemma {:induction false} InsertedLast(sorted: seq<Event>, e: Event, time: int)
    requires InTimeOrder(sorted)
    ensures AtTime(InsertByTime(sorted, e), time) == AtTime(sorted, time) + if e.createdAt == time then [e] else []
  {
    if sorted == [] {
      AtTimeCons(e, sorted, time);
    } else if e.createdAt < sorted[0].createdAt {
      AtTimeCons(e, sorted, time);
      if e.createdAt == time {
        NoneAtTime(sorted, time);
      }
    } else {
      var first, rest := sorted[0], sorted[1..];
      assert forall i | 0 <= i < |rest| :: rest[i] == sorted[i + 1];
      InsertedLast(rest, e, time);
      AtTimeCons(first, InsertByTime(rest, e), time);
    }
  }

  lemma {:induction false} NoneAtTime(events: seq<Event>, time: int)
    requires forall i | 0 <= i < |events| :: events[i].createdAt > time
    ensures AtTime(events, time) == []
  {
    if events != [] {
      NoneAtTime(events[1..], time);
    }
  }

  lemma {:induction false} AppendedAtTime(events: seq<Event>, e: Event, time: int)
    ensures AtTime(events + [e], time) == AtTime(events, time) + if e.createdAt == time then [e] else []
  {
    if events != [] {
      AppendedAtTime(events[1..], e, time);
      assert (events + [e])[1..] == events[1..] + [e];
    }
  }

  lemma {:induction false} ByTimeIsStable(events: seq<Event>, time: int)
    ensures InTimeOrder(ByTime(events))
    ensures AtTime(ByTime(events), time) == AtTime(events, time)
  {
    if events != [] {
      var front, last := events[..|events| - 1], events[|events| - 1];
      ByTimeIsStable(front, time);
      InsertedInOrder(ByTime(front), last);
      InsertedLast(ByTime(front), last, time);
      AppendedAtTime(front, last, time);
      assert events == front + [last];
    }
  }

  // ---- Independence of the input order ----------------------------------------------------------

  /** Two increasing lists of the same values are the same list. */
  lemma {:induction false} IncreasingIsUnique(a: seq<int>, b: seq<int>)
    requires Increasing(a) && Increasing(b) && forall x :: x in a <==> x in b
    ensures a == b
    decreases |a|
  {
    if a == [] {
      EmptyOrNot(b);
    } else {
      assert a[0] in b && (b != [] ==> b[0] in a);
      assert a[0] == b[0];
      forall x ensures x in a[1..] <==> x in b[1..] {
        assert x in a[1..] <==> x in a && x != a[0] by { TailHolds(a, x); }
        assert x in b[1..] <==> x in b && x != b[0] by { TailHolds(b, x); }
      }
      IncreasingIsUnique(a[1..], b[1..]);
    }
  }

  lemma EmptyOrNot(s: seq<int>)
    ensures s == [] || exists x :: x in s
  {
    if s != [] {
      var x := s[0];
      assert x in s;
    }
  }

  lemma TailHolds(s: seq<int>, x: int)
    requires s != [] && Increasing(s)
    ensures x in s[1..] <==> x in s && x != s[0]
  {
    assert s == [s[0]] + s[1..];
  }

  lemma {:induction false} KeptCounts(q: Query, events: seq<Event>, e: Event)
    ensures multiset(Kept(q, events))[e] == if InBounds(q, e) then multiset(events)[e] else 0
  {
    if events != [] {
      KeptCounts(q, events[..|events| - 1], e);
      assert events == events[..|events| - 1] + [events[|events| - 1]];
    }
  }

  lemma OneMore(front: seq<Event>, last: Event, e: Event)
    ensures multiset(front + [last])[e] == multiset(front)[e] + if last == e then 1 else 0
  {
  }

  lemma {:induction false} UpToCounts(events: seq<Event>, block: int, e: Event)
    ensures multiset(UpTo(events, block))[e] == if e.block <= block then multiset(events)[e] else 0
  {
    if events != [] {
      var front, last := events[..|events| - 1], events[|events| - 1];
      UpToCounts(front, block, e);
      assert events == front + [last];
      OneMore(front, last, e);
      OneMore(UpTo(front, block), last, e);
    }
  }

  lemma SameKept(q: Query, events: seq<Event>)
    requires multiset(events) == multiset(q.events)
    ensures multiset(Kept(q.(events := events), events)) == multiset(Kept(q, q.events))
    ensures Blocks(q.(events := events)) == Blocks(q)
  {
    var p := q.(events := events);
    var mine, theirs := Kept(p, events), Kept(q, q.events);
    forall e ensures multiset(mine)[e] == multiset(theirs)[e] {
      KeptCounts(p, events, e);
      KeptCounts(q, q.events, e);
    }
    assert multiset(mine) == multiset(theirs);
    assert forall e :: e in mine <==> e in multiset(theirs);
    BlocksAreSorted(p);
    BlocksAreSorted(q);
    IncreasingIsUnique(Blocks(p), Blocks(q));
  }

  /** Handing the same events over in another order changes neither the blocks nor any sum. */
  lemma OrderDoesNotMatter(q: Query, events: seq<Event>, j: nat, team: nat)
    requires multiset(events) == multiset(q.events) && j < |Blocks(q)|
    ensures (var p := q.(events := events);
             && Blocks(p) == Blocks(q)
             && (var left, right := UpTo(Kept(p, events), Blocks(q)[j]), UpTo(Kept(q, q.events), Blocks(q)[j]);
                 && ScoreSum(left, team) == ScoreSum(right, team)
                 && ResourceSum(left, team) == ResourceSum(right, team)
                 && States(q.board, left) == States(q.board, right)))
  {
    var p := q.(events := events);
    var mine, theirs := Kept(p, events), Kept(q, q.events);
    SameKept(q, events);
    var b := Blocks(q)[j];
    forall e ensures multiset(UpTo(mine, b))[e] == multiset(UpTo(theirs, b))[e] {
      UpToCounts(mine, b, e);
      UpToCounts(theirs, b, e);
    }
    SameEventsSameSums(UpTo(mine, b), UpTo(theirs, b), team);
    SameEventsSameStates(q.board, UpTo(mine, b), UpTo(theirs, b));
  }
}

/** The life of agent-battle rounds (backend/internal/service/agent_battle_service.go): a clock
    driven state machine advanced by `SyncContestRoundLifecycle`, which creates the planned rounds,
    finishes the running one and starts the next one due.

    Times are whole nanoseconds since Go's zero time, so 0 is the unset time.  Everything that can
    fail in one Sync is chosen freely through `Outcome`. */
module RoundLifecycle {
  import opened Common

  const SECOND := 1_000_000_000
  const PAGE_CAP := 100

  type RoundNumber = n: int | n >= 1 witness 1

  datatype Status = Pending | Running | Finished

  /** A row of the round table; `id` is its place there. */
  datatype Round = Round(id: nat, number: int, status: Status, start: nat, end: nat, chain: bool)

  datatype Contest = Contest(start: nat, roundSeconds: int, upgradeSeconds: int, totalRounds: int) {
    function Duration(): nat { (if roundSeconds <= 0 then 300 else roundSeconds) * SECOND }
    function UpgradeWindow(): nat { (if upgradeSeconds <= 0 then 120 else upgradeSeconds) * SECOND }
    function Planned(): nat { if totalRounds <= 0 then 1 else totalRounds }
    /** When round `number` is planned to start. */
    function Slot(number: RoundNumber): nat { start + (number - 1) * Duration() }
  }

  /** How many inserts succeed before one fails, whether the finished row is stored, whether the
      chain of the next round comes up, and whether the row of that round is then stored. */
  datatype Outcome = Outcome(created: nat, finishSaved: bool, chainStarts: bool, startSaved: bool)

  type Table = seq<Round>

  // ---- Listing and ordering -------------------------------------------------------------------

  function Insert(r: Round, sorted: seq<Round>): seq<Round> {
    if sorted == [] || r.number < sorted[0].number then [r] + sorted else [sorted[0]] + Insert(r, sorted[1..])
  }

  function SortByNumber(rows: seq<Round>): seq<Round> {
    if rows == [] then [] else Insert(rows[0], SortByNumber(rows[1..]))
  }

  function Reverse(rows: seq<Round>): seq<Round> {
    if rows == [] then [] else [rows[|rows| - 1]] + Reverse(rows[..|rows| - 1])
  }

  /** The first page of rows, highest number first: whatever size is asked for, at most 100. */
  function FirstPage(t: Table): seq<Round> {
    var all := Reverse(SortByNumber(t));
    if |all| <= PAGE_CAP then all else all[..PAGE_CAP]
  }

  // ---- One Sync ---------------------------------------------------------------------------------

  function Missing(numbers: set<int>, from: RoundNumber, total: int): seq<RoundNumber>
    decreases total - from
  {
    if from > total then []
    else (if from in numbers then [] else [from]) + Missing(numbers, from + 1, total)
  }

  function NewRound(c: Contest, id: nat, number: RoundNumber): Round {
    Round(id, number, Pending, c.Slot(number), c.Slot(number) + c.Duration(), false)
  }

  function NewRounds(c: Contest, id: nat, numbers: seq<RoundNumber>): seq<Round> {
    seq(|numbers|, i requires 0 <= i < |numbers| => NewRound(c, id + i, numbers[i]))
  }

  /** The numbers a Sync must insert, judging by the page it loaded. */
  function ToCreate(c: Contest, page: seq<Round>): seq<RoundNumber> {
    if |page| < c.Planned() then Missing(NumbersOf(page), 1, c.Planned()) else []
  }

  function NumbersOf(rows: seq<Round>): set<int> { set r <- rows :: r.number }

  predicate IsDue(r: Round, now: nat) { r.status == Pending && r.start != 0 && r.start <= now }

  function FirstRunning(rows: seq<Round>): Option<Round> {
    if rows == [] then None else if rows[0].status == Running then Some(rows[0]) else FirstRunning(rows[1..])
  }

  function FirstDue(rows: seq<Round>, now: nat): Option<Round> {
    if rows == [] then None else if IsDue(rows[0], now) then Some(rows[0]) else FirstDue(rows[1..], now)
  }

  function Save(t: Table, r: Round): Table { if r.id < |t| then t[r.id := r] else t }

  predicate Over(r: Round, now: nat) { r.end != 0 && r.end <= now }

  function Started(c: Contest, r: Round, now: nat): Round {
    r.(status := Running, start := now, end := now + c.Duration(), chain := true)
  }

  function Stranded(r: Round): Round { r.(status := Pending, start := 0, end := 0) }

  /** Saves the first running row as finished when it is over. */
  function Settle(t: Table, rows: seq<Round>, now: nat): Table {
    var running := FirstRunning(rows);
    if running.Some? && Over(running.value, now) then Save(t, running.value.(status := Finished)) else t
  }

  /** When no row is running any more, starts the first one due. */
  function StartNext(c: Contest, t: Table, rows: seq<Round>, now: nat, o: Outcome): Table {
    var running, due := FirstRunning(rows), FirstDue(rows, now);
    if (running == None || Over(running.value, now)) && due.Some? then
      if !o.startSaved then t
      else Save(t, if o.chainStarts then Started(c, due.value, now) else Stranded(due.value))
    else t
  }

  function Advance(c: Contest, t: Table, rows: seq<Round>, now: nat, o: Outcome): Table {
    var running := FirstRunning(rows);
    if running.Some? && Over(running.value, now) && !o.finishSaved then t
    else StartNext(c, Settle(t, rows, now), rows, now, o)
  }

  function Sync(c: Contest, t: Table, now: nat, o: Outcome): Table {
    var page := FirstPage(t);
    var numbers := ToCreate(c, page);
    if o.created < |numbers| then
      t + NewRounds(c, |t|, numbers[..o.created])
    else
      var added := NewRounds(c, |t|, numbers);
      Advance(c, t + added, SortByNumber(page + added), now, o)
  }

  class RoundService {
    const contest: Contest
    var rounds: Table

    constructor (contest: Contest)
      ensures this.contest == contest && rounds == []
    {
      this.contest := contest;
      rounds := [];
    }

    method SyncContestRoundLifecycle(now: nat, o: Outcome)
      modifies this`rounds
      ensures rounds == Sync(contest, old(rounds), now, o)
    {
      var page := FirstPage(rounds);
      var added, complete := CreateMissing(page, o.created);
      if !complete {
        return;
      }
      var rows := SortByNumber(page + added);
      var runningRound, duePendingRound := Scan(rows, now);

      var free := runningRound == None;
      if runningRound.Some? && runningRound.value.end != 0 && runningRound.value.end <= now {
        if !o.finishSaved {
          return;
        }
        rounds := Save(rounds, runningRound.value.(status := Finished));
        free := true;
      }
      if free && duePendingRound.Some? {
        var round := duePendingRound.value;
        if !o.chainStarts {
          if o.startSaved {
            rounds := Save(rounds, round.(status := Pending, start := 0, end := 0));
          }
          return;
        }
        if !o.startSaved {
          return;
        }
        rounds := Save(rounds, round.(status := Running, start := now, end := now + contest.Duration(), chain := true));
      }
    }

    /** Inserts the planned rounds the page does not show, stopping at the first failed insert. */
    method CreateMissing(page: seq<Round>, created: nat) returns (added: seq<Round>, complete: bool)
      modifies this`rounds
      ensures var numbers := ToCreate(contest, page);
              && complete == (|numbers| <= created)
              && added == NewRounds(contest, |old(rounds)|, if complete then numbers else numbers[..created])
      ensures rounds == old(rounds) + added
    {
      added := [];
      if |page| >= contest.Planned() {
        return added, true;
      }
      var existing := NumbersOf(page);
      ghost var numbers := Missing(existing, 1, contest.Planned());
      var roundNumber: RoundNumber := 1;
      while roundNumber <= contest.Planned()
        invariant 1 <= roundNumber <= contest.Planned() + 1
        invariant |added| <= |numbers| && numbers[|added|..] == Missing(existing, roundNumber, contest.Planned())
        invariant |added| <= created
        invariant added == NewRounds(contest, |old(rounds)|, numbers[..|added|])
        invariant rounds == old(rounds) + added
      {
        if roundNumber !in existing {
          assert numbers[|added|..][0] == roundNumber;
          assert numbers[|added|..][1..] == numbers[|added| + 1..];
          if |added| == created {
            return added, false;
          }
          var round := NewRound(contest, |rounds|, roundNumber);
          assert NewRounds(contest, |old(rounds)|, numbers[..|added| + 1])
              == NewRounds(contest, |old(rounds)|, numbers[..|added|]) + [round];
          rounds := rounds + [round];
          added := added + [round];
        }
        roundNumber := roundNumber + 1;
      }
      assert numbers[..|added|] == numbers;
      complete := true;
    }

    method Scan(rows: seq<Round>, now: nat) returns (running: Option<Round>, due: Option<Round>)
      ensures running == FirstRunning(rows) && due == FirstDue(rows, now)
    {
      running, due := None, None;
      var i := 0;
      while i < |rows|
        invariant 0 <= i <= |rows|
        invariant FirstRunning(rows) == if running.Some? then running else FirstRunning(rows[i..])
        invariant FirstDue(rows, now) == if due.Some? then due else FirstDue(rows[i..], now)
      {
        assert rows[i..][1..] == rows[i + 1..];
        if rows[i].status == Running {
          if running == None {
            running := Some(rows[i]);
          }
        } else if rows[i].status == Pending && rows[i].start != 0 && now >= rows[i].start {
          if due == None {
            due := Some(rows[i]);
          }
        }
        i := i + 1;
      }
    }
  }

  // ---- Tables in order ------------------------------------------------------------------------------

  /** Row i holds round i + 1. */
  ghost predicate InOrder(t: Table) {
    forall i | 0 <= i < |t| :: t[i].id == i && t[i].number == i + 1
  }

  ghost predicate Ascending(rows: seq<Round>) {
    forall i, j | 0 <= i < j < |rows| :: rows[i].number < rows[j].number
  }

  lemma {:induction false} InsertBetween(r: Round, low: seq<Round>, high: seq<Round>)
    requires forall x <- low :: x.number < r.number
    requires forall x <- high :: r.number < x.number
    ensures Insert(r, low + high) == low + [r] + high
  {
    if low == [] {
      assert low + high == high;
      assert low + [r] + high == [r] + high;
    } else {
      InsertBetween(r, low[1..], high);
      assert (low + high)[1..] == low[1..] + high;
      assert low == [low[0]] + low[1..];
    }
  }

  lemma {:induction false} SortAscending(rows: seq<Round>)
    requires Ascending(rows)
    ensures SortByNumber(rows) == rows
  {
    if rows != [] {
      SortAscending(rows[1..]);
      InsertBetween(rows[0], [], rows[1..]);
      assert [] + rows[1..] == rows[1..];
    }
  }

  lemma WithoutLast(low: seq<Round>, high: seq<Round>)
    requires low != [] && Ascending(low + high)
    ensures (var front, last := low[..|low| - 1], low[|low| - 1];
             && Ascending(front + high)
             && (forall x <- front :: x.number < last.number)
             && (forall x <- high :: last.number < x.number))
  {
    var front, last, all := low[..|low| - 1], low[|low| - 1], low + high;
    forall i, j | 0 <= i < j < |front + high| ensures (front + high)[i].number < (front + high)[j].number {
      var i', j' := if i < |front| then i else i + 1, if j < |front| then j else j + 1;
      assert (front + high)[i] == all[i'] && (front + high)[j] == all[j'];
    }
    assert all[|front|] == last;
    assert forall k | 0 <= k < |front| :: front[k] == all[k];
    assert forall k | 0 <= k < |high| :: high[k] == all[|low| + k];
  }

  lemma SortCons(r: Round, rows: seq<Round>)
    ensures SortByNumber([r] + rows) == Insert(r, SortByNumber(rows))
  {
    assert ([r] + rows)[1..] == rows;
  }

  /** Sorting a reversed ascending list, followed by larger rows, puts everything back in order. */
  lemma {:induction false} SortReversed(low: seq<Round>, high: seq<Round>)
    requires Ascending(low + high)
    ensures SortByNumber(Reverse(low) + high) == low + high
  {
    if low == [] {
      assert Reverse(low) + high == high && low + high == high;
      SortAscending(high);
    } else {
      var front, last := low[..|low| - 1], low[|low| - 1];
      assert Reverse(low) + high == [last] + (Reverse(front) + high);
      SortCons(last, Reverse(front) + high);
      WithoutLast(low, high);
      SortReversed(front, high);
      InsertBetween(last, front, high);
      assert low == front + [last];
    }
  }

  lemma {:induction false} ReverseShape(rows: seq<Round>)
    ensures |Reverse(rows)| == |rows|
    ensures forall i | 0 <= i < |rows| :: Reverse(rows)[i] == rows[|rows| - 1 - i]
  {
    if rows != [] {
      ReverseShape(rows[..|rows| - 1]);
    }
  }

  lemma {:induction false} MissingAll(numbers: set<int>, from: RoundNumber, total: int)
    requires forall k | from <= k <= total :: k !in numbers
    ensures |Missing(numbers, from, total)| == if from > total then 0 else total - from + 1
    ensures forall i | 0 <= i < |Missing(numbers, from, total)| :: Missing(numbers, from, total)[i] == from + i
    decreases total - from
  {
    if from <= total {
      MissingAll(numbers, from + 1, total);
    }
  }

  lemma {:induction false} MissingAfter(numbers: set<int>, from: RoundNumber, have: nat, total: int)
    requires from <= have + 1 <= total + 1
    requires forall k | from <= k <= have :: k in numbers
    requires forall k | have < k <= total :: k !in numbers
    ensures Missing(numbers, from, total) == Missing(numbers, have + 1, total)
    decreases have - from
  {
    if from <= have {
      MissingAfter(numbers, from + 1, have, total);
    }
  }

  /** On a table in order that fits one page, the page shows every row, highest number first. */
  lemma PageInOrder(t: Table)
    requires InOrder(t) && |t| <= PAGE_CAP
    ensures FirstPage(t) == Reverse(t)
  {
    SortAscending(t);
    ReverseShape(t);
  }

  lemma NumbersInOrder(t: Table)
    requires InOrder(t)
    ensures forall k :: k in NumbersOf(Reverse(t)) <==> 1 <= k <= |t|
  {
    ReverseShape(t);
    forall k | 1 <= k <= |t| ensures k in NumbersOf(Reverse(t)) {
      assert Reverse(t)[|t| - k] == t[k - 1];
    }
  }

  /** The rows still missing are those after the last one. */
  lemma CreateInOrder(c: Contest, t: Table)
    requires InOrder(t) && |t| <= c.Planned() <= PAGE_CAP
    ensures var numbers := ToCreate(c, FirstPage(t));
            && |numbers| == c.Planned() - |t|
            && forall i | 0 <= i < |numbers| :: numbers[i] == |t| + 1 + i
  {
    PageInOrder(t);
    ReverseShape(t);
    if |t| < c.Planned() {
      NumbersInOrder(t);
      MissingAfter(NumbersOf(Reverse(t)), 1, |t|, c.Planned());
      MissingAll(NumbersOf(Reverse(t)), |t| + 1, c.Planned());
    }
  }

  lemma ExtendsBy(c: Contest, t: Table, numbers: seq<RoundNumber>)
    requires forall i | 0 <= i < |numbers| :: numbers[i] == |t| + 1 + i
    ensures t + NewRounds(c, |t|, numbers) == Extend(c, t, |numbers|)
  {}

  lemma ExtendInOrder(c: Contest, t: Table, more: nat)
    requires InOrder(t)
    ensures InOrder(Extend(c, t, more)) && Ascending(Extend(c, t, more))
  {
    var v := Extend(c, t, more);
    assert forall i | 0 <= i < |t| :: v[i] == t[i];
    assert forall i | |t| <= i < |v| :: v[i] == NewRound(c, i, i + 1);
  }

  /** Such a Sync appends the rows still missing in order, then works on the whole table. */
  lemma SyncInOrder(c: Contest, t: Table, now: nat, o: Outcome)
    requires InOrder(t) && |t| <= c.Planned() <= PAGE_CAP
    ensures var lacking := c.Planned() - |t|;
            Sync(c, t, now, o) == if o.created < lacking then Extend(c, t, o.created)
                                  else Advance(c, Extend(c, t, lacking), Extend(c, t, lacking), now, o)
  {
    PageInOrder(t);
    CreateInOrder(c, t);
    var numbers := ToCreate(c, FirstPage(t));
    if o.created < |numbers| {
      ExtendsBy(c, t, numbers[..o.created]);
    } else {
      ExtendsBy(c, t, numbers);
      ExtendInOrder(c, t, |numbers|);
      SortReversed(t, NewRounds(c, |t|, numbers));
    }
  }

  /** The table with its next `more` planned rounds inserted. */
  function Extend(c: Contest, t: Table, more: nat): Table {
    t + seq(more, i requires 0 <= i < more => NewRound(c, |t| + i, |t| + i + 1))
  }

  // ---- Safety ------------------------------------------------------------------------------------------

  /** A round that will never be due: its chain failed to start, or it was planned for time zero. */
  predicate Stuck(r: Round) { r.status == Pending && r.start == 0 }

  predicate Begun(r: Round) { r.status != Pending }

  ghost predicate RowFits(c: Contest, r: Round, clock: nat) {
    && r.number >= 1
    && if r.status == Pending then r.start == 0 || r.start == c.Slot(r.number)
       else
         && c.Slot(r.number) <= r.start <= clock && 0 < r.start && r.end == r.start + c.Duration()
         && (r.status == Finished ==> r.end <= clock)
  }

  /** By number, and leaving stuck rounds out: finished rounds, then at most one running, then
      pending ones. */
  ghost predicate Ranked(t: Table) {
    forall i, j | 0 <= i < j < |t| && !Stuck(t[i]) && !Stuck(t[j]) :: t[i].status == Finished || t[j].status == Pending
  }

  /** The intervals of the rounds that have begun are disjoint and in the order of their numbers. */
  ghost predicate Disjoint(t: Table) {
    forall i, j | 0 <= i < j < |t| && Begun(t[i]) && Begun(t[j]) :: t[i].end <= t[j].start
  }

  ghost predicate RoundsSafe(c: Contest, t: Table, clock: nat) {
    && InOrder(t) && |t| <= c.Planned()
    && (forall i | 0 <= i < |t| :: RowFits(c, t[i], clock))
    && Ranked(t) && Disjoint(t)
  }

  lemma SlotsGrow(c: Contest, a: RoundNumber, b: RoundNumber)
    requires a <= b
    ensures c.Slot(a) <= c.Slot(b)
  {
    var d := c.Duration();
    assert (b - 1) * d == (a - 1) * d + (b - a) * d && 0 <= (b - a) * d;
  }

  lemma {:induction false} FirstRunningAt(rows: seq<Round>)
    ensures var r := FirstRunning(rows);
            if r == None then forall i | 0 <= i < |rows| :: rows[i].status != Running
            else r.value.status == Running && exists i | 0 <= i < |rows| :: rows[i] == r.value
  {
    if rows != [] && rows[0].status != Running {
      FirstRunningAt(rows[1..]);
      if FirstRunning(rows[1..]).Some? {
        var i :| 0 <= i < |rows[1..]| && rows[1..][i] == FirstRunning(rows).value;
        assert rows[i + 1] == FirstRunning(rows).value;
      }
    }
  }

  lemma {:induction false} FirstDueAt(rows: seq<Round>, now: nat)
    ensures var r := FirstDue(rows, now);
            if r == None then forall i | 0 <= i < |rows| :: !IsDue(rows[i], now)
            else exists i | 0 <= i < |rows| :: rows[i] == r.value && IsDue(rows[i], now)
                                               && forall j | 0 <= j < i :: !IsDue(rows[j], now)
  {
    if rows != [] && !IsDue(rows[0], now) {
      FirstDueAt(rows[1..], now);
      if FirstDue(rows[1..], now).Some? {
        var i :| 0 <= i < |rows[1..]| && rows[1..][i] == FirstDue(rows, now).value && IsDue(rows[1..][i], now)
                 && forall j | 0 <= j < i :: !IsDue(rows[1..][j], now);
        forall j | 0 <= j < i + 1 ensures !IsDue(rows[j], now) {
          if j > 0 {
            assert rows[j] == rows[1..][j - 1];
          }
        }
        assert rows[i + 1] == FirstDue(rows, now).value;
      }
    }
  }

  /** What the scan finds in a table in order: the row itself, at its own place. */
  lemma Scanned(t: Table, now: nat)
    requires InOrder(t)
    ensures var r := FirstRunning(t);
            if r == None then forall i | 0 <= i < |t| :: t[i].status != Running
            else r.value.id < |t| && t[r.value.id] == r.value && r.value.status == Running
    ensures var d := FirstDue(t, now);
            if d == None then forall i | 0 <= i < |t| :: !IsDue(t[i], now)
            else d.value.id < |t| && t[d.value.id] == d.value && IsDue(d.value, now)
                 && forall j | 0 <= j < d.value.id :: !IsDue(t[j], now)
  {
    FirstRunningAt(t);
    FirstDueAt(t, now);
  }

  lemma FinishKeepsSafe(c: Contest, t: Table, clock: nat, i: nat)
    requires RoundsSafe(c, t, clock) && i < |t| && t[i].status == Running && t[i].end <= clock
    ensures RoundsSafe(c, t[i := t[i].(status := Finished)], clock)
  {
    var v := t[i := t[i].(status := Finished)];
    assert forall k | 0 <= k < |t| :: v[k].start == t[k].start && v[k].end == t[k].end
                                      && (Stuck(v[k]) <==> Stuck(t[k])) && (Begun(v[k]) <==> Begun(t[k]));
  }

  lemma StrandKeepsSafe(c: Contest, t: Table, clock: nat, i: nat)
    requires RoundsSafe(c, t, clock) && i < |t| && t[i].status == Pending
    ensures RoundsSafe(c, t[i := Stranded(t[i])], clock)
  {}

  lemma StartKeepsSafe(c: Contest, t: Table, now: nat, i: nat)
    requires RoundsSafe(c, t, now) && i < |t| && IsDue(t[i], now)
    requires forall j | 0 <= j < i :: !IsDue(t[j], now)
    requires forall j | 0 <= j < |t| :: t[j].status != Running
    ensures RoundsSafe(c, t[i := Started(c, t[i], now)], now)
  {
    var v := t[i := Started(c, t[i], now)];
    assert RowFits(c, t[i], now);
    forall j | 0 <= j < i && !Stuck(t[j]) ensures t[j].status == Finished && t[j].end <= now {
      assert RowFits(c, t[j], now);
      SlotsGrow(c, t[j].number, t[i].number);
    }
    forall k | i < k < |t| && !Stuck(t[k]) ensures t[k].status == Pending {
      assert t[i].status == Finished || t[k].status == Pending;
    }
  }

  lemma LaterKeepsSafe(c: Contest, t: Table, clock: nat, now: nat)
    requires RoundsSafe(c, t, clock) && clock <= now
    ensures RoundsSafe(c, t, now)
  {
    assert forall i | 0 <= i < |t| :: RowFits(c, t[i], clock);
  }

  lemma NoneRunningAfter(t: Table, i: nat)
    requires Ranked(t) && i < |t| && t[i].status == Running
    ensures forall j | 0 <= j < |t| && j != i :: t[j].status != Running
  {
    forall j | 0 <= j < |t| && j != i ensures t[j].status != Running {
      if j < i {
        assert t[j].status == Finished || t[i].status == Pending || Stuck(t[j]);
      } else {
        assert t[i].status == Finished || t[j].status == Pending;
      }
    }
  }

  lemma AdvanceKeepsSafe(c: Contest, t: Table, now: nat, o: Outcome)
    requires RoundsSafe(c, t, now)
    ensures RoundsSafe(c, Advance(c, t, t, now, o), now)
  {
    Scanned(t, now);
    var running, due := FirstRunning(t), FirstDue(t, now);
    var settled := t;
    if running.Some? && Over(running.value, now) {
      FinishKeepsSafe(c, t, now, running.value.id);
      NoneRunningAfter(t, running.value.id);
      settled := t[running.value.id := running.value.(status := Finished)];
    }
    if due.Some? {
      assert settled[due.value.id] == due.value;
      StrandKeepsSafe(c, settled, now, due.value.id);
      if running == None || Over(running.value, now) {
        StartKeepsSafe(c, settled, now, due.value.id);
      }
    }
  }

  lemma ExtendKeepsSafe(c: Contest, t: Table, clock: nat, more: nat)
    requires RoundsSafe(c, t, clock) && |t| + more <= c.Planned()
    ensures RoundsSafe(c, Extend(c, t, more), clock)
  {
    ExtendInOrder(c, t, more);
    var v := Extend(c, t, more);
    assert forall i | 0 <= i < |t| :: v[i] == t[i];
    assert forall i | |t| <= i < |v| :: v[i] == NewRound(c, i, i + 1);
    forall i | 0 <= i < |v| ensures RowFits(c, v[i], clock) {
      if i < |t| {
        assert RowFits(c, t[i], clock);
      }
    }
  }

  /** The table a Sync works on once its inserts are done. */
  ghost function Full(c: Contest, t: Table): Table
    requires |t| <= c.Planned()
  {
    Extend(c, t, c.Planned() - |t|)
  }

  lemma FullIsSafe(c: Contest, t: Table, clock: nat, now: nat)
    requires RoundsSafe(c, t, clock) && clock <= now
    ensures RoundsSafe(c, Full(c, t), now) && |Full(c, t)| == c.Planned()
  {
    LaterKeepsSafe(c, t, clock, now);
    ExtendKeepsSafe(c, t, now, c.Planned() - |t|);
  }

  lemma FullSync(c: Contest, t: Table, now: nat, o: Outcome)
    requires InOrder(t) && |t| <= c.Planned() <= PAGE_CAP && o.created >= c.Planned() - |t|
    ensures Sync(c, t, now, o) == Advance(c, Full(c, t), Full(c, t), now, o)
  {
    SyncInOrder(c, t, now, o);
  }

  lemma BrokenSync(c: Contest, t: Table, clock: nat, now: nat, o: Outcome)
    requires RoundsSafe(c, t, clock) && clock <= now && c.Planned() <= PAGE_CAP && o.created < c.Planned() - |t|
    ensures Sync(c, t, now, o) == Extend(c, t, o.created) && RoundsSafe(c, Extend(c, t, o.created), now)
  {
    hide Sync, Ranked, Disjoint, RowFits;
    LaterKeepsSafe(c, t, clock, now);
    ExtendKeepsSafe(c, t, now, o.created);
    SyncInOrder(c, t, now, o);
  }

  lemma SyncKeepsSafe(c: Contest, t: Table, clock: nat, now: nat, o: Outcome)
    requires RoundsSafe(c, t, clock) && clock <= now && c.Planned() <= PAGE_CAP
    ensures RoundsSafe(c, Sync(c, t, now, o), now)
  {
    hide Sync, Advance, Ranked, Disjoint, RowFits;
    if o.created < c.Planned() - |t| {
      BrokenSync(c, t, clock, now, o);
    } else {
      FullIsSafe(c, t, clock, now);
      FullSync(c, t, now, o);
      AdvanceKeepsSafe(c, Full(c, t), now, o);
    }
  }

  // ---- Runs -----------------------------------------------------------------------------------------------

  datatype Tick = Tick(now: nat, outcome: Outcome)

  /** The clock never goes back. */
  predicate Timely(ticks: seq<Tick>, clock: nat) {
    ticks == [] || (clock <= ticks[0].now && Timely(ticks[1..], ticks[0].now))
  }

  function Execute(c: Contest, t: Table, ticks: seq<Tick>): Table
    decreases |ticks|
  {
    if ticks == [] then t else Execute(c, Sync(c, t, ticks[0].now, ticks[0].outcome), ticks[1..])
  }

  function LastTime(ticks: seq<Tick>, clock: nat): nat { if ticks == [] then clock else ticks[|ticks| - 1].now }

  /** Every run keeps the order of rounds, whatever fails along the way. */
  lemma {:induction false} RunsAreSafe(c: Contest, t: Table, clock: nat, ticks: seq<Tick>)
    requires RoundsSafe(c, t, clock) && c.Planned() <= PAGE_CAP && Timely(ticks, clock)
    ensures RoundsSafe(c, Execute(c, t, ticks), LastTime(ticks, clock))
    decreases |ticks|
  {
    hide RoundsSafe, Sync;
    if ticks != [] {
      var tick := ticks[0];
      SyncKeepsSafe(c, t, clock, tick.now, tick.outcome);
      RunsAreSafe(c, Sync(c, t, tick.now, tick.outcome), tick.now, ticks[1..]);
      assert LastTime(ticks[1..], tick.now) == LastTime(ticks, clock);
    }
  }

  /** At most one round runs, at any time of any run. */
  lemma AtMostOneRunning(c: Contest, ticks: seq<Tick>, i: nat, j: nat)
    requires c.Planned() <= PAGE_CAP && Timely(ticks, 0)
    ensures var t := Execute(c, [], ticks);
            i < |t| && j < |t| && t[i].status == Running && t[j].status == Running ==> i == j
  {
    RunsAreSafe(c, [], 0, ticks);
    hide Execute;
    var t := Execute(c, [], ticks);
    if i < |t| && t[i].status == Running {
      NoneRunningAfter(t, i);
    }
  }

  // ---- The set of rounds ---------------------------------------------------------------------------------

  ghost predicate Creates(c: Contest, ticks: seq<Tick>) {
    forall i | 0 <= i < |ticks| :: ticks[i].outcome.created >= c.Planned()
  }

  /** From the first Sync on, the table holds exactly the planned rounds, once each and in order. */
  ghost predicate ExactRounds(c: Contest) {
    forall ticks | ticks != [] && Timely(ticks, 0) && Creates(c, ticks) ::
      var t := Execute(c, [], ticks); InOrder(t) && |t| == c.Planned()
  }

  lemma AdvanceKeepsLength(c: Contest, t: Table, rows: seq<Round>, now: nat, o: Outcome)
    ensures |Advance(c, t, rows, now, o)| == |t|
  {}

  lemma {:induction false} CompleteStays(c: Contest, t: Table, clock: nat, ticks: seq<Tick>)
    requires RoundsSafe(c, t, clock) && c.Planned() <= PAGE_CAP && Timely(ticks, clock) && Creates(c, ticks)
    requires ticks == [] ==> |t| == c.Planned()
    ensures InOrder(Execute(c, t, ticks)) && |Execute(c, t, ticks)| == c.Planned()
    decreases |ticks|
  {
    hide Sync, Advance, Ranked, Disjoint, RowFits;
    if ticks != [] {
      var tick := ticks[0];
      assert forall i | 0 <= i < |ticks[1..]| :: ticks[1..][i] == ticks[i + 1];
      SyncInOrder(c, t, tick.now, tick.outcome);
      var full := Extend(c, t, c.Planned() - |t|);
      AdvanceKeepsLength(c, full, full, tick.now, tick.outcome);
      SyncKeepsSafe(c, t, clock, tick.now, tick.outcome);
      CompleteStays(c, Sync(c, t, tick.now, tick.outcome), tick.now, ticks[1..]);
    }
  }

  lemma {:induction false} InsertLength(r: Round, sorted: seq<Round>)
    ensures |Insert(r, sorted)| == |sorted| + 1
  {
    if sorted != [] && r.number >= sorted[0].number {
      InsertLength(r, sorted[1..]);
    }
  }

  lemma {:induction false} SortLength(rows: seq<Round>)
    ensures |SortByNumber(rows)| == |rows|
  {
    if rows != [] {
      SortLength(rows[1..]);
      InsertLength(rows[0], SortByNumber(rows[1..]));
    }
  }

  lemma {:induction false} FewNumbers(rows: seq<Round>)
    ensures |NumbersOf(rows)| <= |rows|
  {
    if rows == [] {
      assert NumbersOf(rows) == {};
    } else {
      FewNumbers(rows[1..]);
      assert NumbersOf(rows) <= {rows[0].number} + NumbersOf(rows[1..]);
      SubsetSize(NumbersOf(rows), {rows[0].number} + NumbersOf(rows[1..]));
    }
  }

  /** Nothing missing from 1 to `total` means at least `total - from + 1` different numbers. */
  lemma {:induction false} NothingMissing(numbers: set<int>, from: RoundNumber, total: int)
    requires Missing(numbers, from, total) == [] && from <= total + 1
    ensures |numbers| >= total - from + 1
    decreases total - from
  {
    if from <= total {
      NothingMissing(numbers - {from}, from + 1, total) by {
        MissingWithout(numbers, from, from + 1, total);
      }
    }
  }

  lemma {:induction false} MissingWithout(numbers: set<int>, x: int, from: RoundNumber, total: int)
    requires x < from
    ensures Missing(numbers - {x}, from, total) == Missing(numbers, from, total)
    decreases total - from
  {
    if from <= total {
      MissingWithout(numbers, x, from + 1, total);
    }
  }

  lemma {:induction false} MissingLength(numbers: set<int>, from: RoundNumber, total: int)
    requires from <= total + 1
    ensures |Missing(numbers, from, total)| <= total - from + 1
    decreases total - from
  {
    if from <= total {
      MissingLength(numbers, from + 1, total);
    }
  }

  /** With more rounds than a page shows, the next Sync takes some for missing and inserts them again. */
  lemma LongContestsRepeatRounds(c: Contest, t: Table, now: nat, o: Outcome)
    requires |t| >= c.Planned() > PAGE_CAP && o.created >= c.Planned()
    ensures |Sync(c, t, now, o)| > |t|
  {
    SortLength(t);
    ReverseShape(SortByNumber(t));
    var page := FirstPage(t);
    assert |page| == PAGE_CAP;
    FewNumbers(page);
    var numbers := ToCreate(c, page);
    if numbers == [] {
      NothingMissing(NumbersOf(page), 1, c.Planned());
    }
    MissingLength(NumbersOf(page), 1, c.Planned());
    var full := t + NewRounds(c, |t|, numbers);
    AdvanceKeepsLength(c, full, SortByNumber(page + NewRounds(c, |t|, numbers)), now, o);
  }

  /** The rounds come out exactly as planned if and only if they fit one page. */
  lemma ExactRoundsIff(c: Contest)
    ensures ExactRounds(c) <==> c.Planned() <= 100
  {
    if c.Planned() <= PAGE_CAP {
      forall ticks | ticks != [] && Timely(ticks, 0) && Creates(c, ticks)
        ensures var t := Execute(c, [], ticks); InOrder(t) && |t| == c.Planned()
      {
        CompleteStays(c, [], 0, ticks);
      }
    } else {
      var o := Outcome(c.Planned(), true, true, true);
      var one, two := [Tick(0, o)], [Tick(0, o), Tick(0, o)];
      var t := Sync(c, [], 0, o);
      assert two[1..] == one && one[1..] == [];
      assert Execute(c, [], one) == t;
      assert Execute(c, t, one) == Sync(c, t, 0, o) && Execute(c, [], two) == Execute(c, t, one);
      if |t| == c.Planned() {
        LongContestsRepeatRounds(c, t, 0, o);
        assert |Execute(c, [], two)| != c.Planned();
      }
      assert Timely(one, 0) && Timely(two, 0) && Creates(c, one) && Creates(c, two);
    }
  }

  // ---- Progress ----------------------------------------------------------------------------------------------

  /** How many changes of status a round still has before it. */
  function Weight(r: Round): nat {
    if r.status == Running then 1 else if r.status == Pending && r.start != 0 then 2 else 0
  }

  function Weights(t: Table): nat { if t == [] then 0 else Weight(t[0]) + Weights(t[1..]) }

  /** Bounds all changes a contest can still see. */
  ghost function Work(c: Contest, t: Table): int { 2 * (c.Planned() - |t|) + Weights(t) }

  lemma {:induction false} WeightsUpdate(t: Table, i: nat, r: Round)
    requires i < |t|
    ensures Weights(t[i := r]) == Weights(t) - Weight(t[i]) + Weight(r)
  {
    if i > 0 {
      WeightsUpdate(t[1..], i - 1, r);
      assert t[i := r][1..] == t[1..][i - 1 := r];
    } else {
      assert t[i := r][1..] == t[1..];
    }
  }

  lemma {:induction false} WeightsAppend(t: Table, more: Table)
    ensures Weights(t + more) == Weights(t) + Weights(more)
    ensures Weights(more) <= 2 * |more|
    decreases |t|, |more|
  {
    if t == [] {
      assert t + more == more;
      if more != [] {
        WeightsAppend([], more[1..]);
      }
    } else {
      WeightsAppend(t[1..], more);
      assert (t + more)[1..] == t[1..] + more;
    }
  }

  /** The rows that a step changes, finishes and starts. */
  ghost function Changes(t: Table, v: Table): set<nat> { set i: nat | i < |t| && i < |v| && t[i] != v[i] }
  ghost function Finishes(t: Table, v: Table): set<nat> {
    set i: nat | i < |t| && i < |v| && t[i].status != Finished && v[i].status == Finished
  }

  ghost function Starts(t: Table, v: Table): set<nat> {
    set i: nat | i < |t| && i < |v| && t[i].status != Running && v[i].status == Running
  }

  lemma SettleWork(c: Contest, t: Table, now: nat)
    requires RoundsSafe(c, t, now)
    ensures var v := Settle(t, t, now);
            && |v| == |t| && |Changes(t, v)| <= Weights(t) - Weights(v)
            && |Finishes(t, v)| <= 1 && Starts(t, v) == {}
            && forall i | 0 <= i < |t| && t[i].status == Pending :: v[i] == t[i]
  {
    Scanned(t, now);
    var running := FirstRunning(t);
    var v := Settle(t, t, now);
    if running.Some? && Over(running.value, now) {
      var i := running.value.id;
      WeightsUpdate(t, i, t[i].(status := Finished));
      SubsetSize(Changes(t, v), {i});
      SubsetSize(Finishes(t, v), {i});
    } else {
      assert Changes(t, v) == {} && Finishes(t, v) == {};
    }
  }

  lemma StartWork(c: Contest, t: Table, u: Table, now: nat, o: Outcome)
    requires RoundsSafe(c, t, now) && |u| == |t|
    requires forall i | 0 <= i < |t| && t[i].status == Pending :: u[i] == t[i]
    ensures var v := StartNext(c, u, t, now, o);
            && |v| == |u| && |Changes(u, v)| <= Weights(u) - Weights(v)
            && Finishes(u, v) == {} && |Starts(u, v)| <= 1
  {
    Scanned(t, now);
    var due := FirstDue(t, now);
    var v := StartNext(c, u, t, now, o);
    if v != u {
      var j := due.value.id;
      assert u[j] == due.value;
      WeightsUpdate(u, j, v[j]);
      SubsetSize(Changes(u, v), {j});
      SubsetSize(Starts(u, v), {j});
    } else {
      assert Changes(u, v) == {} && Starts(u, v) == {};
    }
  }

  lemma AdvanceWork(c: Contest, t: Table, now: nat, o: Outcome)
    requires RoundsSafe(c, t, now)
    ensures var v := Advance(c, t, t, now, o);
            && |Changes(t, v)| <= Weights(t) - Weights(v)
            && |Finishes(t, v)| <= 1 && |Starts(t, v)| <= 1
  {
    var v := Advance(c, t, t, now, o);
    var u := Settle(t, t, now);
    SettleWork(c, t, now);
    StartWork(c, t, u, now, o);
    if v == StartNext(c, u, t, now, o) {
      SubsetSize(Changes(t, v), Changes(t, u) + Changes(u, v));
      SubsetSize(Finishes(t, v), Finishes(t, u) + Finishes(u, v));
      SubsetSize(Starts(t, v), Starts(t, u) + Starts(u, v));
    } else {
      assert Changes(t, v) == {} && Finishes(t, v) == {} && Starts(t, v) == {};
    }
  }

  lemma ExtendWork(c: Contest, t: Table, more: nat)
    requires |t| + more <= c.Planned()
    ensures var v := Extend(c, t, more);
            && Work(c, v) <= Work(c, t)
            && Changes(t, v) == {} && Finishes(t, v) == {} && Starts(t, v) == {}
  {
    var v := Extend(c, t, more);
    WeightsAppend(t, v[|t|..]);
    assert v == t + v[|t|..];
  }

  lemma ChangesShrink(t: Table, full: Table, v: Table)
    requires |t| <= |full| && t == full[..|t|]
    ensures |Changes(t, v)| <= |Changes(full, v)| && |Finishes(t, v)| <= |Finishes(full, v)|
            && |Starts(t, v)| <= |Starts(full, v)|
  {
    SubsetSize(Changes(t, v), Changes(full, v));
    SubsetSize(Finishes(t, v), Finishes(full, v));
    SubsetSize(Starts(t, v), Starts(full, v));
  }

  lemma FullSyncWork(c: Contest, t: Table, clock: nat, now: nat, o: Outcome)
    requires RoundsSafe(c, t, clock) && clock <= now && c.Planned() <= PAGE_CAP && o.created >= c.Planned() - |t|
    ensures (var v := Sync(c, t, now, o);
             && |Changes(t, v)| <= Work(c, t) - Work(c, v)
             && |Finishes(t, v)| <= 1 && |Starts(t, v)| <= 1)
  {
    hide Sync, Advance, Ranked, Disjoint, RowFits, Weights, Changes, Finishes, Starts;
    var full := Full(c, t);
    FullIsSafe(c, t, clock, now);
    FullSync(c, t, now, o);
    ExtendWork(c, t, |full| - |t|);
    AdvanceKeepsLength(c, full, full, now, o);
    AdvanceWork(c, full, now, o);
    assert t == full[..|t|];
    ChangesShrink(t, full, Advance(c, full, full, now, o));
  }

  lemma SyncWork(c: Contest, t: Table, clock: nat, now: nat, o: Outcome)
    requires RoundsSafe(c, t, clock) && clock <= now && c.Planned() <= PAGE_CAP
    ensures (var v := Sync(c, t, now, o);
             && |Changes(t, v)| <= Work(c, t) - Work(c, v)
             && |Finishes(t, v)| <= 1 && |Starts(t, v)| <= 1)
  {
    hide Sync, Advance, Ranked, Disjoint, RowFits, Weights, Changes, Finishes, Starts;
    if o.created < c.Planned() - |t| {
      BrokenSync(c, t, clock, now, o);
      ExtendWork(c, t, o.created);
    } else {
      FullSyncWork(c, t, clock, now, o);
    }
  }

  ghost function TotalChanges(c: Contest, t: Table, ticks: seq<Tick>): nat
    decreases |ticks|
  {
    if ticks == [] then 0
    else
      var v := Sync(c, t, ticks[0].now, ticks[0].outcome);
      |Changes(t, v)| + TotalChanges(c, v, ticks[1..])
  }

  /** A whole run changes rows at most as often as the work it starts with. */
  lemma {:induction false} ChangesAreBounded(c: Contest, t: Table, clock: nat, ticks: seq<Tick>)
    requires RoundsSafe(c, t, clock) && c.Planned() <= PAGE_CAP && Timely(ticks, clock)
    ensures TotalChanges(c, t, ticks) <= Work(c, t)
    decreases |ticks|
  {
    hide Sync, Changes, Ranked, Disjoint, RowFits;
    if ticks != [] {
      var tick := ticks[0];
      SyncWork(c, t, clock, tick.now, tick.outcome);
      SyncKeepsSafe(c, t, clock, tick.now, tick.outcome);
      ChangesAreBounded(c, Sync(c, t, tick.now, tick.outcome), tick.now, ticks[1..]);
    }
  }

  /** From an empty table: at most two changes per planned round, over the longest of runs. */
  lemma AtMostTwoChangesPerRound(c: Contest, ticks: seq<Tick>)
    requires c.Planned() <= PAGE_CAP && Timely(ticks, 0)
    ensures TotalChanges(c, [], ticks) <= 2 * c.Planned()
  {
    ChangesAreBounded(c, [], 0, ticks);
  }

  // ---- Liveness ------------------------------------------------------------------------------------------------

  /** A Sync in which nothing fails, once every slot has come and a full duration after `clock`. */
  predicate Good(c: Contest, tick: Tick, clock: nat) {
    && tick.outcome.created >= c.Planned() && tick.outcome.finishSaved
    && tick.outcome.chainStarts && tick.outcome.startSaved
    && c.Slot(c.Planned()) <= tick.now && clock + c.Duration() <= tick.now
  }

  predicate Diligent(c: Contest, ticks: seq<Tick>, clock: nat) {
    ticks == [] || (Good(c, ticks[0], clock) && Diligent(c, ticks[1..], ticks[0].now))
  }

  lemma FullAdvanceProgresses(c: Contest, t: Table, clock: nat, tick: Tick)
    requires RoundsSafe(c, t, tick.now) && |t| == c.Planned() && Good(c, tick, clock)
    requires forall i | 0 <= i < |t| && t[i].status == Running :: t[i].start <= clock
    ensures var v := Advance(c, t, t, tick.now, tick.outcome); Weights(v) < Weights(t) || Weights(v) == 0
  {
    hide Ranked, Disjoint;
    AdvanceWork(c, t, tick.now, tick.outcome);
    var v := Advance(c, t, t, tick.now, tick.outcome);
    Scanned(t, tick.now);
    var running, due := FirstRunning(t), FirstDue(t, tick.now);
    if running.Some? {
      var i := running.value.id;
      assert RowFits(c, t[i], tick.now) && Over(t[i], tick.now);
      var u := Settle(t, t, tick.now);
      SettleWork(c, t, tick.now);
      StartWork(c, t, u, tick.now, tick.outcome);
      WeightsUpdate(t, i, t[i].(status := Finished));
    } else if due.Some? {
      assert due.value.id in Changes(t, v);
    } else {
      forall i | 0 <= i < |t| ensures Weight(t[i]) == 0 {
        assert RowFits(c, t[i], tick.now) && !IsDue(t[i], tick.now) && t[i].status != Running;
        SlotsGrow(c, t[i].number, c.Planned());
      }
      NoWeight(t);
    }
  }

  lemma GoodSyncProgresses(c: Contest, t: Table, clock: nat, tick: Tick)
    requires RoundsSafe(c, t, clock) && c.Planned() <= PAGE_CAP && Good(c, tick, clock)
    ensures |Sync(c, t, tick.now, tick.outcome)| == c.Planned()
    ensures Work(c, Sync(c, t, tick.now, tick.outcome)) < Work(c, t)
         || Work(c, Sync(c, t, tick.now, tick.outcome)) == 0
  {
    hide Sync, Advance, Ranked, Disjoint, RowFits, Weights;
    assert clock <= tick.now;
    FullSync(c, t, tick.now, tick.outcome);
    FullProgresses(c, t, clock, tick);
    ExtendWork(c, t, c.Planned() - |t|);
  }

  lemma FullProgresses(c: Contest, t: Table, clock: nat, tick: Tick)
    requires RoundsSafe(c, t, clock) && Good(c, tick, clock)
    ensures var v := Advance(c, Full(c, t), Full(c, t), tick.now, tick.outcome);
            && |v| == |Full(c, t)| == c.Planned()
            && (Weights(v) < Weights(Full(c, t)) || Weights(v) == 0)
  {
    hide Advance, Weights, InOrder, Ranked, Disjoint, RowFits;
    FullIsSafe(c, t, clock, tick.now);
    AdvanceKeepsLength(c, Full(c, t), Full(c, t), tick.now, tick.outcome);
    RunningSince(c, t, clock);
    FullAdvanceProgresses(c, Full(c, t), clock, tick);
  }

  lemma RunningSince(c: Contest, t: Table, clock: nat)
    requires RoundsSafe(c, t, clock)
    ensures forall i | 0 <= i < |Full(c, t)| && Full(c, t)[i].status == Running :: Full(c, t)[i].start <= clock
  {
    forall i | 0 <= i < |Full(c, t)| && Full(c, t)[i].status == Running ensures Full(c, t)[i].start <= clock {
      assert i >= |t| ==> Full(c, t)[i] == NewRound(c, |t| + (i - |t|), |t| + (i - |t|) + 1);
      assert RowFits(c, t[i], clock);
    }
  }

  lemma {:induction false} NoWeight(t: Table)
    requires forall i | 0 <= i < |t| :: Weight(t[i]) == 0
    ensures Weights(t) == 0
  {
    if t != [] {
      NoWeight(t[1..]);
    }
  }

  lemma {:induction false} WeightlessRows(t: Table)
    requires Weights(t) == 0
    ensures forall i | 0 <= i < |t| :: Weight(t[i]) == 0
  {
    if t != [] {
      WeightlessRows(t[1..]);
    }
  }

  /** After as many diligent Syncs as there is work left, every round has finished, except those
      stuck at time zero. */
  lemma {:induction false} DiligentRunsFinish(c: Contest, t: Table, clock: nat, ticks: seq<Tick>)
    requires RoundsSafe(c, t, clock) && c.Planned() <= PAGE_CAP && Diligent(c, ticks, clock)
    requires ticks != [] && |ticks| >= Work(c, t)
    ensures var v := Execute(c, t, ticks);
            && |v| == c.Planned()
            && forall i | 0 <= i < |v| :: v[i].status == Finished || Stuck(v[i])
    decreases |ticks|
  {
    hide Sync, RoundsSafe, Weights;
    var tick := ticks[0];
    var v := Sync(c, t, tick.now, tick.outcome);
    GoodSyncProgresses(c, t, clock, tick);
    SyncKeepsSafe(c, t, clock, tick.now, tick.outcome);
    var rest := ticks[1..];
    if rest == [] {
      assert Work(c, v) == 0;
      WeightlessRows(v);
    } else {
      DiligentRunsFinish(c, v, tick.now, rest);
    }
  }

  /** A stuck round is never touched again, whatever succeeds or fails. */
  lemma AdvanceLeavesStuck(c: Contest, t: Table, now: nat, o: Outcome, i: nat)
    requires InOrder(t) && i < |t| && Stuck(t[i])
    ensures |Advance(c, t, t, now, o)| == |t| && Advance(c, t, t, now, o)[i] == t[i]
  {
    Scanned(t, now);
    AdvanceKeepsLength(c, t, t, now, o);
  }

  /** Only a chain that fails to start makes a round stuck. */
  lemma AdvanceAddsNoStuck(c: Contest, t: Table, now: nat, o: Outcome, i: nat)
    requires InOrder(t) && i < |t| && !Stuck(t[i]) && o.chainStarts
    ensures |Advance(c, t, t, now, o)| == |t| && !Stuck(Advance(c, t, t, now, o)[i])
  {
    Scanned(t, now);
    AdvanceKeepsLength(c, t, t, now, o);
  }

  lemma SyncLeavesStuck(c: Contest, t: Table, clock: nat, now: nat, o: Outcome, i: nat)
    requires RoundsSafe(c, t, clock) && clock <= now && c.Planned() <= PAGE_CAP && i < |t| && Stuck(t[i])
    ensures i < |Sync(c, t, now, o)| && Sync(c, t, now, o)[i] == t[i]
  {
    hide Sync, Advance, Ranked, Disjoint, RowFits;
    if o.created < c.Planned() - |t| {
      BrokenSync(c, t, clock, now, o);
    } else {
      FullIsSafe(c, t, clock, now);
      FullSync(c, t, now, o);
      AdvanceLeavesStuck(c, Full(c, t), now, o, i);
    }
  }

  /** Over every run, whatever succeeds or fails, a stuck round stays as it is: never due again. */
  lemma {:induction false} StuckForever(c: Contest, t: Table, clock: nat, ticks: seq<Tick>, i: nat)
    requires RoundsSafe(c, t, clock) && c.Planned() <= PAGE_CAP && Timely(ticks, clock) && i < |t| && Stuck(t[i])
    ensures i < |Execute(c, t, ticks)| && Execute(c, t, ticks)[i] == t[i]
    decreases |ticks|
  {
    hide Sync, RoundsSafe, Stuck;
    if ticks != [] {
      var tick := ticks[0];
      SyncLeavesStuck(c, t, clock, tick.now, tick.outcome, i);
      SyncKeepsSafe(c, t, clock, tick.now, tick.outcome);
      StuckForever(c, Sync(c, t, tick.now, tick.outcome), tick.now, ticks[1..], i);
    }
  }

  lemma GoodSyncStuckIff(c: Contest, t: Table, clock: nat, tick: Tick, i: nat)
    requires RoundsSafe(c, t, clock) && c.Planned() <= PAGE_CAP && Good(c, tick, clock) && i < c.Planned()
    ensures |Full(c, t)| == |Sync(c, t, tick.now, tick.outcome)| == c.Planned()
    ensures Stuck(Sync(c, t, tick.now, tick.outcome)[i]) <==> Stuck(Full(c, t)[i])
  {
    hide Sync, Advance, Ranked, Disjoint, RowFits, Stuck;
    FullIsSafe(c, t, clock, tick.now);
    FullSync(c, t, tick.now, tick.outcome);
    if Stuck(Full(c, t)[i]) {
      AdvanceLeavesStuck(c, Full(c, t), tick.now, tick.outcome, i);
    } else {
      AdvanceAddsNoStuck(c, Full(c, t), tick.now, tick.outcome, i);
    }
  }

  /** Exactly the planned rounds that are not stuck at the start finish in such a run. */
  lemma {:induction false} DiligentFinishIff(c: Contest, t: Table, clock: nat, ticks: seq<Tick>, i: nat)
    requires RoundsSafe(c, t, clock) && c.Planned() <= PAGE_CAP && Diligent(c, ticks, clock)
    requires ticks != [] && |ticks| >= Work(c, t) && i < c.Planned()
    ensures |Execute(c, t, ticks)| == |Full(c, t)| == c.Planned()
    ensures Execute(c, t, ticks)[i].status == Finished <==> !Stuck(Full(c, t)[i])
  {
    hide Sync, RoundsSafe;
    DiligentRunsFinish(c, t, clock, ticks);
    DiligentStuckIff(c, t, clock, ticks, i);
  }

  lemma {:induction false} DiligentStuckIff(c: Contest, t: Table, clock: nat, ticks: seq<Tick>, i: nat)
    requires RoundsSafe(c, t, clock) && c.Planned() <= PAGE_CAP && Diligent(c, ticks, clock)
    requires ticks != [] && i < c.Planned()
    ensures |Execute(c, t, ticks)| == |Full(c, t)| == c.Planned()
    ensures Stuck(Execute(c, t, ticks)[i]) <==> Stuck(Full(c, t)[i])
    decreases |ticks|
  {
    hide Sync, RoundsSafe, Stuck;
    var tick := ticks[0];
    var v := Sync(c, t, tick.now, tick.outcome);
    GoodSyncStuckIff(c, t, clock, tick, i);
    if ticks[1..] != [] {
      SyncKeepsSafe(c, t, clock, tick.now, tick.outcome);
      DiligentStuckIff(c, v, tick.now, ticks[1..], i);
      assert Full(c, v) == v;
    }
  }

  // ---- Phases ----------------------------------------------------------------------------------------------------

  datatype Phase = PendingPhase | UpgradeWindow | Locked | Executing | Settling | FinishedPhase

  const LOCK := 10 * SECOND

  function RoundPhase(c: Contest, r: Round, now: nat): Phase {
    if r.status == Finished then FinishedPhase
    else if r.status != Running || r.start == 0 then PendingPhase
    else
      var upgradeWindowEnd := r.start + c.UpgradeWindow();
      if now < upgradeWindowEnd then UpgradeWindow
      else if now < upgradeWindowEnd + LOCK then Locked
      else if r.end != 0 && now > r.end then Settling
      else Executing
  }

  function Rank(p: Phase): nat {
    match p
    case PendingPhase => 0 case UpgradeWindow => 1 case Locked => 2
    case Executing => 3 case Settling => 4 case FinishedPhase => 5
  }

  /** What one step can do to a round: nothing, finish it, or start a pending one. */
  lemma AdvanceAt(c: Contest, t: Table, now: nat, o: Outcome, i: nat)
    requires InOrder(t) && i < |t|
    ensures |Advance(c, t, t, now, o)| == |t|
    ensures (var r := Advance(c, t, t, now, o)[i]; r == t[i] || r.status == Finished || t[i].status == Pending)
  {
    Scanned(t, now);
    AdvanceKeepsLength(c, t, t, now, o);
  }

  lemma PhaseGrows(c: Contest, was: Round, r: Round, clock: nat, now: nat)
    requires clock <= now && (r == was || r.status == Finished || was.status == Pending)
    ensures Rank(RoundPhase(c, was, clock)) <= Rank(RoundPhase(c, r, now))
  {
  }

  lemma AdvanceKeepsPhase(c: Contest, t: Table, clock: nat, now: nat, o: Outcome, i: nat)
    requires RoundsSafe(c, t, now) && clock <= now && i < |t|
    ensures Rank(RoundPhase(c, t[i], clock)) <= Rank(RoundPhase(c, Advance(c, t, t, now, o)[i], now))
  {
    hide Advance, Ranked, Disjoint, RowFits, RoundPhase;
    AdvanceAt(c, t, now, o, i);
    PhaseGrows(c, t[i], Advance(c, t, t, now, o)[i], clock, now);
  }

  lemma SyncKeepsPhase(c: Contest, t: Table, clock: nat, now: nat, o: Outcome, i: nat)
    requires RoundsSafe(c, t, clock) && clock <= now && c.Planned() <= PAGE_CAP && i < |t|
    ensures i < |Sync(c, t, now, o)|
    ensures Rank(RoundPhase(c, t[i], clock)) <= Rank(RoundPhase(c, Sync(c, t, now, o)[i], now))
  {
    hide Sync, Advance, Ranked, Disjoint, RowFits, RoundPhase;
    if o.created < c.Planned() - |t| {
      BrokenSync(c, t, clock, now, o);
      PhaseGrows(c, t[i], t[i], clock, now);
    } else {
      FullIsSafe(c, t, clock, now);
      FullSync(c, t, now, o);
      AdvanceKeepsLength(c, Full(c, t), Full(c, t), now, o);
      AdvanceKeepsPhase(c, Full(c, t), clock, now, o, i);
    }
  }

  /** Over any run, the phase shown for a round never goes back. */
  lemma {:induction false} PhasesNeverGoBack(c: Contest, t: Table, clock: nat, ticks: seq<Tick>, i: nat)
    requires RoundsSafe(c, t, clock) && c.Planned() <= PAGE_CAP && Timely(ticks, clock) && i < |t|
    ensures i < |Execute(c, t, ticks)|
    ensures Rank(RoundPhase(c, t[i], clock)) <= Rank(RoundPhase(c, Execute(c, t, ticks)[i], LastTime(ticks, clock)))
    decreases |ticks|
  {
    hide Sync, RoundsSafe, RoundPhase;
    if ticks != [] {
      var tick := ticks[0];
      SyncKeepsPhase(c, t, clock, tick.now, tick.outcome, i);
      SyncKeepsSafe(c, t, clock, tick.now, tick.outcome);
      PhasesNeverGoBack(c, Sync(c, t, tick.now, tick.outcome), tick.now, ticks[1..], i);
      assert LastTime(ticks[1..], tick.now) == LastTime(ticks, clock);
    }
  }
}

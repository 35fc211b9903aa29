/** What one Sync makes of the round table, written out row by row, and what becomes of a round whose
    chain does not start (backend/internal/service/agent_battle_service.go). */
module RoundOutcomes {
  import opened Common
  import opened RoundLifecycle

  /** The length of a round in nanoseconds: five minutes unless the contest says otherwise. */
  ghost function Length(c: Contest): nat { (if c.roundSeconds > 0 then c.roundSeconds else 300) * 1_000_000_000 }

  ghost function Rounds(c: Contest): nat { if c.totalRounds > 0 then c.totalRounds else 1 }

  /** The table once the rounds it lacks are inserted, one after another from the contest's start. */
  ghost function Filled(c: Contest, t: Table, n: nat): Table
    requires |t| <= n
  {
    t + seq(n - |t|, i requires 0 <= i < n - |t| =>
          Round(|t| + i, |t| + i + 1, Pending, c.start + (|t| + i) * Length(c), c.start + (|t| + i + 1) * Length(c),
                false))
  }

  /** A table that a run can reach, and a Sync of it at a later time. */
  ghost predicate Reached(c: Contest, t: Table, clock: nat, now: nat) {
    RoundsSafe(c, t, clock) && clock <= now && |t| <= Rounds(c) <= 100
  }

  /** Round `i` is the first pending one whose time has come. */
  ghost predicate IsNext(t: Table, now: nat, i: nat) {
    && i < |t| && t[i].status == Pending && 0 < t[i].start <= now
    && forall j | 0 <= j < i && t[j].status == Pending :: t[j].start == 0 || now < t[j].start
  }

  ghost predicate NoneIsNext(t: Table, now: nat) {
    forall j | 0 <= j < |t| && t[j].status == Pending :: t[j].start == 0 || now < t[j].start
  }

  ghost predicate NoneRuns(t: Table) { forall j | 0 <= j < |t| :: t[j].status != Running }

  /** Round `j` is running, and its time is over. */
  ghost predicate RunsOver(t: Table, now: nat, j: nat) { j < |t| && t[j].status == Running && 0 < t[j].end <= now }

  /** `t` with round `j` finished. */
  ghost function WithFinished(t: Table, j: nat): Table
    requires j < |t|
  {
    t[j := Round(t[j].id, t[j].number, Finished, t[j].start, t[j].end, t[j].chain)]
  }

  /** What becomes of the next round: it runs from now on, or waits for a time that never comes. */
  ghost function WithNext(c: Contest, t: Table, i: nat, now: nat, o: Outcome): Table
    requires i < |t|
  {
    if !o.startSaved then t
    else if o.chainStarts then t[i := Round(t[i].id, t[i].number, Running, now, now + Length(c), true)]
    else t[i := Round(t[i].id, t[i].number, Pending, 0, 0, t[i].chain)]
  }

  /** A Sync whose inserts break off leaves it at those that worked. */
  lemma SyncBreaksOff(c: Contest, t: Table, clock: nat, now: nat, o: Outcome)
    requires Reached(c, t, clock, now) && |t| + o.created < Rounds(c)
    ensures Sync(c, t, now, o) == Filled(c, t, |t| + o.created)
  {
    hide Ranked, Disjoint, RowFits;
    SyncInOrder(c, t, now, o);
    FillExtends(c, t, o.created);
  }

  lemma NewRoundAt(c: Contest, k: nat)
    ensures NewRound(c, k, k + 1)
         == Round(k, k + 1, Pending, c.start + k * Length(c), c.start + (k + 1) * Length(c), false)
  {
    assert c.Duration() == Length(c);
    assert (k + 1) * Length(c) == k * Length(c) + Length(c);
  }

  lemma FillExtends(c: Contest, t: Table, more: nat)
    ensures Extend(c, t, more) == Filled(c, t, |t| + more)
  {
    assert c.Duration() == Length(c);
    var u, v := Extend(c, t, more), Filled(c, t, |t| + more);
    forall k | |t| <= k < |t| + more ensures u[k] == v[k] {
      NewRoundAt(c, k);
    }
    assert forall k | 0 <= k < |t| :: u[k] == v[k];
  }

  lemma SyncAdvances(c: Contest, t: Table, clock: nat, now: nat, o: Outcome)
    requires Reached(c, t, clock, now) && |t| + o.created >= Rounds(c)
    ensures var w := Filled(c, t, Rounds(c)); Sync(c, t, now, o) == Advance(c, w, w, now, o) && RoundsSafe(c, w, now)
  {
    hide Ranked, Disjoint, RowFits, Advance;
    FullSync(c, t, now, o);
    FullIsSafe(c, t, clock, now);
    FillExtends(c, t, Rounds(c) - |t|);
  }

  /** Where the scan stops: at the running round, and at the next one. */
  lemma ScanStops(t: Table, now: nat)
    requires InOrder(t) && Ranked(t)
    ensures FirstRunning(t) == None ==> NoneRuns(t)
    ensures forall j: nat | RunsOver(t, now, j) :: FirstRunning(t) == Some(t[j])
    ensures FirstDue(t, now) == None ==> NoneIsNext(t, now)
    ensures forall i: nat | IsNext(t, now, i) :: FirstDue(t, now) == Some(t[i])
    ensures FirstRunning(t).Some? ==> var j := FirstRunning(t).value.id; j < |t| && t[j] == FirstRunning(t).value
    ensures FirstDue(t, now).Some? ==> IsNext(t, now, FirstDue(t, now).value.id)
  {
    Scanned(t, now);
    forall j: nat | RunsOver(t, now, j) ensures FirstRunning(t) == Some(t[j]) {
      NoneRunningAfter(t, j);
    }
    forall i: nat | IsNext(t, now, i) ensures FirstDue(t, now) == Some(t[i]) {
      assert IsDue(t[i], now);
    }
  }

  /** While a round runs whose time is not over, or whose end cannot be stored, nothing changes. */
  lemma SyncWaits(c: Contest, t: Table, clock: nat, now: nat, o: Outcome, j: nat)
    requires Reached(c, t, clock, now) && |t| + o.created >= Rounds(c)
    requires var w := Filled(c, t, Rounds(c));
             j < |w| && w[j].status == Running && (now < w[j].end || !o.finishSaved)
    ensures Sync(c, t, now, o) == Filled(c, t, Rounds(c))
  {
    hide Sync, Ranked, Disjoint;
    var w := Filled(c, t, Rounds(c));
    SyncAdvances(c, t, clock, now, o);
    Scanned(w, now);
    assert RowFits(c, w[j], now);
    OnlyOneRuns(c, w, now, j);
  }

  lemma OnlyOneRuns(c: Contest, t: Table, clock: nat, j: nat)
    requires RoundsSafe(c, t, clock) && j < |t| && t[j].status == Running
    ensures FirstRunning(t) == Some(t[j])
  {
    NoneRunningAfter(t, j);
    Scanned(t, clock);
  }

  /** When no round runs, the next one is started, or stranded. */
  lemma SyncStarts(c: Contest, t: Table, clock: nat, now: nat, o: Outcome, i: nat)
    requires Reached(c, t, clock, now) && |t| + o.created >= Rounds(c)
    requires var w := Filled(c, t, Rounds(c)); NoneRuns(w) && IsNext(w, now, i)
    ensures Sync(c, t, now, o) == WithNext(c, Filled(c, t, Rounds(c)), i, now, o)
  {
    hide Sync, Disjoint;
    var w := Filled(c, t, Rounds(c));
    SyncAdvances(c, t, clock, now, o);
    ScanStops(w, now);
    Scanned(w, now);
    assert c.Duration() == Length(c);
  }

  /** When the running round is over, it is finished, and the next one is started, or stranded. */
  lemma SyncFinishes(c: Contest, t: Table, clock: nat, now: nat, o: Outcome, j: nat)
    requires Reached(c, t, clock, now) && |t| + o.created >= Rounds(c) && o.finishSaved
    requires RunsOver(Filled(c, t, Rounds(c)), now, j)
    ensures var w := Filled(c, t, Rounds(c));
            && (NoneIsNext(w, now) ==> Sync(c, t, now, o) == WithFinished(w, j))
            && forall i: nat | IsNext(w, now, i) :: Sync(c, t, now, o) == WithNext(c, WithFinished(w, j), i, now, o)
  {
    var w := Filled(c, t, Rounds(c));
    SyncAdvances(c, t, clock, now, o);
    OnlyOneRuns(c, w, now, j);
    hide Sync, Filled, Reached;
    AdvanceFinishes(c, w, now, o, j);
  }

  lemma StartNextAt(c: Contest, t: Table, w: Table, now: nat, o: Outcome, i: nat)
    requires i < |t| && i < |w| && w[i].id == i && t[i] == w[i] && w[i].status == Pending
    requires FirstDue(w, now) == Some(w[i]) && (FirstRunning(w) == None || Over(FirstRunning(w).value, now))
    ensures StartNext(c, t, w, now, o) == WithNext(c, t, i, now, o)
  {
    hide FirstDue, FirstRunning, Over;
    assert c.Duration() == Length(c);
  }

  lemma AdvanceFinishes(c: Contest, w: Table, now: nat, o: Outcome, j: nat)
    requires RoundsSafe(c, w, now) && o.finishSaved && RunsOver(w, now, j) && FirstRunning(w) == Some(w[j])
    ensures NoneIsNext(w, now) ==> Advance(c, w, w, now, o) == WithFinished(w, j)
    ensures forall i: nat | IsNext(w, now, i) :: Advance(c, w, w, now, o) == WithNext(c, WithFinished(w, j), i, now, o)
  {
    ScanStops(w, now);
    var settled := WithFinished(w, j);
    assert w[j].id == j && Settle(w, w, now) == settled;
    assert Advance(c, w, w, now, o) == StartNext(c, settled, w, now, o);
    hide FirstRunning, FirstDue, Settle, Advance, Ranked, Disjoint, RowFits, WithNext;
    forall i: nat | IsNext(w, now, i)
      ensures StartNext(c, settled, w, now, o) == WithNext(c, settled, i, now, o)
    {
      StartNextAt(c, settled, w, now, o, i);
    }
    assert NoneIsNext(w, now) ==> FirstDue(w, now) == None;
  }

  /** With nothing to finish and nothing to start, nothing changes. */
  lemma SyncRests(c: Contest, t: Table, clock: nat, now: nat, o: Outcome)
    requires Reached(c, t, clock, now) && |t| + o.created >= Rounds(c)
    requires var w := Filled(c, t, Rounds(c)); NoneRuns(w) && NoneIsNext(w, now)
    ensures Sync(c, t, now, o) == Filled(c, t, Rounds(c))
  {
    hide Sync, Disjoint;
    SyncAdvances(c, t, clock, now, o);
    Scanned(Filled(c, t, Rounds(c)), now);
  }

  /** No round runs, or the one that does is over and stored as finished. */
  ghost predicate IsFree(t: Table, now: nat, o: Outcome) {
    NoneRuns(t) || (o.finishSaved && exists j: nat :: RunsOver(t, now, j))
  }

  /** A round whose chain fails to start when its time has come is put back without a time, and it
      never starts in any later run, whatever succeeds there. */
  lemma ChainFailureIsFinal(c: Contest, t: Table, clock: nat, now: nat, o: Outcome, i: nat, ticks: seq<Tick>)
    requires Reached(c, t, clock, now) && |t| + o.created >= Rounds(c) && Timely(ticks, now)
    requires IsFree(Filled(c, t, Rounds(c)), now, o) && IsNext(Filled(c, t, Rounds(c)), now, i)
    requires !o.chainStarts && o.startSaved
    ensures var v := Sync(c, t, now, o);
            && i < |v| && v[i].status == Pending && v[i].start == 0 && v[i].end == 0
            && i < |Execute(c, v, ticks)| && Execute(c, v, ticks)[i] == v[i]
  {
    hide Sync, RoundsSafe, Execute;
    var w := Filled(c, t, Rounds(c));
    if NoneRuns(w) {
      SyncStarts(c, t, clock, now, o, i);
    } else {
      var j: nat :| RunsOver(w, now, j);
      SyncFinishes(c, t, clock, now, o, j);
    }
    SyncKeepsSafe(c, t, clock, now, o);
    StuckForever(c, Sync(c, t, now, o), now, ticks, i);
  }

  /** If the chain comes up instead, the round runs from now on for its full length. */
  lemma ChainUpStarts(c: Contest, t: Table, clock: nat, now: nat, o: Outcome, i: nat)
    requires Reached(c, t, clock, now) && |t| + o.created >= Rounds(c)
    requires IsFree(Filled(c, t, Rounds(c)), now, o) && IsNext(Filled(c, t, Rounds(c)), now, i)
    requires o.chainStarts && o.startSaved
    ensures var v := Sync(c, t, now, o);
            i < |v| && v[i] == Round(i, i + 1, Running, now, now + Length(c), true)
  {
    hide Sync, Ranked, Disjoint;
    var w := Filled(c, t, Rounds(c));
    SyncAdvances(c, t, clock, now, o);
    if NoneRuns(w) {
      SyncStarts(c, t, clock, now, o, i);
    } else {
      var j: nat :| RunsOver(w, now, j);
      SyncFinishes(c, t, clock, now, o, j);
    }
  }

  // ---- Phases ------------------------------------------------------------------------------------

  /** A running round is open for upgrades first, two minutes unless the contest says otherwise, is
      locked for ten seconds, executes until its end, and then settles. */
  lemma PhasesByTime(c: Contest, r: Round, now: nat)
    requires r.status == Running && 0 < r.start <= r.end
    ensures var window := (if c.upgradeSeconds > 0 then c.upgradeSeconds else 120) * 1_000_000_000;
            RoundPhase(c, r, now) == if now < r.start + window then Phase.UpgradeWindow
                                     else if now < r.start + window + 10_000_000_000 then Locked
                                     else if now <= r.end then Executing else Settling
    ensures RoundPhase(c, Round(r.id, r.number, Pending, r.start, r.end, r.chain), now) == PendingPhase
    ensures RoundPhase(c, Round(r.id, r.number, Finished, r.start, r.end, r.chain), now) == FinishedPhase
  {
  }
}

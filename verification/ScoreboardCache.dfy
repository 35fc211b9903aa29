/** The cached scoreboard while many submissions are in flight: each one adds its score, updates
    the ranks, and only then drops the cached list
    (backend/internal/service/contest_score_service.go:96-141, 197-242). */
module ScoreboardCache {
  import opened Common
  import opened ScoreTable
  import ScoreLedger

  datatype Stage = Scored | Sorted

  /** `inFlight` are the submissions between their first write and the end of their
      invalidation; `loaded` are readers that have read the table and not stored the list yet;
      `passed` are those among them that a submission has changed the table since. */
  datatype World = World(rows: Rows, cache: Option<seq<Entry>>, inFlight: map<nat, Stage>,
                         loaded: map<nat, seq<Entry>>, passed: set<nat>)

  datatype Step =
    | Score(id: nat, team: nat, user: nat, points: int, now: int)
    | Rank(id: nat)
    | Invalidate(id: nat, lost: bool)
    | Read(stored: bool)
    | BeginRead(reader: nat)
    | EndRead(reader: nat, stored: bool)
    | Expire

  predicate Enabled(w: World, step: Step) {
    match step
    case Score(id, _, _, _, _) => id !in w.inFlight
    case Rank(id) => id in w.inFlight && w.inFlight[id] == Scored
    case Invalidate(id, _) => id in w.inFlight && w.inFlight[id] == Sorted
    case BeginRead(reader) => reader !in w.loaded && w.cache == None
    case EndRead(reader, _) => reader in w.loaded
    case _ => true
  }

  function Next(w: World, step: Step): World
    requires Enabled(w, step)
  {
    match step
    case Score(id, team, user, points, now) =>
      w.(rows := AddScore(w.rows, team, user, points, now), inFlight := w.inFlight[id := Scored],
         passed := w.loaded.Keys)
    case Rank(id) =>
      w.(rows := UpdateRanks(w.rows), inFlight := w.inFlight[id := Sorted], passed := w.loaded.Keys)
    case Invalidate(id, lost) => w.(cache := if lost then w.cache else None, inFlight := w.inFlight - {id})
    case Read(stored) => if w.cache == None && stored then w.(cache := Some(Load(w.rows))) else w
    case BeginRead(reader) => w.(loaded := w.loaded[reader := Load(w.rows)], passed := w.passed - {reader})
    case EndRead(reader, stored) =>
      w.(cache := if stored then Some(w.loaded[reader]) else w.cache,
         loaded := w.loaded - {reader}, passed := w.passed - {reader})
    case Expire => w.(cache := None)
  }

  const EMPTY := World([], None, map[], map[], {})

  /** A reader stores its list although a submission has changed the table since and every
      submission has already dropped the cached list. */
  predicate StoresLate(w: World, step: Step) {
    step.EndRead? && step.stored && step.reader in w.passed && w.inFlight == map[]
  }

  /** What may go wrong: a delete that the cache server loses, and a reader that stores late. */
  datatype Faults = Faults(lostDelete: bool, slowReader: bool)

  predicate Allowed(f: Faults, w: World, step: Step) {
    && (step.Invalidate? && step.lost ==> f.lostDelete)
    && (StoresLate(w, step) ==> f.slowReader)
  }

  ghost predicate IsRun(f: Faults, w: World, steps: seq<Step>)
    decreases |steps|
  {
    steps == [] || (Allowed(f, w, steps[0]) && Enabled(w, steps[0]) && IsRun(f, Next(w, steps[0]), steps[1..]))
  }

  function Execute(w: World, steps: seq<Step>): World
    decreases |steps|
  {
    if steps == [] || !Enabled(w, steps[0]) then w else Execute(Next(w, steps[0]), steps[1..])
  }

  /** A list is cached only if it is the list in the table, or someone will still drop it. */
  ghost predicate Fits(w: World) { w.cache.Some? ==> w.inFlight != map[] || w.cache.value == Load(w.rows) }

  ghost predicate Unsorted(w: World) { exists id :: id in w.inFlight && w.inFlight[id] == Scored }

  /** With no submission between its score and its ranking, the stored ranks are right. */
  ghost predicate RanksFit(w: World) { Unsorted(w) || Ranked(w.rows) }

  lemma RanksKept(w: World, step: Step)
    requires RanksFit(w) && Enabled(w, step)
    ensures RanksFit(Next(w, step))
  {
    var v := Next(w, step);
    if step.Rank? {
      UpdateRanksRanks(w.rows);
    } else if step.Score? {
      assert v.inFlight[step.id] == Scored;
    } else if Unsorted(w) {
      var id :| id in w.inFlight && w.inFlight[id] == Scored;
      assert id in v.inFlight && v.inFlight[id] == Scored;
    }
  }

  /** A reader that nothing has passed holds the list in the table. */
  ghost predicate ReadersFit(w: World) {
    forall r | r in w.loaded && r !in w.passed :: w.loaded[r] == Load(w.rows)
  }

  lemma FitKept(w: World, step: Step)
    requires Fits(w) && ReadersFit(w) && Enabled(w, step) && Allowed(Faults(false, false), w, step)
    ensures Fits(Next(w, step)) && ReadersFit(Next(w, step))
  {
    if step.Score? || step.Rank? {
      assert step.id in Next(w, step).inFlight;
    }
  }

  /** Whatever the faults, after any run the stored ranks are a bijection onto 1 to n in board
      order unless a submission is between its score and its ranking. */
  lemma {:induction false} RunRanks(f: Faults, w: World, steps: seq<Step>)
    requires IsRun(f, w, steps) && RanksFit(w)
    ensures RanksFit(Execute(w, steps))
    decreases |steps|
  {
    if steps != [] {
      RanksKept(w, steps[0]);
      RunRanks(f, Next(w, steps[0]), steps[1..]);
    }
  }

  lemma {:induction false} RunFits(w: World, steps: seq<Step>)
    requires IsRun(Faults(false, false), w, steps) && Fits(w) && ReadersFit(w)
    ensures Fits(Execute(w, steps))
    decreases |steps|
  {
    if steps != [] {
      FitKept(w, steps[0]);
      RunFits(Next(w, steps[0]), steps[1..]);
    }
  }

  lemma EmptyIsRanked()
    ensures RanksFit(EMPTY)
  {
    assert Ranked(EMPTY.rows);
  }

  /** A quiet table has its ranks in order and shows them as 1, 2, 3 and so on. */
  lemma QuietTableIsRanked(f: Faults, steps: seq<Step>)
    requires IsRun(f, EMPTY, steps) && !Unsorted(Execute(EMPTY, steps))
    ensures (var rows := Execute(EMPTY, steps).rows;
             && (forall r: nat :: Holds(rows, r) <==> 1 <= r <= |rows|)
             && (forall i, j | 0 <= i < |rows| && 0 <= j < |rows| ::
                   rows[i].rank < rows[j].rank <==> Before(rows, i, j))
             && (forall k | 0 <= k < |Load(rows)| :: Load(rows)[k].rank == k + 1))
  {
    EmptyIsRanked();
    RunRanks(f, EMPTY, steps);
    var rows := Execute(EMPTY, steps).rows;
    RanksAreABijection(rows);
    forall k | 0 <= k < |Load(rows)| ensures Load(rows)[k].rank == k + 1 {
      ListShowsRanks(rows, k);
    }
  }

  // ---- Stale lists ----------------------------------------------------------------------------

  /** No run leaves a cached list that differs from the table with no submission in flight. */
  ghost predicate NeverStale(f: Faults) {
    forall steps | IsRun(f, EMPTY, steps) :: Fits(Execute(EMPTY, steps))
  }

  /** A list stored before a solve, whose delete is lost, is still there after it. */
  function LostDelete(): seq<Step> { [Read(true), Score(0, 1, 1, 10, 0), Rank(0), Invalidate(0, true)] }

  /** A reader loads the empty table, a solve runs to its end, and the reader stores what it read. */
  function Overtaken(): seq<Step> {
    [BeginRead(7), Score(0, 1, 1, 10, 0), Rank(0), Invalidate(0, false), EndRead(7, true)]
  }

  lemma FirstSolveShows()
    ensures |Load(UpdateRanks(AddScore([], 1, 1, 10, 0)))| == 1
    ensures |Load([])| == 0
  {
  }

  lemma {:induction false} Unfold(f: Faults, w: World, step: Step, rest: seq<Step>)
    requires Allowed(f, w, step) && Enabled(w, step) && IsRun(f, Next(w, step), rest)
    ensures IsRun(f, w, [step] + rest)
    ensures Execute(w, [step] + rest) == Execute(Next(w, step), rest)
  {
    assert ([step] + rest)[1..] == rest;
  }

  lemma LostDeleteIsStale(f: Faults)
    requires f.lostDelete
    ensures IsRun(f, EMPTY, LostDelete()) && !Fits(Execute(EMPTY, LostDelete()))
  {
    FirstSolveShows();
    var s := LostDelete();
    var w1 := Next(EMPTY, s[0]);
    var w2 := Next(w1, s[1]);
    var w3 := Next(w2, s[2]);
    var w4 := Next(w3, s[3]);
    Unfold(f, w3, s[3], []);
    Unfold(f, w2, s[2], [s[3]]);
    Unfold(f, w1, s[1], [s[2], s[3]]);
    Unfold(f, EMPTY, s[0], [s[1], s[2], s[3]]);
    assert s == [s[0]] + [s[1], s[2], s[3]];
    assert [s[1], s[2], s[3]] == [s[1]] + [s[2], s[3]];
    assert [s[2], s[3]] == [s[2]] + [s[3]];
    assert [s[3]] + [] == [s[3]];
    assert Execute(EMPTY, s) == w4;
    assert w4.inFlight == map[];
  }

  lemma OvertakenIsStale(f: Faults)
    requires f.slowReader
    ensures IsRun(f, EMPTY, Overtaken()) && !Fits(Execute(EMPTY, Overtaken()))
  {
    FirstSolveShows();
    hide Load, UpdateRanks, AddScore;
    var s := Overtaken();
    var w1 := Next(EMPTY, s[0]);
    var w2 := Next(w1, s[1]);
    var w3 := Next(w2, s[2]);
    var w4 := Next(w3, s[3]);
    var w5 := Next(w4, s[4]);
    Unfold(f, w4, s[4], []);
    Unfold(f, w3, s[3], [s[4]]);
    Unfold(f, w2, s[2], [s[3], s[4]]);
    Unfold(f, w1, s[1], [s[2], s[3], s[4]]);
    Unfold(f, EMPTY, s[0], [s[1], s[2], s[3], s[4]]);
    assert s == [s[0]] + [s[1], s[2], s[3], s[4]];
    assert [s[1], s[2], s[3], s[4]] == [s[1]] + [s[2], s[3], s[4]];
    assert [s[2], s[3], s[4]] == [s[2]] + [s[3], s[4]];
    assert [s[3], s[4]] == [s[3]] + [s[4]];
    assert [s[4]] + [] == [s[4]];
    assert Execute(EMPTY, s) == w5;
    assert w5.inFlight == map[];
  }

  /** The cached board agrees with the table between submissions, over every interleaving of
      submissions and readers, exactly when no delete is lost and no reader stores late. */
  lemma NeverStaleIff(f: Faults)
    ensures NeverStale(f) <==> !f.lostDelete && !f.slowReader
  {
    if f.lostDelete {
      LostDeleteIsStale(f);
    } else if f.slowReader {
      OvertakenIsStale(f);
    } else {
      forall steps | IsRun(f, EMPTY, steps) ensures Fits(Execute(EMPTY, steps)) {
        RunFits(EMPTY, steps);
      }
    }
  }

  /** A submission that nothing overtakes leaves the tables the ledger says, and no cached list. */
  lemma AloneIsOneStep(s: ScoreLedger.Settings, db: ScoreLedger.Db, w: World, a: ScoreLedger.Attempt, id: nat)
    requires |db.current| == |s.challenges| && w.rows == db.scores && id !in w.inFlight
    requires a.correct && a.challenge < |s.challenges|
    requires !ScoreLedger.HasSolved(db.submissions, a.team, a.challenge)
    ensures (var (after, response) := ScoreLedger.Submit(s, db, a.team, a.user, a.challenge, true, a.now);
             var steps := [Score(id, a.team, a.user, ScoreLedger.Offer(s, db, a.challenge), a.now), Rank(id),
                           Invalidate(id, false)];
             && response == ScoreLedger.Judged(true, ScoreLedger.Offer(s, db, a.challenge))
             && IsRun(Faults(false, false), w, steps)
             && Execute(w, steps) == w.(rows := after.scores, cache := None, passed := w.loaded.Keys))
  {
    var f := Faults(false, false);
    var score := Score(id, a.team, a.user, ScoreLedger.Offer(s, db, a.challenge), a.now);
    var rank, drop := Rank(id), Invalidate(id, false);
    var w1 := Next(w, score);
    var w2 := Next(w1, rank);
    Unfold(f, w2, drop, []);
    Unfold(f, w1, rank, [drop]);
    Unfold(f, w, score, [rank, drop]);
    assert [score, rank, drop] == [score] + [rank, drop];
    assert [rank, drop] == [rank] + [drop];
    assert [drop] + [] == [drop];
    assert Next(w2, drop).inFlight == w.inFlight;
  }

  // ---- The steps, written out -------------------------------------------------------------------

  /** A score and a ranking change the table, and pass every reader that has loaded its list; only a
      delete that is not lost, a read of an empty cache, a late store and the expiry change the cache. */
  lemma StepOf(w: World, step: Step)
    requires Enabled(w, step)
    ensures var v := Next(w, step);
            match step
            case Score(id, team, user, points, now) =>
              v == World(AddScore(w.rows, team, user, points, now), w.cache, w.inFlight[id := Scored], w.loaded,
                         w.loaded.Keys)
            case Rank(id) =>
              v == World(UpdateRanks(w.rows), w.cache, w.inFlight[id := Sorted], w.loaded, w.loaded.Keys)
            case Invalidate(id, lost) =>
              && v.rows == w.rows && v.loaded == w.loaded && v.passed == w.passed
              && v.inFlight.Keys == w.inFlight.Keys - {id} && v.cache == if lost then w.cache else None
            case Read(stored) =>
              v == World(w.rows, if w.cache.None? && stored then Some(Load(w.rows)) else w.cache, w.inFlight, w.loaded,
                         w.passed)
            case BeginRead(reader) =>
              && v.rows == w.rows && v.cache == w.cache && v.inFlight == w.inFlight
              && v.loaded == w.loaded[reader := Load(w.rows)]
              && forall r :: r in v.passed <==> r in w.passed && r != reader
            case EndRead(reader, stored) =>
              && v.rows == w.rows && v.inFlight == w.inFlight
              && v.cache == (if stored then Some(w.loaded[reader]) else w.cache)
              && v.loaded.Keys == w.loaded.Keys - {reader}
              && forall r :: r in v.passed <==> r in w.passed && r != reader
            case Expire => v == World(w.rows, None, w.inFlight, w.loaded, w.passed)
  {
  }
}

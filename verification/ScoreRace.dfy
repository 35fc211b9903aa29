/** Adding a score takes two writes: an update, and an insert when the update met no row
    (backend/internal/repository/contest_repository.go:732-765). The table refuses a second row of
    a team, and the services ignore the refusal. */
module ScoreRace {
  import opened Common
  import opened ScoreTable

  datatype Addition = Addition(team: nat, user: nat, points: int, now: int)

  /** `pending` are the additions between their update and their insert, `done` those that are over. */
  datatype World = World(rows: Rows, pending: map<nat, Addition>, done: seq<Addition>)

  datatype Step = Update(id: nat, a: Addition) | Insert(id: nat)

  const EMPTY := World([], map[], [])

  predicate Enabled(w: World, step: Step) {
    match step
    case Update(id, _) => id !in w.pending
    case Insert(id) => id in w.pending
  }

  function Next(w: World, step: Step): World
    requires Enabled(w, step)
  {
    match step
    case Update(id, a) =>
      if HasRow(w.rows, a.team) then
        World(AddScore(w.rows, a.team, a.user, a.points, a.now), w.pending, w.done + [a])
      else w.(pending := w.pending[id := a])
    case Insert(id) =>
      var a := w.pending[id];
      World(if HasRow(w.rows, a.team) then w.rows else w.rows + [Row(a.team, a.user, a.points, 1, a.now, 0)],
            w.pending - {id}, w.done + [a])
  }

  /** Two additions of a team that has no row yet may overlap, or may not. */
  ghost predicate Allowed(mayOverlap: bool, w: World, step: Step) {
    step.Update? && !mayOverlap ==> forall id | id in w.pending :: w.pending[id].team != step.a.team
  }

  ghost predicate IsRun(mayOverlap: bool, w: World, steps: seq<Step>)
    decreases |steps|
  {
    steps == [] || (Allowed(mayOverlap, w, steps[0]) && Enabled(w, steps[0])
                    && IsRun(mayOverlap, Next(w, steps[0]), steps[1..]))
  }

  function Execute(w: World, steps: seq<Step>): World
    decreases |steps|
  {
    if steps == [] || !Enabled(w, steps[0]) then w else Execute(Next(w, steps[0]), steps[1..])
  }

  function Points(done: seq<Addition>, team: nat): int {
    if done == [] then 0
    else Points(done[..|done| - 1], team) + if done[|done| - 1].team == team then done[|done| - 1].points else 0
  }

  function Solves(done: seq<Addition>, team: nat): nat {
    if done == [] then 0
    else Solves(done[..|done| - 1], team) + if done[|done| - 1].team == team then 1 else 0
  }

  /** The team has a row exactly when an addition of it is over, and then one with their sum and count. */
  ghost predicate Kept(w: World, team: nat) {
    && (HasRow(w.rows, team) <==> Solves(w.done, team) > 0)
    && (forall i | 0 <= i < |w.rows| && w.rows[i].team == team ::
          w.rows[i].total == Points(w.done, team) && w.rows[i].solves == Solves(w.done, team))
  }

  ghost predicate AllKept(w: World) { forall team :: Kept(w, team) }

  /** No two pending additions are of one team, and none is of a team with a row. */
  ghost predicate Apart(w: World) {
    && (forall i, j | i in w.pending && j in w.pending && i != j :: w.pending[i].team != w.pending[j].team)
    && (forall i | i in w.pending :: !HasRow(w.rows, w.pending[i].team))
  }

  lemma AppendedSums(done: seq<Addition>, a: Addition, team: nat)
    ensures Points(done + [a], team) == Points(done, team) + if a.team == team then a.points else 0
    ensures Solves(done + [a], team) == Solves(done, team) + if a.team == team then 1 else 0
  {
    assert (done + [a])[..|done|] == done;
  }

  lemma {:induction false} NoSolvesNoPoints(done: seq<Addition>, team: nat)
    requires Solves(done, team) == 0
    ensures Points(done, team) == 0
  {
    if done != [] {
      NoSolvesNoPoints(done[..|done| - 1], team);
    }
  }

  lemma RowsAfterAdd(rows: Rows, a: Addition, team: nat)
    ensures HasRow(AddScore(rows, a.team, a.user, a.points, a.now), team) <==> HasRow(rows, team) || team == a.team
  {
    var v := AddScore(rows, a.team, a.user, a.points, a.now);
    assert forall i | 0 <= i < |rows| :: v[i].team == rows[i].team;
    if !HasRow(rows, a.team) {
      assert v[|rows|].team == a.team;
    }
    if i :| 0 <= i < |rows| && rows[i].team == team {
      assert v[i].team == team;
    }
  }

  /** An addition that comes to its end as the repository means it keeps the accounts. */
  lemma AddedKeeps(w: World, v: World, a: Addition, team: nat)
    requires Kept(w, team) && v.done == w.done + [a]
    requires v.rows == AddScore(w.rows, a.team, a.user, a.points, a.now)
    ensures Kept(v, team)
  {
    RowsAfterAdd(w.rows, a, team);
    AppendedSums(w.done, a, team);
    if Solves(w.done, team) == 0 {
      NoSolvesNoPoints(w.done, team);
    }
  }

  lemma StepKeeps(w: World, step: Step)
    requires AllKept(w) && Apart(w) && Enabled(w, step) && Allowed(false, w, step)
    ensures AllKept(Next(w, step)) && Apart(Next(w, step))
  {
    var v := Next(w, step);
    var a := if step.Update? then step.a else w.pending[step.id];
    if step.Insert? || HasRow(w.rows, a.team) {
      forall team ensures Kept(v, team) {
        assert Kept(w, team);
        AddedKeeps(w, v, a, team);
      }
      forall i | i in v.pending ensures !HasRow(v.rows, v.pending[i].team) {
        RowsAfterAdd(w.rows, a, v.pending[i].team);
      }
    } else {
      forall team ensures Kept(v, team) {
        assert Kept(w, team);
      }
    }
  }

  lemma {:induction false} RunKeeps(w: World, steps: seq<Step>)
    requires AllKept(w) && Apart(w) && IsRun(false, w, steps)
    ensures AllKept(Execute(w, steps))
    decreases |steps|
  {
    if steps != [] {
      StepKeeps(w, steps[0]);
      RunKeeps(Next(w, steps[0]), steps[1..]);
    }
  }

  ghost predicate NothingLost(mayOverlap: bool) {
    forall steps | IsRun(mayOverlap, EMPTY, steps) :: AllKept(Execute(EMPTY, steps))
  }

  lemma {:induction false} Unfold(w: World, step: Step, rest: seq<Step>)
    requires Enabled(w, step) && IsRun(true, Next(w, step), rest)
    ensures IsRun(true, w, [step] + rest) && Execute(w, [step] + rest) == Execute(Next(w, step), rest)
  {
    assert ([step] + rest)[1..] == rest;
  }

  /** Both updates meet no row, and the second insert is refused. */
  lemma OverlapEnds(a: Addition, b: Addition)
    requires a.team == b.team
    ensures var w1 := Next(EMPTY, Update(0, a));
            && Enabled(w1, Update(1, b))
            && var w2 := Next(w1, Update(1, b));
            && Enabled(w2, Insert(0))
            && var w3 := Next(w2, Insert(0));
            && Enabled(w3, Insert(1))
            && var end := Next(w3, Insert(1));
            && end.done == [a, b] && HasRow(end.rows, a.team) && |end.rows| == 1
            && end.rows[0].team == a.team && end.rows[0].solves == 1
  {
    var w2 := Next(Next(EMPTY, Update(0, a)), Update(1, b));
    var w3 := Next(w2, Insert(0));
    assert w3.rows == [Row(a.team, a.user, a.points, 1, a.now, 0)] && w3.rows[0].team == b.team;
  }

  lemma TwoSolves(a: Addition, b: Addition)
    requires a.team == b.team
    ensures Solves([a, b], a.team) == 2
  {
    AppendedSums([a], b, a.team);
    AppendedSums([], a, a.team);
    assert [] + [a] == [a] && [a] + [b] == [a, b];
  }

  /** Two first solves of a team overlap: only one of them counts. */
  lemma OverlapLoses(a: Addition, b: Addition)
    requires a.team == b.team
    ensures !NothingLost(true)
  {
    OverlapEnds(a, b);
    TwoSolves(a, b);
    hide Next, Solves, Points, HasRow;
    var s1, s2, s3, s4 := Update(0, a), Update(1, b), Insert(0), Insert(1);
    var w1 := Next(EMPTY, s1);
    var w2 := Next(w1, s2);
    var w3 := Next(w2, s3);
    var end := Next(w3, s4);
    assert end.rows[0].team == a.team && !Kept(end, a.team);
    Unfold(w3, s4, []);
    Unfold(w2, s3, [s4] + []);
    Unfold(w1, s2, [s3] + ([s4] + []));
    Unfold(EMPTY, s1, [s2] + ([s3] + ([s4] + [])));
  }

  /** Every addition counts in its team's row, over all interleavings, if and only if no two
      additions of a team that has no row yet overlap. */
  lemma NothingLostIff(mayOverlap: bool)
    ensures NothingLost(mayOverlap) <==> !mayOverlap
  {
    if mayOverlap {
      OverlapLoses(Addition(1, 1, 10, 0), Addition(1, 2, 10, 0));
    } else {
      forall steps | IsRun(false, EMPTY, steps) ensures AllKept(Execute(EMPTY, steps)) {
        RunKeeps(EMPTY, steps);
      }
    }
  }

  /** An addition that nothing comes between is the single step of the score table. */
  lemma AloneIsAddScore(w: World, id: nat, a: Addition)
    requires id !in w.pending
    ensures (var v := Next(w, Update(id, a));
             (if HasRow(w.rows, a.team) then v else Next(v, Insert(id))).rows
               == AddScore(w.rows, a.team, a.user, a.points, a.now))
  {
  }
}

/** The final ranking of a contest: scores of all rounds added up per team and sorted in place
    (backend/internal/service/agent_battle_service.go:942-988). */
module FinalRank {
  import opened Common
  import ExchangeSort

  datatype Scored = Scored(team: nat, score: int)

  datatype TeamRank = TeamRank(team: nat, score: int)

  datatype Row = Row(rank: nat, team: nat, total: int)

  /** All scores of all rounds, in order. */
  function Flatten(rounds: seq<seq<Scored>>): seq<Scored> {
    if rounds == [] then [] else Flatten(rounds[..|rounds| - 1]) + rounds[|rounds| - 1]
  }

  function TeamSum(scores: seq<Scored>, team: nat): int {
    if scores == [] then 0
    else
      var last := scores[|scores| - 1];
      TeamSum(scores[..|scores| - 1], team) + if last.team == team then last.score else 0
  }

  function Sum(scores: seq<Scored>): int {
    if scores == [] then 0 else Sum(scores[..|scores| - 1]) + scores[|scores| - 1].score
  }

  function TeamsOf(scores: seq<Scored>): set<nat> { set x | x in scores :: x.team }

  /** The accumulated map: every scored team with its sum, in 64 bits. */
  function Totals(scores: seq<Scored>): map<nat, int> {
    map t | t in TeamsOf(scores) :: Wrap64(TeamSum(scores, t))
  }

  lemma TotalsStep(scores: seq<Scored>, x: Scored)
    ensures (var was := Totals(scores);
             Totals(scores + [x]) == was[x.team := Wrap64((if x.team in was then was[x.team] else 0) + x.score)])
  {
    var more := scores + [x];
    assert more[..|scores|] == scores;
    assert x in more;
    assert TeamsOf(more) == TeamsOf(scores) + {x.team} by {
      assert forall y | y in scores :: y in more;
    }
    forall t | t in TeamsOf(more) ensures TeamSum(more, t) == TeamSum(scores, t) + if t == x.team then x.score else 0 {
    }
    if x.team !in TeamsOf(scores) {
      NotScored(scores, x.team);
    }
    WrapAdds(TeamSum(scores, x.team), x.score);
  }

  lemma {:induction false} NotScored(scores: seq<Scored>, team: nat)
    requires team !in TeamsOf(scores)
    ensures TeamSum(scores, team) == 0
  {
    if scores != [] {
      var front, last := scores[..|scores| - 1], scores[|scores| - 1];
      assert last in scores;
      assert forall y | y in front :: y in scores;
      NotScored(front, team);
    }
  }

  method AddRound(was: map<nat, int>, ghost so: seq<Scored>, round: seq<Scored>) returns (totals: map<nat, int>)
    requires was == Totals(so)
    ensures totals == Totals(so + round)
  {
    totals := was;
    assert so + round[..0] == so;
    for j := 0 to |round|
      invariant totals == Totals(so + round[..j])
    {
      TotalsStep(so + round[..j], round[j]);
      assert so + round[..j] + [round[j]] == so + round[..j + 1];
      var x := round[j];
      totals := totals[x.team := Wrap64((if x.team in totals then totals[x.team] else 0) + x.score)];
    }
    assert round[..|round|] == round;
  }

  method AddUp(rounds: seq<seq<Scored>>) returns (totals: map<nat, int>)
    ensures totals == Totals(Flatten(rounds))
  {
    totals := map[];
    for i := 0 to |rounds|
      invariant totals == Totals(Flatten(rounds[..i]))
    {
      assert rounds[..i + 1][..i] == rounds[..i];
      totals := AddRound(totals, Flatten(rounds[..i]), rounds[i]);
    }
    assert rounds[..|rounds|] == rounds;
  }

  // ---- Sorting in place ---------------------------------------------------------------------------

  predicate Beats(a: TeamRank, b: TeamRank) { a.score > b.score }

  ghost predicate Descending(s: seq<TeamRank>) { ExchangeSort.Ordered(s, Beats) }

  method SortRanks(a: array<TeamRank>)
    modifies a
    ensures Descending(a[..])
    ensures multiset(a[..]) == multiset(old(a[..]))
  {
    ExchangeSort.Sort(a, Beats);
  }

  // ---- The ranking -----------------------------------------------------------------------------------

  /** Each team of the map once, in some order. */
  ghost predicate Lists(list: seq<TeamRank>, totals: map<nat, int>) {
    && (forall x :: x in list <==> x.team in totals && totals[x.team] == x.score)
    && (forall i, j | 0 <= i < j < |list| :: list[i].team != list[j].team)
  }

  ghost predicate IsRanking(rows: seq<Row>, scores: seq<Scored>) {
    && (forall k | 0 <= k < |rows| :: rows[k].rank == k + 1)
    && (forall i, j | 0 <= i < j < |rows| :: rows[i].total >= rows[j].total)
    && Lists(Untitled(rows), Totals(scores))
  }

  function Untitled(rows: seq<Row>): seq<TeamRank> {
    seq(|rows|, k requires 0 <= k < |rows| => TeamRank(rows[k].team, rows[k].total))
  }

  method ListTotals(totals: map<nat, int>) returns (list: seq<TeamRank>)
    ensures Lists(list, totals)
  {
    list := [];
    var rest := totals.Keys;
    while rest != {}
      invariant rest <= totals.Keys
      invariant forall x :: x in list <==> x.team in totals && x.team !in rest && totals[x.team] == x.score
      invariant forall i, j | 0 <= i < j < |list| :: list[i].team != list[j].team
      decreases |rest|
    {
      var t :| t in rest;
      assert forall i | 0 <= i < |list| :: list[i] in list && list[i].team != t;
      rest := rest - {t};
      list := list + [TeamRank(t, totals[t])];
    }
  }

  lemma Rearranged(a: seq<TeamRank>, b: seq<TeamRank>, totals: map<nat, int>)
    requires Lists(a, totals) && multiset(a) == multiset(b)
    ensures Lists(b, totals)
  {
    assert forall x :: x in a <==> x in multiset(b);
    forall i, j | 0 <= i < j < |b| ensures b[i].team != b[j].team {
      if b[i].team == b[j].team {
        assert b[i] in multiset(a) && b[j] in multiset(a);
        Twice(b, i, j);
        OnlyOnce(a, b[i]);
      }
    }
  }

  lemma Twice(s: seq<TeamRank>, i: nat, j: nat)
    requires i < j < |s| && s[i] == s[j]
    ensures multiset(s)[s[i]] >= 2
  {
    assert s == s[..i] + [s[i]] + s[i + 1..j] + [s[j]] + s[j + 1..];
  }

  lemma {:induction false} OnlyOnce(s: seq<TeamRank>, x: TeamRank)
    requires forall i, j | 0 <= i < j < |s| :: s[i] != s[j]
    ensures multiset(s)[x] <= 1
  {
    if s != [] {
      var front, last := s[..|s| - 1], s[|s| - 1];
      assert s == front + [last];
      OnlyOnce(front, x);
      if last == x {
        assert x !in front;
      }
    }
  }

  method GetFinalRank(rounds: seq<seq<Scored>>) returns (rows: seq<Row>)
    ensures IsRanking(rows, Flatten(rounds))
  {
    var totals := AddUp(rounds);
    var list := ListTotals(totals);
    var a := new TeamRank[|list|](i requires 0 <= i < |list| => list[i]);
    assert a[..] == list;
    SortRanks(a);
    Rearranged(list, a[..], totals);
    rows := [];
    for k := 0 to a.Length
      invariant |rows| == k && Untitled(rows) == a[..k]
      invariant forall i | 0 <= i < k :: rows[i].rank == i + 1
    {
      rows := rows + [Row(k + 1, a[k].team, a[k].score)];
    }
    assert a[..a.Length] == a[..];
    assert forall k | 0 <= k < |rows| :: rows[k].total == Untitled(rows)[k].score;
  }

  // ---- Conservation ------------------------------------------------------------------------------------

  function SumTotals(list: seq<TeamRank>): int {
    if list == [] then 0 else SumTotals(list[..|list| - 1]) + list[|list| - 1].score
  }

  /** Scores of some teams only. */
  function Among(scores: seq<Scored>, teams: set<nat>): int {
    if scores == [] then 0
    else
      var last := scores[|scores| - 1];
      Among(scores[..|scores| - 1], teams) + if last.team in teams then last.score else 0
  }

  lemma {:induction false} AmongSplits(scores: seq<Scored>, teams: set<nat>, t: nat)
    requires t !in teams
    ensures Among(scores, teams + {t}) == Among(scores, teams) + TeamSum(scores, t)
  {
    if scores != [] {
      AmongSplits(scores[..|scores| - 1], teams, t);
    }
  }

  lemma {:induction false} AmongNone(scores: seq<Scored>)
    ensures Among(scores, {}) == 0
  {
    if scores != [] {
      AmongNone(scores[..|scores| - 1]);
    }
  }

  lemma {:induction false} AmongAll(scores: seq<Scored>, teams: set<nat>)
    requires TeamsOf(scores) <= teams
    ensures Among(scores, teams) == Sum(scores)
  {
    if scores != [] {
      assert forall y | y in scores[..|scores| - 1] :: y in scores;
      assert scores[|scores| - 1] in scores;
      AmongAll(scores[..|scores| - 1], teams);
    }
  }

  function TeamsIn(list: seq<TeamRank>): set<nat> { set x | x in list :: x.team }

  lemma WrapTwice(a: int, b: int)
    ensures Wrap64(a + Wrap64(b)) == Wrap64(a + b)
  {
    WrapAdds(b, a);
  }

  lemma {:induction false} ListSums(list: seq<TeamRank>, scores: seq<Scored>)
    requires forall i, j | 0 <= i < j < |list| :: list[i].team != list[j].team
    requires forall x | x in list :: x.score == Wrap64(TeamSum(scores, x.team))
    ensures Wrap64(SumTotals(list)) == Wrap64(Among(scores, TeamsIn(list)))
  {
    if list == [] {
      assert TeamsIn(list) == {};
      AmongNone(scores);
    } else {
      var front, last := list[..|list| - 1], list[|list| - 1];
      assert list == front + [last];
      ListSums(front, scores);
      assert last.team !in TeamsIn(front);
      assert TeamsIn(list) == TeamsIn(front) + {last.team};
      AmongSplits(scores, TeamsIn(front), last.team);
      WrapTwice(SumTotals(front), TeamSum(scores, last.team));
      WrapTwice(TeamSum(scores, last.team), SumTotals(front));
      WrapTwice(TeamSum(scores, last.team), Among(scores, TeamsIn(front)));
    }
  }

  /** No points appear or vanish: modulo the word size the totals of the ranking add up to all
      scores of all rounds. */
  lemma RankingConserves(rows: seq<Row>, scores: seq<Scored>)
    requires IsRanking(rows, scores)
    ensures Wrap64(SumTotals(Untitled(rows))) == Wrap64(Sum(scores))
  {
    var list := Untitled(rows);
    assert forall x | x in list :: x.team in Totals(scores) && Totals(scores)[x.team] == x.score;
    ListSums(list, scores);
    forall t | t in TeamsOf(scores) ensures t in TeamsIn(list) {
      assert TeamRank(t, Totals(scores)[t]) in list;
    }
    AmongAll(scores, TeamsIn(list));
  }

  /** Where no team's sum overflows, every scored team shows its exact sum, once. */
  lemma RankingShowsSums(rows: seq<Row>, scores: seq<Scored>, team: nat)
    requires IsRanking(rows, scores) && team in TeamsOf(scores) && InInt64(TeamSum(scores, team))
    ensures exists k | 0 <= k < |rows| :: rows[k].team == team && rows[k].total == TeamSum(scores, team)
    ensures forall i, j | 0 <= i < |rows| && 0 <= j < |rows| && rows[i].team == rows[j].team :: i == j
  {
    WrapKeeps(TeamSum(scores, team));
    var list := Untitled(rows);
    assert TeamRank(team, TeamSum(scores, team)) in list;
    var k :| 0 <= k < |list| && list[k] == TeamRank(team, TeamSum(scores, team));
    assert rows[k].team == team && rows[k].total == TeamSum(scores, team);
    assert forall i | 0 <= i < |rows| :: list[i].team == rows[i].team;
  }
}

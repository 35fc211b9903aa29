/** The hand-written exchange sort that both rankings of agent battles use, over any way of
    telling which of two values goes first (backend/internal/service/agent_battle_score_service.go:128-134,
    agent_battle_service.go:970-976). */
module ExchangeSort {
  /** Neither of two values beats the other way round, and not beating is transitive. */
  ghost predicate Ranks<T(!new)>(beats: (T, T) -> bool) {
    && (forall x, y | beats(x, y) :: !beats(y, x))
    && (forall x, y, z | !beats(x, y) && !beats(y, z) :: !beats(x, z))
  }

  ghost predicate Ordered<T>(s: seq<T>, beats: (T, T) -> bool) {
    forall i, j | 0 <= i < j < |s| :: !beats(s[j], s[i])
  }

  /** Nothing from `from` on beats anything before it, and what is before it is in order. */
  ghost predicate Settled<T>(s: seq<T>, from: nat, beats: (T, T) -> bool)
    requires from <= |s|
  {
    forall i, j | 0 <= i < from && i < j < |s| :: !beats(s[j], s[i])
  }

  function Swap<T>(s: seq<T>, i: nat, j: nat): (v: seq<T>)
    requires i < j < |s|
    ensures |v| == |s| && v[i] == s[j] && v[j] == s[i]
    ensures forall k | 0 <= k < |s| && k != i && k != j :: v[k] == s[k]
  {
    s[i := s[j]][j := s[i]]
  }

  lemma SwapKeeps<T>(s: seq<T>, i: nat, j: nat)
    requires i < j < |s|
    ensures multiset(Swap(s, i, j)) == multiset(s)
  {
  }

  lemma SwapSettles<T(!new)>(s: seq<T>, i: nat, j: nat, beats: (T, T) -> bool)
    requires Ranks(beats) && i < j < |s| && Settled(s, i, beats) && beats(s[j], s[i])
    requires forall k | i < k < j :: !beats(s[k], s[i])
    ensures Settled(Swap(s, i, j), i, beats)
    ensures forall k | i < k <= j :: !beats(Swap(s, i, j)[k], Swap(s, i, j)[i])
  {
    var v := Swap(s, i, j);
    forall k | i < k <= j ensures !beats(v[k], v[i]) {
      if k < j {
        assert !beats(s[k], s[i]) && !beats(s[i], s[j]);
      }
    }
  }

  method Sort<T(!new)>(a: array<T>, beats: (T, T) -> bool)
    requires Ranks(beats)
    modifies a
    ensures Ordered(a[..], beats)
    ensures multiset(a[..]) == multiset(old(a[..]))
  {
    hide Ranks, Swap;
    for i := 0 to a.Length
      invariant Settled(a[..], i, beats)
      invariant multiset(a[..]) == multiset(old(a[..]))
    {
      for j := i + 1 to a.Length
        invariant Settled(a[..], i, beats)
        invariant forall k | i < k < j :: !beats(a[..][k], a[..][i])
        invariant multiset(a[..]) == multiset(old(a[..]))
      {
        if beats(a[j], a[i]) {
          ghost var s := a[..];
          SwapSettles(s, i, j, beats);
          SwapKeeps(s, i, j);
          a[i], a[j] := a[j], a[i];
          assert a[..] == Swap(s, i, j);
        }
      }
    }
  }
}

/** Small shared vocabulary: options, results, and ASCII text. */
module Common {
  datatype Option<+T> = None | Some(value: T)

  datatype Result<+T, +E> = Ok(value: T) | Err(error: E)

  function Min(a: int, b: int): int { if a <= b then a else b }
  function Max(a: int, b: int): int { if a >= b then a else b }

  /** Go's conversion of a float to an int drops the fraction. */
  function Truncate(x: real): int { if x >= 0.0 then x.Floor else -(-x).Floor }

  // ---- Machine words --------------------------------------------------------------------------

  const WORD := 0x1_0000_0000_0000_0000

  function U64(x: int): nat { x % WORD }

  function Wrap64(x: int): int { (x + WORD / 2) % WORD - WORD / 2 }

  predicate InInt64(x: int) { -(WORD / 2) <= x < WORD / 2 }

  lemma WrapKeeps(x: int)
    requires InInt64(x)
    ensures Wrap64(x) == x
  {
  }

  /** Wrapping along the way or once at the end is the same. */
  lemma WrapAdds(a: int, b: int)
    ensures Wrap64(Wrap64(a) + b) == Wrap64(a + b)
  {
  }

  /** No value occurs twice. */
  predicate Distinct<T(==)>(s: seq<T>) {
    forall i, j | 0 <= i < j < |s| :: s[i] != s[j]
  }

  /** No value occurs twice exactly when every value is counted at most once. */
  lemma {:induction false} DistinctIffOnce<T>(s: seq<T>)
    ensures Distinct(s) <==> forall x | x in s :: multiset(s)[x] == 1
  {
    if s != [] {
      var front, last := s[..|s| - 1], s[|s| - 1];
      DistinctIffOnce(front);
      assert s == front + [last];
      assert multiset(s) == multiset(front) + multiset{last};
      if Distinct(front) && last !in front {
        forall x | x in s ensures multiset(s)[x] == 1 {
          assert x in front || x == last;
        }
      } else if Distinct(front) {
        assert multiset(s)[last] > 1 && last in s;
      } else {
        var x :| x in front && multiset(front)[x] != 1;
        assert x in s && multiset(s)[x] != 1;
      }
    }
  }

  lemma {:induction false} SubsetSize<T>(a: set<T>, b: set<T>)
    requires a <= b
    ensures |a| <= |b|
  {
    if x :| x in a {
      SubsetSize(a - {x}, b - {x});
    }
  }

  predicate IsSpace(c: char) { c in " \t\n\r" }

  function LowerChar(c: char): char {
    if 'A' <= c <= 'Z' then 'a' + (c - 'A') else c
  }

  function Lower(s: string): string { seq(|s|, i requires 0 <= i < |s| => LowerChar(s[i])) }

  function TrimLeft(s: string): string {
    if s != "" && IsSpace(s[0]) then TrimLeft(s[1..]) else s
  }

  function TrimRight(s: string): string {
    if s != "" && IsSpace(s[|s| - 1]) then TrimRight(s[..|s| - 1]) else s
  }

  function Trim(s: string): string { TrimRight(TrimLeft(s)) }

  predicate Blank(s: string) { Trim(s) == "" }

  predicate AllSpace(s: string) { forall i | 0 <= i < |s| :: IsSpace(s[i]) }

  lemma {:induction false} TrimLeftShape(s: string)
    ensures TrimLeft(s) == "" <==> AllSpace(s)
    ensures TrimLeft(s) != "" ==> !IsSpace(TrimLeft(s)[0])
  {
    if s != "" && IsSpace(s[0]) {
      TrimLeftShape(s[1..]);
      assert AllSpace(s) <==> AllSpace(s[1..]) by {
        assert forall i | 0 < i < |s| :: s[i] == s[1..][i - 1];
      }
    }
  }

  lemma {:induction false} TrimRightShape(s: string)
    ensures TrimRight(s) == "" <==> AllSpace(s)
    ensures TrimRight(s) != "" ==> !IsSpace(TrimRight(s)[|TrimRight(s)| - 1])
  {
    if s != "" && IsSpace(s[|s| - 1]) {
      TrimRightShape(s[..|s| - 1]);
    }
  }

  /** A text is blank exactly when it is all white space. */
  lemma BlankIsAllSpace(s: string)
    ensures Blank(s) <==> AllSpace(s)
  {
    TrimLeftShape(s);
    TrimRightShape(TrimLeft(s));
    assert TrimLeft(s) != "" ==> !AllSpace(TrimLeft(s));
  }

  lemma TrimmedIsBlankToo(s: string)
    ensures Blank(Trim(s)) <==> Blank(s)
  {
    var t := Trim(s);
    BlankIsAllSpace(t);
    TrimRightShape(TrimLeft(s));
    if t != "" {
      assert !IsSpace(t[|t| - 1]);
    } else {
      assert AllSpace(t);
    }
  }

  // ---- Generated ids: a fixed number of dashes, so an id can be read off a name built from it ----

  function Dashes(s: string): nat {
    if s == "" then 0 else (if s[0] == '-' then 1 else 0) + Dashes(s[1..])
  }

  /** The text before the dash that follows `n` other dashes. */
  function Head(s: string, n: nat): string {
    if s == "" then ""
    else if s[0] != '-' then [s[0]] + Head(s[1..], n)
    else if n == 0 then "" else [s[0]] + Head(s[1..], n - 1)
  }

  lemma {:induction false} HeadOfName(id: string, rest: string)
    requires rest == "" || rest[0] == '-'
    ensures Head(id + rest, Dashes(id)) == id
  {
    if id == "" {
      assert id + rest == rest;
    } else {
      HeadOfName(id[1..], rest);
      assert (id + rest)[1..] == id[1..] + rest;
    }
  }
}

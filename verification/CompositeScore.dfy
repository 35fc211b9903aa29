/** The composite score of a team in a battle round, in 64-bit arithmetic
    (backend/internal/service/agent_battle_score_service.go:178-250). */
module CompositeScore {
  import opened Common

  const MAX_INT := WORD / 2 - 1

  // ---- Composite score --------------------------------------------------------------------------

  datatype Weights = Weights(resource: int, attack: int, defense: int, survival: int)

  /** What a team brings: its token metric, its counts and its gains. */
  datatype Metrics = Metrics(resource: int, attacks: int, defenses: int, penalties: int,
                             attackGain: int, defenseGain: int, resourceGain: int, deployed: bool)

  /** Division of a Go integer by two drops the fraction. */
  function Half(x: int): int { if x >= 0 then x / 2 else -(-x / 2) }

  function Clamp(x: int): int { if x < 0 then 0 else if x > MAX_INT then MAX_INT else x }

  function Mul64(a: int, b: int): int { Wrap64(a * b) }
  function Add64(a: int, b: int): int { Wrap64(a + b) }

  // The five parts of the total, in unbounded integers and as the program computes them.

  function ResourceScore(w: Weights, m: Metrics): int { m.resource * w.resource + m.resourceGain * Half(w.resource) }

  function ResourceScore64(w: Weights, m: Metrics): int {
    Add64(Mul64(m.resource, w.resource), Mul64(m.resourceGain, Half(w.resource)))
  }

  function CountScore(count: int, gain: int, weight: int): int { (count + gain) * Max(weight, 1) }

  function CountScore64(count: int, gain: int, weight: int): int { Mul64(Add64(count, gain), Max(weight, 1)) }

  function SurvivalScore(w: Weights, m: Metrics): int { (if m.deployed then 1 else 0) * Max(w.survival * 10, 10) }

  function SurvivalScore64(w: Weights, m: Metrics): int {
    Mul64(if m.deployed then 1 else 0, Max(Mul64(w.survival, 10), 10))
  }

  function PenaltyScore(w: Weights, m: Metrics): int { m.penalties * Max(w.resource + w.attack + w.defense, 10) }

  function PenaltyScore64(w: Weights, m: Metrics): int {
    Mul64(m.penalties, Max(Add64(Add64(w.resource, w.attack), w.defense), 10))
  }

  function Sum(resource: int, attack: int, defense: int, survival: int, penalty: int): int {
    resource + attack + defense + survival - penalty
  }

  function Sum64(resource: int, attack: int, defense: int, survival: int, penalty: int): int {
    Wrap64(Add64(Add64(Add64(resource, attack), defense), survival) - penalty)
  }

  /** The total in unbounded integers. */
  function ExactTotal(w: Weights, m: Metrics): int {
    Sum(ResourceScore(w, m), CountScore(m.attacks, m.attackGain, w.attack),
        CountScore(m.defenses, m.defenseGain, w.defense),
        SurvivalScore(w, m), PenaltyScore(w, m))
  }

  /** The total as the program computes it, every operation on 64 bits. */
  function Total64(w: Weights, m: Metrics): int {
    Sum64(ResourceScore64(w, m), CountScore64(m.attacks, m.attackGain, w.attack),
          CountScore64(m.defenses, m.defenseGain, w.defense), SurvivalScore64(w, m), PenaltyScore64(w, m))
  }

  function Composite(w: Weights, m: Metrics): int { Clamp(Total64(w, m)) }

  /** The weights themselves do not overflow when they are combined. */
  predicate PlainWeights(w: Weights) {
    && InInt64(w.survival * 10) && InInt64(w.resource + w.attack) && InInt64(w.resource + w.attack + w.defense)
  }

  // ---- Wrapping ---------------------------------------------------------------------------------

  /** `k` words above `x`. */
  function Shift(x: int, k: int): int { x + k * WORD }

  /** Two numbers the machine cannot tell apart. */
  ghost predicate Alike(a: int, b: int) { exists k :: a == Shift(b, k) }

  lemma DivMod(x: int, q: int, r: int)
    requires 0 <= r < WORD && x == q * WORD + r
    ensures x % WORD == r
  {
  }

  lemma ModShift(x: int, k: int)
    ensures Shift(x, k) % WORD == x % WORD
  {
    var q, r := x / WORD, x % WORD;
    assert Shift(x, k) == (q + k) * WORD + r;
    DivMod(Shift(x, k), q + k, r);
  }

  lemma WrapIsAlike(x: int)
    ensures Alike(Wrap64(x), x)
  {
    var y := x + WORD / 2;
    assert Wrap64(x) == Shift(x, -(y / WORD));
  }

  lemma AlikeWraps(a: int, b: int)
    requires Alike(a, b)
    ensures Wrap64(a) == Wrap64(b)
  {
    var k :| a == Shift(b, k);
    ModShift(b + WORD / 2, k);
    assert a + WORD / 2 == Shift(b + WORD / 2, k);
  }

  lemma AlikeToo(a: int, b: int, c: int)
    requires Alike(a, b) && Alike(b, c)
    ensures Alike(a, c)
  {
    var k :| a == Shift(b, k);
    var l :| b == Shift(c, l);
    assert a == Shift(c, k + l);
  }

  lemma AlikeAdds(a: int, a': int, b: int, b': int)
    requires Alike(a, a') && Alike(b, b')
    ensures Alike(a + b, a' + b') && Alike(a - b, a' - b')
  {
    var k :| a == Shift(a', k);
    var l :| b == Shift(b', l);
    assert a + b == Shift(a' + b', k + l);
    assert a - b == Shift(a' - b', k - l);
  }

  lemma AlikeMuls(a: int, a': int, b: int)
    requires Alike(a, a')
    ensures Alike(a * b, a' * b)
  {
    var k :| a == Shift(a', k);
    ShiftTimes(a', k, b);
    assert a * b == Shift(a' * b, k * b);
  }

  lemma ShiftTimes(x: int, k: int, b: int)
    ensures Shift(x, k) * b == Shift(x * b, k * b)
  {
    var y := k * WORD;
    assert (x + y) * b == x * b + y * b;
    assert y * b == (k * b) * WORD;
  }

  lemma Mul64Alike(a: int, a': int, b: int)
    requires Alike(a, a')
    ensures Alike(Mul64(a, b), a' * b)
  {
    AlikeMuls(a, a', b);
    WrapIsAlike(a * b);
    AlikeToo(Mul64(a, b), a * b, a' * b);
  }

  lemma Add64Alike(a: int, a': int, b: int, b': int)
    requires Alike(a, a') && Alike(b, b')
    ensures Alike(Add64(a, b), a' + b')
  {
    AlikeAdds(a, a', b, b');
    WrapIsAlike(a + b);
    AlikeToo(Add64(a, b), a + b, a' + b');
  }

  lemma ResourceAlike(w: Weights, m: Metrics)
    ensures Alike(ResourceScore64(w, m), ResourceScore(w, m))
  {
    var a, b := m.resource * w.resource, m.resourceGain * Half(w.resource);
    WrapIsAlike(a);
    WrapIsAlike(b);
    Add64Alike(Wrap64(a), a, Wrap64(b), b);
  }

  lemma CountAlike(count: int, gain: int, weight: int)
    ensures Alike(CountScore64(count, gain, weight), CountScore(count, gain, weight))
  {
    WrapIsAlike(count + gain);
    Mul64Alike(Add64(count, gain), count + gain, Max(weight, 1));
  }

  lemma SurvivalAlike(w: Weights, m: Metrics)
    requires PlainWeights(w)
    ensures Alike(SurvivalScore64(w, m), SurvivalScore(w, m))
  {
    WrapKeeps(w.survival * 10);
    WrapIsAlike((if m.deployed then 1 else 0) * Max(w.survival * 10, 10));
  }

  lemma PenaltyAlike(w: Weights, m: Metrics)
    requires PlainWeights(w)
    ensures Alike(PenaltyScore64(w, m), PenaltyScore(w, m))
  {
    WrapKeeps(w.resource + w.attack);
    WrapKeeps(w.resource + w.attack + w.defense);
    WrapIsAlike(m.penalties * Max(w.resource + w.attack + w.defense, 10));
  }

  /** Overflow along the way does not matter: the machine total is the exact total wrapped once. */
  lemma TotalWrapsOnce(w: Weights, m: Metrics)
    requires PlainWeights(w)
    ensures Total64(w, m) == Wrap64(ExactTotal(w, m))
  {
    ResourceAlike(w, m);
    CountAlike(m.attacks, m.attackGain, w.attack);
    CountAlike(m.defenses, m.defenseGain, w.defense);
    SurvivalAlike(w, m);
    PenaltyAlike(w, m);
    SumAlike(ResourceScore64(w, m), ResourceScore(w, m),
             CountScore64(m.attacks, m.attackGain, w.attack), CountScore(m.attacks, m.attackGain, w.attack),
             CountScore64(m.defenses, m.defenseGain, w.defense), CountScore(m.defenses, m.defenseGain, w.defense),
             SurvivalScore64(w, m), SurvivalScore(w, m), PenaltyScore64(w, m), PenaltyScore(w, m));
  }

  lemma SumAlike(r: int, r': int, a: int, a': int, d: int, d': int, s: int, s': int, p: int, p': int)
    requires Alike(r, r') && Alike(a, a') && Alike(d, d') && Alike(s, s') && Alike(p, p')
    ensures Sum64(r, a, d, s, p) == Wrap64(Sum(r', a', d', s', p'))
  {
    Add64Alike(r, r', a, a');
    Add64Alike(Add64(r, a), r' + a', d, d');
    Add64Alike(Add64(Add64(r, a), d), r' + a' + d', s, s');
    AlikeAdds(Add64(Add64(Add64(r, a), d), s), r' + a' + d' + s', p, p');
    AlikeWraps(Add64(Add64(Add64(r, a), d), s) - p, r' + a' + d' + s' - p');
  }

  const WEIGHT_LIMIT := 1000
  const METRIC_LIMIT := 0x2_0000_0000_0000

  predicate Bounded(w: Weights, m: Metrics) {
    && 0 <= w.resource <= WEIGHT_LIMIT && 0 <= w.attack <= WEIGHT_LIMIT
    && 0 <= w.defense <= WEIGHT_LIMIT && 0 <= w.survival <= WEIGHT_LIMIT
    && 0 <= m.resource <= METRIC_LIMIT && 0 <= m.attacks <= METRIC_LIMIT
    && 0 <= m.defenses <= METRIC_LIMIT && 0 <= m.penalties <= METRIC_LIMIT
    && -METRIC_LIMIT <= m.attackGain <= METRIC_LIMIT && -METRIC_LIMIT <= m.defenseGain <= METRIC_LIMIT
    && 0 <= m.resourceGain <= METRIC_LIMIT
  }

  lemma ProductBound(x: int, y: int, a: int, b: int)
    requires -a <= x <= a && 0 <= y <= b
    ensures -(a * b) <= x * y <= a * b
  {
    assert x * y <= a * y && -(a * y) <= x * y;
    assert a * y <= a * b;
  }

  lemma BoundedFits(w: Weights, m: Metrics)
    requires Bounded(w, m)
    ensures InInt64(ExactTotal(w, m))
  {
    var a, b := METRIC_LIMIT, WEIGHT_LIMIT;
    ProductBound(m.resource, w.resource, a, b);
    ProductBound(m.resourceGain, Half(w.resource), a, b / 2);
    ProductBound(m.attacks + m.attackGain, Max(w.attack, 1), 2 * a, b);
    ProductBound(m.defenses + m.defenseGain, Max(w.defense, 1), 2 * a, b);
    ProductBound(if m.deployed then 1 else 0, Max(w.survival * 10, 10), 1, 10 * b);
    ProductBound(m.penalties, Max(w.resource + w.attack + w.defense, 10), a, 3 * b);
  }

  /** When the exact total fits 64 bits, the score is the exact formula cut off at 0. */
  lemma FittingIsExact(w: Weights, m: Metrics)
    requires PlainWeights(w) && InInt64(ExactTotal(w, m))
    ensures Composite(w, m) == Max(0, ExactTotal(w, m))
  {
    TotalWrapsOnce(w, m);
    WrapKeeps(ExactTotal(w, m));
  }

  /** With weights up to 1000 and metrics up to 2^49 nothing overflows. */
  lemma BoundedIsExact(w: Weights, m: Metrics)
    requires Bounded(w, m)
    ensures Composite(w, m) == Max(0, ExactTotal(w, m))
  {
    BoundedFits(w, m);
    FittingIsExact(w, m);
  }

  /** The exact total lies in the lower half of some word, or at its end: the machine sees it as
      negative or 0. */
  ghost predicate SeenAsNone(t: int) { exists k :: Shift(-(WORD / 2), k) <= t <= Shift(0, k) }

  /** The exact total is the largest machine integer, some words higher. */
  ghost predicate SeenAsMost(t: int) { exists k :: t == Shift(MAX_INT, k) }

  lemma InBand(t: int, k: int, x: int)
    requires InInt64(x) && t == Shift(x, k)
    ensures Wrap64(t) == x
  {
    DivMod(t + WORD / 2, k, x + WORD / 2);
  }

  lemma BandsOfWrap(t: int)
    ensures Wrap64(t) <= 0 <==> SeenAsNone(t)
    ensures Wrap64(t) == MAX_INT <==> SeenAsMost(t)
  {
    hide Wrap64;
    WrapInRange(t);
    WrapIsAlike(t);
    var k :| Wrap64(t) == Shift(t, k);
    assert t == Shift(Wrap64(t), -k);
    if Wrap64(t) <= 0 {
      assert Shift(-(WORD / 2), -k) <= t <= Shift(0, -k);
    }
    if SeenAsNone(t) {
      var l :| Shift(-(WORD / 2), l) <= t <= Shift(0, l);
      InBand(t, l, t - l * WORD);
    }
    if SeenAsMost(t) {
      var l :| t == Shift(MAX_INT, l);
      InBand(t, l, MAX_INT);
    }
  }

  /** The machine score is the exact one exactly when the exact total fits 64 bits, or is negative
      and in a band the machine cuts off to 0 as well, or is too large and a whole number of words
      above the largest integer. */
  lemma CompositeIsExactIff(w: Weights, m: Metrics)
    requires PlainWeights(w)
    ensures (var t := ExactTotal(w, m);
             Composite(w, m) == Clamp(t) <==> InInt64(t) || (t < 0 && SeenAsNone(t)) || (t > MAX_INT && SeenAsMost(t)))
  {
    hide Total64, ExactTotal, PlainWeights, SeenAsNone, SeenAsMost;
    var t := ExactTotal(w, m);
    TotalWrapsOnce(w, m);
    BandsOfWrap(t);
    WrapInRange(t);
    if InInt64(t) {
      WrapKeeps(t);
    }
  }

  lemma WrapInRange(t: int)
    ensures InInt64(Wrap64(t))
  {
  }

  lemma OnlyBalance(w: Weights, r: int)
    ensures ExactTotal(w, Metrics(r, 0, 0, 0, 0, 0, 0, false)) == r * w.resource
  {
    var m := Metrics(r, 0, 0, 0, 0, 0, 0, false);
    ZeroTimes(Half(w.resource));
    ZeroTimes(Max(w.attack, 1));
    ZeroTimes(Max(w.defense, 1));
    ZeroTimes(Max(w.survival * 10, 10));
    ZeroTimes(Max(w.resource + w.attack + w.defense, 10));
    assert ResourceScore(w, m) == r * w.resource + 0;
  }

  lemma ZeroTimes(k: int)
    ensures 0 * k == 0
  {
  }

  /** The richest team can score 0: with an even resource weight, a token metric at the 64-bit
      maximum overflows to a small negative total. */
  lemma HugeBalanceScoresZero(w: Weights, k: int)
    requires PlainWeights(w) && w.resource == 2 * k && 0 < k < WORD / 4
    ensures (var m := Metrics(MAX_INT, 0, 0, 0, 0, 0, 0, false);
             ExactTotal(w, m) > 0 && Composite(w, m) == 0)
  {
    var m := Metrics(MAX_INT, 0, 0, 0, 0, 0, 0, false);
    OnlyBalance(w, MAX_INT);
    TotalWrapsOnce(w, m);
    MaxDoubled(k);
    MaxTimesEven(k);
    CutOff(w, m, Shift(-2 * k, k));
  }

  lemma CutOff(w: Weights, m: Metrics, t: int)
    requires Total64(w, m) == Wrap64(t) < 0
    ensures Composite(w, m) == 0
  {
  }

  lemma Doubled(m: int, k: int)
    ensures m * (2 * k) == -2 * k + k * (2 * m + 2)
  {
  }

  lemma MaxDoubled(k: int)
    ensures MAX_INT * (2 * k) == Shift(-2 * k, k)
  {
    Doubled(MAX_INT, k);
    assert 2 * MAX_INT + 2 == WORD;
  }

  lemma MaxTimesEven(k: int)
    requires 0 < k < WORD / 4
    ensures Shift(-2 * k, k) > 0 && Wrap64(Shift(-2 * k, k)) == -2 * k
  {
    AlikeWraps(Shift(-2 * k, k), -2 * k);
    WrapKeeps(-2 * k);
  }

  /** More of everything but penalties. */
  predicate AtLeast(m: Metrics, n: Metrics) {
    && m.resource >= n.resource && m.attacks >= n.attacks && m.defenses >= n.defenses && m.penalties <= n.penalties
    && m.attackGain >= n.attackGain && m.defenseGain >= n.defenseGain && m.resourceGain >= n.resourceGain
    && (n.deployed ==> m.deployed)
  }

  lemma ProductGrows(x: int, y: int, k: int)
    requires x <= y && k >= 0
    ensures x * k <= y * k
  {
  }

  lemma ExactGrows(w: Weights, m: Metrics, n: Metrics)
    requires w.resource >= 0 && AtLeast(m, n)
    ensures ExactTotal(w, m) >= ExactTotal(w, n)
  {
    ProductGrows(n.resource, m.resource, w.resource);
    ProductGrows(n.resourceGain, m.resourceGain, Half(w.resource));
    ProductGrows(n.attacks + n.attackGain, m.attacks + m.attackGain, Max(w.attack, 1));
    ProductGrows(n.defenses + n.defenseGain, m.defenses + m.defenseGain, Max(w.defense, 1));
    ProductGrows(if n.deployed then 1 else 0, if m.deployed then 1 else 0, Max(w.survival * 10, 10));
    ProductGrows(m.penalties, n.penalties, Max(w.resource + w.attack + w.defense, 10));
  }

  /** Where no exact total overflows, a better record never scores less. */
  lemma CompositeGrows(w: Weights, m: Metrics, n: Metrics)
    requires PlainWeights(w) && w.resource >= 0 && AtLeast(m, n)
    requires InInt64(ExactTotal(w, m)) && InInt64(ExactTotal(w, n))
    ensures Composite(w, m) >= Composite(w, n) >= 0
  {
    FittingIsExact(w, m);
    FittingIsExact(w, n);
    ExactGrows(w, m, n);
  }

  // ---- Token balances -----------------------------------------------------------------------------

  const WEI_PER_POINT := 1_000_000_000_000_000

  function NormalizeTokenBalance(balance: int): int {
    if balance <= 0 then 0
    else
      var scaled := balance / WEI_PER_POINT;
      if scaled == 0 then 1 else if scaled > MAX_INT then MAX_INT else scaled
  }

  function ResourceHeld(balance: int, resourceGain: int): int {
    Clamp(Max(NormalizeTokenBalance(balance), resourceGain))
  }

  /** A larger balance never counts less, any positive balance counts, and the result fits. */
  lemma NormalizeGrows(a: int, b: int)
    requires a <= b
    ensures 0 <= NormalizeTokenBalance(a) <= NormalizeTokenBalance(b) <= MAX_INT
    ensures NormalizeTokenBalance(a) > 0 <==> a > 0
  {
  }

  lemma ResourceHeldGrows(a: int, b: int, g: int, h: int)
    requires a <= b && g <= h
    ensures NormalizeTokenBalance(a) <= ResourceHeld(a, g) <= ResourceHeld(b, h) <= MAX_INT
  {
    NormalizeGrows(a, b);
  }
}

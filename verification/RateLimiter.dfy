/** The in-process token-bucket rate limiter (backend/internal/middleware/ratelimit.go).

    `Limiter` is the source's object; `Admit` and `Sweep` are the meaning of its two
    operations on the visitor table.  The theorems are about whole schedules of calls (many
    keys) and cleanup sweeps. Time is in seconds and token arithmetic is exact (`real`). */
module RateLimiter {

  /** The two settings; start-up refuses an enabled limiter unless both are positive. */
  datatype Config = Config(rate: int, burst: int) {
    predicate Valid() { rate > 0 && burst > 0 }
  }

  datatype Visitor = Visitor(tokens: real, lastUpdate: real)

  type Visitors = map<string, Visitor>

  const CLEANUP := 60.0

  function Min(a: real, b: real): real { if a <= b then a else b }

  /** What the rate adds between two times. */
  function Gain(c: Config, from: real, to: real): real { (to - from) * c.rate as real }

  lemma GainLaws(c: Config, a: real, b: real, d: real)
    requires c.Valid() && a <= b <= d
    ensures Gain(c, a, d) == Gain(c, a, b) + Gain(c, b, d)
    ensures 0.0 <= Gain(c, a, b) && 0.0 <= Gain(c, b, d)
  {
    assert Gain(c, a, d) == d * c.rate as real - a * c.rate as real;
  }

  /** The balance of a bucket after topping it up to time `now`. */
  function Refilled(c: Config, v: Visitor, now: real): real {
    Min(c.burst as real, v.tokens + Gain(c, v.lastUpdate, now))
  }

  function Admit(c: Config, vs: Visitors, key: string, now: real): (Visitors, bool) {
    if key !in vs then
      (vs[key := Visitor((c.burst - 1) as real, now)], true)
    else
      var balance := Refilled(c, vs[key], now);
      if balance >= 1.0 then (vs[key := Visitor(balance - 1.0, now)], true)
      else (vs[key := Visitor(balance, now)], false)
  }

  predicate Idle(v: Visitor, now: real) { v.lastUpdate < now - CLEANUP }

  function Sweep(vs: Visitors, now: real): Visitors {
    map key | key in vs && !Idle(vs[key], now) :: vs[key]
  }

  class Limiter {
    const cfg: Config
    var visitors: Visitors

    constructor (cfg: Config)
      ensures this.cfg == cfg && visitors == map[]
    {
      this.cfg := cfg;
      visitors := map[];
    }

    method Allow(key: string, now: real) returns (allowed: bool)
      modifies this`visitors
      ensures (visitors, allowed) == Admit(cfg, old(visitors), key, now)
    {
      if key !in visitors {
        visitors := visitors[key := Visitor((cfg.burst - 1) as real, now)];
        return true;
      }
      var tokens, lastUpdate := visitors[key].tokens, visitors[key].lastUpdate;
      tokens := tokens + Gain(cfg, lastUpdate, now);
      if tokens > cfg.burst as real {
        tokens := cfg.burst as real;
      }
      allowed := tokens >= 1.0;
      if allowed {
        tokens := tokens - 1.0;
      }
      visitors := visitors[key := Visitor(tokens, now)];
    }

    /** One tick of the cleanup loop: visit the keys in any order, deleting the idle ones. */
    method CleanupTick(now: real)
      modifies this`visitors
      ensures visitors == Sweep(old(visitors), now)
    {
      var pending := visitors.Keys;
      while pending != {}
        invariant pending <= visitors.Keys <= old(visitors).Keys
        invariant forall key <- visitors :: visitors[key] == old(visitors)[key]
        invariant forall key <- old(visitors) | key !in pending ::
                    key in visitors <==> !Idle(old(visitors)[key], now)
        decreases pending
      {
        var key :| key in pending;
        pending := pending - {key};
        if visitors[key].lastUpdate < now - CLEANUP {
          visitors := visitors - {key};
        }
      }
    }
  }

  // ---- Schedules -------------------------------------------------------------------------

  datatype Event = Call(key: string, at: real) | Tick(at: real)

  /** Event times never decrease, and none is before `from`. */
  predicate Ordered(es: seq<Event>, from: real) {
    es == [] || (from <= es[0].at && Ordered(es[1..], es[0].at))
  }

  /** Runs a schedule; the result holds one answer per call, in order. */
  function Run(c: Config, vs: Visitors, es: seq<Event>): seq<bool>
    decreases |es|
  {
    if es == [] then []
    else match es[0]
      case Call(key, at) => var (next, ok) := Admit(c, vs, key, at); [ok] + Run(c, next, es[1..])
      case Tick(at) => Run(c, Sweep(vs, at), es[1..])
  }

  function Final(c: Config, vs: Visitors, es: seq<Event>): Visitors
    decreases |es|
  {
    if es == [] then vs
    else match es[0]
      case Call(key, at) => Final(c, Admit(c, vs, key, at).0, es[1..])
      case Tick(at) => Final(c, Sweep(vs, at), es[1..])
  }

  /** The schedule with every cleanup tick struck out. */
  function Calls(es: seq<Event>): seq<Event> {
    if es == [] then [] else if es[0].Call? then [es[0]] + Calls(es[1..]) else Calls(es[1..])
  }

  predicate OnlyCalls(es: seq<Event>) { forall i | 0 <= i < |es| :: es[i].Call? }

  /** How many calls of `key` with a time in [lo, hi] were granted. */
  function Granted(calls: seq<Event>, answers: seq<bool>, key: string, lo: real, hi: real): nat
  {
    if calls == [] || answers == [] then 0
    else (if calls[0].Call? && calls[0].key == key && lo <= calls[0].at <= hi && answers[0] then 1 else 0)
         + Granted(calls[1..], answers[1..], key, lo, hi)
  }

  // ---- Balances stay within [0, burst] -----------------------------------------------------

  ghost predicate Sound(c: Config, vs: Visitors, now: real) {
    forall key <- vs :: 0.0 <= vs[key].tokens <= c.burst as real && vs[key].lastUpdate <= now
  }

  lemma AdmitKeepsSound(c: Config, vs: Visitors, key: string, now: real, from: real)
    requires c.Valid() && Sound(c, vs, from) && from <= now
    ensures Sound(c, Admit(c, vs, key, now).0, now)
  {
    if key in vs {
      RefillGrows(c, vs[key], now);
    }
  }

  lemma RefillGrows(c: Config, v: Visitor, now: real)
    requires c.Valid() && v.lastUpdate <= now && v.tokens <= c.burst as real
    ensures v.tokens <= Refilled(c, v, now) <= c.burst as real
  {
    GainLaws(c, v.lastUpdate, now, now);
  }

  /** Every balance the limiter ever stores is between 0 and the burst. */
  lemma {:induction false} BalancesStayInRange(c: Config, vs: Visitors, es: seq<Event>, from: real)
    requires c.Valid() && Sound(c, vs, from) && Ordered(es, from)
    ensures forall key <- Final(c, vs, es) :: 0.0 <= Final(c, vs, es)[key].tokens <= c.burst as real
    decreases |es|
  {
    if es != [] {
      match es[0]
      case Call(key, at) =>
        AdmitKeepsSound(c, vs, key, at, from);
        BalancesStayInRange(c, Admit(c, vs, key, at).0, es[1..], at);
      case Tick(at) =>
        BalancesStayInRange(c, Sweep(vs, at), es[1..], at);
    }
  }

  // ---- Cleanup is unobservable exactly when a minute refills a whole bucket -------------------

  /** `swept` and `kept` answer alike from time `now` on: where `swept` has lost a key, the
      bucket `kept` still holds is full again. */
  ghost predicate Alike(c: Config, swept: Visitors, kept: Visitors, now: real) {
    && Sound(c, kept, now)
    && swept.Keys <= kept.Keys
    && forall key <- kept ::
         if key in swept then swept[key] == kept[key] else Refilled(c, kept[key], now) == c.burst as real
  }

  lemma AlikeLater(c: Config, swept: Visitors, kept: Visitors, from: real, now: real)
    requires c.Valid() && Alike(c, swept, kept, from) && from <= now
    ensures Alike(c, swept, kept, now)
  {
    forall key <- kept | key !in swept ensures Refilled(c, kept[key], now) == c.burst as real {
      GainLaws(c, kept[key].lastUpdate, from, now);
    }
  }

  lemma SweepKeepsAlike(c: Config, swept: Visitors, kept: Visitors, now: real)
    requires c.Valid() && 60 * c.rate >= c.burst && Alike(c, swept, kept, now)
    ensures Alike(c, Sweep(swept, now), kept, now)
  {
    forall key <- kept | key in swept && Idle(swept[key], now)
      ensures Refilled(c, kept[key], now) == c.burst as real
    {
      GainLaws(c, kept[key].lastUpdate, now - CLEANUP, now);
      assert Gain(c, now - CLEANUP, now) == CLEANUP * c.rate as real;
    }
  }

  lemma AdmitKeepsAlike(c: Config, swept: Visitors, kept: Visitors, key: string, now: real)
    requires c.Valid() && Alike(c, swept, kept, now)
    ensures Admit(c, swept, key, now).1 == Admit(c, kept, key, now).1
    ensures Alike(c, Admit(c, swept, key, now).0, Admit(c, kept, key, now).0, now)
  {
    AdmitKeepsSound(c, kept, key, now, now);
  }

  lemma {:induction false} AlikeRunsAgree(c: Config, swept: Visitors, kept: Visitors, es: seq<Event>, from: real)
    requires c.Valid() && 60 * c.rate >= c.burst
    requires Alike(c, swept, kept, from) && Ordered(es, from)
    ensures Run(c, swept, es) == Run(c, kept, Calls(es))
    decreases |es|
  {
    if es != [] {
      AlikeLater(c, swept, kept, from, es[0].at);
      match es[0]
      case Call(key, at) =>
        AdmitKeepsAlike(c, swept, kept, key, at);
        AlikeRunsAgree(c, Admit(c, swept, key, at).0, Admit(c, kept, key, at).0, es[1..], at);
        assert Calls(es)[1..] == Calls(es[1..]);
      case Tick(at) =>
        SweepKeepsAlike(c, swept, kept, at);
        AlikeRunsAgree(c, Sweep(swept, at), kept, es[1..], at);
        assert Calls(es) == Calls(es[1..]);
    }
  }

  /** Cleanup cannot be observed by any client under any schedule. */
  ghost predicate CleanupUnobservable(c: Config) {
    forall es: seq<Event>, from: real | Ordered(es, from) :: Run(c, map[], es) == Run(c, map[], Calls(es))
  }

  /** No window of any schedule, cleanup included, grants more than the burst plus what the
      rate adds over the window. */
  ghost predicate WindowBounded(c: Config) {
    forall es: seq<Event>, from: real, key, lo: real, hi: real | Ordered(es, from) && lo <= hi ::
      Granted(Calls(es), Run(c, map[], es), key, lo, hi) as real <= c.burst as real + Gain(c, lo, hi)
  }

  // ---- The window bound --------------------------------------------------------------------

  /** Requests `key` could be granted at once at time `now`. */
  ghost function Credit(c: Config, vs: Visitors, key: string, now: real): real {
    if key in vs then Refilled(c, vs[key], now) else c.burst as real
  }

  lemma CreditLater(c: Config, vs: Visitors, key: string, from: real, now: real)
    requires c.Valid() && from <= now && Sound(c, vs, from)
    ensures 0.0 <= Credit(c, vs, key, now) <= Credit(c, vs, key, from) + Gain(c, from, now)
    ensures Credit(c, vs, key, from) <= c.burst as real
  {
    if key in vs {
      RefillGrows(c, vs[key], now);
      GainLaws(c, vs[key].lastUpdate, from, now);
    }
    GainLaws(c, from, now, now);
  }

  lemma {:induction false} CreditBound(c: Config, vs: Visitors, calls: seq<Event>, key: string, lo: real, from: real,
                                       hi: real)
    requires c.Valid() && Sound(c, vs, from) && Ordered(calls, from) && lo <= from <= hi
    requires OnlyCalls(calls)
    ensures Granted(calls, Run(c, vs, calls), key, lo, hi) as real <= Credit(c, vs, key, from) + Gain(c, from, hi)
    decreases |calls|
  {
    CreditLater(c, vs, key, from, from);
    GainLaws(c, from, hi, hi);
    if calls != [] {
      var at := calls[0].at;
      var (next, ok) := Admit(c, vs, calls[0].key, at);
      RunCall(c, vs, calls);
      AdmitKeepsSound(c, vs, calls[0].key, at, from);
      if at <= hi {
        CreditBound(c, next, calls[1..], key, lo, at, hi);
        CreditLater(c, vs, key, from, at);
        GainLaws(c, from, at, hi);
        AdmitSpendsCredit(c, vs, calls[0].key, key, at);
      } else {
        NoneAfter(calls[1..], Run(c, next, calls[1..]), key, lo, hi, at);
      }
    }
  }

  lemma RunCall(c: Config, vs: Visitors, es: seq<Event>)
    requires es != [] && es[0].Call?
    ensures (var (next, ok) := Admit(c, vs, es[0].key, es[0].at);
             && |Run(c, vs, es)| > 0
             && Run(c, vs, es)[0] == ok && Run(c, vs, es)[1..] == Run(c, next, es[1..]))
  {
    var (next, ok) := Admit(c, vs, es[0].key, es[0].at);
    assert Run(c, vs, es) == [ok] + Run(c, next, es[1..]);
  }

  lemma AdmitSpendsCredit(c: Config, vs: Visitors, caller: string, key: string, at: real)
    requires c.Valid() && Sound(c, vs, at)
    ensures (var (next, ok) := Admit(c, vs, caller, at);
             Credit(c, next, key, at) == Credit(c, vs, key, at) - (if caller == key && ok then 1.0 else 0.0))
  {
    assert Gain(c, at, at) == 0.0;
    AdmitKeepsSound(c, vs, caller, at, at);
    if key in vs {
      RefillGrows(c, vs[key], at);
    }
  }

  lemma {:induction false} NoneAfter(calls: seq<Event>, answers: seq<bool>, key: string, lo: real, hi: real, from: real)
    requires Ordered(calls, from) && hi < from
    ensures Granted(calls, answers, key, lo, hi) == 0
  {
    if calls != [] && answers != [] {
      NoneAfter(calls[1..], answers[1..], key, lo, hi, calls[0].at);
    }
  }

  /** Without cleanup, no window of length T grants one key more than burst + rate*T calls. */
  lemma {:induction false} WindowBound(c: Config, vs: Visitors, calls: seq<Event>, key: string, from: real, lo: real,
                                       hi: real)
    requires c.Valid() && Sound(c, vs, from) && Ordered(calls, from) && lo <= hi
    requires OnlyCalls(calls)
    ensures Granted(calls, Run(c, vs, calls), key, lo, hi) as real <= c.burst as real + Gain(c, lo, hi)
    decreases |calls|
  {
    GainLaws(c, lo, hi, hi);
    if calls != [] {
      var at := calls[0].at;
      var next := Admit(c, vs, calls[0].key, at).0;
      RunCall(c, vs, calls);
      AdmitKeepsSound(c, vs, calls[0].key, at, from);
      if at < lo {
        WindowBound(c, next, calls[1..], key, at, lo, hi);
      } else if hi < from {
        NoneAfter(calls, Run(c, vs, calls), key, lo, hi, from);
      } else {
        var start := if from < lo then lo else from;
        assert Sound(c, vs, start) && Ordered(calls, start);
        CreditBound(c, vs, calls, key, lo, start, hi);
        CreditLater(c, vs, key, start, start);
        GainLaws(c, lo, start, hi);
      }
    }
  }

  // ---- The schedule that tells a swept limiter from an unswept one -----------------------------

  function Volley(n: nat, at: real): seq<Event> {
    if n == 0 then [] else [Call("client", at)] + Volley(n - 1, at)
  }

  lemma ConsOrdered(e: Event, es: seq<Event>, from: real)
    requires from <= e.at && Ordered(es, e.at)
    ensures Ordered([e] + es, from)
    ensures e.Call? ==> Calls([e] + es) == [e] + Calls(es)
  {
    assert ([e] + es)[1..] == es;
  }

  lemma {:induction false} VolleyOrdered(n: nat, at: real, tail: seq<Event>, from: real)
    requires from <= at && Ordered(tail, at)
    ensures Ordered(Volley(n, at) + tail, from)
    ensures Calls(Volley(n, at) + tail) == Volley(n, at) + Calls(tail)
  {
    if n == 0 {
      assert Volley(n, at) + tail == tail;
    } else {
      var first, rest := Call("client", at), Volley(n - 1, at);
      VolleyOrdered(n - 1, at, tail, at);
      ConsOrdered(first, rest + tail, from);
      assert Volley(n, at) + tail == [first] + (rest + tail);
      assert Volley(n, at) + Calls(tail) == [first] + (rest + Calls(tail));
    }
  }

  /** A volley no larger than the balance is granted in full and spends exactly its size. */
  lemma {:induction false} VolleyGranted(c: Config, vs: Visitors, n: nat, at: real, tail: seq<Event>)
    requires c.Valid() && n > 0
    requires if "client" in vs then vs["client"].lastUpdate == at && n as real <= vs["client"].tokens <= c.burst as real
             else n == c.burst
    ensures var left := Visitor((if "client" in vs then vs["client"].tokens else c.burst as real) - n as real, at);
            var after := vs["client" := left];
            && |Run(c, vs, Volley(n, at) + tail)| >= n
            && (forall i | 0 <= i < n :: Run(c, vs, Volley(n, at) + tail)[i])
            && Run(c, vs, Volley(n, at) + tail)[n..] == Run(c, after, tail)
    decreases n
  {
    hide Admit;
    var es := Volley(n, at) + tail;
    var next := Admit(c, vs, "client", at).0;
    assert es[0] == Call("client", at) && es[1..] == Volley(n - 1, at) + tail;
    RunCall(c, vs, es);
    OneTokenLess(c, vs, at);
    if n == 1 {
      assert es[1..] == tail;
    } else {
      VolleyGranted(c, next, n - 1, at, tail);
      var left := Visitor(next["client"].tokens - (n - 1) as real, at);
      assert next["client" := left] == vs["client" := left];
      assert Run(c, vs, es)[n..] == Run(c, vs, es)[1..][n - 1..];
    }
  }

  lemma OneTokenLess(c: Config, vs: Visitors, at: real)
    requires c.Valid()
    requires "client" in vs ==> vs["client"].lastUpdate == at && 1.0 <= vs["client"].tokens <= c.burst as real
    ensures var (next, ok) := Admit(c, vs, "client", at);
            && ok && "client" in next && next == vs["client" := next["client"]]
            && next["client"] == Visitor((if "client" in vs then vs["client"].tokens else c.burst as real) - 1.0, at)
  {
    assert Gain(c, at, at) == 0.0;
  }

  lemma {:induction false} AllGranted(calls: seq<Event>, answers: seq<bool>, lo: real, hi: real)
    requires |calls| <= |answers|
    requires forall i | 0 <= i < |calls| :: calls[i].Call? && calls[i].key == "client" && lo <= calls[i].at <= hi
    requires forall i | 0 <= i < |calls| :: answers[i]
    ensures Granted(calls, answers, "client", lo, hi) == |calls|
    decreases |calls|
  {
    if calls != [] {
      AllGranted(calls[1..], answers[1..], lo, hi);
    }
  }

  /** When a minute cannot refill a bucket: spend the burst, idle just over a minute, spend it
      again.  A sweep in between lets both volleys through, which no unswept bucket does. */
  lemma SweepDoublesTheBurst(c: Config) returns (es: seq<Event>, hi: real)
    requires c.Valid() && 60 * c.rate < c.burst
    ensures Ordered(es, 0.0) && 0.0 <= hi
    ensures Granted(Calls(es), Run(c, map[], es), "client", 0.0, hi) == 2 * c.burst
    ensures Gain(c, 0.0, hi) < c.burst as real
  {
    hi := 60.0 + 0.5 / c.rate as real;
    assert Gain(c, 0.0, hi) == 60.0 * c.rate as real + 0.5;
    assert hi > 60.0;
    es := TwoVolleys(c, hi);
    TwoVolleysGranted(c, hi);
  }

  function TwoVolleys(c: Config, hi: real): seq<Event>
    requires c.Valid()
  {
    Volley(c.burst, 0.0) + ([Tick(hi)] + Volley(c.burst, hi))
  }

  lemma TwoVolleysGranted(c: Config, hi: real)
    requires c.Valid() && hi > CLEANUP
    ensures Ordered(TwoVolleys(c, hi), 0.0)
    ensures Granted(Calls(TwoVolleys(c, hi)), Run(c, map[], TwoVolleys(c, hi)), "client", 0.0, hi) == 2 * c.burst
  {
    var n, es, again := c.burst, TwoVolleys(c, hi), Volley(c.burst, hi);
    assert again + [] == again;
    VolleyOrdered(n, hi, [], hi);
    var rest := [Tick(hi)] + again;
    assert rest[1..] == again;
    VolleyOrdered(n, 0.0, rest, 0.0);

    VolleyGranted(c, map[], n, 0.0, rest);
    var spent: Visitors := map["client" := Visitor(0.0, 0.0)];
    var first: Visitors := map[];
    assert first["client" := Visitor(0.0, 0.0)] == spent;
    var answers := Run(c, map[], es);
    assert answers[n..] == Run(c, spent, rest) == Run(c, Sweep(spent, hi), again);
    assert Sweep(spent, hi) == map[];
    VolleyGranted(c, map[], n, hi, []);
    assert forall i | n <= i < 2 * n :: answers[i] == answers[n..][i - n];
    VolleyCalls(n, 0.0);
    VolleyCalls(n, hi);
    assert Calls(es) == Volley(n, 0.0) + again;
    AllGranted(Calls(es), answers, 0.0, hi);
  }

  lemma {:induction false} VolleyCalls(n: nat, at: real)
    ensures |Volley(n, at)| == n && Calls(Volley(n, at)) == Volley(n, at)
    ensures forall i | 0 <= i < n :: Volley(n, at)[i] == Call("client", at)
  {
    if n != 0 {
      VolleyCalls(n - 1, at);
      assert Volley(n, at)[1..] == Volley(n - 1, at);
    }
  }

  /** Cleanup is unobservable if and only if a minute of refill fills the largest bucket. */
  lemma CleanupUnobservableIff(c: Config)
    requires c.Valid()
    ensures CleanupUnobservable(c) <==> 60 * c.rate >= c.burst
  {
    if 60 * c.rate >= c.burst {
      forall es: seq<Event>, from: real | Ordered(es, from)
        ensures Run(c, map[], es) == Run(c, map[], Calls(es))
      {
        AlikeRunsAgree(c, map[], map[], es, from);
      }
    } else {
      var es, hi := SweepDoublesTheBurst(c);
      CallsOrdered(es, 0.0);
      WindowBound(c, map[], Calls(es), "client", 0.0, 0.0, hi);
      assert Run(c, map[], es) != Run(c, map[], Calls(es));
    }
  }

  lemma {:induction false} CallsOrdered(es: seq<Event>, from: real)
    requires Ordered(es, from)
    ensures Ordered(Calls(es), from) && OnlyCalls(Calls(es))
  {
    if es != [] {
      CallsOrdered(es[1..], es[0].at);
      if es[0].Call? {
        assert Calls(es)[1..] == Calls(es[1..]);
      } else if Calls(es[1..]) != [] {
        assert Calls(es) == Calls(es[1..]);
      }
    }
  }

  /** With cleanup running, the window bound holds if and only if the same condition does. */
  lemma WindowBoundedIff(c: Config)
    requires c.Valid()
    ensures WindowBounded(c) <==> 60 * c.rate >= c.burst
  {
    if 60 * c.rate >= c.burst {
      forall es: seq<Event>, from: real, key, lo: real, hi: real | Ordered(es, from) && lo <= hi
        ensures Granted(Calls(es), Run(c, map[], es), key, lo, hi) as real
             <= c.burst as real + Gain(c, lo, hi)
      {
        AlikeRunsAgree(c, map[], map[], es, from);
        CallsOrdered(es, from);
        WindowBound(c, map[], Calls(es), key, from, lo, hi);
      }
    } else {
      var es, hi := SweepDoublesTheBurst(c);
      assert Granted(Calls(es), Run(c, map[], es), "client", 0.0, hi) as real
           > c.burst as real + Gain(c, 0.0, hi);
    }
  }

  // ---- A client that keeps to the rate -----------------------------------------------------------

  /** Consecutive calls of `key`, the first one after `last`, are at least 1/rate apart. */
  predicate Spaced(c: Config, es: seq<Event>, key: string, last: real) {
    es == [] ||
    if es[0].Call? && es[0].key == key then
      1.0 <= Gain(c, last, es[0].at) && Spaced(c, es[1..], key, es[0].at)
    else Spaced(c, es[1..], key, last)
  }

  /** A client whose calls are at least 1/rate apart is never refused, cleanup or not. */
  lemma {:induction false} PacedClientNeverRefused(c: Config, vs: Visitors, es: seq<Event>, key: string, from: real,
                                                   last: real)
    requires c.Valid() && Sound(c, vs, from) && Ordered(es, from) && Spaced(c, es, key, last)
    requires key in vs ==> vs[key].lastUpdate <= last
    ensures |Run(c, vs, es)| == |Calls(es)|
    ensures forall i | 0 <= i < |Calls(es)| && Calls(es)[i].Call? && Calls(es)[i].key == key :: Run(c, vs, es)[i]
    decreases |es|
  {
    if es != [] {
      match es[0]
      case Call(k, at) =>
        var (next, ok) := Admit(c, vs, k, at);
        AdmitKeepsSound(c, vs, k, at, from);
        if k == key {
          if key in vs {
            GainLaws(c, vs[key].lastUpdate, last, at);
          }
          assert ok;
          PacedClientNeverRefused(c, next, es[1..], key, at, at);
        } else {
          PacedClientNeverRefused(c, next, es[1..], key, at, last);
        }
        assert Run(c, vs, es) == [ok] + Run(c, next, es[1..]);
        assert Calls(es) == [es[0]] + Calls(es[1..]);
      case Tick(at) =>
        PacedClientNeverRefused(c, Sweep(vs, at), es[1..], key, at, last);
        assert Calls(es) == Calls(es[1..]);
    }
  }

  // ---- One call and one tick, written out -----------------------------------------------------------

  /** A new key is let in and has used one token of a full bucket; another one is topped up by the rate
      to at most the burst, is let in with a whole token, and then pays it. */
  lemma AdmitOf(c: Config, vs: Visitors, key: string, now: real)
    ensures var (after, allowed) := Admit(c, vs, key, now);
            && key in after && after[key].lastUpdate == now
            && (forall other <- vs | other != key :: other in after && after[other] == vs[other])
            && after.Keys == vs.Keys + {key}
            && if key !in vs then allowed && after[key].tokens == c.burst as real - 1.0
               else
                 var grown := vs[key].tokens + (now - vs[key].lastUpdate) * c.rate as real;
                 var balance := if grown > c.burst as real then c.burst as real else grown;
                 allowed == (balance >= 1.0) && after[key].tokens == if allowed then balance - 1.0 else balance
  {
    if key in vs {
      assert Gain(c, vs[key].lastUpdate, now) == (now - vs[key].lastUpdate) * c.rate as real;
      assert Refilled(c, vs[key], now) == Min(c.burst as real, vs[key].tokens + Gain(c, vs[key].lastUpdate, now));
    }
  }

  /** A tick forgets the keys that have not called for more than a minute, and no others. */
  lemma SweepOf(vs: Visitors, now: real)
    ensures forall key :: key in Sweep(vs, now) <==> key in vs && now - vs[key].lastUpdate <= 60.0
    ensures forall key <- Sweep(vs, now) :: Sweep(vs, now)[key] == vs[key]
  {
  }
}

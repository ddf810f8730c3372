/** The fixed-window rate limiter (internal/transport/http/middleware/ratelimit.go). Time is in
    nanoseconds since the epoch. */
module RateLimit {
  import opened Common
  import opened Cache
  import Decimal

  const SECOND := 1_000_000_000

  datatype Request = Request(user: string, address: string, now: nat)

  /** Anonymous requests are counted by remote address. */
  function Caller(q: Request): string { if q.user == "" then q.address else q.user }

  function Window(now: nat): nat { now / SECOND }

  const LIMITER := "neo:rl:"

  function CounterKey(caller: string, window: nat): string { LIMITER + caller + ":" + Decimal.Text(window) }

  function KeyOf(q: Request): string { CounterKey(Caller(q), Window(q.now)) }

  type Counters = Items<string>

  function Step(items: Counters, q: Request): Counters { AfterIncrement(items, KeyOf(q), 2 * SECOND, q.now) }

  predicate Admits(items: Counters, q: Request, burst: int) { Counted(items, KeyOf(q), 2 * SECOND, q.now).counter <= burst }

  class Limiter {
    const cache: MemoryCache<string>
    const burst: int

    constructor (cache: MemoryCache<string>, burst: int)
      ensures this.cache == cache && this.burst == burst
    {
      this.cache := cache;
      this.burst := burst;
    }

    /** Whether the request is passed on; otherwise it is answered 429. */
    method Handle(q: Request) returns (passed: bool)
      modifies cache
      ensures cache.items == Step(old(cache.items), q) && passed == Admits(old(cache.items), q, burst)
    {
      var key := q.user;
      if key == "" { key := q.address; }
      var window := q.now / SECOND;
      var count := cache.Increment(CounterKey(key, window), 2 * SECOND, q.now);
      passed := !(count > burst);
    }
  }

  // ---------------------------------------------------------------- keys

  lemma TextHasNoColon(n: nat)
    ensures ':' !in Decimal.Text(n)
  {
    var t := Decimal.Text(n);
    assert forall i :: 0 <= i < |t| ==> Decimal.IsDigit(t[i]);
  }

  /** Callers may contain colons, as an address with a port does: the window is what follows the last one. */
  lemma SplitAtLastColon(a: string, s: string, b: string, t: string)
    requires ':' !in s && ':' !in t
    ensures a + ":" + s == b + ":" + t ==> a == b && s == t
  {
    var x, y := a + ":" + s, b + ":" + t;
    assert x[|a|] == ':' && forall i :: |a| < i < |x| ==> x[i] == s[i - |a| - 1];
    assert y[|b|] == ':' && forall i :: |b| < i < |y| ==> y[i] == t[i - |b| - 1];
    if x == y {
      assert |a| == |b|;
      assert x[..|a|] == a && y[..|b|] == b && x[|a| + 1..] == s && y[|b| + 1..] == t;
    }
  }

  lemma CounterKeyInjective(k: string, w: nat, l: string, v: nat)
    ensures CounterKey(k, w) == CounterKey(l, v) ==> k == l && w == v
  {
    TextHasNoColon(w);
    TextHasNoColon(v);
    SplitAtLastColon(LIMITER + k, Decimal.Text(w), LIMITER + l, Decimal.Text(v));
    assert (LIMITER + k)[|LIMITER|..] == k && (LIMITER + l)[|LIMITER|..] == l;
  }

  // ---------------------------------------------------------------- one window

  predicate InWindow(q: Request, caller: string, window: nat) { Caller(q) == caller && q.now / 1_000_000_000 == window }

  function Arrivals(qs: seq<Request>, caller: string, window: nat): nat {
    if qs == [] then 0 else (if InWindow(qs[0], caller, window) then 1 else 0) + Arrivals(qs[1..], caller, window)
  }

  /** The requests of a caller and window that are passed on. */
  function Admitted(items: Counters, qs: seq<Request>, burst: int, caller: string, window: nat): nat
    decreases |qs|
  {
    if qs == [] then 0
    else
      (if InWindow(qs[0], caller, window) && Admits(items, qs[0], burst) then 1 else 0)
      + Admitted(Step(items, qs[0]), qs[1..], burst, caller, window)
  }

  /** The window's counter stands at `seen` and outlives the window. */
  predicate Counts(items: Counters, caller: string, window: nat, seen: nat) {
    StandsAt(items, CounterKey(caller, window), (window + 2) * SECOND, seen)
  }

  predicate StandsAt(items: Counters, key: string, until: int, seen: nat) {
    if seen == 0 then key !in items
    else key in items && items[key].counter == seen && items[key].expires.Some? && items[key].expires.value >= until
  }

  lemma CountsStep(items: Counters, q: Request, burst: int, caller: string, window: nat, seen: nat)
    requires Counts(items, caller, window, seen)
    ensures Counts(Step(items, q), caller, window, seen + if InWindow(q, caller, window) then 1 else 0)
    ensures InWindow(q, caller, window) ==> (Admits(items, q, burst) <==> seen < burst)
  {
    CounterKeyInjective(Caller(q), Window(q.now), caller, window);
    assert Window(q.now) * SECOND <= q.now < (Window(q.now) + 1) * SECOND;
  }

  /** From a counter at `seen`, the window admits what is left of the burst and no more. */
  lemma {:induction false} AdmittedFrom(items: Counters, qs: seq<Request>, burst: int, caller: string, window: nat, seen: nat)
    requires Counts(items, caller, window, seen)
    ensures Admitted(items, qs, burst, caller, window)
            == Min(Arrivals(qs, caller, window), Max(burst - seen, 0))
    decreases |qs|
  {
    if qs != [] {
      var next := Step(items, qs[0]);
      CountsStep(items, qs[0], burst, caller, window, seen);
      if InWindow(qs[0], caller, window) {
        AdmittedFrom(next, qs[1..], burst, caller, window, seen + 1);
      } else {
        AdmittedFrom(next, qs[1..], burst, caller, window, seen);
      }
    }
  }

  /** Of n requests of one caller in one clock second exactly min(n, burst) are passed on, whatever
      other callers do and in whatever order the requests arrive. */
  lemma WindowExact(items: Counters, qs: seq<Request>, burst: int, caller: string, window: nat)
    requires CounterKey(caller, window) !in items
    ensures Admitted(items, qs, burst, caller, window) == Min(Arrivals(qs, caller, window), Max(burst, 0))
  {
    AdmittedFrom(items, qs, burst, caller, window, 0);
  }

  // ---------------------------------------------------------------- any second

  predicate Within(q: Request, caller: string, start: nat) { Caller(q) == caller && start <= q.now < start + 1_000_000_000 }

  /** The requests of a caller passed on in the second that begins at `start`. */
  function AdmittedIn(items: Counters, qs: seq<Request>, burst: int, caller: string, start: nat): nat
    decreases |qs|
  {
    if qs == [] then 0
    else
      (if Within(qs[0], caller, start) && Admits(items, qs[0], burst) then 1 else 0)
      + AdmittedIn(Step(items, qs[0]), qs[1..], burst, caller, start)
  }

  lemma SecondMeetsTwoWindows(now: nat, start: nat)
    requires start <= now < start + SECOND
    ensures Window(now) == Window(start) || Window(now) == Window(start) + 1
  {
  }

  lemma {:induction false} SecondInTwoWindows(items: Counters, qs: seq<Request>, burst: int, caller: string, start: nat)
    ensures AdmittedIn(items, qs, burst, caller, start)
            <= Admitted(items, qs, burst, caller, Window(start)) + Admitted(items, qs, burst, caller, Window(start) + 1)
    decreases |qs|
  {
    if qs != [] {
      if Within(qs[0], caller, start) { SecondMeetsTwoWindows(qs[0].now, start); }
      SecondInTwoWindows(Step(items, qs[0]), qs[1..], burst, caller, start);
    }
  }

  /** No second, wherever it begins, passes on more than two bursts of one caller. */
  lemma AnySecond(items: Counters, qs: seq<Request>, burst: int, caller: string, start: nat)
    requires CounterKey(caller, Window(start)) !in items && CounterKey(caller, Window(start) + 1) !in items
    ensures AdmittedIn(items, qs, burst, caller, start) <= 2 * Max(burst, 0)
  {
    SecondInTwoWindows(items, qs, burst, caller, start);
    WindowExact(items, qs, burst, caller, Window(start));
    WindowExact(items, qs, burst, caller, Window(start) + 1);
  }

  // ---------------------------------------------------------------- the bound is reached

  function Volley(caller: string, now: nat, n: nat): seq<Request> { seq(n, _ => Request(caller, "", now)) }

  lemma {:induction false} VolleyArrivals(caller: string, now: nat, n: nat, rest: seq<Request>, window: nat)
    requires caller != ""
    ensures Arrivals(Volley(caller, now, n) + rest, caller, window)
            == (if Window(now) == window then n else 0) + Arrivals(rest, caller, window)
  {
    if n == 0 {
      assert Volley(caller, now, 0) + rest == rest;
    } else {
      assert (Volley(caller, now, n) + rest)[1..] == Volley(caller, now, n - 1) + rest;
      VolleyArrivals(caller, now, n - 1, rest, window);
    }
  }

  /** When every request falls in the second, nothing escapes the two windows. */
  lemma {:induction false} SecondIsTwoWindows(items: Counters, qs: seq<Request>, burst: int, caller: string, start: nat)
    requires forall q :: q in qs ==> Within(q, caller, start)
    ensures AdmittedIn(items, qs, burst, caller, start)
            == Admitted(items, qs, burst, caller, Window(start)) + Admitted(items, qs, burst, caller, Window(start) + 1)
    decreases |qs|
  {
    if qs != [] {
      assert qs[0] in qs;
      SecondMeetsTwoWindows(qs[0].now, start);
      SecondIsTwoWindows(Step(items, qs[0]), qs[1..], burst, caller, start);
    }
  }

  lemma VolleysArrive(burst: nat, caller: string, window: nat, last: nat, w: nat)
    requires caller != "" && last == (window + 1) * SECOND - 1
    ensures Arrivals(Volley(caller, last, burst) + Volley(caller, last + 1, burst), caller, w)
            == (if w == window then burst else 0) + if w == window + 1 then burst else 0
  {
    var second := Volley(caller, last + 1, burst);
    assert Window(last) == window && Window(last + 1) == window + 1;
    assert second + [] == second;
    VolleyArrivals(caller, last, burst, second, w);
    VolleyArrivals(caller, last + 1, burst, [], w);
  }

  /** A burst in the last nanosecond of a window and another in the first of the next all pass. */
  lemma TwoBurstsPass(burst: nat, caller: string, window: nat)
    requires caller != ""
    ensures var last := (window + 1) * SECOND - 1;
            AdmittedIn(map[], Volley(caller, last, burst) + Volley(caller, last + 1, burst), burst, caller, last) == 2 * burst
  {
    var last := (window + 1) * SECOND - 1;
    var qs := Volley(caller, last, burst) + Volley(caller, last + 1, burst);
    VolleysArrive(burst, caller, window, last, window);
    VolleysArrive(burst, caller, window, last, window + 1);
    WindowExact(map[], qs, burst, caller, window);
    WindowExact(map[], qs, burst, caller, window + 1);
    SecondIsTwoWindows(map[], qs, burst, caller, last);
  }
}

/** The request limiter of internal/api/public.go: counters in fixed windows, kept
    in one map under printed keys. */
module RateLimiter {
  import opened Basics
  import opened Decimals

  const WINDOW_SECONDS: nat := 30
  const MAX_REQUESTS_PER_WINDOW: nat := 6

  /** A request: the address and the clock when its key was formed, in seconds of
      Unix time. Requests may take the lock in another order than they read the clock. */
  datatype Call = Call(ip: string, at: int)

  /** Integer division that truncates toward zero. */
  function Bucket(at: int): int {
    if at >= 0 then at / WINDOW_SECONDS else -(-at / WINDOW_SECONDS)
  }

  function Key(ip: string, bucket: int): string {
    ip + ":" + Decimal(bucket)
  }

  // -------------------------------------------------- keys do not collide

  predicate ColonFree(s: string) {
    forall k :: 0 <= k < |s| ==> s[k] != ':'
  }

  lemma DecimalIsColonFree(n: int)
    ensures ColonFree(Decimal(n))
  {
    DecimalShape(if n < 0 then -n else n);
  }

  lemma NoColonAfter(a: string, b: string, c: string, d: string)
    requires a + ":" + b == c + ":" + d && ColonFree(b)
    ensures |c| <= |a|
  {
    var whole := a + ":" + b;
    assert forall i :: |a| < i < |whole| ==> whole[i] == b[i - |a| - 1];
    assert whole[|c|] == ':';
  }

  /** The text after the last colon, and the text before it, are determined. */
  lemma LastColonSplits(a: string, b: string, c: string, d: string)
    requires a + ":" + b == c + ":" + d && ColonFree(b) && ColonFree(d)
    ensures a == c && b == d
  {
    var whole := a + ":" + b;
    NoColonAfter(a, b, c, d);
    NoColonAfter(c, d, a, b);
    assert a == whole[..|a|] && c == whole[..|c|];
    assert b == whole[|a| + 1..] && d == whole[|c| + 1..];
  }

  /** Keys of distinct pairs differ, also for addresses that contain colons. */
  lemma KeyIsInjective(ip: string, bucket: int, ip': string, bucket': int)
    requires Key(ip, bucket) == Key(ip', bucket')
    ensures ip == ip' && bucket == bucket'
  {
    DecimalIsColonFree(bucket);
    DecimalIsColonFree(bucket');
    LastColonSplits(ip, Decimal(bucket), ip', Decimal(bucket'));
    DecimalIsInjective(bucket, bucket');
  }

  // ------------------------------------------------------------- the code

  function Bumped(counters: map<string, nat>, key: string): map<string, nat> {
    counters[key := if key in counters then counters[key] + 1 else 1]
  }

  predicate Same(call: Call, ip: string, bucket: int) {
    call.ip == ip && Bucket(call.at) == bucket
  }

  /** The calls from an address in a window. */
  function CallsOf(calls: seq<Call>, ip: string, bucket: int): nat {
    if calls == [] then 0
    else CallsOf(calls[..|calls| - 1], ip, bucket) + if Same(calls[|calls| - 1], ip, bucket) then 1 else 0
  }

  /** The counters hold the number of calls of every address and window. */
  ghost predicate CountsCalls(counters: map<string, nat>, calls: seq<Call>) {
    forall ip, bucket ::
      CallsOf(calls, ip, bucket) == if Key(ip, bucket) in counters then counters[Key(ip, bucket)] else 0
  }

  class RateLimiter {
    var counters: map<string, nat>
    ghost var calls: seq<Call>

    ghost predicate Valid()
      reads this
    {
      CountsCalls(counters, calls)
    }

    constructor ()
      ensures Valid() && calls == []
    {
      counters := map[];
      calls := [];
    }

    /** Limits a call when the calls so far from its address in its window, this one
        included, exceed the maximum. Nothing else is taken into account. */
    method IsRateLimited(ip: string, now: int) returns (limited: bool)
      requires Valid()
      modifies this
      ensures Valid()
      ensures calls == old(calls) + [Call(ip, now)]
      ensures limited <==> Limited(calls)
    {
      var bucket := Bucket(now);
      var key := Key(ip, bucket);
      CountsOneMore(counters, calls, Call(ip, now));
      counters := counters[key := if key in counters then counters[key] + 1 else 1];
      calls := calls + [Call(ip, now)];
      assert CallsOf(calls, ip, bucket) == counters[key];
      limited := counters[key] > MAX_REQUESTS_PER_WINDOW;
    }
  }

  lemma CountsOneMore(counters: map<string, nat>, calls: seq<Call>, call: Call)
    requires CountsCalls(counters, calls)
    ensures CountsCalls(Bumped(counters, Key(call.ip, Bucket(call.at))), calls + [call])
  {
    var next := Bumped(counters, Key(call.ip, Bucket(call.at)));
    forall ip, bucket
      ensures CallsOf(calls + [call], ip, bucket) == if Key(ip, bucket) in next then next[Key(ip, bucket)] else 0 {
      assert (calls + [call])[..|calls|] == calls;
      if Key(ip, bucket) == Key(call.ip, Bucket(call.at)) {
        KeyIsInjective(ip, bucket, call.ip, Bucket(call.at));
      }
    }
  }

  /** The verdict on the last of the calls. */
  predicate Limited(calls: seq<Call>)
    requires calls != []
  {
    var last := calls[|calls| - 1];
    CallsOf(calls, last.ip, Bucket(last.at)) > MAX_REQUESTS_PER_WINDOW
  }

  // ----------------------------------------------------- whole sequences

  /** The calls of an address and window that were let through. */
  function AdmittedIn(calls: seq<Call>, ip: string, bucket: int): nat {
    if calls == [] then 0
    else
      AdmittedIn(calls[..|calls| - 1], ip, bucket)
      + if Same(calls[|calls| - 1], ip, bucket) && !Limited(calls) then 1 else 0
  }

  /** The calls of an address that were let through with the clock between two instants. */
  function AdmittedBetween(calls: seq<Call>, ip: string, from: int, to: int): nat {
    if calls == [] then 0
    else
      var last := calls[|calls| - 1];
      AdmittedBetween(calls[..|calls| - 1], ip, from, to)
      + if last.ip == ip && from <= last.at <= to && !Limited(calls) then 1 else 0
  }

  /** Exactly the first six calls of a window are let through. */
  lemma {:induction false} AdmittedPerWindow(calls: seq<Call>, ip: string, bucket: int)
    ensures AdmittedIn(calls, ip, bucket) == Min(MAX_REQUESTS_PER_WINDOW, CallsOf(calls, ip, bucket))
  {
    if calls != [] {
      AdmittedPerWindow(calls[..|calls| - 1], ip, bucket);
    }
  }

  // ----------------------------------------------------- spans of time

  lemma BucketIsMonotone(a: int, b: int)
    requires a <= b
    ensures Bucket(a) <= Bucket(b)
  {
  }

  /** The calls of an address let through in `n` consecutive windows. */
  function AdmittedInWindows(calls: seq<Call>, ip: string, first: int, n: nat): nat {
    if n == 0 then 0 else AdmittedInWindows(calls, ip, first, n - 1) + AdmittedIn(calls, ip, first + n - 1)
  }

  lemma {:induction false} OneMoreCall(calls: seq<Call>, last: Call, ip: string, first: int, n: nat)
    requires calls != [] && last == calls[|calls| - 1]
    ensures AdmittedInWindows(calls, ip, first, n)
         == AdmittedInWindows(calls[..|calls| - 1], ip, first, n)
            + if last.ip == ip && first <= Bucket(last.at) < first + n && !Limited(calls) then 1 else 0
  {
    if n > 0 {
      OneMoreCall(calls, last, ip, first, n - 1);
    }
  }

  lemma {:induction false} NoCallsInWindows(ip: string, first: int, n: nat)
    ensures AdmittedInWindows([], ip, first, n) == 0
  {
    if n > 0 {
      NoCallsInWindows(ip, first, n - 1);
    }
  }

  lemma {:induction false} AdmittedInSpan(calls: seq<Call>, ip: string, from: int, to: int, n: nat)
    requires Bucket(to) - Bucket(from) < n
    ensures AdmittedBetween(calls, ip, from, to) <= AdmittedInWindows(calls, ip, Bucket(from), n)
  {
    if calls == [] {
      NoCallsInWindows(ip, Bucket(from), n);
    } else {
      var last := calls[|calls| - 1];
      AdmittedInSpan(calls[..|calls| - 1], ip, from, to, n);
      OneMoreCall(calls, last, ip, Bucket(from), n);
      if from <= last.at <= to {
        BucketIsMonotone(from, last.at);
        BucketIsMonotone(last.at, to);
      }
    }
  }

  lemma {:induction false} WindowsBound(calls: seq<Call>, ip: string, first: int, n: nat)
    ensures AdmittedInWindows(calls, ip, first, n) <= MAX_REQUESTS_PER_WINDOW * n
  {
    if n > 0 {
      WindowsBound(calls, ip, first, n - 1);
      AdmittedPerWindow(calls, ip, first + n - 1);
    }
  }

  /** The number of windows that a span meets. */
  function Windows(from: int, to: int): nat
    requires from <= to
  {
    BucketIsMonotone(from, to);
    Bucket(to) - Bucket(from) + 1
  }

  /** A span lets through at most the maximum for each window it meets. */
  lemma SpanBound(calls: seq<Call>, ip: string, from: int, to: int)
    requires from <= to
    ensures AdmittedBetween(calls, ip, from, to) <= MAX_REQUESTS_PER_WINDOW * Windows(from, to)
  {
    AdmittedInSpan(calls, ip, from, to, Windows(from, to));
    WindowsBound(calls, ip, Bucket(from), Windows(from, to));
  }

  // ------------------------------------------------------- the bound is met

  function Burst(ip: string, at: int, n: nat): seq<Call> {
    seq(n, k => Call(ip, at))
  }

  lemma CallsOfSnoc(calls: seq<Call>, call: Call, ip: string, bucket: int)
    ensures CallsOf(calls + [call], ip, bucket) == CallsOf(calls, ip, bucket) + if Same(call, ip, bucket) then 1 else 0
  {
    assert (calls + [call])[..|calls|] == calls;
  }

  lemma AdmittedSnoc(calls: seq<Call>, call: Call, ip: string, from: int, to: int)
    ensures AdmittedBetween(calls + [call], ip, from, to)
         == AdmittedBetween(calls, ip, from, to)
            + if call.ip == ip && from <= call.at <= to && !Limited(calls + [call]) then 1 else 0
  {
    assert (calls + [call])[..|calls|] == calls;
  }

  lemma BurstSnoc(calls: seq<Call>, ip: string, at: int, n: nat)
    requires n > 0
    ensures calls + Burst(ip, at, n) == (calls + Burst(ip, at, n - 1)) + [Call(ip, at)]
  {
    assert Burst(ip, at, n) == Burst(ip, at, n - 1) + [Call(ip, at)];
  }

  lemma {:induction false} BurstCounts(calls: seq<Call>, ip: string, at: int, n: nat, bucket: int)
    ensures CallsOf(calls + Burst(ip, at, n), ip, bucket)
         == CallsOf(calls, ip, bucket) + if bucket == Bucket(at) then n else 0
  {
    if n == 0 {
      assert calls + Burst(ip, at, n) == calls;
    } else {
      BurstCounts(calls, ip, at, n - 1, bucket);
      BurstSnoc(calls, ip, at, n);
      CallsOfSnoc(calls + Burst(ip, at, n - 1), Call(ip, at), ip, bucket);
    }
  }

  /** A burst of at most the maximum in a window not used before is let through. */
  lemma {:induction false} BurstIsAdmitted(calls: seq<Call>, ip: string, at: int, n: nat, from: int, to: int)
    requires CallsOf(calls, ip, Bucket(at)) == 0 && n <= MAX_REQUESTS_PER_WINDOW && from <= at <= to
    ensures AdmittedBetween(calls + Burst(ip, at, n), ip, from, to) == AdmittedBetween(calls, ip, from, to) + n
  {
    if n == 0 {
      assert calls + Burst(ip, at, n) == calls;
    } else {
      BurstIsAdmitted(calls, ip, at, n - 1, from, to);
      BurstCounts(calls, ip, at, n, Bucket(at));
      BurstSnoc(calls, ip, at, n);
      AdmittedSnoc(calls + Burst(ip, at, n - 1), Call(ip, at), ip, from, to);
    }
  }

  /** The first instant of a window; the window of 0 is the longer one, since the
      division truncates. */
  function FirstOf(bucket: int): int {
    if bucket > 0 then bucket * WINDOW_SECONDS else bucket * WINDOW_SECONDS - (WINDOW_SECONDS - 1)
  }

  lemma WindowBegins(bucket: int, at: int)
    ensures Bucket(FirstOf(bucket)) == bucket
    ensures at >= FirstOf(bucket) <==> Bucket(at) >= bucket
  {
  }

  /** A burst at `from`, and one at the beginning of each of the next n windows. */
  function Bursts(ip: string, from: int, n: nat): seq<Call> {
    if n == 0 then [] + Burst(ip, from, MAX_REQUESTS_PER_WINDOW)
    else Bursts(ip, from, n - 1) + Burst(ip, FirstOf(Bucket(from) + n), MAX_REQUESTS_PER_WINDOW)
  }

  lemma {:induction false} LaterWindowsAreUnused(ip: string, from: int, n: nat, bucket: int)
    requires bucket > Bucket(from) + n
    ensures CallsOf(Bursts(ip, from, n), ip, bucket) == 0
  {
    if n == 0 {
      BurstCounts([], ip, from, MAX_REQUESTS_PER_WINDOW, bucket);
    } else {
      var at := FirstOf(Bucket(from) + n);
      LaterWindowsAreUnused(ip, from, n - 1, bucket);
      WindowBegins(Bucket(from) + n, at);
      BurstCounts(Bursts(ip, from, n - 1), ip, at, MAX_REQUESTS_PER_WINDOW, bucket);
    }
  }

  lemma {:induction false} BurstsAreAdmitted(ip: string, from: int, to: int, n: nat)
    requires from <= to && n < Windows(from, to)
    ensures AdmittedBetween(Bursts(ip, from, n), ip, from, to) == MAX_REQUESTS_PER_WINDOW * (n + 1)
  {
    if n == 0 {
      BurstIsAdmitted([], ip, from, MAX_REQUESTS_PER_WINDOW, from, to);
    } else {
      var bucket := Bucket(from) + n;
      BurstsAreAdmitted(ip, from, to, n - 1);
      LaterWindowsAreUnused(ip, from, n - 1, bucket);
      WindowBegins(bucket, from);
      WindowBegins(bucket, to);
      BurstIsAdmitted(Bursts(ip, from, n - 1), ip, FirstOf(bucket), MAX_REQUESTS_PER_WINDOW, from, to);
    }
  }

  /** No call sequence lets more than `limit` through in the span. */
  ghost predicate NeverMoreThan(limit: int, ip: string, from: int, to: int) {
    forall calls :: AdmittedBetween(calls, ip, from, to) <= limit
  }

  /** The most that a span lets through is exactly the maximum for each window it
      meets: a limit is kept by all call sequences if and only if it is that large. */
  lemma SpanBoundIsExact(ip: string, from: int, to: int, limit: int)
    requires from <= to
    ensures NeverMoreThan(limit, ip, from, to) <==> MAX_REQUESTS_PER_WINDOW * Windows(from, to) <= limit
  {
    forall calls ensures AdmittedBetween(calls, ip, from, to) <= MAX_REQUESTS_PER_WINDOW * Windows(from, to) {
      SpanBound(calls, ip, from, to);
    }
    var n := Windows(from, to) - 1;
    BurstsAreAdmitted(ip, from, to, n);
    assert NeverMoreThan(limit, ip, from, to) ==> AdmittedBetween(Bursts(ip, from, n), ip, from, to) <= limit;
  }

  /** A span keeps to the maximum of one window exactly when it lies within one. */
  lemma OneWindowExactly(ip: string, from: int, to: int)
    requires from <= to
    ensures NeverMoreThan(MAX_REQUESTS_PER_WINDOW, ip, from, to) <==> Bucket(from) == Bucket(to)
  {
    SpanBoundIsExact(ip, from, to, MAX_REQUESTS_PER_WINDOW);
    BucketIsMonotone(from, to);
  }

  /** The span of this length from `from` on never lets more than twice the maximum through. */
  ghost predicate TwiceSuffices(ip: string, length: nat, from: int) {
    NeverMoreThan(2 * MAX_REQUESTS_PER_WINDOW, ip, from, from + length)
  }

  lemma TwiceSufficesIff(ip: string, length: nat, from: int)
    ensures TwiceSuffices(ip, length, from) <==> Windows(from, from + length) <= 2
  {
    SpanBoundIsExact(ip, from, from + length, 2 * MAX_REQUESTS_PER_WINDOW);
  }

  /** Twice the maximum is a bound for all spans of a length, wherever they begin,
      exactly when the length is at most that of a window. */
  lemma SlidingWindowExactly(ip: string, length: nat)
    ensures (forall from :: TwiceSuffices(ip, length, from)) <==> length <= WINDOW_SECONDS
  {
    if length <= WINDOW_SECONDS {
      forall from ensures TwiceSuffices(ip, length, from) {
        ShortSpan(from, from + length);
        TwiceSufficesIff(ip, length, from);
      }
    } else {
      LongSpan(length);
      TwiceSufficesIff(ip, length, WINDOW_SECONDS - 1);
    }
  }

  lemma ShortSpan(from: int, to: int)
    requires from <= to <= from + WINDOW_SECONDS
    ensures Windows(from, to) <= 2
  {
  }

  lemma LongSpan(length: nat)
    requires length > WINDOW_SECONDS
    ensures Windows(WINDOW_SECONDS - 1, WINDOW_SECONDS - 1 + length) > 2
  {
    BucketIsMonotone(2 * WINDOW_SECONDS, WINDOW_SECONDS - 1 + length);
  }

  /** No span of thirty seconds lets more than twice the maximum through. */
  lemma SlidingWindowBound(calls: seq<Call>, ip: string, from: int, to: int)
    requires to <= from + WINDOW_SECONDS
    ensures AdmittedBetween(calls, ip, from, to) <= 2 * MAX_REQUESTS_PER_WINDOW
  {
    if from <= to {
      SpanBound(calls, ip, from, to);
      ShortSpan(from, to);
    } else {
      NothingBetween(calls, ip, from, to);
    }
  }

  lemma {:induction false} NothingBetween(calls: seq<Call>, ip: string, from: int, to: int)
    requires to < from
    ensures AdmittedBetween(calls, ip, from, to) == 0
  {
    if calls != [] {
      NothingBetween(calls[..|calls| - 1], ip, from, to);
    }
  }

  /** Twice the maximum within one second, and three times the maximum within
      thirty-one, do occur. */
  lemma SlidingWindowIsTight(ip: string)
    ensures exists calls :: AdmittedBetween(calls, ip, 29, 30) == 2 * MAX_REQUESTS_PER_WINDOW
    ensures exists calls :: AdmittedBetween(calls, ip, 29, 60) == 3 * MAX_REQUESTS_PER_WINDOW
  {
    BurstsAreAdmitted(ip, 29, 30, 1);
    BurstsAreAdmitted(ip, 29, 60, 2);
  }
}

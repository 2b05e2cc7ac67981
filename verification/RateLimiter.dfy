// Model of consumeD1ExternalApiRateLimit in apps/cloudflare-worker/src/d1-external-agent-discovery.ts:
// one stored window per scope key, moved by a single INSERT ... ON CONFLICT DO UPDATE.
module RateLimiter {
  import opened Wrappers

  const LATEST_INSTANT := 8_640_000_000_000_000
  const SAFE_INTEGER := 9_007_199_254_740_991

  datatype Head = Head(startedAt: int, window: int, count: int, version: nat)

  datatype Answer = Allowed(requestCount: int) | Limited(retryAfterSeconds: int) | InvalidInput | ConstraintFailed

  predicate ValidPolicy(window: int, limit: int) {
    1_000 <= window <= 86_400_000 && 1 <= limit <= 1_000_000
  }

  predicate ValidInput(key: string, now: int, window: int, limit: int) {
    0 <= now <= SAFE_INTEGER && ValidPolicy(window, limit) && 1 <= |key| <= 200
  }

  // Whether the upsert opens a new window rather than counting in the stored one.
  predicate Opens(head: Option<Head>, now: int, window: int) {
    head.None? || window != head.value.window || now >= head.value.startedAt + head.value.window
  }

  function Upserted(head: Option<Head>, now: int, window: int, limit: int): Head {
    if head.None? then Head(now, window, 1, 1)
    else if Opens(head, now, window) then Head(now, window, 1, head.value.version + 1)
    else
      Head(head.value.startedAt, window,
           if head.value.count < limit + 1 then head.value.count + 1 else limit + 1,
           head.value.version + 1)
  }

  // Math.ceil(ms / 1000), also for a negative argument.
  function CeilSeconds(ms: int): int {
    -((-ms) / 1000)
  }

  function RetryAfter(head: Head, now: int): int {
    var wait := CeilSeconds(head.startedAt + head.window - now);
    if wait > 1 then wait else 1
  }

  class ExternalApiRateLimitHeads {
    var rows: map<string, Head>

    constructor ()
      ensures rows == map[]
    {
      rows := map[];
    }

    function Find(key: string): Option<Head>
      reads this
    {
      if key in rows then Some(rows[key]) else None
    }

    // Invalid input and a failed constraint leave the table alone; every other request is counted,
    // in its own row only, whether or not it is allowed.
    method Consume(key: string, now: int, window: int, limit: int) returns (answer: Answer)
      modifies this
      ensures answer.InvalidInput? <==>
                !(0 <= now <= 9_007_199_254_740_991 && 1_000 <= window <= 86_400_000 && 1 <= limit <= 1_000_000
                  && 1 <= |key| <= 200)
      ensures answer.ConstraintFailed? <==> !answer.InvalidInput? && now > 8_640_000_000_000_000
      ensures answer.InvalidInput? || answer.ConstraintFailed? ==> rows == old(rows)
      ensures answer.Allowed? || answer.Limited? ==>
                && rows.Keys == old(rows.Keys) + {key}
                && (forall k :: k in old(rows) && k != key ==> rows[k] == old(rows[k]))
                && rows[key] == Upserted(old(Find(key)), now, window, limit)
                && (answer.Allowed? <==> rows[key].count <= limit)
                && (answer.Allowed? ==> answer.requestCount == rows[key].count)
                && (answer.Limited? ==> answer.retryAfterSeconds == RetryAfter(rows[key], now))
    {
      if !ValidInput(key, now, window, limit) {
        return InvalidInput;
      }
      if now > LATEST_INSTANT {
        return ConstraintFailed;
      }
      if key !in rows {
        rows := rows[key := Head(now, window, 1, 1)];
      } else {
        var head := rows[key];
        var opens := window != head.window || now >= head.startedAt + head.window;
        var startedAt := if opens then now else head.startedAt;
        var count := if opens then 1 else if head.count < limit + 1 then head.count + 1 else limit + 1;
        rows := rows[key := Head(startedAt, window, count, head.version + 1)];
      }
      if rows[key].count <= limit {
        return Allowed(rows[key].count);
      }
      var wait := CeilSeconds(rows[key].startedAt + window - now);
      return Limited(if wait > 1 then wait else 1);
    }
  }

  // ---- A whole run of requests on one key, with one window and one limit -------------------

  // The clock may step back, but never by more than `back` behind a time already seen.
  predicate StepsBackAtMost(times: seq<int>, back: nat) {
    forall i, j :: 0 <= i < j < |times| ==> times[j] >= times[i] - back
  }

  predicate Stored(head: Option<Head>) {
    head.Some? ==> head.value.count >= 1
  }

  predicate Admits(head: Option<Head>, now: int, window: int, limit: int) {
    Upserted(head, now, window, limit).count <= limit
  }

  // How many of the requests made in [from, until) are allowed.
  function AllowedWithin(head: Option<Head>, times: seq<int>, window: int, limit: int, from: int, until: int): nat
    decreases |times|
  {
    if times == [] then 0
    else
      var now := times[0];
      (if from <= now < until && Admits(head, now, window, limit) then 1 else 0)
      + AllowedWithin(Some(Upserted(head, now, window, limit)), times[1..], window, limit, from, until)
  }

  lemma {:induction false} NoneAllowedLater(
    head: Option<Head>, times: seq<int>, window: int, limit: int, from: int, until: int)
    requires forall i :: 0 <= i < |times| ==> times[i] >= until
    ensures AllowedWithin(head, times, window, limit, from, until) == 0
    decreases |times|
  {
    if times != [] {
      NoneAllowedLater(Some(Upserted(head, times[0], window, limit)), times[1..], window, limit, from, until);
    }
  }

  // How many whole windows fit in a span of time.
  function Fits(span: int, window: int): nat
    requires window >= 1
    decreases if span > 0 then span else 0
  {
    if span < window then 0 else 1 + Fits(span - window, window)
  }

  lemma {:induction false} FitsIsTheQuotient(span: int, window: int)
    requires window >= 1 && span >= 0
    ensures Fits(span, window) * window <= span < (Fits(span, window) + 1) * window
  {
    if span >= window {
      var rest := Fits(span - window, window);
      FitsIsTheQuotient(span - window, window);
      OneMore(rest, window);
      OneMore(rest + 1, window);
    }
  }

  lemma OneMore(n: int, window: int)
    ensures (n + 1) * window == n * window + window
  {
  }

  lemma {:induction false} FitsGrows(a: int, b: int, window: int)
    requires window >= 1 && a <= b
    ensures Fits(a, window) <= Fits(b, window)
    decreases if a > 0 then a else 0
  {
    if a >= window { FitsGrows(a - window, b - window, window); }
  }

  lemma Scaled(l: nat, a: nat, b: nat)
    requires a <= b
    ensures l * a <= l * b && l * (a + 1) == l * a + l
  {
  }

  function Left(head: Head, limit: int): nat {
    if head.count <= limit then limit - head.count else 0
  }

  // The most requests that an interval one window long can see.
  function MostAllowed(window: int, limit: int, back: nat): int
    requires ValidPolicy(window, limit)
  {
    1 + (limit - 1) * (2 + Fits(window - 2 + back, window))
  }

  lemma OneWindowFewerFits(l: nat, start: int, now: int, last: int, window: int)
    requires window >= 1 && start + window <= now <= last
    ensures l + l * Fits(last - now, window) <= l * Fits(last - start, window)
  {
    FitsGrows(last - now, last - start - window, window);
    Scaled(l, Fits(last - now, window) + 1, Fits(last - start, window));
    Scaled(l, Fits(last - now, window), Fits(last - now, window));
  }

  // One request: it uses up one of what is left of its window, or opens the next.
  lemma OneRequestServed(head: Head, now: int, window: int, limit: int)
    requires ValidPolicy(window, limit) && head.window == window && head.count >= 1
    ensures var next, served := Upserted(Some(head), now, window, limit),
                                if Admits(Some(head), now, window, limit) then 1 else 0;
            && next.window == window && next.count >= 1
            && if Opens(Some(head), now, window) then
                 next.startedAt == now >= head.startedAt + window && served + Left(next, limit) == limit
               else
                 next.startedAt == head.startedAt && served + Left(next, limit) == Left(head, limit)
  {
  }

  // After a window that opened in or behind the interval, each further one opens behind it and has
  // spent one request there.
  lemma {:induction false} LaterWindowsServe(
    head: Head, times: seq<int>, window: int, limit: int, from: int, back: nat)
    requires ValidPolicy(window, limit) && StepsBackAtMost(times, back)
    requires head.window == window && head.startedAt >= from && head.count >= 1
    requires forall i :: 0 <= i < |times| ==> times[i] >= head.startedAt - back
    ensures AllowedWithin(Some(head), times, window, limit, from, from + window) <=
              Left(head, limit) + (limit - 1) * Fits(from + window - 1 + back - head.startedAt, window)
    decreases |times|
  {
    hide Fits;
    if times != [] {
      var now, last := times[0], from + window - 1 + back;
      var next := Upserted(Some(head), now, window, limit);
      assert StepsBackAtMost(times[1..], back);
      OneRequestServed(head, now, window, limit);
      hide Upserted, Opens, Admits, Left, StepsBackAtMost;
      if !Opens(Some(head), now, window) {
        LaterWindowsServe(next, times[1..], window, limit, from, back);
      } else if now > last {
        NoneAllowedLater(Some(head), times, window, limit, from, from + window);
        Scaled(limit - 1, 0, Fits(last - head.startedAt, window));
      } else {
        LaterWindowsServe(next, times[1..], window, limit, from, back);
        OneWindowFewerFits(limit - 1, head.startedAt, now, last, window);
      }
    }
  }

  // A window carried into the interval leaves room for one that opens inside it.
  lemma {:induction false} CarriedWindowServes(
    head: Head, times: seq<int>, window: int, limit: int, from: int, back: nat)
    requires ValidPolicy(window, limit) && StepsBackAtMost(times, back)
    requires head.window == window && head.startedAt + window > from && head.count >= 1
    ensures AllowedWithin(Some(head), times, window, limit, from, from + window) <=
              Left(head, limit) + 1 + (limit - 1) * (1 + Fits(window - 2 + back, window))
    decreases |times|
  {
    var fits := Fits(window - 2 + back, window);
    Scaled(limit - 1, 0, 1 + fits);
    if times != [] {
      var now, last := times[0], from + window - 1 + back;
      var next := Upserted(Some(head), now, window, limit);
      assert StepsBackAtMost(times[1..], back);
      if !Opens(Some(head), now, window) {
        CarriedWindowServes(next, times[1..], window, limit, from, back);
      } else {
        LaterWindowsServe(next, times[1..], window, limit, from, back);
        FitsGrows(last - now, window - 2 + back, window);
        Scaled(limit - 1, Fits(last - now, window), fits);
        Scaled(limit - 1, fits, fits);
      }
    }
  }

  // Whatever the row held before: with a clock that steps back by at most `back`, an interval one
  // window long sees no more than this.
  lemma {:induction false} AnyWindowLengthIsBounded(
    head: Option<Head>, times: seq<int>, window: int, limit: int, from: int, back: nat)
    requires ValidPolicy(window, limit) && Stored(head) && StepsBackAtMost(times, back)
    ensures AllowedWithin(head, times, window, limit, from, from + window) <= MostAllowed(window, limit, back)
    decreases |times|
  {
    var fits := Fits(window - 2 + back, window);
    Scaled(limit - 1, 0, 2 + fits);
    Scaled(limit - 1, 1 + fits, 1 + fits);
    if times != [] {
      var now, last := times[0], from + window - 1 + back;
      var next := Upserted(head, now, window, limit);
      assert StepsBackAtMost(times[1..], back);
      if !(from <= now < from + window) && !(Opens(head, now, window) && now >= from) {
        AnyWindowLengthIsBounded(Some(next), times[1..], window, limit, from, back);
      } else if Opens(head, now, window) {
        LaterWindowsServe(next, times[1..], window, limit, from, back);
        FitsGrows(last - now - window, window - 2 + back, window);
        FitsGrows(last - now, last - now, window);
        assert Fits(last - now, window) <= 1 + fits;
        Scaled(limit - 1, Fits(last - now, window), 1 + fits);
        Scaled(limit - 1, fits, fits);
      } else {
        CarriedWindowServes(head.value, times, window, limit, from, back);
      }
    }
  }

  // With a clock that does not step back, fewer than two limits.
  lemma AnyWindowLengthAllowsFewerThanTwoLimits(
    head: Option<Head>, times: seq<int>, window: int, limit: int, from: int)
    requires ValidPolicy(window, limit) && Stored(head)
    requires forall i, j :: 0 <= i < j < |times| ==> times[i] <= times[j]
    ensures AllowedWithin(head, times, window, limit, from, from + window) <= 2 * limit - 1
  {
    AnyWindowLengthIsBounded(head, times, window, limit, from, 0);
  }

  // ---- The bound is reached ----------------------------------------------------------------

  function Burst(now: int, size: nat): (times: seq<int>)
    ensures |times| == size && forall i :: 0 <= i < size ==> times[i] == now
  {
    seq(size, _ => now)
  }

  lemma {:induction false} BurstIsAllowedUpToTheLimit(
    head: Head, now: int, size: nat, rest: seq<int>, window: int, limit: int, from: int, until: int)
    requires head.window == window && now < head.startedAt + window && 1 <= head.count && from <= now < until
    requires head.count + size <= limit
    ensures AllowedWithin(Some(head), Burst(now, size) + rest, window, limit, from, until) ==
              size + AllowedWithin(Some(head.(count := head.count + size, version := head.version + size)), rest, window,
                                   limit, from, until)
    decreases size
  {
    var times := Burst(now, size) + rest;
    if size == 0 {
      assert times == rest;
    } else {
      assert times[1..] == Burst(now, size - 1) + rest;
      BurstIsAllowedUpToTheLimit(Upserted(Some(head), now, window, limit), now, size - 1, rest, window, limit, from, until);
    }
  }

  // Each turn opens the next window at `start` and steps back to `at` to use up its limit.
  function Turns(start: int, at: int, n: nat, window: int, limit: int): seq<int>
    requires limit >= 1
    decreases n
  {
    if n == 0 then [] else [start] + (Burst(at, limit - 1) + Turns(start + window, at, n - 1, window, limit))
  }

  lemma {:induction false} TurnsAreAllowed(
    head: Head, start: int, at: int, n: nat, window: int, limit: int, from: int, until: int)
    requires ValidPolicy(window, limit) && from <= at < until <= start
    requires head.window == window && start >= head.startedAt + window
    ensures AllowedWithin(Some(head), Turns(start, at, n, window, limit), window, limit, from, until) == (limit - 1) * n
    decreases n
  {
    if n > 0 {
      hide Burst;
      var rest := Turns(start + window, at, n - 1, window, limit);
      var times := Turns(start, at, n, window, limit);
      var next := Upserted(Some(head), start, window, limit);
      assert times[0] == start && times[1..] == Burst(at, limit - 1) + rest;
      BurstIsAllowedUpToTheLimit(next, at, limit - 1, rest, window, limit, from, until);
      var full := next.(count := next.count + (limit - 1), version := next.version + (limit - 1));
      TurnsAreAllowed(full, start + window, at, n - 1, window, limit, from, until);
      Scaled(limit - 1, n - 1, n);
    }
  }

  lemma {:induction false} TurnsStayWithin(start: int, at: int, n: nat, window: int, limit: int, last: int)
    requires ValidPolicy(window, limit) && at <= start && n <= Fits(last + window - start, window)
    ensures forall i :: 0 <= i < |Turns(start, at, n, window, limit)| ==>
              at <= Turns(start, at, n, window, limit)[i] && (at <= last ==> Turns(start, at, n, window, limit)[i] <= last)
    decreases n
  {
    if n > 0 { TurnsStayWithin(start + window, at, n - 1, window, limit, last); }
  }

  // A window opens before the interval and spends the rest of its limit at the interval's start, a
  // whole limit follows in the next window, and then the clock steps back turn by turn.
  function WorstCase(window: int, limit: int, back: nat): seq<int>
    requires ValidPolicy(window, limit)
  {
    var turns := Turns(2 * window, 2 * window - 2, Fits(window - 2 + back, window), window, limit);
    [0] + (Burst(window - 1, limit - 1) + ([window] + (Burst(window, limit - 1) + turns)))
  }

  lemma WorstCaseStepsBack(window: int, limit: int, back: nat)
    requires ValidPolicy(window, limit)
    ensures StepsBackAtMost(WorstCase(window, limit, back), back)
  {
    var last := 2 * window - 2 + back;
    var turns := Turns(2 * window, 2 * window - 2, Fits(window - 2 + back, window), window, limit);
    TurnsStayWithin(2 * window, 2 * window - 2, Fits(window - 2 + back, window), window, limit, last);
    var times := WorstCase(window, limit, back);
    forall i | 0 <= i < |times|
      ensures i < 2 * limit ==> times[i] == (if i == 0 then 0 else if i < limit then window - 1 else window)
      ensures i >= 2 * limit ==> 2 * window - 2 <= times[i] <= last
    {
      if i >= 2 * limit { assert times[i] == turns[i - 2 * limit]; }
    }
  }

  lemma TheBoundIsReached(window: int, limit: int, back: nat)
    requires ValidPolicy(window, limit)
    ensures StepsBackAtMost(WorstCase(window, limit, back), back)
    ensures AllowedWithin(None, WorstCase(window, limit, back), window, limit, window - 1, window - 1 + window) ==
            MostAllowed(window, limit, back)
  {
    WorstCaseStepsBack(window, limit, back);
    hide Burst, StepsBackAtMost;
    var from, until, fits := window - 1, window - 1 + window, Fits(window - 2 + back, window);
    var turns := Turns(2 * window, 2 * window - 2, fits, window, limit);
    var last := Burst(window, limit - 1) + turns;
    var tail := [window] + last;
    var first := Head(0, window, 1, 1);
    BurstIsAllowedUpToTheLimit(first, window - 1, limit - 1, tail, window, limit, from, until);
    var second := Head(window, window, 1, limit + 1);
    BurstIsAllowedUpToTheLimit(second, window, limit - 1, turns, window, limit, from, until);
    TurnsAreAllowed(Head(window, window, limit, limit + limit), 2 * window, 2 * window - 2, fits, window, limit, from, until);
    assert AllowedWithin(Some(second), last, window, limit, from, until) == limit - 1 + (limit - 1) * fits;
    assert tail[0] == window && tail[1..] == last;
    assert AllowedWithin(Some(Head(0, window, limit, limit)), tail, window, limit, from, until)
           == limit + (limit - 1) * fits;
    var times := WorstCase(window, limit, back);
    assert times[0] == 0 && times[1..] == Burst(window - 1, limit - 1) + tail;
    Scaled(limit - 1, fits, fits);
    Scaled(limit - 1, fits + 1, fits + 1);
  }

  // ---- Exactly when fewer than two limits are allowed ----------------------------------------

  ghost predicate FewerThanTwoLimits(head: Option<Head>, times: seq<int>, window: int, limit: int, from: int) {
    AllowedWithin(head, times, window, limit, from, from + window) <= 2 * limit - 1
  }

  // For clocks that step back by at most `back`: a limit of one, or a millisecond.
  lemma FewerThanTwoLimitsExactlyWhen(window: int, limit: int, back: nat)
    requires ValidPolicy(window, limit)
    ensures (forall head, times, from :: Stored(head) && StepsBackAtMost(times, back) ==>
               FewerThanTwoLimits(head, times, window, limit, from)) <==> limit == 1 || back <= 1
  {
    var fits := Fits(window - 2 + back, window);
    if limit == 1 || back <= 1 {
      forall head, times, from | Stored(head) && StepsBackAtMost(times, back)
        ensures FewerThanTwoLimits(head, times, window, limit, from)
      {
        AnyWindowLengthIsBounded(head, times, window, limit, from, back);
      }
    } else {
      TheBoundIsReached(window, limit, back);
      Scaled(limit - 1, 3, 2 + fits);
      assert Stored(None) && !FewerThanTwoLimits(None, WorstCase(window, limit, back), window, limit, window - 1);
    }
  }

  lemma {:induction false} SomeStepBack(times: seq<int>) returns (back: nat, low: int, high: int)
    ensures StepsBackAtMost(times, back) && low <= high <= low + back
    ensures forall i :: 0 <= i < |times| ==> low <= times[i] <= high
  {
    if times == [] {
      back, low, high := 0, 0, 0;
    } else {
      var n := |times| - 1;
      back, low, high := SomeStepBack(times[..n]);
      low := if times[n] < low then times[n] else low;
      high := if times[n] > high then times[n] else high;
      back := high - low;
      assert forall i :: 0 <= i < n ==> times[i] == times[..n][i];
    }
  }

  // For every clock whatsoever: exactly a limit of one.
  lemma AnyClockExactlyWhenTheLimitIsOne(window: int, limit: int)
    requires ValidPolicy(window, limit)
    ensures (forall head, times, from :: Stored(head) ==> FewerThanTwoLimits(head, times, window, limit, from))
            <==> limit == 1
  {
    if limit == 1 {
      forall head, times, from | Stored(head)
        ensures FewerThanTwoLimits(head, times, window, limit, from)
      {
        var back, _, _ := SomeStepBack(times);
        AnyWindowLengthIsBounded(head, times, window, limit, from, back);
      }
    } else {
      FewerThanTwoLimitsExactlyWhen(window, limit, 2);
    }
  }

  // ---- What the stored row means ----------------------------------------------------------

  // Requests on one key with one limit; the window may change from request to request.
  datatype Call = Call(now: int, window: int)

  function After(head: Option<Head>, calls: seq<Call>, limit: int): Option<Head> {
    if calls == [] then head
    else
      var last := calls[|calls| - 1];
      Some(Upserted(After(head, calls[..|calls| - 1], limit), last.now, last.window, limit))
  }

  // The request that opened the window the last request falls in, found from the requests alone: the
  // first one to ask for another window, or to come when the window before it had run out.
  function Opening(calls: seq<Call>): (k: nat)
    requires calls != []
    ensures k < |calls|
  {
    var n := |calls| - 1;
    if n == 0 then 0
    else
      var k := Opening(calls[..n]);
      if calls[n].window != calls[n - 1].window || calls[n].now >= calls[k].now + calls[n - 1].window then n else k
  }

  // Saturated count, start and version are functions of the requests: the n-th request is allowed
  // exactly when it is among the first `limit` since its window opened.
  lemma {:induction false} AllowedExactlyAmongTheFirstOfItsWindow(calls: seq<Call>, limit: int)
    requires calls != [] && limit >= 1
    ensures After(None, calls, limit).Some?
    ensures var head, since, last := After(None, calls, limit).value, |calls| - Opening(calls), calls[|calls| - 1];
            && head.startedAt == calls[Opening(calls)].now && head.window == last.window
            && head.count == (if since <= limit then since else limit + 1)
            && head.version == |calls|
            && (Admits(After(None, calls[..|calls| - 1], limit), last.now, last.window, limit) <==> since <= limit)
  {
    if |calls| > 1 {
      AllowedExactlyAmongTheFirstOfItsWindow(calls[..|calls| - 1], limit);
    } else {
      assert calls[..0] == [];
    }
  }

  // ---- Waiting ----------------------------------------------------------------------------

  function Calls(times: seq<int>, window: int): seq<Call> {
    seq(|times|, i requires 0 <= i < |times| => Call(times[i], window))
  }

  lemma {:induction false} RequestsInsideTheWindowDoNotMoveIt(
    head: Head, times: seq<int>, window: int, limit: int)
    requires head.window == window && head.count == limit + 1
    requires forall i :: 0 <= i < |times| ==> times[i] < head.startedAt + window
    ensures After(Some(head), Calls(times, window), limit) == Some(head.(version := head.version + |times|))
  {
    if times != [] {
      var calls := Calls(times, window);
      assert calls[..|calls| - 1] == Calls(times[..|times| - 1], window);
      RequestsInsideTheWindowDoNotMoveIt(head, times[..|times| - 1], window, limit);
    }
  }

  // The advertised delay is the least whole number of seconds after which a request is allowed,
  // also when other requests are refused in the same window meanwhile.
  lemma RetryAfterIsExact(
    head: Option<Head>, now: int, meanwhile: seq<int>, seconds: nat, window: int, limit: int)
    requires ValidPolicy(window, limit) && !Admits(head, now, window, limit)
    requires var refused := Upserted(head, now, window, limit);
             forall i :: 0 <= i < |meanwhile| ==> meanwhile[i] < refused.startedAt + window
    ensures var refused := Upserted(head, now, window, limit);
            Admits(After(Some(refused), Calls(meanwhile, window), limit), now + 1000 * seconds, window, limit)
            <==> seconds >= RetryAfter(refused, now)
  {
    var refused := Upserted(head, now, window, limit);
    RequestsInsideTheWindowDoNotMoveIt(refused, meanwhile, window, limit);
    var gap := refused.startedAt + window - now;
    assert gap > 0 && CeilSeconds(gap) >= 1;
    assert 1000 * (CeilSeconds(gap) - 1) < gap <= 1000 * CeilSeconds(gap);
  }
}

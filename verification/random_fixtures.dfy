/**
 * Fixture helpers: a list of bounded random integers, and the timestamps from
 * a start (inclusive) to an end (exclusive) in fixed steps.
 *
 * A datetime is its distance from the Unix epoch in integer microseconds (the
 * resolution of Python's datetime and timedelta), `strftime` is an arbitrary
 * function of the time and the format, and each `randint` draw is an
 * unconstrained choice within its bounds.
 */
module RandomFixtures {
  import opened Wrappers

  const MicrosPerSecond: int := 1_000_000
  const MillisPerSecond: int := 1000

  /** The ValueError `randint(a, b)` raises when `a > b`. */
  datatype RandomError = EmptyRange

  /**
   * `random_int_values(amount, min_value, max_value)`: `amount` draws within
   * the bounds (none for a non-positive amount); the first draw from an empty
   * range raises.
   */
  method RandomIntValues(amount: int, minValue: int, maxValue: int) returns (r: Result<seq<int>, RandomError>)
    ensures r.Failure? <==> amount > 0 && minValue > maxValue
    ensures r.Success? ==> |r.value| == (if amount > 0 then amount else 0)
    ensures r.Success? ==> forall i :: 0 <= i < |r.value| ==> minValue <= r.value[i] <= maxValue
  {
    var result: seq<int> := [];
    var n := if amount > 0 then amount else 0;
    for i := 0 to n
      invariant |result| == i
      invariant i > 0 ==> minValue <= maxValue
      invariant forall j :: 0 <= j < i ==> minValue <= result[j] <= maxValue
    {
      if minValue > maxValue {
        return Failure(EmptyRange);
      }
      var x :| minValue <= x <= maxValue;
      result := result + [x];
    }
    return Success(result);
  }

  /** One element of the range: the formatted time, or epoch milliseconds with the sub-second part dropped. */
  datatype Stamp = Formatted(text: string) | EpochMillis(millis: int)

  /** `dt_format` is truthy: present and not the empty string. */
  predicate HasFormat(dtFormat: Option<string>)
  {
    dtFormat.Some? && dtFormat.value != ""
  }

  /** `calendar.timegm(t.timetuple()) * 1000`: whole seconds since the epoch (rounded down), in milliseconds. */
  function EpochMillisOf(t: int): int
  {
    (t / MicrosPerSecond) * MillisPerSecond
  }

  /** The element the loop appends for time `t`. */
  function Render(t: int, dtFormat: Option<string>, strftime: (int, string) -> string): Stamp
  {
    if HasFormat(dtFormat) then Formatted(strftime(t, dtFormat.value)) else EpochMillis(EpochMillisOf(t))
  }

  /** The number of steps `start, start + delta, ...` strictly before `end`: ceil((end - start) / delta). */
  function Steps(start: int, end: int, delta: int): nat
    requires delta > 0 || start >= end
  {
    if start >= end then 0 else (end - start + delta - 1) / delta
  }

  /** The range in closed form: element `i` renders `start + i * delta`. */
  function DatetimeRange(start: int, end: int, delta: int, dtFormat: Option<string>, strftime: (int, string) -> string): seq<Stamp>
    requires delta > 0 || start >= end
  {
    seq(Steps(start, end, delta), i => Render(start + i * delta, dtFormat, strftime))
  }

  /** The default step of `random_datetime_range`: one second. */
  const DefaultDelta: int := MicrosPerSecond

  /** The default format of `random_datetime_range`. */
  const DefaultFormat: Option<string> := Some("%Y-%m-%d %H-%M-%S")

  /**
   * `random_datetime_range(start, end, delta, dt_format)`: the `while current <
   * end` loop. It ends only if the range is empty or the step is positive.
   */
  method RandomDatetimeRange(start: int, end: int, delta: int, dtFormat: Option<string>, strftime: (int, string) -> string)
    returns (result: seq<Stamp>)
    requires delta > 0 || start >= end
    ensures result == DatetimeRange(start, end, delta, dtFormat, strftime)
  {
    result := [];
    var current := start;
    while current < end
      invariant current == start + |result| * delta
      invariant |result| > 0 ==> current - delta < end
      invariant forall i :: 0 <= i < |result| ==> result[i] == Render(start + i * delta, dtFormat, strftime)
      decreases end - current
    {
      NextStep(start, |result|, delta);
      result := result + [Render(current, dtFormat, strftime)];
      current := current + delta;
    }
    LoopResultIsRange(start, end, delta, dtFormat, strftime, result);
  }

  /** What the loop has built when it stops is the range in closed form. */
  lemma LoopResultIsRange(start: int, end: int, delta: int, dtFormat: Option<string>, strftime: (int, string) -> string,
                          result: seq<Stamp>)
    requires delta > 0 || start >= end
    requires start + |result| * delta >= end
    requires |result| > 0 ==> start + |result| * delta - delta < end
    requires forall i :: 0 <= i < |result| ==> result[i] == Render(start + i * delta, dtFormat, strftime)
    ensures result == DatetimeRange(start, end, delta, dtFormat, strftime)
  {
    var n := |result|;
    if start < end {
      NextStep(start, n - 1, delta);
      StepsIsCount(end - start, delta, n);
    }
    assert n == Steps(start, end, delta);
  }

  /** One more step of `delta` from the `k`-th time reaches the next one. */
  lemma NextStep(start: int, k: int, delta: int)
    ensures start + (k + 1) * delta == start + k * delta + delta
  {
  }

  /** `n` is ceil(d / delta) when `n` steps of `delta` are the fewest that reach `d`. */
  lemma StepsIsCount(d: int, delta: int, n: int)
    requires delta > 0 && d > 0
    requires (n - 1) * delta < d <= n * delta
    ensures n == (d + delta - 1) / delta
  {
    var q := (d + delta - 1) / delta;
    var m := (d + delta - 1) % delta;
    assert q * delta + m == d + delta - 1 && 0 <= m < delta;
    // (n - 1) * delta <= d - 1 gives n * delta <= q * delta + m < (q + 1) * delta.
    MulStrictMonotone(n, q + 1, delta);
    // q * delta <= d + delta - 1 <= n * delta + delta - 1 < (n + 1) * delta.
    MulStrictMonotone(q, n + 1, delta);
  }

  /** Multiplying by a positive step preserves strict order. */
  lemma MulStrictMonotone(a: int, b: int, delta: int)
    requires delta > 0
    ensures a * delta < b * delta <==> a < b
  {
    if a < b {
      assert b * delta - a * delta == (b - a) * delta;
    } else {
      assert a * delta - b * delta == (a - b) * delta;
    }
  }

  /**
   * Every listed time lies before `end`, the next step would not, and the
   * range is empty exactly when `start >= end`: the endpoint is excluded and
   * the length is the number of steps before it.
   */
  lemma RangeStopsBeforeEnd(start: int, end: int, delta: int, dtFormat: Option<string>, strftime: (int, string) -> string)
    requires delta > 0
    ensures var n := |DatetimeRange(start, end, delta, dtFormat, strftime)|;
            && (n == 0 <==> start >= end)
            && (forall i :: 0 <= i < n ==> start + i * delta < end)
            && start + n * delta >= end
  {
    var n := Steps(start, end, delta);
    if start < end {
      var d := end - start;
      var m := (d + delta - 1) % delta;
      assert n * delta + m == d + delta - 1 && 0 <= m < delta;
      assert n * delta >= d;
      MulStrictMonotone(n - 1, n, delta);
      assert (n - 1) * delta < d by {
        assert (n - 1) * delta == n * delta - delta;
      }
      forall i | 0 <= i < n ensures start + i * delta < end {
        MulStrictMonotone(i, n, delta);
        if i < n - 1 { MulStrictMonotone(i, n - 1, delta); }
      }
    }
  }

  /** The first element is `start` itself when the range is not empty. */
  lemma RangeStartsAtStart(start: int, end: int, delta: int, dtFormat: Option<string>, strftime: (int, string) -> string)
    requires delta > 0 && start < end
    ensures DatetimeRange(start, end, delta, dtFormat, strftime) != []
    ensures DatetimeRange(start, end, delta, dtFormat, strftime)[0] == Render(start, dtFormat, strftime)
  {
    RangeStopsBeforeEnd(start, end, delta, dtFormat, strftime);
  }

  /** Epoch milliseconds never decrease as time advances, and grow once a whole second passes. */
  lemma EpochMillisMonotone(t: int, u: int)
    ensures t <= u ==> EpochMillisOf(t) <= EpochMillisOf(u)
    ensures t + MicrosPerSecond <= u ==> EpochMillisOf(t) < EpochMillisOf(u)
  {
    var qt, rt := t / MicrosPerSecond, t % MicrosPerSecond;
    var qu, ru := u / MicrosPerSecond, u % MicrosPerSecond;
    assert t == qt * MicrosPerSecond + rt && 0 <= rt < MicrosPerSecond;
    assert u == qu * MicrosPerSecond + ru && 0 <= ru < MicrosPerSecond;
    if t <= u {
      MulStrictMonotone(qu, qt, MicrosPerSecond);
    }
    if t + MicrosPerSecond <= u {
      MulStrictMonotone(qt, qu, MicrosPerSecond);
    }
  }

  /**
   * Without a format the elements are epoch milliseconds: never decreasing,
   * and strictly increasing when the step is at least one second.
   */
  lemma RangeEpochMillisOrdered(start: int, end: int, delta: int, dtFormat: Option<string>, strftime: (int, string) -> string)
    requires delta > 0 && !HasFormat(dtFormat)
    ensures var r := DatetimeRange(start, end, delta, dtFormat, strftime);
            forall i, j :: 0 <= i < j < |r| ==>
              r[i].EpochMillis? && r[j].EpochMillis? && r[i].millis <= r[j].millis
              && (delta >= MicrosPerSecond ==> r[i].millis < r[j].millis)
  {
    var r := DatetimeRange(start, end, delta, dtFormat, strftime);
    forall i, j | 0 <= i < j < |r|
      ensures r[i].EpochMillis? && r[j].EpochMillis? && r[i].millis <= r[j].millis
              && (delta >= MicrosPerSecond ==> r[i].millis < r[j].millis)
    {
      var t, u := start + i * delta, start + j * delta;
      MulStrictMonotone(i, j, delta);
      if delta >= MicrosPerSecond {
        assert u - t == (j - i) * delta;
        assert (j - i) * delta >= delta by { MulStrictMonotone(1, j - i, delta); }
      }
      EpochMillisMonotone(t, u);
    }
  }

  /**
   * A call with the default step and format lists every whole second from
   * `start` before `end`, each formatted as "%Y-%m-%d %H-%M-%S".
   */
  lemma DefaultCallFormatsEachSecond(start: int, end: int, strftime: (int, string) -> string)
    ensures HasFormat(DefaultFormat)
    ensures var r := DatetimeRange(start, end, DefaultDelta, DefaultFormat, strftime);
            && (r == [] <==> start >= end)
            && forall i :: 0 <= i < |r| ==>
                 r[i] == Formatted(strftime(start + i * MicrosPerSecond, "%Y-%m-%d %H-%M-%S"))
                 && start + i * MicrosPerSecond < end
  {
    RangeStopsBeforeEnd(start, end, DefaultDelta, DefaultFormat, strftime);
  }

  /** Three seconds in one-second steps without a format: three whole seconds, in milliseconds, endpoint excluded. */
  lemma ThreeSecondRange(t0: int, strftime: (int, string) -> string)
    ensures var r := DatetimeRange(t0, t0 + 3 * MicrosPerSecond, MicrosPerSecond, None, strftime);
            && |r| == 3
            && r[0] == EpochMillis(EpochMillisOf(t0))
            && r[1].millis == r[0].millis + 1000
            && r[2].millis == r[0].millis + 2000
  {
    var q := t0 / MicrosPerSecond;
    assert (t0 + MicrosPerSecond) / MicrosPerSecond == q + 1;
    assert (t0 + 2 * MicrosPerSecond) / MicrosPerSecond == q + 2;
  }
}

/** The sequential date generator behind the sequential fake-date and
    fake-datetime helpers (com.ibm.ei.utils.FakeDate). The constructor divides
    the span from start to end into numRecords equal Durations; every getTime()
    moves a private copy of start on by one such Duration and returns the new
    epoch-millisecond value. Times are epoch milliseconds, Durations nanoseconds. */
module FakeDates {
  import Java

  const NANOS_PER_MILLI: int := 1_000_000

  /** java.util.Date: a mutable epoch-millisecond value. */
  class Date {
    var time: int

    constructor (time: int)
      ensures this.time == time
    {
      this.time := time;
    }
  }

  /** A Timestamp built from a Date's getTime(). */
  datatype Timestamp = Timestamp(millis: int)

  /** Duration.between(start, end).dividedBy(numRecords), in nanoseconds:
      Duration.dividedBy truncates toward zero. */
  function IntervalNanos(startMillis: int, endMillis: int, numRecords: int): (iv: int)
    requires numRecords != 0
    ensures Java.Abs((endMillis - startMillis) * NANOS_PER_MILLI - iv * numRecords) < Java.Abs(numRecords)
  {
    Java.TruncDiv((endMillis - startMillis) * NANOS_PER_MILLI, numRecords)
  }

  /** How far one getTime() moves a millisecond cursor: Instant.plus adds the
      nanoseconds exactly and toEpochMilli rounds down to whole milliseconds. */
  function StepMillis(intervalNanos: int): int
  {
    intervalNanos / NANOS_PER_MILLI
  }

  /** What a generator holds: the cursor (its private copy of start), its
      copy of end and the interval. */
  datatype DateState = DateState(cursor: int, endMillis: int, interval: int)

  /** A new generator: the cursor is at start. */
  function InitialDate(startMillis: int, endMillis: int, numRecords: int): DateState
    requires numRecords != 0
  {
    DateState(startMillis, endMillis, IntervalNanos(startMillis, endMillis, numRecords))
  }

  /** One getTime(): the cursor moves on by one interval; end is not looked at. */
  function AdvanceDate(d: DateState): DateState
  {
    d.(cursor := d.cursor + StepMillis(d.interval))
  }

  /** The state of a new generator after k calls of getTime(). */
  function DateAfter(startMillis: int, endMillis: int, numRecords: int, k: nat): DateState
    requires numRecords != 0
  {
    if k == 0 then InitialDate(startMillis, endMillis, numRecords)
    else AdvanceDate(DateAfter(startMillis, endMillis, numRecords, k - 1))
  }

  /** The value the k-th getTime() of a new generator returns (k = 0: start). */
  function TimeAfter(startMillis: int, endMillis: int, numRecords: int, k: nat): int
    requires numRecords != 0
  {
    DateAfter(startMillis, endMillis, numRecords, k).cursor
  }

  class FakeDate {
    /** The private copy of start, which getTime() moves on; it never escapes
        the object, so it is held here as a plain field. */
    var cursor: int
    /** The private copy of end: kept, and never read again. */
    const endMillis: int
    const interval: int
    ghost const startMillis: int
    ghost const numRecords: int
    /** How many times getTime() has been called. */
    ghost var calls: nat

    function State(): DateState
      reads this
    {
      DateState(cursor, endMillis, interval)
    }

    /** The state is the one k calls of getTime() reach from a new generator. */
    ghost predicate Valid()
      reads this
    {
      numRecords != 0 && State() == DateAfter(startMillis, endMillis, numRecords, calls)
    }

    /** Copies the two dates (the caller's objects are only read) and fixes the interval. */
    constructor (start: Date, end: Date, numRecords: int)
      requires numRecords != 0
      ensures Valid() && calls == 0
      ensures startMillis == start.time && endMillis == end.time && this.numRecords == numRecords
      ensures State() == InitialDate(start.time, end.time, numRecords)
    {
      cursor := start.time;
      endMillis := end.time;
      startMillis := start.time;
      this.numRecords := numRecords;
      interval := IntervalNanos(start.time, end.time, numRecords);
      calls := 0;
    }

    /** Moves the cursor on by one interval and returns it. */
    method GetTime() returns (r: int)
      modifies this
      ensures State() == AdvanceDate(old(State())) && r == cursor
      ensures calls == old(calls) + 1
      ensures old(Valid()) ==> Valid() && r == TimeAfter(startMillis, endMillis, numRecords, calls)
    {
      var next := (cursor * NANOS_PER_MILLI + interval) / NANOS_PER_MILLI;
      StepOfWholeMillis(cursor, interval);
      cursor := next;
      calls := calls + 1;
      return next;
    }
  }

  /** new FakeDate(start, end, numRecords): a zero numRecords makes
      Duration.dividedBy throw ArithmeticException. */
  method Create(start: Date, end: Date, numRecords: int) returns (r: Java.Result<FakeDate>)
    ensures r.Err? <==> numRecords == 0
    ensures r.Err? ==> r.error == Java.Arithmetic
    ensures r.Ok? ==> fresh(r.value) && r.value.Valid() && r.value.calls == 0
    ensures r.Ok? ==> r.value.startMillis == start.time && r.value.endMillis == end.time
    ensures r.Ok? ==> r.value.numRecords == numRecords
  {
    if numRecords == 0 {
      return Java.Err(Java.Arithmetic);
    }
    var d := new FakeDate(start, end, numRecords);
    return Java.Ok(d);
  }

  /** timestamp(Date): a Timestamp of the date's getTime(), which for a
      FakeDate advances it. */
  method TimestampOf(d: FakeDate) returns (t: Timestamp)
    modifies d
    ensures d.State() == AdvanceDate(old(d.State())) && t.millis == d.cursor
    ensures d.calls == old(d.calls) + 1
    ensures old(d.Valid()) ==> d.Valid() && t.millis == TimeAfter(d.startMillis, d.endMillis, d.numRecords, d.calls)
  {
    var ms := d.GetTime();
    t := Timestamp(ms);
  }

  /** Adding nanoseconds to a whole-millisecond instant and rounding down moves
      it by the rounded-down nanoseconds. */
  lemma StepOfWholeMillis(ms: int, nanos: int)
    ensures (ms * NANOS_PER_MILLI + nanos) / NANOS_PER_MILLI == ms + StepMillis(nanos)
  {
    Java.ModUnique(ms * NANOS_PER_MILLI + nanos, NANOS_PER_MILLI, ms + nanos / NANOS_PER_MILLI, nanos % NANOS_PER_MILLI);
  }

  /** The k-th value is start + k steps; end and the interval never change. */
  lemma {:induction false} TimeAfterClosedForm(startMillis: int, endMillis: int, numRecords: int, k: nat)
    requires numRecords != 0
    ensures DateAfter(startMillis, endMillis, numRecords, k).endMillis == endMillis
    ensures DateAfter(startMillis, endMillis, numRecords, k).interval == IntervalNanos(startMillis, endMillis, numRecords)
    ensures TimeAfter(startMillis, endMillis, numRecords, k)
         == startMillis + k * StepMillis(IntervalNanos(startMillis, endMillis, numRecords))
  {
    if k > 0 {
      TimeAfterClosedForm(startMillis, endMillis, numRecords, k - 1);
      var step := StepMillis(IntervalNanos(startMillis, endMillis, numRecords));
      assert (k - 1) * step + step == k * step;
    }
  }

  /** Forward in time, the step is the whole-millisecond quotient (end - start) / numRecords. */
  lemma StepIsFlooredQuotient(startMillis: int, endMillis: int, numRecords: int)
    requires endMillis >= startMillis && numRecords > 0
    ensures StepMillis(IntervalNanos(startMillis, endMillis, numRecords)) == (endMillis - startMillis) / numRecords
  {
    var d := endMillis - startMillis;
    Java.TruncDivAgreesOnNaturals(d * NANOS_PER_MILLI, numRecords);
    NestedFloor(d, numRecords, NANOS_PER_MILLI);
  }

  /** Dividing d * m by n and then by m rounds down once: the result is d / n. */
  lemma NestedFloor(d: nat, n: int, m: int)
    requires n > 0 && m > 0
    ensures ((d * m) / n) / m == d / n
  {
    var big := (d * m) / n;
    var q := d / n;
    assert big * n <= d * m < (big + 1) * n by {
      FloorBounds(d * m, n);
    }
    FloorBounds(d, n);
    LowerScaled(q, n, d, m);
    UpperScaled(q, n, d, m);
    CancelRight(q * m, big + 1, n);
    CancelRight(big, (q + 1) * m, n);
    Java.ModUnique(big, m, q, big - q * m);
  }

  lemma FloorBounds(x: int, n: int)
    requires n > 0
    ensures (x / n) * n <= x < (x / n + 1) * n
  {
  }

  lemma LowerScaled(q: int, n: int, d: int, m: int)
    requires q * n <= d && m > 0
    ensures (q * m) * n <= d * m
  {
    MulRight(q * n, d, m);
    assert (q * n) * m == (q * m) * n;
  }

  lemma UpperScaled(q: int, n: int, d: int, m: int)
    requires d < (q + 1) * n && m > 0
    ensures d * m < ((q + 1) * m) * n
  {
    MulRight(d, (q + 1) * n - 1, m);
    assert ((q + 1) * n - 1) * m == ((q + 1) * m) * n - m;
  }

  lemma MulRight(a: int, b: int, c: int)
    requires a <= b && c >= 0
    ensures a * c <= b * c
  {
  }

  lemma CancelRight(a: int, b: int, n: int)
    requires n > 0 && a * n < b * n
    ensures a < b
  {
  }

  /** The step has the sign of (end - start) / numRecords: with a positive
      count it is never negative forward in time and never positive backward;
      Duration.dividedBy also takes a negative count, which reverses both. */
  lemma StepSign(startMillis: int, endMillis: int, numRecords: int)
    requires numRecords != 0
    ensures (numRecords > 0 && endMillis >= startMillis) || (numRecords < 0 && endMillis <= startMillis) ==>
      StepMillis(IntervalNanos(startMillis, endMillis, numRecords)) >= 0
    ensures (numRecords > 0 && endMillis < startMillis) || (numRecords < 0 && endMillis > startMillis) ==>
      StepMillis(IntervalNanos(startMillis, endMillis, numRecords)) <= 0
  {
  }

  /** For end >= start, the k-th value is start + k * ((end - start) / numRecords). */
  lemma KthValue(startMillis: int, endMillis: int, numRecords: int, k: nat)
    requires endMillis >= startMillis && numRecords > 0
    ensures TimeAfter(startMillis, endMillis, numRecords, k)
         == startMillis + k * ((endMillis - startMillis) / numRecords)
  {
    TimeAfterClosedForm(startMillis, endMillis, numRecords, k);
    StepIsFlooredQuotient(startMillis, endMillis, numRecords);
  }

  /** For end >= start, the first numRecords values do not pass end. */
  lemma WithinEnd(startMillis: int, endMillis: int, numRecords: int, k: nat)
    requires endMillis >= startMillis && numRecords > 0 && k <= numRecords
    ensures startMillis <= TimeAfter(startMillis, endMillis, numRecords, k) <= endMillis
  {
    KthValue(startMillis, endMillis, numRecords, k);
    var q := (endMillis - startMillis) / numRecords;
    MulRight(k, numRecords, q);
    assert numRecords * q <= endMillis - startMillis;
    assert 0 <= k * q;
  }

  /** end is never consulted again: with at least one millisecond per step, the
      values pass end after numRecords + (end - start) % numRecords + 1 calls. */
  lemma PassesEnd(startMillis: int, endMillis: int, numRecords: int)
    requires numRecords > 0 && endMillis - startMillis >= numRecords
    ensures TimeAfter(startMillis, endMillis, numRecords, numRecords + (endMillis - startMillis) % numRecords + 1) > endMillis
  {
    var d := endMillis - startMillis;
    var q, r := d / numRecords, d % numRecords;
    KthValue(startMillis, endMillis, numRecords, numRecords + r + 1);
    FloorBounds(d, numRecords);
    AtLeastOne(d, numRecords);
    Overtakes(numRecords, q, r);
  }

  lemma AtLeastOne(d: int, n: int)
    requires n > 0 && d >= n
    ensures d / n >= 1
  {
    FloorBounds(d, n);
    if d / n < 1 {
      MulRight(d / n + 1, 1, n);
    }
  }

  /** Once every step is at least one, r + 1 more steps make up for the remainder r. */
  lemma Overtakes(n: int, q: int, r: int)
    requires n > 0 && q >= 1 && r >= 0
    ensures (n + r + 1) * q > n * q + r
  {
    MulRight(1, q, r + 1);
    assert (n + r + 1) * q == n * q + (r + 1) * q;
  }

  /** With a positive count, forward in time the values never decrease and
      backward they never increase; a negative count reverses both. */
  lemma Monotone(startMillis: int, endMillis: int, numRecords: int, j: nat, k: nat)
    requires numRecords != 0 && j <= k
    ensures (numRecords > 0 && endMillis >= startMillis) || (numRecords < 0 && endMillis <= startMillis) ==>
      TimeAfter(startMillis, endMillis, numRecords, j) <= TimeAfter(startMillis, endMillis, numRecords, k)
    ensures (numRecords > 0 && endMillis < startMillis) || (numRecords < 0 && endMillis > startMillis) ==>
      TimeAfter(startMillis, endMillis, numRecords, j) >= TimeAfter(startMillis, endMillis, numRecords, k)
  {
    var step := StepMillis(IntervalNanos(startMillis, endMillis, numRecords));
    TimeAfterClosedForm(startMillis, endMillis, numRecords, j);
    TimeAfterClosedForm(startMillis, endMillis, numRecords, k);
    StepSign(startMillis, endMillis, numRecords);
    ScaledOrder(j, k, step);
  }

  /** More steps of one sign move further in that direction. */
  lemma ScaledOrder(j: nat, k: nat, step: int)
    requires j <= k
    ensures step >= 0 ==> j * step <= k * step
    ensures step <= 0 ==> j * step >= k * step
  {
    assert k * step - j * step == (k - j) * step;
    if step >= 0 {
      MulRight(0, k - j, step);
    } else {
      MulRight(0, k - j, -step);
    }
  }

  /** Backward in time the nanosecond quotient is truncated but the millisecond
      step is rounded down: one millisecond back over three records steps a
      whole millisecond each time, and three calls land two milliseconds past end. */
  lemma BackwardOvershoots()
    ensures IntervalNanos(0, -1, 3) == -333_333
    ensures StepMillis(IntervalNanos(0, -1, 3)) == -1
    ensures TimeAfter(0, -1, 3, 3) == -3
  {
    TimeAfterClosedForm(0, -1, 3, 3);
  }

  /** 100000 ms split over 10 records: 10000 ms per call, end reached at call 10. */
  lemma EvenSplitExample()
    ensures TimeAfter(0, 100_000, 10, 1) == 10_000
    ensures TimeAfter(0, 100_000, 10, 10) == 100_000
  {
    KthValue(0, 100_000, 10, 1);
    KthValue(0, 100_000, 10, 10);
  }
}

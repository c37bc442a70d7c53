/** The sequential numeric generator behind the sequential fake-int and
    fake-long helpers (com.ibm.ei.utils.FakeNumber). The cursor starts at
    `start`; each call of next() either resets a cursor equal to `end` back to
    `start` or adds `increment`, and returns the new cursor. Values are
    unbounded integers, which is what the source's double arithmetic computes
    for the int and long bounds it is given (up to 2^53 in magnitude). */
module FakeNumbers {
  import Java

  /** What a generator holds: three fixed bounds and the mutable cursor. */
  datatype NumberState = NumberState(start: int, end: int, increment: int, next: int)

  /** A new generator: the cursor is at `start`. */
  function Initial(start: int, end: int, increment: int): NumberState
  {
    NumberState(start, end, increment, start)
  }

  /** One call of next(), compared by value: a cursor equal to `end` goes back
      to `start`, any other cursor moves on by `increment`. */
  function Advance(s: NumberState): NumberState
  {
    if s.next == s.end then s.(next := s.start) else s.(next := s.next + s.increment)
  }

  /** The state of a new generator after k calls of next(). */
  function After(start: int, end: int, increment: int, k: nat): NumberState
  {
    if k == 0 then Initial(start, end, increment) else Advance(After(start, end, increment, k - 1))
  }

  class FakeNumber {
    const start: int
    const end: int
    const increment: int
    var next: int
    /** How many times next() has been called. */
    ghost var calls: nat

    function State(): NumberState
      reads this
    {
      NumberState(start, end, increment, next)
    }

    /** The cursor is the one k calls of next() reach from a new generator. */
    ghost predicate Valid()
      reads this
    {
      State() == After(start, end, increment, calls)
    }

    constructor (start: int, end: int, increment: int)
      ensures Valid() && calls == 0
      ensures State() == Initial(start, end, increment)
    {
      this.start := start;
      this.end := end;
      this.next := start;
      this.increment := increment;
      calls := 0;
    }

    /** Advances the cursor and returns its new value. */
    method Next() returns (r: int)
      modifies this
      ensures State() == Advance(old(State())) && r == next
      ensures calls == old(calls) + 1
      ensures old(Valid()) ==> Valid() && r == After(start, end, increment, calls).next
    {
      if next == end {
        next := start;
        calls := calls + 1;
        return next;
      }
      next := next + increment;
      calls := calls + 1;
      return next;
    }
  }

  /** The bounds of a generator never change; only its cursor moves. */
  lemma {:induction false} BoundsAreFixed(start: int, end: int, increment: int, k: nat)
    ensures After(start, end, increment, k).start == start
    ensures After(start, end, increment, k).end == end
    ensures After(start, end, increment, k).increment == increment
  {
    if k > 0 {
      BoundsAreFixed(start, end, increment, k - 1);
    }
  }

  /** The first call returns start + increment, not start (unless start is end). */
  lemma FirstValue(start: int, end: int, increment: int)
    ensures After(start, end, increment, 1).next == if start == end then start else start + increment
  {
  }

  /** With start equal to end, every call returns start. */
  lemma {:induction false} ConstantWhenStartIsEnd(start: int, increment: int, k: nat)
    ensures After(start, start, increment, k).next == start
  {
    if k > 0 {
      ConstantWhenStartIsEnd(start, increment, k - 1);
      BoundsAreFixed(start, start, increment, k - 1);
    }
  }

  /** When end - start is m > 0 positive increments, the values cycle with period
      m + 1 through start, start + increment, ..., end, and never leave [start, end]. */
  lemma {:induction false} Cycles(start: int, increment: int, m: nat, k: nat)
    requires increment > 0 && m > 0
    ensures After(start, start + m * increment, increment, k).next == start + (k % (m + 1)) * increment
    ensures start <= After(start, start + m * increment, increment, k).next <= start + m * increment
  {
    var end := start + m * increment;
    if k > 0 {
      Cycles(start, increment, m, k - 1);
      BoundsAreFixed(start, end, increment, k - 1);
      var j := (k - 1) % (m + 1);
      ModSuccessor(k, m + 1);
      if j == m {
        assert k % (m + 1) == 0;
      } else {
        ScaleStrict(j, m, increment);
        ScaleSuccessor(j, increment);
        assert k % (m + 1) == j + 1;
      }
      ScaleMonotone(k % (m + 1), m, increment);
    }
  }

  lemma ModSuccessor(k: nat, n: nat)
    requires k > 0 && n > 0
    ensures (k - 1) % n == n - 1 ==> k % n == 0
    ensures (k - 1) % n < n - 1 ==> k % n == (k - 1) % n + 1
  {
    var q, r := (k - 1) / n, (k - 1) % n;
    if r == n - 1 {
      Java.ModUnique(k, n, q + 1, 0);
    } else {
      Java.ModUnique(k, n, q, r + 1);
    }
  }

  lemma ScaleStrict(j: int, m: int, c: int)
    requires j < m && c > 0
    ensures j * c < m * c
  {
  }

  lemma ScaleMonotone(j: int, m: int, c: int)
    requires 0 <= j <= m && c > 0
    ensures 0 <= j * c <= m * c
  {
  }

  lemma ScaleSuccessor(j: int, c: int)
    ensures (j + 1) * c == j * c + c
  {
  }

  /** 0, 10, 2 gives 2, 4, 6, 8, 10, 0, 2, ... */
  lemma CycleExample()
    ensures After(0, 10, 2, 1).next == 2 && After(0, 10, 2, 4).next == 8
    ensures After(0, 10, 2, 5).next == 10 && After(0, 10, 2, 6).next == 0
    ensures After(0, 10, 2, 7).next == 2
  {
    Cycles(0, 2, 5, 1);
    Cycles(0, 2, 5, 4);
    Cycles(0, 2, 5, 5);
    Cycles(0, 2, 5, 6);
    Cycles(0, 2, 5, 7);
  }

  /** The wrap test is equality: when no whole number of increments leads from
      start to end, the cursor passes end and keeps growing. */
  lemma {:induction false} OvershootsEnd(start: int, end: int, increment: int, k: nat)
    requires increment > 0
    requires end < start || (end - start) % increment != 0
    ensures After(start, end, increment, k).next == start + k * increment
  {
    if k > 0 {
      OvershootsEnd(start, end, increment, k - 1);
      BoundsAreFixed(start, end, increment, k - 1);
      ScaleSuccessor(k - 1, increment);
      if start + (k - 1) * increment == end {
        Java.MultipleMod(k - 1, increment);
      }
    }
  }

  /** Negating the bounds negates every value: the wrap test is the same
      equality either way, so a negative increment mirrors a positive one. */
  lemma {:induction false} Mirrored(start: int, end: int, increment: int, k: nat)
    ensures After(-start, -end, -increment, k) == NumberState(-start, -end, -increment, -After(start, end, increment, k).next)
  {
    if k > 0 {
      Mirrored(start, end, increment, k - 1);
      BoundsAreFixed(start, end, increment, k - 1);
    }
  }

  lemma NegatedScale(m: int, c: int)
    ensures m * -c == -(m * c)
  {
  }

  /** The mirror of Cycles: when end - start is m > 0 negative increments, the
      values cycle downward through start, start + increment, ..., end. */
  lemma CyclesDownward(start: int, increment: int, m: nat, k: nat)
    requires increment < 0 && m > 0
    ensures After(start, start + m * increment, increment, k).next == start + (k % (m + 1)) * increment
    ensures start + m * increment <= After(start, start + m * increment, increment, k).next <= start
  {
    Cycles(-start, -increment, m, k);
    NegatedScale(m, increment);
    NegatedScale(k % (m + 1), increment);
    Mirrored(start, start + m * increment, increment, k);
  }

  /** The mirror of OvershootsEnd: with a negative increment and an end that no
      whole number of increments reaches, the values fall past end for ever. */
  lemma OvershootsEndDownward(start: int, end: int, increment: int, k: nat)
    requires increment < 0
    requires end > start || (start - end) % -increment != 0
    ensures After(start, end, increment, k).next == start + k * increment
  {
    OvershootsEnd(-start, -end, -increment, k);
    NegatedScale(k, increment);
    Mirrored(start, end, increment, k);
  }

  // ----- the wrap test as written: identity of boxed numbers -----

  /** Whether the two boxes Integer.valueOf / Long.valueOf make for start and
      end are one object: equal values in the cache range [-128, 127]. */
  predicate SameBox(start: int, end: int)
  {
    start == end && -128 <= start <= 127
  }

  /** The cursor as the source keeps it: a boxed value, and whether that box is
      the very object `end` refers to (the test `next == end` compares references). */
  datatype BoxedCursor = BoxedCursor(value: int, isEnd: bool)

  /** next() with the reference comparison: after the reset the cursor is the
      start box, after an addition a freshly made Double that is never end. */
  function IdentityAdvance(start: int, end: int, increment: int, c: BoxedCursor): BoxedCursor
  {
    if c.isEnd then BoxedCursor(start, SameBox(start, end)) else BoxedCursor(c.value + increment, false)
  }

  /** The boxed cursor after k calls of next() as written. */
  function IdentityAfter(start: int, end: int, increment: int, k: nat): BoxedCursor
  {
    if k == 0 then BoxedCursor(start, SameBox(start, end))
    else IdentityAdvance(start, end, increment, IdentityAfter(start, end, increment, k - 1))
  }

  /** As written, a generator whose bounds are not one cached box never wraps:
      the k-th value is start + k * increment whatever end is. */
  lemma {:induction false} IdentityNeverWraps(start: int, end: int, increment: int, k: nat)
    requires !SameBox(start, end)
    ensures IdentityAfter(start, end, increment, k) == BoxedCursor(start + k * increment, false)
  {
    if k > 0 {
      IdentityNeverWraps(start, end, increment, k - 1);
    }
  }

  /** Where the value comparison wraps, the reference comparison does not: with
      end = start + m * increment (m > 0), call m + 1 returns start by value but
      end + increment as written; for 0, 10, 2 that is 0 against 12 on the sixth call. */
  lemma IdentityDiffersFromValueEquality(start: int, increment: int, m: nat)
    requires increment > 0 && m > 0
    ensures After(start, start + m * increment, increment, m + 1).next == start
    ensures IdentityAfter(start, start + m * increment, increment, m + 1).value
         == start + m * increment + increment
  {
    Cycles(start, increment, m, m + 1);
    Java.ModUnique(m + 1, m + 1, 1, 0);
    ScaleStrict(0, m, increment);
    IdentityNeverWraps(start, start + m * increment, increment, m + 1);
    ScaleSuccessor(m, increment);
  }
}

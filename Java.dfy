/** Java-level primitives the rest of the model is stated in: nullable values,
    the exceptions the modelled code can raise, the 32- and 64-bit integer
    ranges with wrap-around, truncating division, Integer.parseInt /
    Long.parseLong / Integer.toString on ASCII decimal strings, and the
    rounding that Math.round applies when it is handed an int (an int
    argument selects the float overload, so it is first widened to float). */
module Java {

  /** A Java reference that may be null. */
  datatype Option<+T> = None | Some(value: T)

  /** The exceptions the modelled code can raise. */
  datatype Exception =
    | NumberFormat          // Integer.parseInt / Long.parseLong of a malformed string
    | Arithmetic            // division of an int or a Duration by zero
    | NullPointer           // unboxing a null Integer or Boolean
    | IllegalArgument       // Stream.limit with a negative size
    | UnsupportedOperation  // add on the immutable list returned by List.of()
    | Unchecked             // a ParseException rethrown as a RuntimeException

  /** A value, or the exception that was thrown instead. */
  datatype Result<+T> = Ok(value: T) | Err(error: Exception) {
    predicate IsFailure() { Err? }
    function PropagateFailure<U>(): Result<U> requires Err? { Err(error) }
    function Extract(): T requires Ok? { value }
  }

  const INT_MIN: int := -0x8000_0000
  const INT_MAX: int := 0x7fff_ffff
  const LONG_MIN: int := -0x8000_0000_0000_0000
  const LONG_MAX: int := 0x7fff_ffff_ffff_ffff
  const TWO_TO_32: int := 0x1_0000_0000

  predicate IsInt(x: int) { INT_MIN <= x <= INT_MAX }
  predicate IsLong(x: int) { LONG_MIN <= x <= LONG_MAX }

  function Abs(x: int): nat { if x < 0 then -x else x }
  function Min(a: int, b: int): int { if a <= b then a else b }
  function Max(a: int, b: int): int { if a >= b then a else b }

  /** Two's-complement wrap-around of 32-bit int arithmetic. */
  function Wrap32(x: int): (r: int)
    ensures IsInt(r)
    ensures (x - r) % TWO_TO_32 == 0
    ensures IsInt(x) ==> r == x
  {
    var m := (x - INT_MIN) % TWO_TO_32;
    assert x - (m + INT_MIN) == ((x - INT_MIN) / TWO_TO_32) * TWO_TO_32;
    m + INT_MIN
  }

  /** Wrapping commutes with further addition. */
  lemma Wrap32Add(a: int, b: int)
    ensures Wrap32(Wrap32(a) + b) == Wrap32(a + b)
  {
    var w := Wrap32(a);
    var x := (w + b - INT_MIN) % TWO_TO_32;
    var y := (a + b - INT_MIN) % TWO_TO_32;
    var d := (a - w) / TWO_TO_32;
    assert a - w == d * TWO_TO_32;
    ModUnique(a + b - INT_MIN, TWO_TO_32, (w + b - INT_MIN) / TWO_TO_32 + d, x);
  }

  /** The exact sum of a sequence of integers. */
  function Sum(xs: seq<int>): int
  {
    if xs == [] then 0 else Sum(xs[..|xs| - 1]) + xs[|xs| - 1]
  }

  /** IntStream.sum and Collectors.summingInt: a left fold with int addition,
      which wraps on overflow. */
  function IntSum(xs: seq<int>): (r: int)
    ensures IsInt(r)
  {
    if xs == [] then 0 else Wrap32(IntSum(xs[..|xs| - 1]) + xs[|xs| - 1])
  }

  /** Wrapping at every step is wrapping once at the end. */
  lemma {:induction false} IntSumWrapsSum(xs: seq<int>)
    ensures IntSum(xs) == Wrap32(Sum(xs))
  {
    if xs != [] {
      var init := xs[..|xs| - 1];
      IntSumWrapsSum(init);
      Wrap32Add(Sum(init), xs[|xs| - 1]);
    }
  }

  /** Division truncated toward zero, as Java's `/` and Duration.dividedBy do it:
      the remainder is smaller than the divisor and has the sign of the dividend. */
  function TruncDiv(a: int, b: int): (q: int)
    requires b != 0
    ensures Abs(a - q * b) < Abs(b)
    ensures a - q * b == 0 || (a - q * b < 0 <==> a < 0)
  {
    // from Dafny's Euclidean quotient, whose remainder is never negative
    var e, r := a / b, a % b;
    assert a == e * b + r && 0 <= r < Abs(b);
    if a >= 0 || r == 0 then e
    else if b > 0 then
      assert (e + 1) * b == e * b + b;
      e + 1
    else
      assert (e - 1) * b == e * b - b;
      e - 1
  }

  /** Java's `/` on two ints: truncated, and wrapped to 32 bits (only
      Integer.MIN_VALUE / -1 actually wraps). */
  function IntDiv(a: int, b: int): (q: int)
    requires b != 0
    ensures IsInt(q)
  {
    Wrap32(TruncDiv(a, b))
  }

  lemma TruncDivAgreesOnNaturals(a: int, b: int)
    requires a >= 0 && b > 0
    ensures TruncDiv(a, b) == a / b
  {
  }

  // ----- decimal strings -----

  predicate IsDigit(c: char) { '0' <= c <= '9' }

  predicate AllDigits(s: string) { forall i :: 0 <= i < |s| ==> IsDigit(s[i]) }

  /** The value of a string of decimal digits, most significant first. */
  function DigitsValue(s: string): nat
    requires AllDigits(s)
  {
    if s == [] then 0 else DigitsValue(s[..|s| - 1]) * 10 + (s[|s| - 1] as int - '0' as int)
  }

  /** The value of an optionally signed ('+' or '-') non-empty digit string,
      or None when the string has another form. */
  function ParseDecimal(s: string): Option<int>
  {
    if s == [] then None
    else
      var digits := if s[0] == '-' || s[0] == '+' then s[1..] else s;
      if digits == [] || !AllDigits(digits) then None
      else
        var v: int := DigitsValue(digits);
        Some(if s[0] == '-' then -v else v)
  }

  /** Integer.parseInt: a signed decimal within the int range, else NumberFormatException. */
  function ParseInt(s: string): (r: Result<int>)
    ensures r.Ok? ==> IsInt(r.value)
    ensures r.Err? ==> r.error == NumberFormat
  {
    match ParseDecimal(s)
    case Some(v) => if IsInt(v) then Ok(v) else Err(NumberFormat)
    case None => Err(NumberFormat)
  }

  /** Long.parseLong: a signed decimal within the long range, else NumberFormatException. */
  function ParseLong(s: string): (r: Result<int>)
    ensures r.Ok? ==> IsLong(r.value)
    ensures r.Err? ==> r.error == NumberFormat
  {
    match ParseDecimal(s)
    case Some(v) => if IsLong(v) then Ok(v) else Err(NumberFormat)
    case None => Err(NumberFormat)
  }

  function DigitChar(d: int): (c: char)
    requires 0 <= d < 10
    ensures IsDigit(c) && c as int - '0' as int == d
  {
    ('0' as int + d) as char
  }

  /** The shortest decimal rendering of a natural number. */
  function NatToString(n: nat): (s: string)
    ensures s != [] && AllDigits(s)
  {
    if n < 10 then [DigitChar(n)] else NatToString(n / 10) + [DigitChar(n % 10)]
  }

  /** Integer.toString / String.format("%d"). */
  function IntToString(n: int): string
  {
    if n < 0 then "-" + NatToString(-n) else NatToString(n)
  }

  lemma {:induction false} NatToStringRoundTrip(n: nat)
    ensures DigitsValue(NatToString(n)) == n
  {
    if n >= 10 {
      NatToStringRoundTrip(n / 10);
      var s := NatToString(n);
      assert s[..|s| - 1] == NatToString(n / 10);
    }
  }

  /** Parsing a rendered number gives the number back. */
  lemma ParseDecimalOfToString(n: int)
    ensures ParseDecimal(IntToString(n)) == Some(n)
  {
    var s := IntToString(n);
    if n < 0 {
      NatToStringRoundTrip(-n);
      assert s[1..] == NatToString(-n);
    } else {
      NatToStringRoundTrip(n);
      assert IsDigit(s[0]);
    }
  }

  lemma ParseIntOfToString(n: int)
    requires IsInt(n)
    ensures ParseInt(IntToString(n)) == Ok(n)
  {
    ParseDecimalOfToString(n);
  }

  lemma ParseLongOfToString(n: int)
    requires IsLong(n)
    ensures ParseLong(IntToString(n)) == Ok(n)
  {
    ParseDecimalOfToString(n);
  }

  // ----- int to float widening and Math.round(float) -----

  /** The spacing of the float values next to a positive integer a: 1 below
      2^24 (the float significand has 24 bits), doubling with each binade above. */
  function FloatUlp(a: nat): (u: nat)
    ensures u >= 1
    ensures a < 0x100_0000 ==> u == 1
  {
    if a < 0x100_0000 then 1 else 2 * FloatUlp(a / 2)
  }

  /** a rounded to the nearest multiple of u, a tie going to the even multiple. */
  function RoundToMultiple(a: nat, u: nat): (r: nat)
    requires u >= 1
    ensures r % u == 0
    ensures 2 * Abs(r - a) <= u
  {
    var q := a / u;
    var rem := a % u;
    var lo := a - rem;
    MultipleMod(q, u);
    MultipleMod(q + 1, u);
    assert lo == q * u;
    assert lo + u == (q + 1) * u;
    if 2 * rem < u then lo
    else if 2 * rem > u then lo + u
    else if q % 2 == 0 then lo
    else lo + u
  }

  lemma MultipleMod(k: nat, u: nat)
    requires u >= 1
    ensures (k * u) % u == 0
  {
    ModUnique(k * u, u, k, 0);
  }

  /** Quotient and remainder are the only pair that rebuilds x. */
  lemma ModUnique(x: int, n: int, q: int, r: int)
    requires n > 0 && 0 <= r < n && x == q * n + r
    ensures x % n == r && x / n == q
  {
    var d := q - x / n;
    assert x % n - r == d * n;
  }

  /** The float nearest to x (Java's int-to-float widening, round half to even). */
  function IntToFloat(x: int): int
  {
    var r: int := RoundToMultiple(Abs(x), FloatUlp(Abs(x)));
    if x < 0 then -r else r
  }

  /** Math.round applied to an int argument: widened to float, then rounded
      back to int (a no-op on integral floats, saturating at the int range). */
  function MathRoundInt(x: int): (r: int)
    ensures IsInt(r)
  {
    var f := IntToFloat(x);
    if f > INT_MAX then INT_MAX else if f < INT_MIN then INT_MIN else f
  }

  /** Up to 2^24 in magnitude every int is a float, so Math.round returns it unchanged. */
  lemma MathRoundIntExactWhenSmall(x: int)
    requires Abs(x) < 0x100_0000
    ensures MathRoundInt(x) == x
  {
  }

  /** 2^24 + 1 is the first int that is not a float: it rounds to 2^24. */
  lemma MathRoundIntLosesPrecision()
    ensures MathRoundInt(0x100_0001) == 0x100_0000
  {
    assert FloatUlp(0x100_0001) == 2 * FloatUlp(0x80_0000) == 2;
  }
}

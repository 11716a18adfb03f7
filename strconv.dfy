/** The number handling of Go's standard library that the core relies on:
    `strconv.Atoi` on a 64-bit platform, decimal formatting (`%d`, `strconv.Itoa`),
    fixed-point formatting with two decimals (`%.2f`) and the conversion of a
    float to an int, which truncates toward zero. */
module Strconv {
  import opened Wrappers

  const MaxInt64: int := 0x7fff_ffff_ffff_ffff
  const MinInt64: int := -0x8000_0000_0000_0000
  const MaxUint64: int := 0xffff_ffff_ffff_ffff

  /** The two reasons a `*strconv.NumError` gives. */
  datatype NumErrorKind = ErrSyntax | ErrRange

  /** `*strconv.NumError`: the input that failed and why. */
  datatype NumError = NumError(num: string, kind: NumErrorKind)

  predicate IsDigit(c: char) { '0' <= c <= '9' }

  function DigitValue(c: char): (d: nat)
    requires IsDigit(c)
    ensures d < 10
  {
    c as int - '0' as int
  }

  function DigitChar(d: nat): (c: char)
    requires d < 10
    ensures IsDigit(c) && DigitValue(c) == d
  {
    ('0' as int + d) as char
  }

  /** Outcome of the digit loop of `strconv.ParseUint` in base 10. */
  datatype Scan = Scanned(value: nat) | BadSyntax | OutOfRange

  /** The first accumulator value whose product with 10 overflows 64 bits. */
  const Cutoff: nat := MaxUint64 / 10 + 1

  /** The digit loop of `strconv.ParseUint(s, 10, 64)`, continuing from the
      accumulator `n`: a non-digit is a syntax error; a digit that would push the
      value past 2^64-1 is a range error, reported before any later character is
      looked at. */
  function ScanDigits(s: string, n: nat): (r: Scan)
    requires n <= MaxUint64
    ensures r.Scanned? ==> r.value <= MaxUint64 && n <= r.value
    ensures r.Scanned? ==> forall k :: 0 <= k < |s| ==> IsDigit(s[k])
    decreases |s|
  {
    if s == [] then Scanned(n)
    else if !IsDigit(s[0]) then BadSyntax
    else if n >= Cutoff then OutOfRange
    else
      var n1 := n * 10 + DigitValue(s[0]);
      if n1 > MaxUint64 then OutOfRange else ScanDigits(s[1..], n1)
  }

  /** `strconv.Atoi` with Go's 64-bit `int`: both returned values, as Go returns
      them. A syntax error comes with 0, a range error with the bound that was
      exceeded. */
  function Atoi(s: string): (r: (int, Option<NumError>))
    ensures r.1.None? ==> MinInt64 <= r.0 <= MaxInt64
    ensures r.1.None? ==> s != [] && (IsDigit(s[0]) || s[0] == '+' || s[0] == '-')
    ensures r.1.Some? ==> r.1.value.num == s
    ensures r.1.Some? && r.1.value.kind == ErrSyntax ==> r.0 == 0
    ensures r.1.Some? && r.1.value.kind == ErrRange ==> s != [] && r.0 == (if s[0] == '-' then MinInt64 else MaxInt64)
  {
    if s == [] then (0, Some(NumError(s, ErrSyntax)))
    else
      var neg := s[0] == '-';
      var digits := if s[0] == '+' || s[0] == '-' then s[1..] else s;
      var scan := if digits == [] then BadSyntax else ScanDigits(digits, 0);
      match scan
      case BadSyntax => (0, Some(NumError(s, ErrSyntax)))
      case OutOfRange =>
        if neg then (MinInt64, Some(NumError(s, ErrRange))) else (MaxInt64, Some(NumError(s, ErrRange)))
      case Scanned(un) =>
        if !neg && un > MaxInt64 then (MaxInt64, Some(NumError(s, ErrRange)))
        else if neg && un > -MinInt64 then (MinInt64, Some(NumError(s, ErrRange)))
        else
          var v: int := if neg then -(un as int) else un;
          (v, None)
  }

  /** The decimal digits of a natural number, most significant first. */
  function Digits(m: nat): (s: string)
    ensures s != [] && forall k :: 0 <= k < |s| ==> IsDigit(s[k])
  {
    if m < 10 then [DigitChar(m)] else Digits(m / 10) + [DigitChar(m % 10)]
  }

  /** `strconv.Itoa`, also what `%d` prints. */
  function Itoa(n: int): (s: string)
    ensures s != []
  {
    if n < 0 then "-" + Digits(-n) else Digits(n)
  }

  /** `Itoa` writes a minus sign exactly for a negative number, then decimal
      digits only. */
  lemma ItoaShape(n: int)
    ensures Itoa(n)[0] == '-' <==> n < 0
    ensures forall k | (if n < 0 then 1 else 0) <= k < |Itoa(n)| :: IsDigit(Itoa(n)[k])
  {
    if n < 0 {
      assert forall k | 1 <= k < |Itoa(n)| :: Itoa(n)[k] == Digits(-n)[k - 1];
    }
  }

  /** Scanning `s + t` is scanning `s` and then carrying on with `t`. */
  lemma {:induction false} ScanAppend(s: string, t: string, n: nat)
    requires n <= MaxUint64
    ensures ScanDigits(s + t, n) ==
      match ScanDigits(s, n)
      case Scanned(v) => ScanDigits(t, v)
      case other => other
    decreases |s|
  {
    if s == [] {
      assert s + t == t;
    } else {
      assert (s + t)[0] == s[0];
      assert (s + t)[1..] == s[1..] + t;
      if IsDigit(s[0]) && n < Cutoff {
        var n1 := n * 10 + DigitValue(s[0]);
        if n1 <= MaxUint64 {
          ScanAppend(s[1..], t, n1);
        }
      }
    }
  }

  /** The digit loop reads back every number that `Digits` writes. */
  lemma {:induction false} ScanDigitsOfDigits(m: nat)
    requires m <= MaxUint64
    ensures ScanDigits(Digits(m), 0) == Scanned(m)
  {
    if m >= 10 {
      ScanDigitsOfDigits(m / 10);
      var c := DigitChar(m % 10);
      ScanAppend(Digits(m / 10), [c], 0);
      assert m / 10 < Cutoff;
      assert ScanDigits([c], m / 10) == ScanDigits([], m) by {
        assert [c][1..] == [];
      }
    }
  }

  /** `strconv.Atoi` inverts `strconv.Itoa` on every 64-bit integer. */
  lemma AtoiItoa(n: int)
    requires MinInt64 <= n <= MaxInt64
    ensures Atoi(Itoa(n)) == (n, None)
  {
    if n < 0 {
      ScanDigitsOfDigits(-n);
      assert ("-" + Digits(-n))[1..] == Digits(-n);
    } else {
      ScanDigitsOfDigits(n);
    }
  }

  /** Rounding of a non-negative real to the nearest integer, ties to even, as
      Go's formatting rounds the exact value of a float. */
  function RoundHalfEven(y: real): (n: int)
    requires y >= 0.0
    ensures n as real - 0.5 <= y <= n as real + 0.5
    ensures (y == n as real - 0.5 || y == n as real + 0.5) ==> n % 2 == 0
    ensures n >= 0
  {
    var f := y.Floor;
    var frac := y - f as real;
    if frac < 0.5 then f
    else if frac > 0.5 then f + 1
    else if f % 2 == 0 then f else f + 1
  }

  /** `%.2f`: a sign for negative values, the integer part, a point and two
      decimals of the value rounded to hundredths. */
  function Fixed2(x: real): string
  {
    var c := RoundHalfEven((if x < 0.0 then -x else x) * 100.0);
    (if x < 0.0 then "-" else "") + Digits(c / 100) + "." + [DigitChar(c % 100 / 10), DigitChar(c % 10)]
  }

  /** `%.2f` has a sign exactly for a negative value, and a point before two
      decimals. */
  lemma Fixed2Shape(x: real)
    ensures var s := Fixed2(x);
      && |s| >= 4 && s[|s| - 3] == '.' && IsDigit(s[|s| - 2]) && IsDigit(s[|s| - 1])
      && ((x < 0.0) <==> s[0] == '-')
  {
  }

  /** `%.2f` prints the value: with `c` the magnitude in hundredths rounded
      half to even, the integer part reads back as `c / 100`, the two decimals
      are `c % 100`, and `c / 100` is within half a hundredth of the magnitude.
      Stated for magnitudes up to a million, far above any score. */
  lemma Fixed2Value(x: real)
    requires -1000000.0 <= x <= 1000000.0
    ensures var a := if x < 0.0 then -x else x;
      var c := RoundHalfEven(a * 100.0);
      var s := Fixed2(x);
      var k := if x < 0.0 then 1 else 0;
      && k <= |s| - 3
      && ScanDigits(s[k..|s| - 3], 0) == Scanned(c / 100)
      && DigitValue(s[|s| - 2]) * 10 + DigitValue(s[|s| - 1]) == c % 100
      && a - 0.005 <= c as real / 100.0 <= a + 0.005
  {
    var a := if x < 0.0 then -x else x;
    var c := RoundHalfEven(a * 100.0);
    HundredthsClose(a);
    Fixed2Layout(x < 0.0, c);
    assert Fixed2(x) == (if x < 0.0 then "-" else "") + Digits(c / 100) + "." + [DigitChar(c % 100 / 10), DigitChar(c % 10)];
    ScanDigitsOfDigits(c / 100);
    TensAndUnits(c);
  }

  /** The rounded hundredths are within half a hundredth. */
  lemma HundredthsClose(a: real)
    requires 0.0 <= a <= 1000000.0
    ensures RoundHalfEven(a * 100.0) <= 100000001
    ensures a - 0.005 <= RoundHalfEven(a * 100.0) as real / 100.0 <= a + 0.005
  {
  }

  lemma TensAndUnits(c: nat)
    ensures c % 100 / 10 * 10 + c % 10 == c % 100
  {
    var m := c % 100;
    assert c == 100 * (c / 100) + m;
    assert c == 10 * (10 * (c / 100) + m / 10) + m % 10;
  }

  /** Where the parts of the `%.2f` text sit. */
  lemma Fixed2Layout(negative: bool, c: nat)
    ensures var s := (if negative then "-" else "") + Digits(c / 100) + "." + [DigitChar(c % 100 / 10), DigitChar(c % 10)];
      var k := if negative then 1 else 0;
      && k <= |s| - 3
      && s[k..|s| - 3] == Digits(c / 100)
      && s[|s| - 2] == DigitChar(c % 100 / 10) && s[|s| - 1] == DigitChar(c % 10)
  {
    var sign := if negative then "-" else "";
    var d := Digits(c / 100);
    var tail := "." + [DigitChar(c % 100 / 10), DigitChar(c % 10)];
    var s := sign + d + "." + [DigitChar(c % 100 / 10), DigitChar(c % 10)];
    assert s == sign + d + tail;
    assert |tail| == 3;
    assert s[|sign|..|s| - 3] == d;
  }

  /** Go's conversion `int(f)` of a float: the fraction is discarded, so the
      result is the integer nearest to `x` on the side of zero. */
  function TruncateTowardZero(x: real): int
  {
    if x >= 0.0 then x.Floor else -((-x).Floor)
  }

  /** The truncated value is within one of `x`, on the side of zero. */
  lemma TruncatesTowardZero(x: real)
    ensures x >= 0.0 ==> TruncateTowardZero(x) as real <= x < TruncateTowardZero(x) as real + 1.0
    ensures x < 0.0 ==> TruncateTowardZero(x) as real - 1.0 < x <= TruncateTowardZero(x) as real
  {
  }
}

/**
 * The pieces of Go's language and standard library that the scan server's
 * core relies on: `strings.Contains`, the `%0<width>d` verb of `fmt`, and the
 * conversion of a float64 to an int.
 */
module GoRuntime {

  // ---------------------------------------------------------------------------
  // strings.HasPrefix and strings.Contains
  // ---------------------------------------------------------------------------

  /** `strings.HasPrefix(s, prefix)`. */
  predicate HasPrefix(s: string, prefix: string) {
    |prefix| <= |s| && s[..|prefix|] == prefix
  }

  /** `strings.Contains(s, substr)`: substr starts at some position of s. */
  predicate Contains(s: string, substr: string)
    // a prefix is contained, and nothing longer than s is
    ensures HasPrefix(s, substr) ==> Contains(s, substr)
    ensures Contains(s, substr) ==> |substr| <= |s|
    decreases |s|
  {
    HasPrefix(s, substr) || (s != [] && Contains(s[1..], substr))
  }

  /** Reference definition: substr occurs in s at offset i. */
  ghost predicate OccursAt(s: string, substr: string, i: int) {
    0 <= i && i + |substr| <= |s| && s[i..i + |substr|] == substr
  }

  /** `Contains` agrees with the offset-based definition of a substring. */
  lemma {:induction false} ContainsIffOccurs(s: string, substr: string)
    ensures Contains(s, substr) <==> exists i :: OccursAt(s, substr, i)
    decreases |s|
  {
    if HasPrefix(s, substr) {
      assert OccursAt(s, substr, 0);
    } else if s == [] {
    } else {
      ContainsIffOccurs(s[1..], substr);
      if Contains(s[1..], substr) {
        var i :| OccursAt(s[1..], substr, i);
        assert s[i + 1..i + 1 + |substr|] == s[1..][i..i + |substr|];
        assert OccursAt(s, substr, i + 1);
      }
      forall i | OccursAt(s, substr, i) ensures Contains(s[1..], substr) {
        assert i != 0;
        assert s[1..][i - 1..i - 1 + |substr|] == s[i..i + |substr|];
        assert OccursAt(s[1..], substr, i - 1);
      }
    }
  }

  /** The empty string is contained in every string. */
  lemma EmptyIsContained(s: string)
    ensures Contains(s, "")
  {
    assert HasPrefix(s, "");
  }

  // ---------------------------------------------------------------------------
  // Decimal digits and fmt's %0<width>d
  // ---------------------------------------------------------------------------

  predicate IsDigit(c: char) {
    '0' <= c <= '9'
  }

  predicate AllDigits(s: string) {
    forall i :: 0 <= i < |s| ==> IsDigit(s[i])
  }

  function DigitChar(d: nat): (c: char)
    requires d < 10
    ensures IsDigit(c) && c as int - '0' as int == d
  {
    (d + '0' as int) as char
  }

  function DigitValue(c: char): nat
    requires IsDigit(c)
  {
    c as int - '0' as int
  }

  function Pow10(k: nat): (p: nat)
    ensures p >= 1
  {
    if k == 0 then 1 else 10 * Pow10(k - 1)
  }

  /** The decimal text of n as `%d` writes it: no leading zero, "0" for zero. */
  function Decimal(n: nat): (s: string)
    ensures 1 <= |s| && AllDigits(s)
    ensures |s| > 1 ==> s[0] != '0'
    decreases n
  {
    if n < 10 then [DigitChar(n)] else Decimal(n / 10) + [DigitChar(n % 10)]
  }

  /** The number a string of decimal digits denotes; leading zeros are allowed. */
  function ValueOf(s: string): nat
    requires AllDigits(s)
    decreases |s|
  {
    if s == [] then 0 else 10 * ValueOf(s[..|s| - 1]) + DigitValue(s[|s| - 1])
  }

  /** Reading back the decimal text of n gives n. */
  lemma {:induction false} DecimalRoundTrip(n: nat)
    ensures ValueOf(Decimal(n)) == n
    decreases n
  {
    if n >= 10 {
      DecimalRoundTrip(n / 10);
      var s := Decimal(n);
      assert s[..|s| - 1] == Decimal(n / 10);
    }
  }

  /** A number below 10^w takes at most w digits. */
  lemma {:induction false} DecimalLength(n: nat, w: nat)
    requires 1 <= w && n < Pow10(w)
    ensures |Decimal(n)| <= w
    decreases w
  {
    if n >= 10 {
      assert w >= 2;
      DecimalLength(n / 10, w - 1);
    }
  }

  /** k zero characters (none when k is not positive). */
  function Zeros(k: int): (s: string)
    ensures |s| == if k < 0 then 0 else k
    ensures forall i :: 0 <= i < |s| ==> s[i] == '0'
    decreases k
  {
    if k <= 0 then "" else "0" + Zeros(k - 1)
  }

  /** Leading zeros do not change the value of a digit string. */
  lemma {:induction false} LeadingZeros(k: int, s: string)
    requires AllDigits(s)
    ensures AllDigits(Zeros(k) + s) && ValueOf(Zeros(k) + s) == ValueOf(s)
    decreases |s|
  {
    var z := Zeros(k) + s;
    if s == [] {
      assert z == Zeros(k);
      ZerosValue(k);
    } else {
      assert z[..|z| - 1] == Zeros(k) + s[..|s| - 1];
      LeadingZeros(k, s[..|s| - 1]);
    }
  }

  lemma {:induction false} ZerosValue(k: int)
    ensures ValueOf(Zeros(k)) == 0
    decreases k
  {
    if k > 0 {
      var z := Zeros(k);
      assert z[..|z| - 1] == Zeros(k - 1);
      ZerosValue(k - 1);
    }
  }

  /**
   * `fmt.Sprintf("%0<width>d", n)`: the digits of |n| padded on the left
   * with zeros to the width; a minus sign, when present, counts towards the
   * width and stands before the zeros. Wider numbers are never cut.
   */
  function PadInt(n: int, width: nat): (s: string)
    // padding never shortens: the result is at least as wide as asked
    ensures |s| >= width
    // the sign comes first, before any zeros
    ensures n < 0 ==> |s| > 0 && s[0] == '-'
  {
    var digits := Decimal(if n < 0 then -n else n);
    if n < 0 then "-" + Zeros(width - 1 - |digits|) + digits
    else Zeros(width - |digits|) + digits
  }

  /** A non-negative number padded to a width it fits in takes exactly that width and reads back as itself. */
  lemma PadIntRoundTrip(n: nat, width: nat)
    requires 1 <= width && n < Pow10(width)
    ensures |PadInt(n, width)| == width
    ensures AllDigits(PadInt(n, width)) && ValueOf(PadInt(n, width)) == n
  {
    var digits := Decimal(n);
    assert PadInt(n, width) == Zeros(width - |digits|) + digits;
    DecimalLength(n, width);
    LeadingZeros(width - |digits|, digits);
    DecimalRoundTrip(n);
  }

  // ---------------------------------------------------------------------------
  // int(f) for a float64 f
  // ---------------------------------------------------------------------------

  /** n is x with its fractional part discarded (truncation toward zero). */
  ghost predicate IsTruncation(x: real, n: int) {
    if x >= 0.0 then n as real <= x < n as real + 1.0
    else n as real - 1.0 < x <= n as real
  }

  /** Go's `int(x)` conversion of a float64: truncation toward zero, not rounding. */
  function Trunc(x: real): (n: int)
    ensures IsTruncation(x, n)
  {
    if x >= 0.0 then x.Floor else -((-x).Floor)
  }

  /** Exactly one integer is the truncation of x, so Trunc is determined by IsTruncation. */
  lemma TruncationUnique(x: real, n: int)
    requires IsTruncation(x, n)
    ensures n == Trunc(x)
  {
  }

  /** Truncation moves toward zero on both sides: 2.7 becomes 2 and -2.7 becomes -2. */
  lemma TruncExamples()
    ensures Trunc(2.7) == 2 && Trunc(-2.7) == -2 && Trunc(300.0) == 300
  {
  }
}

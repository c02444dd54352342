/** The pieces of the Java platform the list binding relies on: fixed-width
    integers, `String.indexOf` and `String.contains` on a one-character
    needle, `Long.toString`, and the text Java prints for a null reference. */
module JavaLang {
  import opened Wrappers

  /** Java `int`, the unboxed value of an `Integer` field. */
  type Int32 = x: int | -0x8000_0000 <= x < 0x8000_0000

  /** Java `long`, the unboxed value of a `Long` argument. */
  type Int64 = x: int | -0x8000_0000_0000_0000 <= x < 0x8000_0000_0000_0000

  predicate InInt32Range(x: int) {
    -0x8000_0000 <= x < 0x8000_0000
  }

  /** Java `a + b` on two `int`s: the exact sum, wrapped into 32 bits. */
  function AddInt32(a: Int32, b: Int32): (r: Int32)
    ensures InInt32Range(a + b) ==> r == a + b
    ensures !InInt32Range(a + b) ==> r == a + b - 0x1_0000_0000 || r == a + b + 0x1_0000_0000
  {
    var s := a + b;
    if s >= 0x8000_0000 then s - 0x1_0000_0000
    else if s < -0x8000_0000 then s + 0x1_0000_0000
    else s
  }

  /** `s.indexOf(c)`: the position of the first `c`, or -1 when there is none. */
  function IndexOf(s: string, c: char): (r: int)
    ensures -1 <= r < |s|
    ensures r == -1 <==> c !in s
    ensures r >= 0 ==> s[r] == c && forall i :: 0 <= i < r ==> s[i] != c
  {
    if |s| == 0 then -1
    else if s[0] == c then 0
    else
      var k := IndexOf(s[1..], c);
      if k == -1 then -1 else k + 1
  }

  /** `s.contains(String.valueOf(c))`. */
  function Contains(s: string, c: char): (b: bool)
    ensures b <==> c in s
  {
    IndexOf(s, c) != -1
  }

  /** A prefix free of `c` fixes where the first `c` lies once `c` follows it. */
  lemma IndexOfAfterPrefix(p: string, c: char, q: string)
    requires c !in p
    ensures IndexOf(p + [c] + q, c) == |p|
  {
    var s := p + [c] + q;
    assert s[|p|] == c;
    assert forall i :: 0 <= i < |p| ==> s[i] == p[i];
  }

  predicate IsDigit(c: char) {
    '0' <= c <= '9'
  }

  predicate AllDigits(s: string) {
    forall i :: 0 <= i < |s| ==> IsDigit(s[i])
  }

  function DigitChar(d: nat): (c: char)
    requires d < 10
    ensures IsDigit(c)
  {
    ('0' as int + d) as char
  }

  function DigitValue(c: char): (d: nat)
    requires IsDigit(c)
    ensures d < 10 && DigitChar(d) == c
  {
    c as int - '0' as int
  }

  /** The decimal digits of `n`, most significant first, without leading zeros. */
  function Decimal(n: nat): (s: string)
    ensures |s| >= 1 && AllDigits(s)
    ensures s[0] == '0' ==> n == 0
  {
    if n < 10 then [DigitChar(n)] else Decimal(n / 10) + [DigitChar(n % 10)]
  }

  /** Reads a run of decimal digits back as a number. */
  function ParseDecimal(s: string): nat
    requires AllDigits(s)
  {
    if |s| == 0 then 0 else 10 * ParseDecimal(s[..|s| - 1]) + DigitValue(s[|s| - 1])
  }

  lemma {:induction false} DecimalRoundTrip(n: nat)
    ensures ParseDecimal(Decimal(n)) == n
  {
    if n >= 10 {
      var s := Decimal(n);
      assert s[..|s| - 1] == Decimal(n / 10);
      DecimalRoundTrip(n / 10);
    }
  }

  /** `Long.toString(x)`: an optional minus sign followed by the decimal digits. */
  function LongToString(x: Int64): (s: string)
    ensures |s| >= 1
    ensures forall i :: 0 <= i < |s| ==> s[i] == '-' || IsDigit(s[i])
  {
    if x < 0 then "-" + Decimal(-(x as int)) else Decimal(x)
  }

  /** Reads `Long.toString`'s output back. */
  function ParseLong(s: string): int
    requires |s| >= 1
    requires s[0] == '-' ==> AllDigits(s[1..])
    requires s[0] != '-' ==> AllDigits(s)
  {
    if s[0] == '-' then -(ParseDecimal(s[1..]) as int) else ParseDecimal(s)
  }

  lemma LongToStringRoundTrip(x: Int64)
    ensures var s := LongToString(x);
            (s[0] == '-' ==> AllDigits(s[1..])) && (s[0] != '-' ==> AllDigits(s)) &&
            ParseLong(s) == x
  {
    var s := LongToString(x);
    if x < 0 {
      assert s[1..] == Decimal(-(x as int));
      DecimalRoundTrip(-(x as int));
    } else {
      DecimalRoundTrip(x);
    }
  }

  /** What Java prints for a null reference, in string concatenation and in `%s`. */
  const NullText: string := "null"

  /** `"" + o` / `String.valueOf(o)` for a reference that may be null. */
  function StringValueOf<T>(o: Option<T>, toString: T -> string): (s: string)
    ensures o.None? ==> s == NullText
  {
    if o.Some? then toString(o.value) else NullText
  }
}

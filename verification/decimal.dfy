/**
 * The integer text conversions the message store relies on, as Go's standard
 * library performs them: `fmt.Sprintf("%d", n)` on a 64-bit integer,
 * `strconv.ParseInt(s, 10, 64)` (with the `strconv.ParseUint` digit scan it
 * delegates to) and `strings.Split(s, ":")`.
 */
module Decimal {
  import opened Wrappers

  const MinInt64: int := -0x8000_0000_0000_0000
  const MaxInt64: int := 0x7fff_ffff_ffff_ffff
  const MaxUint64: int := 0xffff_ffff_ffff_ffff

  /** Go's `int64`, and Go's `int` on the 64-bit platforms this model assumes. */
  type Int64 = x: int | MinInt64 <= x <= MaxInt64

  predicate IsDigit(c: char) {
    '0' <= c <= '9'
  }

  predicate AllDigits(s: string) {
    forall i :: 0 <= i < |s| ==> IsDigit(s[i])
  }

  function DigitValue(c: char): (d: nat)
    requires IsDigit(c)
    ensures d < 10
  {
    c as int - '0' as int
  }

  function DigitChar(d: nat): (c: char)
    requires d < 10
    ensures IsDigit(c) && DigitValue(c) == d
  {
    ('0' as int + d) as char
  }

  // ---------------------------------------------------------------------------
  // Formatting: the `%d` verb

  /** The decimal digits of `n`, most significant first, without leading zeros. */
  function FormatNat(n: nat): (s: string)
    ensures 0 < |s| && AllDigits(s)
    ensures 1 < |s| ==> s[0] != '0'
    decreases n
  {
    if n < 10 then [DigitChar(n)] else FormatNat(n / 10) + [DigitChar(n % 10)]
  }

  /** `fmt.Sprintf("%d", n)`: a minus sign for negative numbers, then the digits. */
  function FormatInt(n: int): (s: string)
    ensures 0 < |s|
    ensures s[0] == '-' <==> n < 0
    ensures ':' !in s
  {
    if n < 0 then "-" + FormatNat(-n) else FormatNat(n)
  }

  // ---------------------------------------------------------------------------
  // Parsing: strconv.ParseUint and strconv.ParseInt in base 10, 64 bits

  datatype NumError = ErrSyntax | ErrRange

  /** A parse result: Go returns a number together with a possibly nil error. */
  datatype Parsed = Parsed(value: int, err: Option<NumError>)

  /** The smallest n for which n * 10 overflows an unsigned 64-bit integer. */
  const Cutoff: nat := MaxUint64 / 10 + 1

  /** The number the digit string `s` denotes when appended, left to right, to `acc`. */
  function DigitsValue(acc: nat, s: string): nat
    requires AllDigits(s)
    decreases |s|
  {
    if s == [] then acc else DigitsValue(acc * 10 + DigitValue(s[0]), s[1..])
  }

  /**
   * ParseUint's loop over the characters of `s` from the accumulated value `n`:
   * a non-digit is a syntax error; an accumulator that would pass 2^64 - 1 is a
   * range error reported at once, with the largest value, before the rest of
   * the string is looked at.
   */
  function ScanDigits(s: string, n: nat): (r: Parsed)
    requires n <= MaxUint64
    ensures 0 <= r.value <= MaxUint64
    ensures r.err == None ==> AllDigits(s) && r.value == DigitsValue(n, s)
    ensures r.err == Some(ErrSyntax) ==> r.value == 0
    ensures r.err == Some(ErrRange) ==> r.value == MaxUint64
    decreases |s|
  {
    if s == [] then Parsed(n, None)
    else if !IsDigit(s[0]) then Parsed(0, Some(ErrSyntax))
    else if n >= Cutoff then Parsed(MaxUint64, Some(ErrRange))
    else
      var n1 := n * 10 + DigitValue(s[0]);
      if n1 > MaxUint64 then Parsed(MaxUint64, Some(ErrRange))
      else ScanDigits(s[1..], n1)
  }

  /** `strconv.ParseUint(s, 10, 64)`. */
  function ParseUint(s: string): (r: Parsed)
    ensures 0 <= r.value <= MaxUint64
    ensures r.err == None ==> s != [] && AllDigits(s) && r.value == DigitsValue(0, s)
    ensures r.err == Some(ErrSyntax) ==> r.value == 0
    ensures r.err == Some(ErrRange) ==> r.value == MaxUint64
  {
    if s == [] then Parsed(0, Some(ErrSyntax)) else ScanDigits(s, 0)
  }

  /**
   * `strconv.ParseInt(s, 10, 64)`: an optional sign, then ParseUint on the
   * rest; a magnitude outside the int64 range is a range error carrying the
   * nearest bound, a syntax error carries zero.
   */
  function ParseInt(s: string): (r: Parsed)
    ensures MinInt64 <= r.value <= MaxInt64
    ensures r.err == Some(ErrSyntax) ==> r.value == 0
    ensures r.err == Some(ErrRange) ==> s != [] && (r.value == MinInt64 <==> s[0] == '-')
    ensures r.err == Some(ErrRange) ==> r.value == MinInt64 || r.value == MaxInt64
    ensures r.err == None ==>
              && s != []
              && var digits := if s[0] == '+' || s[0] == '-' then s[1..] else s;
              && digits != [] && AllDigits(digits)
              && r.value == if s[0] == '-' then -(DigitsValue(0, digits) as int) else DigitsValue(0, digits)
  {
    if s == [] then Parsed(0, Some(ErrSyntax))
    else
      var neg := s[0] == '-';
      var digits := if s[0] == '+' || s[0] == '-' then s[1..] else s;
      var u := ParseUint(digits);
      if u.err == Some(ErrSyntax) then Parsed(0, u.err)
      else if !neg && u.value > MaxInt64 then Parsed(MaxInt64, Some(ErrRange))
      else if neg && u.value > -MinInt64 then Parsed(MinInt64, Some(ErrRange))
      // a range error from ParseUint carries 2^64 - 1 and stopped above, so u.err is nil here
      else Parsed(if neg then -u.value else u.value, u.err)
  }

  // ---------------------------------------------------------------------------
  // Splitting: strings.Split(s, ":")

  /** `strings.Split(s, ":")`: the pieces between colons, one more than there are colons. */
  function Split(s: string): (parts: seq<string>)
    ensures 0 < |parts|
    ensures forall i :: 0 <= i < |parts| ==> ':' !in parts[i]
    ensures Join(parts) == s
    decreases |s|
  {
    if s == [] then [[]]
    else
      var rest := Split(s[1..]);
      if s[0] == ':' then [[]] + rest
      else [[s[0]] + rest[0]] + rest[1..]
  }

  /** `strings.Join(parts, ":")`, the inverse Split is specified against. */
  function Join(parts: seq<string>): string
    requires 0 < |parts|
  {
    if |parts| == 1 then parts[0] else parts[0] + [':'] + Join(parts[1..])
  }

  // ---------------------------------------------------------------------------
  // Round trips

  lemma {:induction false} DigitsValueAppend(acc: nat, s: string, c: char)
    requires AllDigits(s) && IsDigit(c)
    ensures AllDigits(s + [c])
    ensures DigitsValue(acc, s + [c]) == DigitsValue(acc, s) * 10 + DigitValue(c)
    decreases |s|
  {
    if s != [] {
      assert (s + [c])[1..] == s[1..] + [c];
      DigitsValueAppend(acc * 10 + DigitValue(s[0]), s[1..], c);
    }
  }

  /** Reading back the digits of `n` gives `n`. */
  lemma {:induction false} FormatNatValue(n: nat)
    ensures DigitsValue(0, FormatNat(n)) == n
    decreases n
  {
    if n >= 10 {
      FormatNatValue(n / 10);
      DigitsValueAppend(0, FormatNat(n / 10), DigitChar(n % 10));
    }
  }

  /** An accumulator only grows as digits are appended to it. */
  lemma {:induction false} DigitsValueAtLeast(acc: nat, s: string)
    requires AllDigits(s) && s != []
    ensures DigitsValue(acc, s) >= acc * 10 + DigitValue(s[0])
    decreases |s|
  {
    if |s| > 1 {
      DigitsValueAtLeast(acc * 10 + DigitValue(s[0]), s[1..]);
    }
  }

  /** The scan of a digit string whose value fits in 64 bits never overflows. */
  lemma {:induction false} ScanDigitsFits(s: string, n: nat)
    requires AllDigits(s) && n <= MaxUint64 && DigitsValue(n, s) <= MaxUint64
    ensures ScanDigits(s, n) == Parsed(DigitsValue(n, s), None)
    decreases |s|
  {
    if s != [] {
      var d := DigitValue(s[0]);
      DigitsValueAtLeast(n, s);
      assert n * 10 <= MaxUint64;
      assert n < Cutoff;
      ScanDigitsFits(s[1..], n * 10 + d);
    }
  }

  /** Every 64-bit integer survives `%d` followed by ParseInt, negative ones included. */
  lemma ParseFormatInt(n: Int64)
    ensures ParseInt(FormatInt(n)) == Parsed(n, None)
  {
    var m: nat := if n < 0 then -(n as int) else n;
    FormatNatValue(m);
    ScanDigitsFits(FormatNat(m), 0);
    if n < 0 {
      assert ("-" + FormatNat(m))[1..] == FormatNat(m);
    }
  }

  /** `%d` is injective: equal texts come from equal numbers. */
  lemma FormatIntInjective(a: Int64, b: Int64)
    requires FormatInt(a) == FormatInt(b)
    ensures a == b
  {
    ParseFormatInt(a);
    ParseFormatInt(b);
  }

  /** A colon-free string splits into itself. */
  lemma SplitColonFree(s: string)
    requires ':' !in s
    ensures Split(s) == [s]
  {
  }

  /** Splitting at the first colon: a colon-free head is the first piece. */
  lemma {:induction false} SplitAtColon(a: string, b: string)
    requires ':' !in a
    ensures Split(a + [':'] + b) == [a] + Split(b)
    decreases |a|
  {
    var s := a + [':'] + b;
    if a == [] {
      assert s[1..] == b;
    } else {
      assert s[1..] == a[1..] + [':'] + b;
      assert ':' !in a[1..] by {
        forall i | 0 <= i < |a| - 1 ensures a[1..][i] != ':' { assert a[1..][i] == a[i + 1]; }
      }
      SplitAtColon(a[1..], b);
      assert [a[0]] + a[1..] == a;
    }
  }

  /** `"%d:%d"` splits back into its two numbers' texts. */
  lemma SplitColonPair(a: int, b: int)
    ensures Split(FormatInt(a) + ":" + FormatInt(b)) == [FormatInt(a), FormatInt(b)]
  {
    SplitAtColon(FormatInt(a), FormatInt(b));
    SplitColonFree(FormatInt(b));
  }
}

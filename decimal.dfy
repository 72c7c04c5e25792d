/**
 * Decimal text as the C library reads and writes it: `%d` / `%ld` output,
 * the `%d` conversion of sscanf, and the base-10 strtol family.  Shared by the
 * version parser, the integer helper of the Cloud-Hypervisor driver
 * configuration and the Content-Length header of the network hand-off.
 * Also the byte length strlen gives a text: its UTF-8 encoding's length.
 */
module Decimal {

  datatype Option<+T> = None | Some(value: T)

  /** A scanned number and the text that follows it. */
  datatype Scan = Scan(value: int, rest: string)

  predicate IsDigit(c: char) { '0' <= c <= '9' }

  /** isspace() in the C locale. */
  predicate IsSpace(c: char) {
    c == ' ' || c == '\t' || c == '\n' || c == '\U{B}' || c == '\U{C}' || c == '\r'
  }

  predicate AllDigits(s: string) { forall i :: 0 <= i < |s| ==> IsDigit(s[i]) }

  function DigitChar(d: nat): (c: char)
    requires d < 10
    ensures IsDigit(c)
  {
    ['0', '1', '2', '3', '4', '5', '6', '7', '8', '9'][d]
  }

  function DigitValue(c: char): (d: nat)
    requires IsDigit(c)
    ensures d < 10
  {
    (c as int - '0' as int) as nat
  }

  lemma DigitCharValue(d: nat)
    requires d < 10
    ensures DigitValue(DigitChar(d)) == d
  {
  }

  /** The decimal rendering printf gives a non-negative number. */
  function NatToString(n: nat): (s: string)
    ensures 1 <= |s| && AllDigits(s)
  {
    if n < 10 then [DigitChar(n)] else NatToString(n / 10) + [DigitChar(n % 10)]
  }

  /** The decimal rendering printf gives a signed number. */
  function IntToString(i: int): (s: string)
    ensures 1 <= |s|
  {
    if i < 0 then "-" + NatToString(-i) else NatToString(i)
  }

  /** The value of a string of digits, most significant first. */
  function DigitsValue(s: string): nat
    requires AllDigits(s)
  {
    if s == [] then 0 else 10 * DigitsValue(s[..|s| - 1]) + DigitValue(s[|s| - 1])
  }

  /** Length of the run of digits at the head of s. */
  function LeadingDigits(s: string): (k: nat)
    ensures k <= |s| && AllDigits(s[..k])
    ensures k < |s| ==> !IsDigit(s[k])
  {
    if s != [] && IsDigit(s[0]) then
      var k := 1 + LeadingDigits(s[1..]);
      assert s[..k] == [s[0]] + s[1..][..k - 1];
      k
    else 0
  }

  /**
   * The `%d` conversion: leading white space, an optional sign, then at least
   * one digit; the longest run of digits is taken.  Overflow of the C `int`
   * is not modelled.
   */
  function ScanInt(s: string): (r: Option<Scan>)
    ensures r.Some? ==> |r.value.rest| < |s|
  {
    if s != [] && IsSpace(s[0]) then ScanInt(s[1..])
    else if s != [] && (s[0] == '-' || s[0] == '+') then ScanDigits(s[1..], s[0] == '-')
    else ScanDigits(s, false)
  }

  /** At least one digit, the longest run taken, negated when neg holds. */
  function ScanDigits(u: string, neg: bool): (r: Option<Scan>)
    ensures r.Some? ==> |r.value.rest| < |u|
  {
    var k := LeadingDigits(u);
    if k == 0 then None
    else
      var n: int := DigitsValue(u[..k]);
      Some(Scan(if neg then -n else n, u[k..]))
  }

  /** printf's rendering read back gives the number. */
  lemma {:induction false} NatToStringValue(n: nat)
    ensures DigitsValue(NatToString(n)) == n
  {
    var s := NatToString(n);
    if n < 10 {
      DigitCharValue(n);
    } else {
      assert s[..|s| - 1] == NatToString(n / 10);
      NatToStringValue(n / 10);
      DigitCharValue(n % 10);
    }
  }

  /** printf's rendering is exactly the run of digits a reader takes. */
  lemma {:induction false} NatToStringDigits(n: nat, rest: string)
    requires rest == [] || !IsDigit(rest[0])
    ensures LeadingDigits(NatToString(n) + rest) == |NatToString(n)|
  {
    var s := NatToString(n) + rest;
    LeadingDigitsOfDigits(NatToString(n), rest);
  }

  lemma {:induction false} LeadingDigitsOfDigits(d: string, rest: string)
    requires AllDigits(d)
    requires rest == [] || !IsDigit(rest[0])
    ensures LeadingDigits(d + rest) == |d|
    decreases |d|
  {
    if d == [] {
      assert d + rest == rest;
    } else {
      assert (d + rest)[1..] == d[1..] + rest;
      LeadingDigitsOfDigits(d[1..], rest);
    }
  }

  /** Scanning what printf wrote for a signed number gives the number back. */
  lemma ScanIntToString(i: int, rest: string)
    requires rest == [] || !IsDigit(rest[0])
    ensures ScanInt(IntToString(i) + rest) == Some(Scan(i, rest))
  {
    if i < 0 {
      ScanNegative(-i, rest);
    } else {
      ScanNonNegative(i, rest);
    }
  }

  /** The number of bytes UTF-8 encodes a character in. */
  function Utf8Width(c: char): (w: nat)
    ensures 1 <= w <= 4
    ensures w == 1 <==> c as int < 0x80
  {
    if c as int < 0x80 then 1
    else if c as int < 0x800 then 2
    else if c as int < 0x1_0000 then 3
    else 4
  }

  /** strlen of a text's UTF-8 encoding: its bytes, not its characters. */
  function Utf8Len(s: string): (n: nat)
    ensures |s| <= n <= 4 * |s|
  {
    if s == [] then 0 else Utf8Width(s[0]) + Utf8Len(s[1..])
  }

  predicate Ascii(s: string) { forall i :: 0 <= i < |s| ==> s[i] as int < 0x80 }

  /** A text counts as many bytes as characters exactly when it is ASCII. */
  lemma {:induction false} Utf8LenAscii(s: string)
    ensures Utf8Len(s) == |s| <==> Ascii(s)
  {
    if s != [] {
      Utf8LenAscii(s[1..]);
      assert Ascii(s) <==> s[0] as int < 0x80 && Ascii(s[1..]) by {
        if s[0] as int < 0x80 && Ascii(s[1..]) {
          forall i | 0 <= i < |s| ensures s[i] as int < 0x80 {
            if i > 0 {
              assert s[i] == s[1..][i - 1];
            }
          }
        }
      }
    }
  }

  /** An accented letter is one character and two bytes. */
  lemma Utf8LenAccent()
    ensures Utf8Len("\U{e9}") == 2 && |"\U{e9}"| == 1
  {
  }

  predicate StartsWith(s: string, p: string) { |p| <= |s| && s[..|p|] == p }
  predicate EndsWith(s: string, p: string) { |p| <= |s| && s[|s| - |p|..] == p }

  lemma ConcatAssoc<T>(a: seq<T>, b: seq<T>, c: seq<T>)
    ensures (a + b) + c == a + (b + c)
  {
  }

  /** `%d` on a sign followed by d reads d's digits with that sign. */
  lemma ScanIntSigned(d: string, neg: bool)
    ensures ScanInt((if neg then "-" else "+") + d) == ScanDigits(d, neg)
  {
    var s := (if neg then "-" else "+") + d;
    assert s[1..] == d;
  }

  /** `%d` on a string starting with a digit reads its digits. */
  lemma ScanIntUnsigned(s: string)
    requires s != [] && IsDigit(s[0])
    ensures ScanInt(s) == ScanDigits(s, false)
  {
  }

  lemma ScanNonNegative(m: nat, rest: string)
    requires rest == [] || !IsDigit(rest[0])
    ensures ScanInt(IntToString(m) + rest) == Some(Scan(m, rest))
  {
    var s := NatToString(m) + rest;
    assert IntToString(m) == NatToString(m);
    assert IsDigit(s[0]);
    ScanIntUnsigned(s);
    ScanDigitsOf(m, rest);
  }

  lemma ScanNegative(m: nat, rest: string)
    requires m > 0
    requires rest == [] || !IsDigit(rest[0])
    ensures ScanInt(IntToString(-(m as int)) + rest) == Some(Scan(-(m as int), rest))
  {
    var d := NatToString(m) + rest;
    var s := "-" + d;
    ConcatAssoc("-", NatToString(m), rest);
    ScanIntSigned(d, true);
    ScanDigitsOf(m, rest);
  }

  lemma ScanDigitsOf(m: nat, rest: string)
    requires rest == [] || !IsDigit(rest[0])
    ensures ScanDigits(NatToString(m) + rest, false) == Some(Scan(m, rest))
    ensures ScanDigits(NatToString(m) + rest, true) == Some(Scan(-(m as int), rest))
  {
    var d := NatToString(m);
    var u := d + rest;
    NatToStringDigits(m, rest);
    assert u[..|d|] == d;
    NatToStringValue(m);
    assert u[|d|..] == rest;
  }
}

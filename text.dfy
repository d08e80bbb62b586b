/** The string operations of Go's standard library that the contract layer relies
    on: `strings.TrimSpace`, `strings.Join`, `strings.TrimSuffix` and the `%d`
    verb of `fmt.Sprintf`. Strings are sequences of code points. */
module Text {

  /** Go's `unicode.IsSpace`: the six ASCII spaces, U+0085, U+00A0 and the other
      code points with the Unicode White_Space property. */
  function IsSpace(c: char): (b: bool)
    ensures c as int < 0x80 ==> (b <==> c as int in {0x09, 0x0A, 0x0B, 0x0C, 0x0D, 0x20})
  {
    var n := c as int;
    (0x09 <= n <= 0x0D) || n == 0x20 || n == 0x85 || n == 0xA0 || n == 0x1680
    || (0x2000 <= n <= 0x200A) || n == 0x2028 || n == 0x2029 || n == 0x202F
    || n == 0x205F || n == 0x3000
  }

  predicate AllSpace(s: string) {
    forall i :: 0 <= i < |s| ==> IsSpace(s[i])
  }

  /** Every character of `s` at a position in [lo, hi) is white space. */
  predicate SpacesIn(s: string, lo: int, hi: int)
    requires 0 <= lo <= hi <= |s|
  {
    forall k :: lo <= k < hi ==> IsSpace(s[k])
  }

  /** Neither end of `s` is white space. */
  predicate IsTrimmed(s: string) {
    s == [] || (!IsSpace(s[0]) && !IsSpace(s[|s| - 1]))
  }

  predicate HasPrefix(s: string, prefix: string) {
    |prefix| <= |s| && s[..|prefix|] == prefix
  }

  predicate HasSuffix(s: string, suffix: string) {
    |suffix| <= |s| && s[|s| - |suffix|..] == suffix
  }

  /** The length of the longest all-space prefix of `s`. */
  function LeadingSpaces(s: string): (n: nat)
    ensures n <= |s|
    ensures SpacesIn(s, 0, n)
    ensures n < |s| ==> !IsSpace(s[n])
  {
    if |s| > 0 && IsSpace(s[0]) then 1 + LeadingSpaces(s[1..]) else 0
  }

  /** The length of the longest all-space suffix of `s`. */
  function TrailingSpaces(s: string): (n: nat)
    ensures n <= |s|
    ensures SpacesIn(s, |s| - n, |s|)
    ensures n < |s| ==> !IsSpace(s[|s| - 1 - n])
  {
    if |s| > 0 && IsSpace(s[|s| - 1]) then 1 + TrailingSpaces(s[..|s| - 1]) else 0
  }

  /** Cutting `s` down to `s[i..j]` removes white space only, and leaves no white
      space at either end of what remains. */
  ghost predicate TrimBounds(s: string, i: int, j: int) {
    && 0 <= i <= j <= |s|
    && SpacesIn(s, 0, i)
    && SpacesIn(s, j, |s|)
    && (i < j ==> !IsSpace(s[i]) && !IsSpace(s[j - 1]))
  }

  /** `r` is what remains of `s` once white space is cut from both ends. */
  ghost predicate StripsTo(s: string, r: string) {
    exists i, j :: TrimBounds(s, i, j) && r == s[i..j]
  }

  /** Go's `strings.TrimSpace`: cuts the leading and the trailing white space. */
  function TrimSpace(s: string): (r: string)
    ensures IsTrimmed(r)
    ensures |r| <= |s|
  {
    var i := LeadingSpaces(s);
    var j := |s| - TrailingSpaces(s[i..]);
    s[i..j]
  }

  /** TrimSpace removes white space only, from the two ends only. */
  lemma TrimSpaceStrips(s: string)
    ensures StripsTo(s, TrimSpace(s))
  {
    var i := LeadingSpaces(s);
    var j := |s| - TrailingSpaces(s[i..]);
    assert TrimBounds(s, i, j);
  }

  /** Trimming leaves nothing exactly when the string is all white space. */
  lemma TrimSpaceEmpty(s: string)
    ensures TrimSpace(s) == [] <==> AllSpace(s)
  {
    var i := LeadingSpaces(s);
    var j := |s| - TrailingSpaces(s[i..]);
    assert TrimBounds(s, i, j);
  }

  /** Two ways of trimming `s` keep the same characters. */
  lemma TrimBoundsUnique(s: string, i1: int, j1: int, i2: int, j2: int)
    requires TrimBounds(s, i1, j1) && TrimBounds(s, i2, j2)
    ensures s[i1..j1] == s[i2..j2]
  {
    if i1 < j1 && i2 < j2 {
      assert i1 == i2 && j1 == j2;
    }
  }

  /** Trimming has exactly one possible outcome. */
  lemma StripsToUnique(s: string, r1: string, r2: string)
    requires StripsTo(s, r1) && StripsTo(s, r2)
    ensures r1 == r2
  {
    var i1, j1 :| TrimBounds(s, i1, j1) && r1 == s[i1..j1];
    var i2, j2 :| TrimBounds(s, i2, j2) && r2 == s[i2..j2];
    TrimBoundsUnique(s, i1, j1, i2, j2);
  }

  /** Any way of cutting white space from the ends down to a trimmed remainder
      is what TrimSpace does. */
  lemma TrimSpaceOfBounds(s: string, i: int, j: int)
    requires TrimBounds(s, i, j)
    ensures TrimSpace(s) == s[i..j]
  {
    TrimSpaceStrips(s);
    StripsToUnique(s, s[i..j], TrimSpace(s));
  }

  /** A string with no white space at either end is its own trim. */
  lemma TrimSpaceOfTrimmed(s: string)
    requires IsTrimmed(s)
    ensures TrimSpace(s) == s
  {
    assert TrimBounds(s, 0, |s|) && s[0..|s|] == s;
    TrimSpaceOfBounds(s, 0, |s|);
  }

  /** Go's `strings.Join`. */
  function Join(elems: seq<string>, sep: string): (r: string)
    ensures elems == [] ==> r == ""
    ensures elems != [] ==> HasPrefix(r, elems[0])
  {
    if |elems| == 0 then ""
    else if |elems| == 1 then elems[0]
    else elems[0] + sep + Join(elems[1..], sep)
  }

  predicate NoComma(s: string) {
    forall i :: 0 <= i < |s| ==> s[i] != ','
  }

  /** Every element is non-empty and free of commas. */
  predicate PlainNames(names: seq<string>) {
    forall k :: 0 <= k < |names| ==> names[k] != "" && NoComma(names[k])
  }

  /** Two comma-free heads followed by tails that are empty or start with a comma
      can only concatenate to the same string if heads and tails agree. */
  lemma SplitAtFirstComma(x: string, y: string, x': string, y': string)
    requires NoComma(x) && NoComma(x')
    requires y == [] || y[0] == ','
    requires y' == [] || y'[0] == ','
    requires x + y == x' + y'
    ensures x == x' && y == y'
  {
    var s := x + y;
    assert x == s[..|x|] && x' == s[..|x'|];
    assert y == s[|x|..] && y' == s[|x'|..];
  }

  /** Joining non-empty, comma-free names with ", " loses no information: the
      joined text determines the list. */
  lemma {:induction false} JoinInjective(a: seq<string>, b: seq<string>)
    requires PlainNames(a) && PlainNames(b)
    requires Join(a, ", ") == Join(b, ", ")
    ensures a == b
  {
    if a == [] || b == [] {
    } else {
      var ta := if |a| == 1 then "" else ", " + Join(a[1..], ", ");
      var tb := if |b| == 1 then "" else ", " + Join(b[1..], ", ");
      assert Join(a, ", ") == a[0] + ta;
      assert Join(b, ", ") == b[0] + tb;
      SplitAtFirstComma(a[0], ta, b[0], tb);
      if |a| > 1 && |b| > 1 {
        assert Join(a[1..], ", ") == ta[2..] == tb[2..] == Join(b[1..], ", ");
        assert PlainNames(a[1..]) by { forall k | 0 <= k < |a| - 1 ensures a[1..][k] == a[k + 1] { } }
        assert PlainNames(b[1..]) by { forall k | 0 <= k < |b| - 1 ensures b[1..][k] == b[k + 1] { } }
        JoinInjective(a[1..], b[1..]);
        assert a == [a[0]] + a[1..] && b == [b[0]] + b[1..];
      }
    }
  }

  /** Go's `strings.TrimSuffix`: removes one occurrence of `suffix` at the end. */
  function TrimSuffix(s: string, suffix: string): (r: string)
    ensures HasSuffix(s, suffix) ==> r + suffix == s
    ensures !HasSuffix(s, suffix) ==> r == s
  {
    if HasSuffix(s, suffix) then s[..|s| - |suffix|] else s
  }

  predicate IsDigit(c: char) {
    '0' <= c <= '9'
  }

  function DigitChar(d: nat): (c: char)
    requires d < 10
    ensures IsDigit(c)
  {
    ('0' as int + d) as char
  }

  predicate IsDigits(s: string) {
    forall i :: 0 <= i < |s| ==> IsDigit(s[i])
  }

  /** Decimal digits of `n`, most significant first, without leading zeros. */
  function NatToDecimal(n: nat): (r: string)
    ensures |r| > 0 && IsDigits(r)
    ensures r[0] == '0' ==> n == 0
    ensures |r| > 1 ==> r[0] != '0'
  {
    if n < 10 then [DigitChar(n)] else NatToDecimal(n / 10) + [DigitChar(n % 10)]
  }

  /** The `%d` rendering of a Go `int`: a minus sign before negative values. */
  function IntToDecimal(n: int): (r: string)
    ensures |r| > 0
    ensures n < 0 <==> r[0] == '-'
    ensures n < 0 ==> IsDigits(r[1..])
    ensures 0 <= n ==> IsDigits(r)
    ensures |r| > 1 && r[0] != '-' ==> r[0] != '0'
    ensures n < 0 ==> |r| > 1 && r[1] != '0'
  {
    if n < 0 then "-" + NatToDecimal(-n) else NatToDecimal(n)
  }

  /** The value of a string of decimal digits: the inverse of NatToDecimal. */
  function DecimalValue(s: string): nat
    requires IsDigits(s)
  {
    if s == [] then 0 else 10 * DecimalValue(s[..|s| - 1]) + (s[|s| - 1] as int - '0' as int)
  }

  /** The value of an optionally signed decimal string: the inverse of IntToDecimal. */
  function ParseInt(s: string): int
    requires if |s| > 0 && s[0] == '-' then IsDigits(s[1..]) else IsDigits(s)
  {
    if |s| > 0 && s[0] == '-' then 0 - DecimalValue(s[1..]) else DecimalValue(s)
  }

  lemma {:induction false} NatToDecimalRoundTrip(n: nat)
    ensures DecimalValue(NatToDecimal(n)) == n
  {
    if n >= 10 {
      var p := NatToDecimal(n / 10);
      var r := p + [DigitChar(n % 10)];
      assert r[..|r| - 1] == p;
      NatToDecimalRoundTrip(n / 10);
    }
  }

  /** Reading back the `%d` rendering of an integer gives the integer. */
  lemma IntToDecimalRoundTrip(n: int)
    ensures ParseInt(IntToDecimal(n)) == n
  {
    if n < 0 {
      assert IntToDecimal(n)[1..] == NatToDecimal(-n);
      NatToDecimalRoundTrip(-n);
    } else {
      NatToDecimalRoundTrip(n);
    }
  }
}

/** The JavaScript string operations the system relies on: `trim`, `join`, and the
    decimal rendering of a non-negative integer inside a template literal.
    Characters are Unicode scalar values, not UTF-16 code units. */
module JsText {

  /** The characters `String.prototype.trim` removes: ECMAScript WhiteSpace and
      LineTerminator code points. */
  predicate IsWhite(c: char) {
    || c == '\t' || c == '\n' || c == '\U{000B}' || c == '\U{000C}' || c == '\r'
    || c == ' ' || c == '\U{00A0}' || c == '\U{1680}'
    || ('\U{2000}' <= c <= '\U{200A}')
    || c == '\U{2028}' || c == '\U{2029}' || c == '\U{202F}' || c == '\U{205F}'
    || c == '\U{3000}' || c == '\U{FEFF}'
  }

  predicate AllWhite(s: string) {
    forall i | 0 <= i < |s| :: IsWhite(s[i])
  }

  /** Drops leading white space: the result is the suffix of `s` that starts at
      its first non-white character. */
  function TrimStart(s: string): (r: string)
    ensures |r| <= |s| && r == s[|s| - |r|..]
    ensures AllWhite(s[..|s| - |r|])
    ensures |r| > 0 ==> !IsWhite(r[0])
  {
    if |s| > 0 && IsWhite(s[0]) then TrimStart(s[1..]) else s
  }

  /** Drops trailing white space: the result is the prefix of `s` that ends at
      its last non-white character. */
  function TrimEnd(s: string): (r: string)
    ensures |r| <= |s| && r == s[..|r|]
    ensures AllWhite(s[|r|..])
    ensures |r| > 0 ==> !IsWhite(r[|r| - 1])
  {
    if |s| > 0 && IsWhite(s[|s| - 1]) then TrimEnd(s[..|s| - 1]) else s
  }

  /** `s.trim()`. */
  function Trim(s: string): (r: string)
    ensures |r| <= |s|
    ensures |r| > 0 ==> !IsWhite(r[0]) && !IsWhite(r[|r| - 1])
    ensures r == [] <==> AllWhite(s)
    ensures exists i, k | 0 <= i <= k <= |s| :: r == s[i..k] && AllWhite(s[..i]) && AllWhite(s[k..])
  {
    var a := TrimStart(s);
    var r := TrimEnd(a);
    WhiteFramedSlice(s, a, r);
    r
  }

  /** A prefix of a suffix of `s`, with only white space cut from either
      side, is a slice of `s` between a white-only prefix and a white-only
      suffix. */
  lemma WhiteFramedSlice(s: string, a: string, r: string)
    requires |a| <= |s| && a == s[|s| - |a|..] && AllWhite(s[..|s| - |a|])
    requires |r| <= |a| && r == a[..|r|] && AllWhite(a[|r|..])
    ensures exists i, k | 0 <= i <= k <= |s| :: r == s[i..k] && AllWhite(s[..i]) && AllWhite(s[k..])
  {
    var i := |s| - |a|;
    var k := i + |r|;
    assert a[|r|..] == s[k..];
    assert r == s[i..k];
  }

  /** Trimming a trimmed string changes nothing. */
  lemma TrimIdempotent(s: string)
    ensures Trim(Trim(s)) == Trim(s)
  {
    var t := Trim(s);
    if |t| > 0 {
      assert TrimStart(t) == t;
      assert TrimEnd(t) == t;
    }
  }

  /** The string starts and ends with a non-white character. */
  predicate SolidEnds(x: string) {
    |x| > 0 && !IsWhite(x[0]) && !IsWhite(x[|x| - 1])
  }

  /** A string that starts and ends with a non-white character is its own trim. */
  lemma TrimKeeps(x: string)
    requires SolidEnds(x)
    ensures Trim(x) == x
  {
    assert TrimStart(x) == x;
  }

  /** A template literal `\n...\n` whose inner text starts and ends with a
      non-white character trims to exactly that inner text. */
  lemma TrimFramed(x: string)
    requires SolidEnds(x)
    ensures Trim("\n" + x + "\n") == x
  {
    var s := "\n" + x + "\n";
    assert s[1..] == x + "\n";
    assert TrimStart(s) == TrimStart(x + "\n");
    assert TrimStart(x + "\n") == x + "\n";
    assert (x + "\n")[..|x|] == x;
    assert TrimEnd(x + "\n") == TrimEnd(x);
  }

  /** A string opening with a non-white first part and closing with a non-white
      last part has non-white ends, whatever lies between. */
  lemma NonWhiteEnds(head: string, body: string, tail: string)
    requires |head| > 0 && !IsWhite(head[0])
    requires |tail| > 0 && !IsWhite(tail[|tail| - 1])
    ensures SolidEnds(head + body + tail)
  {
  }

  /** `xs.join(sep)`. */
  function Join(xs: seq<string>, sep: string): (r: string)
    ensures xs == [] ==> r == []
    ensures |xs| == 1 ==> r == xs[0]
    ensures |xs| > 0 ==> |r| >= |xs[0]| && r[..|xs[0]|] == xs[0]
  {
    if |xs| == 0 then []
    else if |xs| == 1 then xs[0]
    else xs[0] + sep + Join(xs[1..], sep)
  }

  /** Appending one element to a non-empty list appends the separator and that
      element to its join. */
  lemma {:induction false} JoinSnoc(xs: seq<string>, x: string, sep: string)
    requires |xs| > 0
    ensures Join(xs + [x], sep) == Join(xs, sep) + sep + x
  {
    if |xs| == 1 {
      assert (xs + [x])[1..] == [x];
    } else {
      assert (xs + [x])[1..] == xs[1..] + [x];
      JoinSnoc(xs[1..], x, sep);
    }
  }

  predicate IsDigit(c: char) {
    '0' <= c <= '9'
  }

  function DigitChar(d: nat): (c: char)
    requires d < 10
    ensures IsDigit(c)
  {
    "0123456789"[d]
  }

  function DigitValue(c: char): (d: nat)
    requires IsDigit(c)
    ensures d < 10
  {
    (c as int - '0' as int) as nat
  }

  /** The decimal reading of a string of digits (the reference for Decimal). */
  function DecimalValue(s: string): nat
    requires forall i | 0 <= i < |s| :: IsDigit(s[i])
  {
    if |s| == 0 then 0
    else DecimalValue(s[..|s| - 1]) * 10 + DigitValue(s[|s| - 1])
  }

  /** `${n}` for a non-negative integer: its shortest decimal spelling. */
  function Decimal(n: nat): (r: string)
    ensures |r| > 0
    ensures forall i | 0 <= i < |r| :: IsDigit(r[i])
    ensures |r| > 1 ==> r[0] != '0'
  {
    if n < 10 then [DigitChar(n)]
    else Decimal(n / 10) + [DigitChar(n % 10)]
  }

  /** Reading the decimal spelling back gives the number. */
  lemma {:induction false} DecimalRoundTrip(n: nat)
    ensures DecimalValue(Decimal(n)) == n
  {
    var r := Decimal(n);
    if n < 10 {
      assert r[..0] == [];
    } else {
      assert r[..|r| - 1] == Decimal(n / 10);
      DecimalRoundTrip(n / 10);
    }
  }

  /** Distinct numbers have distinct spellings. */
  lemma DecimalInjective(a: nat, b: nat)
    ensures Decimal(a) == Decimal(b) <==> a == b
  {
    if Decimal(a) == Decimal(b) {
      DecimalRoundTrip(a);
      DecimalRoundTrip(b);
    }
  }

  /** The number of digits at the front of `s`. */
  function DigitRun(s: string): (n: nat)
    ensures n <= |s|
  {
    if |s| > 0 && IsDigit(s[0]) then 1 + DigitRun(s[1..]) else 0
  }

  /** A run of digits followed by a non-digit is exactly as long as the run. */
  lemma {:induction false} DigitRunLength(d: string, t: string)
    requires forall i | 0 <= i < |d| :: IsDigit(d[i])
    requires |t| > 0 && !IsDigit(t[0])
    ensures DigitRun(d + t) == |d|
  {
    if |d| > 0 {
      assert (d + t)[1..] == d[1..] + t;
      DigitRunLength(d[1..], t);
    } else {
      assert d + t == t;
    }
  }

  /** A decimal spelling followed by a suffix that does not start with a digit
      determines both the number and the suffix. */
  lemma DecimalThenSuffix(a: nat, sa: string, b: nat, sb: string)
    requires |sa| > 0 && !IsDigit(sa[0]) && |sb| > 0 && !IsDigit(sb[0])
    requires Decimal(a) + sa == Decimal(b) + sb
    ensures a == b && sa == sb
  {
    var da, db := Decimal(a), Decimal(b);
    var s := da + sa;
    DigitRunLength(da, sa);
    DigitRunLength(db, sb);
    assert da == s[..|da|] == db;
    DecimalInjective(a, b);
    assert sa == s[|da|..] == sb;
  }
}

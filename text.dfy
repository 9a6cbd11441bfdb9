/** The two pieces of Python's string behaviour the Product class relies on:
    `str.strip()` with no arguments (used to reject blank names) and `str(int)`
    (used when a product renders its price and quantity). */
module PyText {

  /** The characters Python's `str.isspace` accepts, which are exactly the ones
      `str.strip()` removes when called without arguments: the ASCII controls
      TAB..CR and FS..US, the space, NEL, NO-BREAK SPACE and the Unicode
      space separators and line/paragraph separators. */
  predicate IsSpace(c: char) {
    ('\t' <= c <= '\r') || ('\U{1C}' <= c <= ' ') || c == '\U{85}' || c == '\U{A0}'
    || c == '\U{1680}' || ('\U{2000}' <= c <= '\U{200A}') || c == '\U{2028}' || c == '\U{2029}'
    || c == '\U{202F}' || c == '\U{205F}' || c == '\U{3000}'
  }

  /** Every character of `s` is whitespace (the empty string included). */
  predicate Blank(s: string) {
    forall i :: 0 <= i < |s| ==> IsSpace(s[i])
  }

  /** Removes leading whitespace: the result is a suffix of `s` that does not
      start with whitespace, and everything cut off was whitespace. */
  function LStrip(s: string): (r: string)
    ensures |r| <= |s| && r == s[|s| - |r|..]
    ensures r == [] || !IsSpace(r[0])
    ensures forall i :: 0 <= i < |s| - |r| ==> IsSpace(s[i])
    decreases |s|
  {
    if |s| > 0 && IsSpace(s[0]) then
      var r := LStrip(s[1..]);
      assert forall i :: 1 <= i < |s| - |r| ==> s[i] == s[1..][i - 1];
      r
    else s
  }

  /** Removes trailing whitespace: the result is a prefix of `s` that does not
      end with whitespace, and everything cut off was whitespace. */
  function RStrip(s: string): (r: string)
    ensures |r| <= |s| && r == s[..|r|]
    ensures r == [] || !IsSpace(r[|r| - 1])
    ensures forall i :: |r| <= i < |s| ==> IsSpace(s[i])
    decreases |s|
  {
    if |s| > 0 && IsSpace(s[|s| - 1]) then RStrip(s[..|s| - 1]) else s
  }

  /** Python's `s.strip()`: the middle slice of `s` that neither starts nor
      ends with whitespace, with only whitespace cut off on either side. */
  function Strip(s: string): (r: string)
    ensures |r| <= |s|
    ensures r == [] || (!IsSpace(r[0]) && !IsSpace(r[|r| - 1]))
    ensures var k := |s| - |LStrip(s)|;
            k + |r| <= |s| && r == s[k..k + |r|] &&
            (forall i :: 0 <= i < k ==> IsSpace(s[i])) &&
            (forall i :: k + |r| <= i < |s| ==> IsSpace(s[i]))
  {
    PrefixOfSuffix(s, LStrip(s), RStrip(LStrip(s)));
    RStrip(LStrip(s))
  }

  /** A prefix `r` of a suffix `l` of `s` is a slice of `s`; whatever `r` leaves
      of `l` is whitespace in `s` as well. */
  lemma PrefixOfSuffix(s: string, l: string, r: string)
    requires |l| <= |s| && l == s[|s| - |l|..]
    requires |r| <= |l| && r == l[..|r|]
    requires forall i :: |r| <= i < |l| ==> IsSpace(l[i])
    ensures var k := |s| - |l|;
            r == s[k..k + |r|] && (forall i :: k + |r| <= i < |s| ==> IsSpace(s[i]))
  {
    var k := |s| - |l|;
    forall i | k + |r| <= i < |s| ensures IsSpace(s[i]) {
      assert s[i] == l[i - k];
    }
  }

  /** `s.strip() == ''` holds exactly when every character of `s` is whitespace. */
  lemma StripEmptyIffBlank(s: string)
    ensures Strip(s) == [] <==> Blank(s)
  {
  }

  predicate IsDigit(c: char) {
    '0' <= c <= '9'
  }

  function DigitChar(d: int): (c: char)
    requires 0 <= d < 10
    ensures IsDigit(c)
  {
    ('0' as int + d) as char
  }

  function DigitValue(c: char): (d: int)
    requires IsDigit(c)
    ensures 0 <= d < 10 && DigitChar(d) == c
  {
    c as int - '0' as int
  }

  /** Decimal digits of `n`, most significant first, with no leading zero. */
  function NatStr(n: nat): (r: string)
    ensures |r| >= 1
    ensures forall i :: 0 <= i < |r| ==> IsDigit(r[i])
    ensures r[0] == '0' <==> n == 0
    ensures n == 0 ==> r == "0"
  {
    if n < 10 then [DigitChar(n)] else NatStr(n / 10) + [DigitChar(n % 10)]
  }

  /** Python's `str(n)` for an `int`: an optional minus sign followed by the
      decimal digits of the magnitude. */
  function IntStr(n: int): (r: string)
    ensures |r| >= 1
    ensures (r[0] == '-') <==> n < 0
    ensures forall i :: 0 <= i < |r| ==> IsDigit(r[i]) || (i == 0 && r[i] == '-')
    ensures n >= 0 ==> ParseNat(r) == n
    ensures n < 0 ==> ParseNat(r[1..]) == -n
    ensures var d := if n < 0 then r[1..] else r; |d| >= 1 && (d[0] == '0' ==> d == "0")
  {
    if n < 0 then
      ParseNatStr(-n);
      var r := "-" + NatStr(-n);
      assert r[1..] == NatStr(-n);
      r
    else
      ParseNatStr(n);
      NatStr(n)
  }

  /** The value of a string of decimal digits. */
  function ParseNat(s: string): nat
    requires forall i :: 0 <= i < |s| ==> IsDigit(s[i])
  {
    if s == [] then 0 else ParseNat(s[..|s| - 1]) * 10 + DigitValue(s[|s| - 1])
  }

  /** Reading the digits back gives the number. */
  lemma {:induction false} ParseNatStr(n: nat)
    ensures ParseNat(NatStr(n)) == n
  {
    if n >= 10 {
      var r := NatStr(n);
      assert r[..|r| - 1] == NatStr(n / 10);
      ParseNatStr(n / 10);
    }
  }

  /** Different natural numbers have different digits. */
  lemma NatStrInjective(m: nat, n: nat)
    requires NatStr(m) == NatStr(n)
    ensures m == n
  {
    ParseNatStr(m);
    ParseNatStr(n);
  }

  /** `str(int)` loses nothing: different integers render differently. */
  lemma IntStrInjective(a: int, b: int)
    requires IntStr(a) == IntStr(b)
    ensures a == b
  {
    var r := IntStr(a);
    if a < 0 {
      assert b < 0;
      assert r == "-" + NatStr(-a) == "-" + NatStr(-b);
      assert NatStr(-a) == r[1..] == NatStr(-b);
      NatStrInjective(-a, -b);
    } else {
      assert b >= 0;
      NatStrInjective(a, b);
    }
  }

  /** A rendered integer never contains a comma. */
  lemma IntStrHasNoComma(n: int)
    ensures ',' !in IntStr(n)
  {
  }

  /** When two strings are cut at the first occurrence of a separator that
      starts with a comma, and the parts before it hold no comma, the cut is
      unambiguous. */
  lemma {:induction false} SplitAtComma(a: string, b: string, c: string, d: string, sep: string)
    requires |sep| > 0 && sep[0] == ','
    requires ',' !in a && ',' !in c
    requires a + sep + b == c + sep + d
    ensures a == c && b == d
  {
    var x := a + sep + b;
    assert x[|a|] == ',' && x[|c|] == ',';
    assert forall i :: 0 <= i < |a| ==> x[i] == a[i];
    assert forall i :: 0 <= i < |c| ==> x[i] == c[i];
    assert |a| == |c|;
    assert a == x[..|a|] == c;
    assert b == x[|a| + |sep|..] == d;
  }
}

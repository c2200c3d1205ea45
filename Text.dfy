/**
 * The JavaScript string built-ins the components rely on: `String.prototype.trim`,
 * `parseInt`, `parseFloat` and `String(n)` for non-negative integers.
 * Numbers are exact (`int`, `real`); IEEE-754 rounding is not modelled.
 */
module Text {
  import opened Wrappers

  /** WhiteSpace and LineTerminator characters of ECMAScript: what `trim`,
      `parseInt` and `parseFloat` skip (TAB, VT, FF, SP, NBSP, ZWNBSP, the
      Unicode space separators, LF, CR, LS, PS). */
  predicate IsWhite(c: char) {
    c == '\t' || c == '\U{B}' || c == '\U{C}' || c == ' ' || c == '\U{A0}' || c == '\U{FEFF}'
    || c == '\U{1680}' || ('\U{2000}' <= c <= '\U{200A}') || c == '\U{202F}' || c == '\U{205F}'
    || c == '\U{3000}' || c == '\n' || c == '\r' || c == '\U{2028}' || c == '\U{2029}'
  }

  predicate AllWhite(s: string) {
    forall i :: 0 <= i < |s| ==> IsWhite(s[i])
  }

  /** Drops leading white space. */
  function TrimStart(s: string): (r: string)
    ensures |r| <= |s| && r == s[|s| - |r|..]
    ensures AllWhite(s[..|s| - |r|])
    ensures r == [] || !IsWhite(r[0])
  {
    if |s| > 0 && IsWhite(s[0]) then
      var r := TrimStart(s[1..]);
      assert s[1..][|s| - 1 - |r|..] == s[|s| - |r|..];
      assert forall i :: 1 <= i < |s| - |r| ==> s[i] == s[1..][..|s| - 1 - |r|][i - 1];
      r
    else
      assert s[..0] == [];
      s
  }

  /** Drops trailing white space. */
  function TrimEnd(s: string): (r: string)
    ensures |r| <= |s| && r == s[..|r|]
    ensures AllWhite(s[|r|..])
    ensures r == [] || !IsWhite(r[|r| - 1])
  {
    if |s| > 0 && IsWhite(s[|s| - 1]) then
      var r := TrimEnd(s[..|s| - 1]);
      assert s[..|s| - 1][..|r|] == s[..|r|];
      assert forall i :: |r| <= i < |s| - 1 ==> s[i] == s[..|s| - 1][|r|..][i - |r|];
      assert s[|r|..][|s| - 1 - |r|] == s[|s| - 1];
      r
    else
      assert s[|s|..] == [];
      s
  }

  /** `s.trim()`: the longest slice of `s` that neither starts nor ends with white space,
      obtained by removing only white space from both ends. */
  function Trim(s: string): (r: string)
    ensures exists i, j :: 0 <= i <= j <= |s| && r == s[i..j] && AllWhite(s[..i]) && AllWhite(s[j..])
    ensures r == [] || (!IsWhite(r[0]) && !IsWhite(r[|r| - 1]))
  {
    var t := TrimStart(s);
    var r := TrimEnd(t);
    var i := |s| - |t|;
    assert r == s[i..i + |r|];
    assert s[i + |r|..] == t[|r|..];
    r
  }

  /** Text that neither starts nor ends with white space is its own trim. */
  lemma TrimUnpadded(s: string)
    requires s != [] && !IsWhite(s[0]) && !IsWhite(s[|s| - 1])
    ensures Trim(s) == s
  {
    var i, j :| 0 <= i <= j <= |s| && Trim(s) == s[i..j] && AllWhite(s[..i]) && AllWhite(s[j..]);
    if i > 0 {
      assert s[..i][0] == s[0];
    }
    if j < |s| {
      assert s[j..][|s| - 1 - j] == s[|s| - 1];
    }
  }

  /** JavaScript's `length`: the number of UTF-16 code units, in which a character
      outside the Basic Multilingual Plane (above U+FFFF) takes two. */
  function Utf16Length(s: string): (n: nat)
    ensures |s| <= n <= 2 * |s|
    ensures (forall i :: 0 <= i < |s| ==> s[i] as int <= 0xFFFF) ==> n == |s|
    ensures (forall i :: 0 <= i < |s| ==> s[i] as int > 0xFFFF) ==> n == 2 * |s|
    decreases |s|
  {
    if s == [] then 0
    else
      var init := s[..|s| - 1];
      assert forall i :: 0 <= i < |init| ==> init[i] == s[i];
      Utf16Length(init) + (if s[|s| - 1] as int > 0xFFFF then 2 else 1)
  }

  lemma {:induction false} TrimStartWhitePrefix(p: string, x: string)
    requires AllWhite(p)
    ensures TrimStart(p + x) == TrimStart(x)
  {
    if p != [] {
      assert (p + x)[0] == p[0] && (p + x)[1..] == p[1..] + x;
      assert IsWhite((p + x)[0]);
      assert TrimStart(p + x) == TrimStart((p + x)[1..]);
      TrimStartWhitePrefix(p[1..], x);
    } else {
      assert p + x == x;
    }
  }

  lemma {:induction false} TrimEndWhiteSuffix(x: string, q: string)
    requires AllWhite(q)
    ensures TrimEnd(x + q) == TrimEnd(x)
  {
    if q != [] {
      assert (x + q)[|x + q| - 1] == q[|q| - 1];
      assert (x + q)[..|x + q| - 1] == x + q[..|q| - 1];
      assert IsWhite((x + q)[|x + q| - 1]);
      assert TrimEnd(x + q) == TrimEnd((x + q)[..|x + q| - 1]);
      TrimEndWhiteSuffix(x, q[..|q| - 1]);
    } else {
      assert x + q == x;
    }
  }

  lemma {:induction false} TrimStartAppend(s: string, q: string)
    requires TrimStart(s) != []
    ensures TrimStart(s + q) == TrimStart(s) + q
  {
    if IsWhite(s[0]) {
      assert (s + q)[1..] == s[1..] + q;
      TrimStartAppend(s[1..], q);
    }
  }

  /** White space around a string never changes what `trim` returns. */
  lemma TrimIgnoresPadding(p: string, s: string, q: string)
    requires AllWhite(p) && AllWhite(q)
    ensures Trim(p + s + q) == Trim(s)
  {
    assert p + s + q == p + (s + q);
    TrimStartWhitePrefix(p, s + q);
    if TrimStart(s) == [] {
      assert AllWhite(s);
      TrimStartWhitePrefix(s, q);
      assert TrimStart(q) == [] by { TrimStartWhitePrefix(q, []); assert q + [] == q; }
    } else {
      TrimStartAppend(s, q);
      TrimEndWhiteSuffix(TrimStart(s), q);
    }
  }

  // ----- decimal digits -----

  predicate IsDigit(c: char) {
    '0' <= c <= '9'
  }

  predicate AllDigits(s: string) {
    forall i :: 0 <= i < |s| ==> IsDigit(s[i])
  }

  function DigitValue(c: char): nat
    requires IsDigit(c)
  {
    (c as int) - ('0' as int)
  }

  function DigitChar(d: nat): (c: char)
    requires d < 10
    ensures IsDigit(c) && DigitValue(c) == d
  {
    (('0' as int) + d) as char
  }

  /** The number a string of decimal digits denotes (leading zeros allowed). */
  function DecimalValue(s: string): nat
    requires AllDigits(s)
  {
    if s == [] then 0 else DecimalValue(s[..|s| - 1]) * 10 + DigitValue(s[|s| - 1])
  }

  /** `String(n)` for a non-negative integer: decimal, no leading zero. */
  function NatToString(n: nat): (r: string)
    ensures |r| >= 1 && AllDigits(r)
    ensures (|r| == 1) == (n < 10)
    ensures |r| > 1 ==> r[0] != '0'
  {
    if n < 10 then [DigitChar(n)] else NatToString(n / 10) + [DigitChar(n % 10)]
  }

  lemma {:induction false} NatToStringValue(n: nat)
    ensures DecimalValue(NatToString(n)) == n
  {
    if n >= 10 {
      var r := NatToString(n);
      assert r[..|r| - 1] == NatToString(n / 10);
      NatToStringValue(n / 10);
    }
  }

  /** Number of leading decimal digits. */
  function LeadingDigits(s: string): (k: nat)
    ensures k <= |s| && AllDigits(s[..k])
    ensures k < |s| ==> !IsDigit(s[k])
  {
    if s != [] && IsDigit(s[0]) then
      var k := 1 + LeadingDigits(s[1..]);
      assert forall i :: 1 <= i < k ==> s[..k][i] == s[1..][..k - 1][i - 1];
      k
    else 0
  }

  lemma LeadingDigitsOfDigits(s: string)
    requires AllDigits(s)
    ensures LeadingDigits(s) == |s|
  {
    if s != [] {
      LeadingDigitsOfDigits(s[1..]);
    }
  }

  // ----- hexadecimal digits (for `parseInt("0x…")`) -----

  predicate IsHexDigit(c: char) {
    IsDigit(c) || 'a' <= c <= 'f' || 'A' <= c <= 'F'
  }

  function HexDigitValue(c: char): nat
    requires IsHexDigit(c)
  {
    if IsDigit(c) then DigitValue(c)
    else if 'a' <= c <= 'f' then (c as int) - ('a' as int) + 10
    else (c as int) - ('A' as int) + 10
  }

  function LeadingHexDigits(s: string): (k: nat)
    ensures k <= |s|
    ensures forall i :: 0 <= i < k ==> IsHexDigit(s[i])
  {
    if s != [] && IsHexDigit(s[0]) then 1 + LeadingHexDigits(s[1..]) else 0
  }

  function HexValue(s: string): nat
    requires forall i :: 0 <= i < |s| ==> IsHexDigit(s[i])
  {
    if s == [] then 0 else HexValue(s[..|s| - 1]) * 16 + HexDigitValue(s[|s| - 1])
  }

  // ----- parseInt / parseFloat -----

  /** The text after leading white space and one optional sign, and whether the sign was '-'. */
  function Unsigned(s: string): (string, bool) {
    var t := TrimStart(s);
    if |t| > 0 && (t[0] == '-' || t[0] == '+') then (t[1..], t[0] == '-') else (t, false)
  }

  function Signed(neg: bool, v: int): int {
    if neg then -v else v
  }

  /** `parseInt(s)` without a radix: the longest numeric prefix after white space
      and a sign, read as hexadecimal after "0x"/"0X" and as decimal otherwise;
      `None` stands for `NaN`. */
  function ParseInt(s: string): (r: Option<int>)
    ensures LeadingDigits(Unsigned(s).0) == 0 ==> r.None?
    ensures var u := Unsigned(s).0;
            |u| >= 2 && u[0] == '0' && (u[1] == 'x' || u[1] == 'X') && LeadingHexDigits(u[2..]) == 0 ==> r.None?
    ensures r.Some? && r.value > 0 ==> !Unsigned(s).1
    ensures r.Some? && r.value < 0 ==> Unsigned(s).1
  {
    var (u, neg) := Unsigned(s);
    if |u| >= 2 && u[0] == '0' && (u[1] == 'x' || u[1] == 'X') then
      var h := LeadingHexDigits(u[2..]);
      if h == 0 then None else Some(Signed(neg, HexValue(u[2..][..h])))
    else
      var k := LeadingDigits(u);
      if k == 0 then None else Some(Signed(neg, DecimalValue(u[..k])))
  }

  /** `String(n)` read back by `parseInt` gives `n`. */
  lemma ParseIntNatToString(n: nat)
    ensures ParseInt(NatToString(n)) == Some(n)
  {
    var r := NatToString(n);
    assert !IsWhite(r[0]);
    assert TrimStart(r) == r;
    assert Unsigned(r) == (r, false);
    assert !(|r| >= 2 && r[0] == '0');
    LeadingDigitsOfDigits(r);
    assert r[..|r|] == r;
    NatToStringValue(n);
  }

  function Pow10(e: nat): (r: nat)
    ensures r >= 1
  {
    if e == 0 then 1 else 10 * Pow10(e - 1)
  }

  /** The exponent of an optional `e±ddd` suffix; 0 when there is no well-formed one. */
  function Exponent(s: string): int {
    if |s| >= 2 && (s[0] == 'e' || s[0] == 'E') then
      var (t, neg) := if s[1] == '-' || s[1] == '+' then (s[2..], s[1] == '-') else (s[1..], false);
      var k := LeadingDigits(t);
      if k == 0 then 0 else Signed(neg, DecimalValue(t[..k]))
    else 0
  }

  function Scale(m: real, e: int): real {
    if e >= 0 then m * Pow10(e) as real else m / Pow10(-e) as real
  }

  /** The longest decimal literal at the start of `u` (digits, an optional
      fraction, an optional exponent), needing at least one digit before the
      exponent; `None` when there is none. */
  function DecimalPrefix(u: string): (r: Option<real>)
    ensures r.None? <==> LeadingDigits(u) == 0 && !(|u| >= 2 && u[0] == '.' && IsDigit(u[1]))
  {
    var i := LeadingDigits(u);
    var rest := u[i..];
    var hasDot := |rest| > 0 && rest[0] == '.';
    var f := if hasDot then LeadingDigits(rest[1..]) else 0;
    if i + f == 0 then None
    else
      var whole := DecimalValue(u[..i]) as real;
      var frac := if hasDot then DecimalValue(rest[1..][..f]) as real / Pow10(f) as real else 0.0;
      var after := if hasDot then rest[1 + f..] else rest;
      Some(Scale(whole + frac, Exponent(after)))
  }

  /** `parseFloat(s)`: a decimal literal after white space and a sign; `None`
      stands for `NaN`.  "Infinity" is read as `None`: both callers reject a
      non-finite value just as they reject `NaN`. */
  function ParseFloat(s: string): (r: Option<real>)
    ensures r.None? <==> DecimalPrefix(Unsigned(s).0).None?
    ensures r.None? <==> (var u := Unsigned(s).0; var i := LeadingDigits(u);
                          i == 0 && !(|u| >= 2 && u[0] == '.' && IsDigit(u[1])))
  {
    var (u, neg) := Unsigned(s);
    match DecimalPrefix(u)
    case None => None
    case Some(m) => Some(if neg then -m else m)
  }

  /** A plain run of digits is a decimal literal with its decimal value. */
  lemma DecimalPrefixDigits(d: string)
    requires d != [] && AllDigits(d)
    ensures DecimalPrefix(d) == Some(DecimalValue(d) as real)
  {
    LeadingDigitsOfDigits(d);
    var rest := d[LeadingDigits(d)..];
    assert d[..LeadingDigits(d)] == d && rest == [];
    assert Exponent(rest) == 0;
    assert Pow10(0) == 1;
    assert Scale(DecimalValue(d) as real + 0.0, 0) == DecimalValue(d) as real;
  }

  /** A plain run of digits is read by `parseFloat` as its decimal value. */
  lemma ParseFloatDigits(d: string)
    requires d != [] && AllDigits(d)
    ensures ParseFloat(d) == Some(DecimalValue(d) as real)
  {
    assert !IsWhite(d[0]) && d[0] != '-' && d[0] != '+';
    assert TrimStart(d) == d;
    assert Unsigned(d) == (d, false);
    DecimalPrefixDigits(d);
  }

  /** `String(n)` read back by `parseFloat` gives `n`. */
  lemma ParseFloatNatToString(n: nat)
    ensures ParseFloat(NatToString(n)) == Some(n as real)
  {
    ParseFloatDigits(NatToString(n));
    NatToStringValue(n);
  }
}

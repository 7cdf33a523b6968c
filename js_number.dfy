/**
 * Integer <-> decimal string conversions as JavaScript does them for the
 * values the pages store: `Number.prototype.toString()` on an integer and
 * the global `parseInt` with no radix.
 */
module JsNumber {
  import opened Wrappers
  import JsString

  predicate IsDigit(c: char) {
    '0' <= c <= '9'
  }

  predicate AllDigits(s: string) {
    forall i :: 0 <= i < |s| ==> IsDigit(s[i])
  }

  function DigitChar(d: nat): (c: char)
    requires d < 10
    ensures IsDigit(c)
  {
    ('0' as int + d) as char
  }

  function DigitValue(c: char): (d: nat)
    requires IsDigit(c)
    ensures d < 10 && DigitChar(d) == c
  {
    c as int - '0' as int
  }

  /** Decimal digits of `n`, most significant first, without leading zeros. */
  function NatToString(n: nat): (r: string)
    ensures |r| >= 1 && AllDigits(r)
    ensures r[0] == '0' ==> n == 0
    decreases n
  {
    if n < 10 then [DigitChar(n)] else NatToString(n / 10) + [DigitChar(n % 10)]
  }

  /** `n.toString()` for an integer `n`. */
  function IntToString(n: int): (r: string)
    ensures |r| >= 1 && (IsDigit(r[0]) || r[0] == '-')
  {
    if n < 0 then "-" + NatToString(-n) else NatToString(n)
  }

  /** The number a string of decimal digits denotes (0 for the empty string). */
  function Value(ds: string): nat
    requires AllDigits(ds)
  {
    if ds == [] then 0 else Value(ds[..|ds| - 1]) * 10 + DigitValue(ds[|ds| - 1])
  }

  /** The longest prefix of `s` made of decimal digits. */
  function DigitPrefix(s: string): (r: string)
    ensures |r| <= |s| && AllDigits(r)
  {
    if s != [] && IsDigit(s[0]) then [s[0]] + DigitPrefix(s[1..]) else []
  }

  /** `DigitPrefix` is a prefix of `s` and stops only at the end or at a non-digit. */
  lemma {:induction false} DigitPrefixSpec(s: string)
    ensures DigitPrefix(s) == s[..|DigitPrefix(s)|]
    ensures |DigitPrefix(s)| == |s| || !IsDigit(s[|DigitPrefix(s)|])
  {
    if s != [] && IsDigit(s[0]) {
      DigitPrefixSpec(s[1..]);
    }
  }

  /** `t` without the one leading sign `parseInt` accepts, if it has one. */
  function Unsigned(t: string): (u: string)
    ensures u == t || (t != [] && t[0] in "+-" && u == t[1..])
  {
    if t != [] && (t[0] == '-' || t[0] == '+') then t[1..] else t
  }

  /**
   * `parseInt(s)`: skip leading whitespace, read an optional sign, then the
   * longest run of decimal digits; `None` stands for `NaN` (no digits).
   */
  function ParseInt(s: string): Option<int> {
    var t := JsString.TrimStart(s);
    var negative := t != [] && t[0] == '-';
    var ds := DigitPrefix(Unsigned(t));
    var v: int := Value(ds);
    if ds == [] then None
    else if negative then Some(-v)
    else Some(v)
  }

  /** Reading back the digits `NatToString` writes gives the number again. */
  lemma {:induction false} ValueOfNatToString(n: nat)
    ensures Value(NatToString(n)) == n
    decreases n
  {
    if n >= 10 {
      var r := NatToString(n);
      ValueOfNatToString(n / 10);
      assert r[..|r| - 1] == NatToString(n / 10);
    }
  }

  /** The digit run in front of a non-digit is read exactly. */
  lemma DigitPrefixStopsAt(ds: string, rest: string)
    requires AllDigits(ds)
    requires rest == [] || !IsDigit(rest[0])
    ensures DigitPrefix(ds + rest) == ds
  {
    DigitPrefixSpec(ds + rest);
    assert (ds + rest)[..|ds|] == ds;
  }

  /**
   * `parseInt(n.toString()) === n` for every integer the model represents
   * (in JavaScript, up to 2^53 in magnitude).
   */
  lemma ParseIntToString(n: int)
    ensures ParseInt(IntToString(n)) == Some(n)
  {
    var s := IntToString(n);
    var m: nat := if n < 0 then -n else n;
    var digits := NatToString(m);
    JsString.TrimStartNoop(s);
    assert n < 0 ==> s[1..] == digits;
    DigitPrefixStopsAt(digits, []);
    assert digits + [] == digits;
    ValueOfNatToString(m);
  }

  /**
   * `parseInt` gives `NaN` exactly when, after the leading whitespace and an
   * optional sign, there is no digit.
   */
  lemma ParseIntNaNIffNoDigits(s: string)
    ensures ParseInt(s).None? <==>
      var u := Unsigned(JsString.TrimStart(s)); u == [] || !IsDigit(u[0])
  {
    var u := Unsigned(JsString.TrimStart(s));
    DigitPrefixSpec(u);
  }

  /**
   * `parseInt` of a digit run followed by anything that is not a digit reads
   * that run and ignores the rest, as with "3.5" or "4 stars".
   */
  lemma ParseIntReadsLeadingDigits(ds: string, rest: string)
    requires ds != [] && AllDigits(ds)
    requires rest == [] || !IsDigit(rest[0])
    ensures ParseInt(ds + rest) == Some(Value(ds))
  {
    var s := ds + rest;
    assert s[0] == ds[0];
    JsString.TrimStartNoop(s);
    DigitPrefixStopsAt(ds, rest);
  }
}

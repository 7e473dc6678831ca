/** Text rendering shared by the components: decimal integers (`Number.prototype.toString`),
    one-decimal fixed notation (`toFixed(1)`) and JavaScript's `String.prototype.trim`. */
module Text {

  predicate IsDigit(c: char) { '0' <= c <= '9' }

  predicate AllDigits(s: string) {
    forall i :: 0 <= i < |s| ==> IsDigit(s[i])
  }

  function DigitChar(d: nat): (c: char)
    requires d < 10
    ensures IsDigit(c) && c as int - '0' as int == d
  {
    ('0' as int + d) as char
  }

  function DigitValue(c: char): nat
    requires IsDigit(c)
  {
    c as int - '0' as int
  }

  /** Decimal notation of a natural number, most significant digit first. */
  function NatToString(n: nat): (s: string)
    ensures |s| >= 1 && AllDigits(s)
    ensures s[0] == '0' ==> n == 0 && |s| == 1
    decreases n
  {
    if n < 10 then [DigitChar(n)] else NatToString(n / 10) + [DigitChar(n % 10)]
  }

  /** The value a string of decimal digits denotes. */
  function DecimalValue(s: string): nat
    requires AllDigits(s)
  {
    if s == [] then 0 else DecimalValue(s[..|s| - 1]) * 10 + DigitValue(s[|s| - 1])
  }

  /** Reading back the digits gives the number: the rendering loses nothing. */
  lemma {:induction false} DecimalRoundTrip(n: nat)
    ensures DecimalValue(NatToString(n)) == n
    decreases n
  {
    var s := NatToString(n);
    if n >= 10 {
      assert s[..|s| - 1] == NatToString(n / 10);
      DecimalRoundTrip(n / 10);
    }
  }

  /** Distinct numbers have distinct renderings. */
  lemma NatToStringInjective(m: nat, n: nat)
    requires NatToString(m) == NatToString(n)
    ensures m == n
  {
    DecimalRoundTrip(m);
    DecimalRoundTrip(n);
  }

  /** `s` is the canonical decimal text of `n`: digits denoting `n`, with no leading zero
      (only "0" itself starts with '0'). */
  predicate IsDecimalOf(s: string, n: nat) {
    |s| >= 1 && AllDigits(s) && DecimalValue(s) == n && (s[0] == '0' ==> |s| == 1)
  }

  lemma NatToStringIsDecimalOf(n: nat)
    ensures IsDecimalOf(NatToString(n), n)
  {
    DecimalRoundTrip(n);
  }

  /** Canonical decimal text is unique: any text that is the canonical decimal of `n`
      is the one `NatToString` produces. */
  lemma {:induction false} DecimalOfIsNatToString(s: string, n: nat)
    requires IsDecimalOf(s, n)
    ensures s == NatToString(n)
    decreases |s|
  {
    if |s| == 1 {
      assert DecimalValue(s) == DecimalValue(s[..0]) * 10 + DigitValue(s[0]);
      assert s == [DigitChar(n)];
    } else {
      var init := s[..|s| - 1];
      assert init[0] == s[0];
      assert AllDigits(init);
      assert DecimalValue(s) == DecimalValue(init) * 10 + DigitValue(s[|s| - 1]);
      assert n / 10 == DecimalValue(init) && n % 10 == DigitValue(s[|s| - 1]);
      DecimalOfIsNatToString(init, n / 10);
      assert n >= 10;
      assert s == init + [s[|s| - 1]];
      assert s[|s| - 1] == DigitChar(n % 10);
    }
  }

  /** Template-literal rendering of an integer: a minus sign, then the canonical digits
      of its magnitude. */
  function IntToString(i: int): (s: string)
    ensures |s| >= 1
    ensures s[0] == '-' <==> i < 0
    ensures i >= 0 ==> IsDecimalOf(s, i)
    ensures i < 0 ==> IsDecimalOf(s[1..], -i)
  {
    NatToStringIsDecimalOf(if i < 0 then -i else i);
    if i < 0 then "-" + NatToString(-i) else NatToString(i)
  }

  /** `(amount / unit).toFixed(1)` on the exact quotient, as a count of tenths:
      the nearest multiple of one tenth, a tie going up. */
  function Tenths(amount: nat, unit: nat): (t: nat)
    requires unit > 0
    ensures (2 * t - 1) * unit <= 20 * amount < (2 * t + 1) * unit
  {
    var t := (20 * amount + unit) / (2 * unit);
    assert t * (2 * unit) <= 20 * amount + unit < t * (2 * unit) + 2 * unit;
    t
  }

  /** Fixed notation with one decimal for a number of tenths: "12.3". */
  function TenthsToString(t: nat): (s: string)
    ensures IsTenthsText(s)
  {
    var whole := NatToString(t / 10);
    var s := whole + "." + [DigitChar(t % 10)];
    assert s[..|s| - 2] == whole && s[0] == whole[0];
    s
  }

  /** A digit run without a leading zero (other than "0" itself), a point and one digit. */
  predicate IsTenthsText(s: string) {
    |s| >= 3 && s[|s| - 2] == '.' && IsDigit(s[|s| - 1]) && AllDigits(s[..|s| - 2]) &&
    (s[0] == '0' ==> |s| == 3)
  }

  /** The number of tenths that fixed one-decimal text denotes. */
  function TenthsValue(s: string): nat
    requires IsTenthsText(s)
  {
    DecimalValue(s[..|s| - 2]) * 10 + DigitValue(s[|s| - 1])
  }

  lemma TenthsRoundTrip(t: nat)
    ensures TenthsValue(TenthsToString(t)) == t
  {
    var s := TenthsToString(t);
    assert s[..|s| - 2] == NatToString(t / 10);
    DecimalRoundTrip(t / 10);
  }

  /** Fixed one-decimal text is unique: well-formed text is the rendering of its value. */
  lemma TenthsTextIsTenthsToString(s: string)
    requires IsTenthsText(s)
    ensures s == TenthsToString(TenthsValue(s))
  {
    var whole := s[..|s| - 2];
    var t := TenthsValue(s);
    assert whole[0] == s[0];
    assert IsDecimalOf(whole, DecimalValue(whole));
    DecimalOfIsNatToString(whole, DecimalValue(whole));
    assert t / 10 == DecimalValue(whole) && t % 10 == DigitValue(s[|s| - 1]);
    assert s == whole + "." + [s[|s| - 1]];
  }

  /** The characters `String.prototype.trim` removes: ECMAScript WhiteSpace and LineTerminator. */
  predicate IsJsSpace(c: char) {
    c == '\t' || c == '\n' || c == '\U{B}' || c == '\U{C}' || c == '\r' || c == ' '
    || c == '\U{A0}' || c == '\U{1680}' || ('\U{2000}' <= c <= '\U{200A}')
    || c == '\U{2028}' || c == '\U{2029}' || c == '\U{202F}' || c == '\U{205F}'
    || c == '\U{3000}' || c == '\U{FEFF}'
  }

  predicate AllSpace(s: string) {
    s == [] || (IsJsSpace(s[0]) && AllSpace(s[1..]))
  }

  /** Drops leading white space: what is removed is white space, and what is left is
      a suffix that is empty or starts with a non-space character. */
  function TrimStart(s: string): (r: string)
    ensures |r| <= |s| && r == s[|s| - |r|..]
    ensures AllSpace(s[..|s| - |r|])
    ensures r != [] ==> !IsJsSpace(r[0])
  {
    if s != [] && IsJsSpace(s[0]) then
      var r := TrimStart(s[1..]);
      assert s[..|s| - |r|][1..] == s[1..][..|s| - 1 - |r|];
      r
    else
      assert s[..0] == [];
      s
  }

  /** Drops trailing white space, symmetrically. */
  function TrimEnd(s: string): (r: string)
    ensures |r| <= |s| && r == s[..|r|]
    ensures AllSpace(s[|r|..])
    ensures r != [] ==> !IsJsSpace(r[|r| - 1])
  {
    if s != [] && IsJsSpace(s[|s| - 1]) then
      var init := s[..|s| - 1];
      var r := TrimEnd(init);
      assert s[|r|..] == init[|r|..] + [s[|s| - 1]];
      AllSpaceConcat(init[|r|..], [s[|s| - 1]]);
      assert [s[|s| - 1]][1..] == [];
      r
    else
      assert s[|s|..] == [];
      s
  }

  /** `s.trim()`: the trimmed text is empty exactly when every character is white space. */
  function Trim(s: string): (r: string)
    ensures r != [] ==> !IsJsSpace(r[0]) && !IsJsSpace(r[|r| - 1])
    ensures r == [] <==> AllSpace(s)
  {
    TrimEmptyExactlyWhenAllSpace(s);
    TrimEnd(TrimStart(s))
  }

  lemma TrimEmptyExactlyWhenAllSpace(s: string)
    ensures var r := TrimEnd(TrimStart(s));
      (r != [] ==> !IsJsSpace(r[0])) && (r == [] <==> AllSpace(s))
  {
    var t := TrimStart(s);
    var r := TrimEnd(t);
    var k := |s| - |t|;
    SplitAt(s, k);
    AllSpaceConcat(s[..k], t);
    if r == [] {
      assert t[0..] == t;
    } else {
      assert r[0] == t[0];
    }
  }

  lemma {:induction false} AllSpaceConcat(a: string, b: string)
    ensures AllSpace(a + b) <==> AllSpace(a) && AllSpace(b)
  {
    if a != [] {
      assert (a + b)[1..] == a[1..] + b;
      AllSpaceConcat(a[1..], b);
    } else {
      assert a + b == b;
    }
  }

  lemma SplitAt(s: string, k: nat)
    requires k <= |s|
    ensures s == s[..k] + s[k..]
  {
  }
}

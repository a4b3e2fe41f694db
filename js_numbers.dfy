/**
 * The JavaScript built-ins the core leans on: `parseInt`, `parseFloat`,
 * the decimal rendering of a whole number in a template literal, and the
 * truthiness of an optional string (absent and `""` are both false).
 */
module JsNumbers {
  import opened Wrappers

  /** A JavaScript number that is not `NaN` (`NaN` is `None` wherever it can arise). */
  datatype JsNumber = Finite(value: real) | PosInfinity | NegInfinity

  /** `if (x)` on an optional string. */
  predicate Truthy(x: Option<string>) {
    x.Some? && x.value != ""
  }

  predicate IsDigit(c: char) {
    '0' <= c <= '9'
  }

  predicate IsHexDigit(c: char) {
    IsDigit(c) || 'a' <= c <= 'f' || 'A' <= c <= 'F'
  }

  /** The characters `parseInt` and `parseFloat` skip before the number (white space and line terminators). */
  predicate IsWhiteSpace(c: char) {
    || c == '\t' || c == '\n' || c == '\U{0B}' || c == '\U{0C}' || c == '\r' || c == ' '
    || c == '\U{A0}' || c == '\U{1680}' || '\U{2000}' <= c <= '\U{200A}'
    || c == '\U{2028}' || c == '\U{2029}' || c == '\U{202F}' || c == '\U{205F}'
    || c == '\U{3000}' || c == '\U{FEFF}'
  }

  function DigitValue(c: char): (d: nat)
    requires IsHexDigit(c)
    ensures IsDigit(c) ==> d < 10
    ensures d < 16
  {
    if IsDigit(c) then c as int - '0' as int
    else if 'a' <= c <= 'f' then c as int - 'a' as int + 10
    else c as int - 'A' as int + 10
  }

  function DigitChar(d: nat): (c: char)
    requires d < 10
    ensures IsDigit(c) && DigitValue(c) == d
  {
    ('0' as int + d) as char
  }

  /** `s` without its leading white space. */
  function TrimStart(s: string): (t: string)
    ensures |t| <= |s| && t == s[|s| - |t|..]
    ensures t == [] || !IsWhiteSpace(t[0])
  {
    if s != [] && IsWhiteSpace(s[0]) then TrimStart(s[1..]) else s
  }

  /** Everything `TrimStart` removes is white space. */
  lemma {:induction false} TrimStartRemovesWhiteSpace(s: string)
    ensures forall i :: 0 <= i < |s| - |TrimStart(s)| ==> IsWhiteSpace(s[i])
  {
    if s != [] && IsWhiteSpace(s[0]) {
      TrimStartRemovesWhiteSpace(s[1..]);
      assert forall i :: 1 <= i < |s| - |TrimStart(s)| ==> s[i] == s[1..][i - 1];
    }
  }

  /** The longest prefix of `s` made of decimal digits. */
  function DigitPrefix(s: string): (d: string)
    ensures d <= s
    ensures forall i :: 0 <= i < |d| ==> IsDigit(d[i])
    ensures |d| == |s| || !IsDigit(s[|d|])
  {
    if s != [] && IsDigit(s[0]) then [s[0]] + DigitPrefix(s[1..]) else []
  }

  /** The longest prefix of `s` made of hexadecimal digits. */
  function HexPrefix(s: string): (d: string)
    ensures d <= s
    ensures forall i :: 0 <= i < |d| ==> IsHexDigit(d[i])
    ensures |d| == |s| || !IsHexDigit(s[|d|])
  {
    if s != [] && IsHexDigit(s[0]) then [s[0]] + HexPrefix(s[1..]) else []
  }

  /** The value of a digit string in base `radix`. */
  function DigitsValue(d: string, radix: nat): nat
    requires forall i :: 0 <= i < |d| ==> IsHexDigit(d[i])
  {
    if d == [] then 0 else DigitsValue(d[..|d| - 1], radix) * radix + DigitValue(d[|d| - 1])
  }

  /** The decimal digits of `n`, as `${n}` prints a whole number. */
  function NatToString(n: nat): (s: string)
    ensures |s| >= 1
    ensures forall i :: 0 <= i < |s| ==> IsDigit(s[i])
    ensures |s| > 1 ==> s[0] != '0'
  {
    if n < 10 then [DigitChar(n)] else NatToString(n / 10) + [DigitChar(n % 10)]
  }

  /** The sign in front of a number: -1 for `-`, otherwise 1, and the text after it. */
  function SplitSign(t: string): (r: (int, string))
    ensures r.0 == -1 <==> t != [] && t[0] == '-'
    ensures r.0 == 1 || r.0 == -1
    ensures if t != [] && (t[0] == '-' || t[0] == '+') then r.1 == t[1..] else r.1 == t
  {
    if t != [] && t[0] == '-' then (-1, t[1..])
    else if t != [] && t[0] == '+' then (1, t[1..])
    else (1, t)
  }

  /** The unsigned part of `parseInt`: `0x`/`0X` selects base 16, otherwise base 10; `None` when no digit follows. */
  function ParseUnsignedInt(u: string): (r: Option<nat>)
    ensures u != [] && IsDigit(u[0]) && !(|u| >= 2 && u[0] == '0' && (u[1] == 'x' || u[1] == 'X')) ==> r.Some?
    ensures r.Some? ==> u != [] && IsDigit(u[0])
  {
    if |u| >= 2 && u[0] == '0' && (u[1] == 'x' || u[1] == 'X') then
      var d := HexPrefix(u[2..]);
      if d == [] then None else Some(DigitsValue(d, 16))
    else
      var d := DigitPrefix(u);
      if d == [] then None else Some(DigitsValue(d, 10))
  }

  /**
   * `parseInt(s)` with no radix: leading white space and a sign are skipped,
   * `0x`/`0X` selects base 16, and the longest run of digits is read;
   * `None` is `NaN` (no digit at all).
   */
  function ParseInt(s: string): (r: Option<int>)
    ensures var t := TrimStart(s);
      t != [] && IsDigit(t[0]) && !(|t| >= 2 && t[0] == '0' && (t[1] == 'x' || t[1] == 'X')) ==> r.Some?
    ensures r.Some? ==> var t := TrimStart(s);
      t != [] && (IsDigit(t[0]) || t[0] == '-' || t[0] == '+')
    ensures r.Some? && r.value < 0 ==> TrimStart(s) != [] && TrimStart(s)[0] == '-'
  {
    var t := TrimStart(s);
    var (sign, u) := SplitSign(t);
    var p := ParseUnsignedInt(u);
    SignedInt(t, sign, u, p);
    if p.None? then None else Some(sign * p.value)
  }

  /** What the sign and the unsigned part of `parseInt` contribute, for any unsigned outcome `p` read from `u`. */
  lemma SignedInt(t: string, sign: int, u: string, p: Option<nat>)
    requires (sign, u) == SplitSign(t)
    requires u != [] && IsDigit(u[0]) && !(|u| >= 2 && u[0] == '0' && (u[1] == 'x' || u[1] == 'X')) ==> p.Some?
    requires p.Some? ==> u != [] && IsDigit(u[0])
    ensures var r := if p.None? then None else Some(sign * p.value);
      && (t != [] && IsDigit(t[0]) && !(|t| >= 2 && t[0] == '0' && (t[1] == 'x' || t[1] == 'X')) ==> r.Some?)
      && (r.Some? ==> t != [] && (IsDigit(t[0]) || t[0] == '-' || t[0] == '+'))
      && (r.Some? && r.value < 0 ==> t != [] && t[0] == '-')
  {
  }

  /** `m * 10^k` for any whole `k`, one factor of ten at a time. */
  function Scale(m: real, k: int): (r: real)
    ensures m > 0.0 ==> r > 0.0
    ensures m >= 0.0 ==> r >= 0.0
    decreases if k < 0 then -k else k
  {
    if k == 0 then m else if k > 0 then 10.0 * Scale(m, k - 1) else Scale(m, k + 1) / 10.0
  }

  /** The value of an exponent part `e-ddd` at the front of `s`, or 0 when there is none. */
  function ExponentPrefix(s: string): int {
    if s != [] && (s[0] == 'e' || s[0] == 'E') then
      var (sign, u) := SplitSign(s[1..]);
      var d := DigitPrefix(u);
      if d == [] then 0 else sign * DigitsValue(d, 10)
    else 0
  }

  /**
   * The unsigned part of `parseFloat`: the longest prefix that is `Infinity`
   * or a decimal literal (digits, an optional fraction, an optional exponent);
   * `None` when there is neither.
   */
  function ParseUnsignedFloat(u: string): (r: Option<JsNumber>)
    ensures u != [] && IsDigit(u[0]) ==> r.Some? && r.value.Finite?
    ensures r.Some? ==> u != [] && (IsDigit(u[0]) || u[0] == '.' || u[0] == 'I')
    ensures r.Some? ==> r.value != NegInfinity && (r.value.Finite? ==> r.value.value >= 0.0)
  {
    if |u| >= 8 && u[..8] == "Infinity" then Some(PosInfinity)
    else
      var intDigits := DigitPrefix(u);
      var rest := u[|intDigits|..];
      var hasDot := rest != [] && rest[0] == '.';
      var fracDigits := if hasDot then DigitPrefix(rest[1..]) else [];
      if intDigits == [] && fracDigits == [] then None
      else
        var afterMantissa := if hasDot then rest[1 + |fracDigits|..] else rest;
        var mantissa := DigitsValue(intDigits + fracDigits, 10) as real;
        Some(Finite(Scale(mantissa, ExponentPrefix(afterMantissa) - |fracDigits|)))
  }

  /** A number with its sign flipped when `sign` is negative. */
  function Signed(sign: int, x: JsNumber): JsNumber {
    if sign >= 0 then x
    else match x
      case Finite(v) => Finite(-v)
      case PosInfinity => NegInfinity
      case NegInfinity => PosInfinity
  }

  /** `parseFloat(s)`: leading white space and a sign are skipped, then the unsigned part is read; `None` is `NaN`. */
  function ParseFloat(s: string): (r: Option<JsNumber>)
    ensures var t := TrimStart(s);
      t != [] && IsDigit(t[0]) ==> r.Some? && r.value.Finite? && r.value.value >= 0.0
    ensures r.Some? ==> var t := TrimStart(s);
      t != [] && (IsDigit(t[0]) || t[0] == '-' || t[0] == '+' || t[0] == '.' || t[0] == 'I')
    ensures r.Some? && (r.value == NegInfinity || (r.value.Finite? && r.value.value < 0.0)) ==>
      TrimStart(s) != [] && TrimStart(s)[0] == '-'
  {
    var t := TrimStart(s);
    var (sign, u) := SplitSign(t);
    var p := ParseUnsignedFloat(u);
    SignedFloat(t, sign, u, p);
    if p.None? then None else Some(Signed(sign, p.value))
  }

  /** What the sign and the unsigned part of `parseFloat` contribute, for any unsigned outcome `p` read from `u`. */
  lemma SignedFloat(t: string, sign: int, u: string, p: Option<JsNumber>)
    requires (sign, u) == SplitSign(t)
    requires u != [] && IsDigit(u[0]) ==> p.Some? && p.value.Finite?
    requires p.Some? ==> u != [] && (IsDigit(u[0]) || u[0] == '.' || u[0] == 'I')
    requires p.Some? ==> p.value != NegInfinity && (p.value.Finite? ==> p.value.value >= 0.0)
    ensures var r := if p.None? then None else Some(Signed(sign, p.value));
      && (t != [] && IsDigit(t[0]) ==> r.Some? && r.value.Finite? && r.value.value >= 0.0)
      && (r.Some? ==> t != [] && (IsDigit(t[0]) || t[0] == '-' || t[0] == '+' || t[0] == '.' || t[0] == 'I'))
      && (r.Some? && (r.value == NegInfinity || (r.value.Finite? && r.value.value < 0.0)) ==> t != [] && t[0] == '-')
  {
  }

  /** The digits of `n` read back in base 10 give `n`. */
  lemma {:induction false} NatToStringValue(n: nat)
    ensures DigitsValue(NatToString(n), 10) == n
  {
    var s := NatToString(n);
    if n >= 10 {
      NatToStringValue(n / 10);
      assert s[..|s| - 1] == NatToString(n / 10);
    }
  }

  /** A run of digits followed by a non-digit is read up to the non-digit. */
  lemma {:induction false} DigitPrefixOfDigits(d: string, t: string)
    requires forall i :: 0 <= i < |d| ==> IsDigit(d[i])
    requires t == [] || !IsDigit(t[0])
    ensures DigitPrefix(d + t) == d
  {
    if d != [] {
      assert (d + t)[1..] == d[1..] + t;
      DigitPrefixOfDigits(d[1..], t);
    }
  }

  /** Text that starts with neither white space nor a sign is parsed as it stands. */
  lemma UnsignedUntrimmed(s: string)
    requires s != [] && !IsWhiteSpace(s[0]) && s[0] != '-' && s[0] != '+'
    ensures SplitSign(TrimStart(s)) == (1, s)
  {
  }

  /** Text that starts with a minus sign is parsed as the negation of the rest. */
  lemma NegatedUntrimmed(s: string)
    requires s != [] && !IsWhiteSpace(s[0]) && s[0] != '-' && s[0] != '+'
    ensures SplitSign(TrimStart("-" + s)) == (-1, s)
  {
    var m := "-" + s;
    assert m[0] == '-' && m[1..] == s;
  }

  /** A digit is neither white space nor a sign. */
  lemma DigitIsPlain(c: char)
    requires IsDigit(c)
    ensures !IsWhiteSpace(c) && c != '-' && c != '+'
  {
  }

  /** `parseInt` on a digit run without a superfluous leading zero, followed by neither a digit nor an `x`. */
  lemma ParseUnsignedIntDigits(d: string, t: string)
    requires d != [] && forall i :: 0 <= i < |d| ==> IsDigit(d[i])
    requires |d| > 1 ==> d[0] != '0'
    requires t == [] || !(IsDigit(t[0]) || t[0] == 'x' || t[0] == 'X')
    ensures ParseUnsignedInt(d + t) == Some(DigitsValue(d, 10))
  {
    var u := d + t;
    assert u[0] == d[0];
    assert |u| >= 2 && u[0] == '0' ==> |d| == 1 && u[1] == t[0];
    DigitPrefixOfDigits(d, t);
  }

  /** `parseInt` reads back what `${n}` prints, whatever follows that is neither a digit nor an `x`. */
  lemma ParseIntOfNatToString(n: nat, t: string)
    requires t == [] || !(IsDigit(t[0]) || t[0] == 'x' || t[0] == 'X')
    ensures ParseInt(NatToString(n) + t) == Some(n)
    ensures ParseInt("-" + (NatToString(n) + t)) == Some(-(n as int))
  {
    var d := NatToString(n);
    var u := d + t;
    NatToStringValue(n);
    ParseUnsignedIntDigits(d, t);
    assert u[0] == d[0];
    DigitIsPlain(u[0]);
    UnsignedUntrimmed(u);
    NegatedUntrimmed(u);
  }

  /** `parseFloat` on an unsigned run of decimal digits. */
  lemma ParseUnsignedFloatDigits(s: string)
    requires s != [] && forall i :: 0 <= i < |s| ==> IsDigit(s[i])
    ensures ParseUnsignedFloat(s) == Some(Finite(DigitsValue(s, 10) as real))
  {
    DigitPrefixOfDigits(s, []);
    assert s + [] == s;
    assert IsDigit(s[0]);
    assert |s| >= 8 ==> s[..8][0] == s[0];
    assert s[|s|..] == [];
  }

  /** `parseFloat` reads back what `${n}` prints. */
  lemma ParseFloatOfNatToString(n: nat)
    ensures ParseFloat(NatToString(n)) == Some(Finite(n as real))
  {
    var s := NatToString(n);
    NatToStringValue(n);
    ParseUnsignedFloatDigits(s);
    DigitIsPlain(s[0]);
    UnsignedUntrimmed(s);
  }

  /** Leading white space changes neither parse. */
  lemma ParseSkipsWhiteSpace(c: char, s: string)
    requires IsWhiteSpace(c)
    ensures TrimStart([c] + s) == TrimStart(s)
    ensures ParseInt([c] + s) == ParseInt(s)
    ensures ParseFloat([c] + s) == ParseFloat(s)
  {
    assert ([c] + s)[1..] == s;
  }
}

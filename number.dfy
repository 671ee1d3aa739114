/** `getInt` (lib/util.js and util.js) and the parts of JavaScript's
    `parseInt` and number-to-string conversion it relies on. Numbers are
    modelled as unbounded integers: the double-precision rounding of very
    long digit strings is not modelled. */
module Number {
  import opened Js

  /** What `getInt` can return: `undefined`, `NaN`, or an integer. */
  datatype IntValue = Undefined | NaN | Int(value: int)

  /** JavaScript truthiness of a `getInt` result: `undefined`, `NaN` and 0
      (including -0) are falsy. */
  predicate Truthy(v: IntValue) {
    v.Int? && v.value != 0
  }

  predicate IsDigit(c: char) {
    '0' <= c <= '9'
  }

  predicate IsHexDigit(c: char) {
    IsDigit(c) || 'a' <= c <= 'f' || 'A' <= c <= 'F'
  }

  /** `/[0-9]+/.test(s)` */
  predicate HasDigit(s: string) {
    exists i :: 0 <= i < |s| && IsDigit(s[i])
  }

  predicate AllDigits(s: string) {
    forall i :: 0 <= i < |s| ==> IsDigit(s[i])
  }

  /** The white space and line terminators that `parseInt` skips before the
      number (ECMAScript's StrWhiteSpaceChar). */
  predicate IsJsSpace(c: char) {
    var n := c as int;
    n == 0x09 || n == 0x0A || n == 0x0B || n == 0x0C || n == 0x0D || n == 0x20
    || n == 0xA0 || n == 0x1680 || (0x2000 <= n <= 0x200A)
    || n == 0x2028 || n == 0x2029 || n == 0x202F || n == 0x205F
    || n == 0x3000 || n == 0xFEFF
  }

  function DigitValue(c: char): nat
    requires IsHexDigit(c)
  {
    if IsDigit(c) then c as int - '0' as int
    else if 'a' <= c <= 'f' then c as int - 'a' as int + 10
    else c as int - 'A' as int + 10
  }

  /** The value of a digit string in the given radix, most significant first. */
  function Value(digits: string, radix: nat): nat
    requires forall i :: 0 <= i < |digits| ==> IsHexDigit(digits[i])
  {
    if digits == [] then 0
    else Value(digits[..|digits| - 1], radix) * radix + DigitValue(digits[|digits| - 1])
  }

  function TrimStart(s: string): (r: string)
    ensures r == [] || !IsJsSpace(r[0])
    ensures |r| <= |s| && r == s[|s| - |r|..]
  {
    if s != [] && IsJsSpace(s[0]) then TrimStart(s[1..]) else s
  }

  /** The longest prefix of `s` made of decimal digits (or hex digits). */
  function DigitRun(s: string, hex: bool): (d: string)
    ensures |d| <= |s| && d == s[..|d|]
    ensures forall i :: 0 <= i < |d| ==> IsHexDigit(d[i]) && (hex || IsDigit(d[i]))
  {
    if s != [] && (if hex then IsHexDigit(s[0]) else IsDigit(s[0]))
    then [s[0]] + DigitRun(s[1..], hex)
    else []
  }

  /** `parseInt(s)` with no radix: skip leading white space, take an optional
      sign, read hex digits after a `0x`/`0X` prefix and decimal digits
      otherwise; no digit at all gives NaN. */
  function ParseInt(s: string): (r: IntValue)
    ensures !r.Undefined?
  {
    ParseSigned(TrimStart(s))
  }

  function ParseSigned(t: string): (r: IntValue)
    ensures !r.Undefined?
  {
    if t != [] && t[0] == '-' then Negate(ParseUnsigned(t[1..]))
    else if t != [] && t[0] == '+' then ParseUnsigned(t[1..])
    else ParseUnsigned(t)
  }

  function Negate(v: IntValue): IntValue {
    if v.Int? then Int(-v.value) else v
  }

  function ParseUnsigned(u: string): (r: IntValue)
    ensures !r.Undefined?
  {
    if |u| >= 2 && u[0] == '0' && (u[1] == 'x' || u[1] == 'X') then
      var h := DigitRun(u[2..], true);
      if h == [] then NaN else Int(Value(h, 16))
    else
      var d := DigitRun(u, false);
      if d == [] then NaN else Int(Value(d, 10))
  }

  /** `getInt(str)`: `/[0-9]+/.test(str) ? parseInt(str) : undefined`, where
      an absent option is the string "undefined". It is `undefined` exactly
      when the text holds no decimal digit. */
  function GetInt(s: Option<string>): (r: IntValue)
    ensures r.Undefined? <==> !HasDigit(ShowUndefined(s))
  {
    var str := ShowUndefined(s);
    if HasDigit(str) then ParseInt(str) else Undefined
  }

  /** `String(n)` for an integer: its decimal digits, with a leading "-"
      when negative. */
  function NatToString(n: nat): string {
    if n < 10 then [('0' as int + n) as char]
    else NatToString(n / 10) + [('0' as int + n % 10) as char]
  }

  function IntToString(i: int): string {
    if i < 0 then "-" + NatToString(-i) else NatToString(i)
  }

  // ---------------------------------------------------------------------

  /** A string of decimal digits is its own longest digit run. */
  lemma {:induction false} DigitRunOfDigits(s: string)
    requires AllDigits(s)
    ensures DigitRun(s, false) == s
    decreases |s|
  {
    if s != [] {
      DigitRunOfDigits(s[1..]);
      assert [s[0]] + s[1..] == s;
    }
  }

  /** `parseInt` on a digit string reads the whole string. */
  lemma ParseUnsignedDigits(s: string)
    requires s != [] && AllDigits(s)
    ensures ParseUnsigned(s) == Int(Value(s, 10))
  {
    assert |s| >= 2 ==> IsDigit(s[1]);
    DigitRunOfDigits(s);
  }

  /** `parseInt` on an optionally signed digit string reads the whole string. */
  lemma SignedDigits(negative: bool, s: string)
    requires s != [] && AllDigits(s)
    ensures ParseInt((if negative then "-" else "") + s)
         == Int((if negative then -1 else 1) * Value(s, 10))
  {
    var t := (if negative then "-" else "") + s;
    var c := t[0];
    assert c == '-' || IsDigit(c) by {
      if !negative { assert t == s; }
    }
    assert !IsJsSpace(c);
    assert TrimStart(t) == t;
    ParseUnsignedDigits(s);
    if negative {
      assert t[1..] == s;
      assert ParseSigned(t) == Negate(ParseUnsigned(s));
    } else {
      assert t == s;
      assert ParseSigned(t) == ParseUnsigned(s);
    }
  }

  /** On a non-empty string of decimal digits, `getInt` returns its decimal
      value. This covers "0", which gives 0 (a falsy value). */
  lemma GetIntOfDigits(s: string)
    requires s != [] && AllDigits(s)
    ensures GetInt(Some(s)) == Int(Value(s, 10))
  {
    assert HasDigit(s) by {
      assert IsDigit(s[0]);
    }
    SignedDigits(false, s);
    assert "" + s == s;
    assert ParseInt(s) == Int(Value(s, 10));
  }

  /** `getInt("0")` is the falsy 0. */
  lemma GetIntZeroIsFalsy()
    ensures GetInt(Some("0")) == Int(0) && !Truthy(GetInt(Some("0")))
  {
    var z := "0";
    assert AllDigits(z);
    GetIntOfDigits(z);
    assert z[..|z| - 1] == [];
    assert Value(z, 10) == 0;
  }

  /** `String(n)` is a non-empty digit string whose decimal value is `n`. */
  lemma {:induction false} NatToStringValue(n: nat)
    ensures var s := NatToString(n); s != [] && AllDigits(s) && Value(s, 10) == n
  {
    if n >= 10 {
      NatToStringValue(n / 10);
      var s := NatToString(n);
      assert s[..|s| - 1] == NatToString(n / 10);
    }
  }

  /** `getInt(String(i))` gives `i` back. */
  lemma GetIntOfIntToString(i: int)
    ensures GetInt(Some(IntToString(i))) == Int(i)
  {
    var n := if i < 0 then -i else i;
    NatToStringValue(n);
    var d := NatToString(n);
    assert IsDigit(d[0]);
    assert IsDigit(("-" + d)[1]);
    SignedDigits(i < 0, d);
    assert "" + d == d;
  }
}

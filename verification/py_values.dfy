/**
 * The Python values that flow through `driver_info` and the deploy
 * callback's keyword arguments, and the built-in conversions the driver
 * applies to them: truthiness, `==`, `int()`, `str()` and oslo's strict
 * `bool_from_string`.
 */
module PyValues {
  import opened Wrappers

  /** A JSON-like scalar as stored in `driver_info` or posted by the ramdisk. */
  datatype Value = VNone | VBool(b: bool) | VInt(i: int) | VStr(s: string)

  /** Python truthiness (`if v:`): None, False, 0 and "" are false. */
  predicate Truthy(v: Value) {
    match v
    case VNone => false
    case VBool(b) => b
    case VInt(i) => i != 0
    case VStr(s) => s != ""
  }

  predicate IsNumber(v: Value) { v.VBool? || v.VInt? }

  function NumberOf(v: Value): int
    requires IsNumber(v)
  {
    if v.VBool? then (if v.b then 1 else 0) else v.i
  }

  /** Python `==`: a bool compares as 0 or 1 against an int. */
  predicate PyEq(a: Value, b: Value) {
    if IsNumber(a) && IsNumber(b) then NumberOf(a) == NumberOf(b) else a == b
  }

  // ---------------------------------------------------------------------
  // Characters and strings (ASCII rules)

  /** The characters `str.strip()` and `int()` skip. */
  predicate IsSpace(c: char) {
    c == ' ' || c == '\t' || c == '\n' || c == '\r' || c == '\U{0B}' || c == '\U{0C}'
  }

  predicate IsDigit(c: char) { '0' <= c <= '9' }

  predicate IsUpper(c: char) { 'A' <= c <= 'Z' }

  function LowerChar(c: char): (r: char)
    ensures !IsUpper(r)
    ensures !IsUpper(c) ==> r == c
  {
    if IsUpper(c) then (c as int + 32) as char else c
  }

  /** `s.lower()` */
  function Lower(s: string): (r: string)
    ensures |r| == |s|
    ensures forall i :: 0 <= i < |s| ==> r[i] == LowerChar(s[i])
  {
    seq(|s|, i requires 0 <= i < |s| => LowerChar(s[i]))
  }

  function StripLeft(s: string): string
  {
    if s != [] && IsSpace(s[0]) then StripLeft(s[1..]) else s
  }

  function StripRight(s: string): string
  {
    if s != [] && IsSpace(s[|s| - 1]) then StripRight(s[..|s| - 1]) else s
  }

  /** `s.strip()` */
  function Strip(s: string): string
  {
    StripRight(StripLeft(s))
  }

  // ---------------------------------------------------------------------
  // Decimal integers: `str(n)` and `int(s)`

  predicate IsDigitString(s: string) {
    s != [] && forall i :: 0 <= i < |s| ==> IsDigit(s[i])
  }

  function DigitChar(d: nat): (c: char)
    requires d < 10
    ensures IsDigit(c)
  {
    ('0' as int + d) as char
  }

  function DigitValue(c: char): nat
    requires IsDigit(c)
  {
    c as int - '0' as int
  }

  /** The number a string of decimal digits denotes. */
  function DigitsValue(ds: string): nat
    requires forall i :: 0 <= i < |ds| ==> IsDigit(ds[i])
  {
    if ds == [] then 0
    else DigitsValue(ds[..|ds| - 1]) * 10 + DigitValue(ds[|ds| - 1])
  }

  /** The shortest decimal spelling of `n`. */
  function NatToDigits(n: nat): (r: string)
    ensures IsDigitString(r)
  {
    if n < 10 then [DigitChar(n)] else NatToDigits(n / 10) + [DigitChar(n % 10)]
  }

  /** Python `str(n)` for an int. */
  function IntToString(n: int): string
  {
    if n < 0 then "-" + NatToDigits(-n) else NatToDigits(n)
  }

  /**
   * Python 2 `int(s)` for a string in base 10: surrounding whitespace is
   * ignored, then one optional sign, then optional whitespace (`PyOS_strtoul`
   * skips it again after the sign), then at least one digit; anything else
   * is a ValueError (None here).
   */
  function ParseInt(s: string): Option<int>
  {
    var t := Strip(s);
    if t != [] && (t[0] == '-' || t[0] == '+') then
      var ds := StripLeft(t[1..]);
      if IsDigitString(ds) then
        Some(if t[0] == '-' then 0 - DigitsValue(ds) else DigitsValue(ds) as int)
      else None
    else if IsDigitString(t) then Some(DigitsValue(t))
    else None
  }

  /** The two exceptions `int()` raises. */
  datatype ConversionError = ValueErr | TypeErr

  /** Python `int(v)`. */
  function ToInt(v: Value): (r: Result<int, ConversionError>)
    // only None is a TypeError; a string is a ValueError unless it spells an integer
    ensures r == Failure(TypeErr) <==> v.VNone?
    ensures v.VStr? ==> (r.Success? <==> ParseInt(v.s).Some?)
    // a bool or an int converts to the integer it compares equal to
    ensures IsNumber(v) ==> r.Success? && PyEq(v, VInt(r.value))
  {
    match v
    case VNone => Failure(TypeErr)
    case VBool(b) => Success(if b then 1 else 0)
    case VInt(i) => Success(i)
    case VStr(s) => if ParseInt(s).Some? then Success(ParseInt(s).value) else Failure(ValueErr)
  }

  /** Python `str(v)`. */
  function StrOf(v: Value): string
  {
    match v
    case VNone => "None"
    case VBool(b) => if b then "True" else "False"
    case VInt(i) => IntToString(i)
    case VStr(s) => s
  }

  // ---------------------------------------------------------------------
  // oslo strutils.bool_from_string(v, strict=True)

  const TrueStrings: set<string> := {"1", "t", "true", "on", "y", "yes"}
  const FalseStrings: set<string> := {"0", "f", "false", "off", "n", "no"}

  /**
   * A bool is returned as it is; anything else is turned into a string,
   * stripped and lower-cased, and must be one of the accepted spellings.
   * None stands for the ValueError strict mode raises.
   */
  function StrictBool(v: Value): Option<bool>
  {
    if v.VBool? then Some(v.b)
    else
      var lowered := Lower(Strip(StrOf(v)));
      if lowered in TrueStrings then Some(true)
      else if lowered in FalseStrings then Some(false)
      else None
  }

  // ---------------------------------------------------------------------
  // Lemmas

  /**
   * Strict boolean parsing of a value that is not a string: True and False
   * are themselves, an int is accepted only when it equals one of them, and
   * None is refused.
   */
  lemma StrictBoolOfNonString(v: Value)
    requires !v.VStr?
    ensures StrictBool(v).Some? <==> IsNumber(v) && 0 <= NumberOf(v) <= 1
    ensures StrictBool(v).Some? ==> PyEq(v, VBool(StrictBool(v).value))
  {
    if v.VInt? {
      StrictBoolOfInt(v.i);
    } else if v.VNone? {
      assert Lower(Strip("None")) == "none" by {
        StripOfUnpadded("None");
      }
    }
  }

  lemma {:induction false} DigitsRoundTrip(n: nat)
    ensures DigitsValue(NatToDigits(n)) == n
  {
    if n >= 10 {
      DigitsRoundTrip(n / 10);
      var r := NatToDigits(n);
      assert r[..|r| - 1] == NatToDigits(n / 10);
    }
  }

  lemma IntToStringShape(n: int)
    ensures IntToString(n) != []
    ensures IsDigit(IntToString(n)[|IntToString(n)| - 1])
    ensures IsDigit(IntToString(n)[0]) || IntToString(n)[0] == '-'
    ensures forall k :: 0 <= k < |IntToString(n)| ==> IsDigit(IntToString(n)[k]) || IntToString(n)[k] == '-'
  {
  }

  lemma StripOfUnpadded(s: string)
    requires s != [] && !IsSpace(s[0]) && !IsSpace(s[|s| - 1])
    ensures Strip(s) == s
  {
  }

  /** `int(str(n)) == n` for every integer. */
  lemma {:induction false} ParseIntRoundTrip(n: int)
    ensures ParseInt(IntToString(n)) == Some(n)
  {
    var s := IntToString(n);
    IntToStringShape(n);
    StripOfUnpadded(s);
    if n < 0 {
      DigitsRoundTrip(-n);
      assert s[1..] == NatToDigits(-n);
    } else {
      DigitsRoundTrip(n);
    }
  }

  predicate AllSpace(s: string) {
    forall i :: 0 <= i < |s| ==> IsSpace(s[i])
  }

  lemma {:induction false} StripLeftSpaces(pre: string, x: string)
    requires AllSpace(pre) && (x == [] || !IsSpace(x[0]))
    ensures StripLeft(pre + x) == x
  {
    if pre != [] {
      assert (pre + x)[1..] == pre[1..] + x;
      StripLeftSpaces(pre[1..], x);
    }
  }

  lemma {:induction false} StripRightSpaces(x: string, post: string)
    requires AllSpace(post) && (x == [] || !IsSpace(x[|x| - 1]))
    ensures StripRight(x + post) == x
  {
    if post != [] {
      var p := post[..|post| - 1];
      assert (x + post)[..|x + post| - 1] == x + p;
      StripRightSpaces(x, p);
    }
  }

  /** `strip()` removes exactly the whitespace around a word that starts and ends with a non-space. */
  lemma StripAround(pre: string, core: string, post: string)
    requires AllSpace(pre) && AllSpace(post)
    requires core != [] && !IsSpace(core[0]) && !IsSpace(core[|core| - 1])
    ensures Strip(pre + core + post) == core
  {
    assert pre + core + post == pre + (core + post);
    StripLeftSpaces(pre, core + post);
    StripRightSpaces(core, post);
  }

  /** A sign, whitespace and digits parse to the signed value of the digits. */
  lemma ParseSignedCore(sign: char, mid: string, ds: string)
    requires sign == '-' || sign == '+'
    requires AllSpace(mid) && IsDigitString(ds)
    ensures var core := [sign] + mid + ds;
            Strip(core) == core ==>
            ParseInt(core) == Some(if sign == '-' then 0 - DigitsValue(ds) else DigitsValue(ds) as int)
  {
    var core := [sign] + mid + ds;
    assert core[0] == sign;
    assert core[1..] == mid + ds;
    StripLeftSpaces(mid, ds);
  }

  /**
   * Every spelling Python 2's `int()` accepts in base 10: whitespace, an
   * optional sign, whitespace after the sign, digits (leading zeros
   * allowed), whitespace.
   */
  lemma ParseIntSpelling(pre: string, sign: string, mid: string, ds: string, post: string)
    requires AllSpace(pre) && AllSpace(mid) && AllSpace(post)
    requires sign == "" || sign == "-" || sign == "+"
    requires sign == "" ==> mid == []
    requires IsDigitString(ds)
    ensures ParseInt(pre + sign + mid + ds + post) == Some(if sign == "-" then 0 - DigitsValue(ds) else DigitsValue(ds) as int)
  {
    var core := sign + mid + ds;
    var s := pre + sign + mid + ds + post;
    assert s == pre + core + post;
    assert core[|core| - 1] == ds[|ds| - 1];
    if sign == "" {
      assert core == ds;
      StripAround(pre, core, post);
      assert Strip(s) == ds && IsDigit(ds[0]);
    } else {
      assert core == [sign[0]] + mid + ds;
      StripAround(pre, core, post);
      StripAround([], core, []);
      assert [] + core + [] == core;
      ParseSignedCore(sign[0], mid, ds);
      assert ParseInt(s) == ParseInt(core);
    }
  }

  lemma ParseOneAndZero()
    ensures ParseInt("1") == Some(1) && ParseInt("0") == Some(0)
  {
    assert Strip("1") == "1" && Strip("0") == "0";
    assert DigitsValue("1") == 1 by { assert "1"[..0] == []; }
    assert DigitsValue("0") == 0 by { assert "0"[..0] == []; }
  }

  /** `str(i)` is one of oslo's boolean words exactly when `i` is 1 or 0. */
  lemma {:induction false} IntStringAsWord(i: int)
    ensures IntToString(i) in TrueStrings <==> i == 1
    ensures IntToString(i) in FalseStrings <==> i == 0
  {
    var s := IntToString(i);
    IntToStringShape(i);
    assert IntToString(1) == "1" && IntToString(0) == "0";
    // no accepted word starts with a digit or a minus sign
    assert s[0] != 't' && s[0] != 'o' && s[0] != 'f' && s[0] != 'n' && s[0] != 'y';
    if s == "1" || s == "0" {
      ParseIntRoundTrip(i);
      ParseOneAndZero();
    }
  }

  /**
   * Strict boolean parsing accepts an int only when it is 0 or 1: `str(i)`
   * is already stripped and lower-case, and it names a boolean only for 1
   * and 0.
   */
  lemma {:induction false} StrictBoolOfInt(i: int)
    ensures StrictBool(VInt(i)) == if i == 1 then Some(true) else if i == 0 then Some(false) else None
  {
    var s := IntToString(i);
    IntToStringShape(i);
    StripOfUnpadded(s);
    assert Lower(s) == s;
    IntStringAsWord(i);
  }
}

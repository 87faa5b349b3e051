/**
 * The slice of JavaScript's value semantics that the realtime client relies on:
 * values produced by `JSON.parse`, truthiness, property access, `String(v)` as used
 * by template literals, decimal formatting of integers and `Number.parseInt`.
 * JSON numbers are restricted to integers (every number the client compares or
 * prints is an integer code, id or count).
 */
module JsValues {

  datatype Option<+T> = None | Some(value: T) {
    function GetOr(default: T): T {
      match this
      case Some(v) => v
      case None => default
    }
  }

  /** A JSON value as `JSON.parse` returns it. */
  datatype Value =
    | Null
    | Bool(b: bool)
    | Num(n: int)
    | Str(s: string)
    | Arr(items: seq<Value>)
    | Obj(fields: map<string, Value>)

  /** ToBoolean of a possibly-undefined value (`None` is `undefined`). */
  predicate Truthy(v: Option<Value>) {
    match v
    case None => false
    case Some(Null) => false
    case Some(Bool(b)) => b
    case Some(Num(n)) => n != 0
    case Some(Str(s)) => s != ""
    case Some(Arr(_)) => true
    case Some(Obj(_)) => true
  }

  /** `v.key` on a value that is neither null nor undefined: own properties of objects only. */
  function Get(v: Value, key: string): (r: Option<Value>)
    ensures r.Some? ==> v.Obj? && key in v.fields && r.value == v.fields[key]
  {
    if v.Obj? && key in v.fields then Some(v.fields[key]) else None
  }

  /** `v?.key`: optional chaining, undefined when `v` is null or undefined. */
  function GetOpt(v: Option<Value>, key: string): Option<Value> {
    if v.Some? && !v.value.Null? then Get(v.value, key) else None
  }

  /** `a || b` where `b` is a literal. */
  function Or(a: Option<Value>, b: Value): (r: Value)
    ensures Truthy(Some(b)) ==> Truthy(Some(r))
    ensures Truthy(a) ==> r == a.value
  {
    if Truthy(a) then a.value else b
  }

  /** `v === "lit"`. */
  predicate IsStr(v: Option<Value>, lit: string) {
    v == Some(Str(lit))
  }

  /** A nullable string (an access token, say) that is also truthy. */
  predicate HasText(t: Option<string>) {
    t.Some? && t.value != ""
  }

  // ---------------------------------------------------------------- formatting

  function DigitChar(d: nat): (c: char)
    requires d < 10
  {
    "0123456789"[d]
  }

  predicate IsDecimalDigit(c: char) {
    '0' <= c <= '9'
  }

  /** Decimal representation of a natural number, as `String(n)` prints it. */
  function NatToString(n: nat): (s: string)
    ensures |s| >= 1
    ensures forall i :: 0 <= i < |s| ==> IsDecimalDigit(s[i])
    ensures n > 0 ==> s[0] != '0'
    decreases n
  {
    if n < 10 then [DigitChar(n)] else NatToString(n / 10) + [DigitChar(n % 10)]
  }

  /** `String(i)` for an integer. */
  function IntToString(i: int): (s: string)
    ensures |s| >= 1
  {
    if i < 0 then "-" + NatToString(-i) else NatToString(i)
  }

  /** `String(v)` / `${v}` for a possibly-undefined JSON value. */
  function Display(v: Option<Value>): string {
    match v
    case None => "undefined"
    case Some(x) => DisplayValue(x)
  }

  function DisplayValue(v: Value): string
    decreases v, 1
  {
    match v
    case Null => "null"
    case Bool(b) => if b then "true" else "false"
    case Num(n) => IntToString(n)
    case Str(s) => s
    case Arr(items) => JoinItems(v, items)
    case Obj(_) => "[object Object]"
  }

  /** `Array.prototype.join(",")`, where null and undefined elements print as empty. */
  function JoinItems(whole: Value, items: seq<Value>): string
    requires forall x :: x in items ==> x < whole
    decreases whole, 0, |items|
  {
    if items == [] then ""
    else
      assert items[0] in items;
      assert forall x :: x in items[1..] ==> x in items;
      var first := if items[0].Null? then "" else DisplayValue(items[0]);
      if |items| == 1 then first else first + "," + JoinItems(whole, items[1..])
  }

  // ---------------------------------------------------------------- parseInt

  /** StrWhiteSpaceChar of ECMAScript: WhiteSpace and LineTerminator code points. */
  predicate IsJsWhiteSpace(c: char) {
    c == '\t' || c == '\n' || c == '\U{B}' || c == '\U{C}' || c == '\r' || c == ' '
    || c == '\U{A0}' || c == '\U{1680}' || ('\U{2000}' <= c <= '\U{200A}')
    || c == '\U{2028}' || c == '\U{2029}' || c == '\U{202F}' || c == '\U{205F}'
    || c == '\U{3000}' || c == '\U{FEFF}'
  }

  function TrimStart(s: string): (r: string)
    ensures |r| <= |s| && r == s[|s| - |r|..]
    ensures r != [] ==> !IsJsWhiteSpace(r[0])
  {
    if s != [] && IsJsWhiteSpace(s[0]) then TrimStart(s[1..]) else s
  }

  /** The value of `c` as a digit in base `radix` (10 or 16), if it is one. */
  function DigitValue(c: char, radix: nat): (r: Option<nat>)
    ensures r.Some? ==> r.value < radix
    ensures radix == 10 ==> (r.Some? <==> IsDecimalDigit(c))
  {
    if '0' <= c <= '9' && (c as int) - ('0' as int) < radix then Some((c as int) - ('0' as int))
    else if radix == 16 && 'a' <= c <= 'f' then Some((c as int) - ('a' as int) + 10)
    else if radix == 16 && 'A' <= c <= 'F' then Some((c as int) - ('A' as int) + 10)
    else None
  }

  /** Length of the longest prefix of `s` made of digits in base `radix`. */
  function DigitRun(s: string, radix: nat): (k: nat)
    ensures k <= |s|
    ensures forall i :: 0 <= i < k ==> DigitValue(s[i], radix).Some?
    ensures k < |s| ==> DigitValue(s[k], radix).None?
  {
    if s != [] && DigitValue(s[0], radix).Some? then 1 + DigitRun(s[1..], radix) else 0
  }

  /** The number written by a string of digits, most significant first. */
  function DigitsValue(s: string, radix: nat): nat
  {
    if s == [] then 0
    else DigitsValue(s[..|s| - 1], radix) * radix + DigitValue(s[|s| - 1], radix).GetOr(0)
  }

  /**
   * `Number.parseInt(s)` with no radix: leading white space is skipped, an optional
   * sign is read, a `0x`/`0X` prefix selects base 16, and the longest run of digits is
   * converted. `None` stands for NaN (no digit at all).
   */
  function ParseInt(s: string): (r: Option<int>)
  {
    var t := TrimStart(s);
    if t != [] && t[0] == '-' then
      match ParseUnsigned(t[1..])
      case Some(m) => Some(-(m as int))
      case None => None
    else if t != [] && t[0] == '+' then ParseUnsigned(t[1..])
    else ParseUnsigned(t)
  }

  /** The unsigned part of `parseInt`: an optional `0x` prefix, then digits. */
  function ParseUnsigned(u: string): Option<nat>
  {
    if |u| >= 2 && u[0] == '0' && (u[1] == 'x' || u[1] == 'X') then ParseDigits(u[2..], 16)
    else ParseDigits(u, 10)
  }

  function ParseDigits(w: string, radix: nat): Option<nat>
  {
    var k := DigitRun(w, radix);
    if k == 0 then None else Some(DigitsValue(w[..k], radix))
  }

  lemma {:induction false} DigitsValueOfNatToString(n: nat)
    ensures DigitsValue(NatToString(n), 10) == n
    decreases n
  {
    var s := NatToString(n);
    if n >= 10 {
      DigitsValueOfNatToString(n / 10);
      assert s[..|s| - 1] == NatToString(n / 10);
    }
  }

  lemma {:induction false} DigitRunStopsAt(s: string, rest: string)
    requires forall i :: 0 <= i < |s| ==> IsDecimalDigit(s[i])
    requires rest == [] || !IsDecimalDigit(rest[0])
    ensures DigitRun(s + rest, 10) == |s|
    decreases |s|
  {
    if s != [] {
      DigitRunStopsAt(s[1..], rest);
      assert (s + rest)[1..] == s[1..] + rest;
    } else {
      assert s + rest == rest;
    }
  }

  /** The unsigned reading of a decimal numeral followed by a non-digit is the numeral's value. */
  lemma ParseUnsignedOfNatToString(n: nat, rest: string)
    requires rest == [] || (!IsDecimalDigit(rest[0]) && rest[0] != 'x' && rest[0] != 'X')
    ensures ParseUnsigned(NatToString(n) + rest) == Some(n)
  {
    var s := NatToString(n);
    var t := s + rest;
    assert !(|t| >= 2 && t[0] == '0' && (t[1] == 'x' || t[1] == 'X')) by {
      if |s| >= 2 { assert t[1] == s[1]; } else { assert |t| >= 2 ==> t[1] == rest[0]; }
    }
    DigitRunStopsAt(s, rest);
    assert t[..|s|] == s;
    DigitsValueOfNatToString(n);
  }

  /**
   * Formatting then parsing gives the number back: `parseInt(String(n) + rest)` is `n`
   * when `rest` does not continue the number (it starts with no digit and no `x`).
   */
  lemma ParseIntOfIntToString(i: int, rest: string)
    requires rest == [] || (!IsDecimalDigit(rest[0]) && rest[0] != 'x' && rest[0] != 'X')
    ensures ParseInt(IntToString(i) + rest) == Some(i)
  {
    if i >= 0 {
      assert IntToString(i) + rest == NatToString(i) + rest;
      ParseIntOfNatToString(i, rest);
    } else {
      ParseIntOfNegativeToString(i, rest);
    }
  }

  lemma ParseIntOfNegativeToString(i: int, rest: string)
    requires i < 0
    requires rest == [] || (!IsDecimalDigit(rest[0]) && rest[0] != 'x' && rest[0] != 'X')
    ensures ParseInt(IntToString(i) + rest) == Some(i)
  {
    var n: nat := -i;
    assert IntToString(i) + rest == "-" + NatToString(n) + rest;
    ParseIntOfNegative(n, rest);
  }

  lemma ParseIntOfNatToString(n: nat, rest: string)
    requires rest == [] || (!IsDecimalDigit(rest[0]) && rest[0] != 'x' && rest[0] != 'X')
    ensures ParseInt(NatToString(n) + rest) == Some(n)
  {
    var s := NatToString(n);
    var t := s + rest;
    assert t[0] == s[0];
    NoWhiteSpaceAtStart(t);
    ParseIntOfDigits(t);
    ParseUnsignedOfNatToString(n, rest);
  }

  lemma ParseIntOfNegative(n: nat, rest: string)
    requires n > 0
    requires rest == [] || (!IsDecimalDigit(rest[0]) && rest[0] != 'x' && rest[0] != 'X')
    ensures ParseInt("-" + NatToString(n) + rest) == Some(-(n as int))
  {
    var u := NatToString(n) + rest;
    var t := ['-'] + u;
    assert t[1..] == u;
    ParseUnsignedOfNatToString(n, rest);
    NoWhiteSpaceAtStart(t);
    ParseIntAfterMinus(t, n);
    assert "-" + NatToString(n) + rest == t;
  }

  /** Text already free of leading white space that starts with a digit is read unsigned. */
  lemma ParseIntOfDigits(t: string)
    requires t != [] && IsDecimalDigit(t[0]) && TrimStart(t) == t
    ensures ParseInt(t) == ParseUnsigned(t)
  {
  }

  /** Text already free of leading white space that starts with `-` is read negated. */
  lemma ParseIntAfterMinus(t: string, m: nat)
    requires t != [] && t[0] == '-' && TrimStart(t) == t && ParseUnsigned(t[1..]) == Some(m)
    ensures ParseInt(t) == Some(-(m as int))
  {
  }

  lemma ParseIntShape(s: string)
    ensures TrimStart(s) == [] ==> ParseInt(s) == None
    ensures var t := TrimStart(s);
      t != [] && IsDecimalDigit(t[0]) && !(|t| >= 2 && t[0] == '0' && (t[1] == 'x' || t[1] == 'X')) ==>
        ParseInt(s).Some? && ParseInt(s).value >= 0
    ensures var t := TrimStart(s); t != [] && t[0] == '-' && ParseInt(s).Some? ==> ParseInt(s).value <= 0
  {
    var t := TrimStart(s);
    if t == [] {
      ParseIntOfBlank(s);
    } else if t[0] == '-' {
      ParseIntAfterMinusSign(s);
    } else if IsDecimalDigit(t[0]) && !(|t| >= 2 && t[0] == '0' && (t[1] == 'x' || t[1] == 'X')) {
      ParseIntOfLeadingDigit(s);
    }
  }

  lemma ParseIntOfBlank(s: string)
    requires TrimStart(s) == []
    ensures ParseInt(s) == None
  {
    assert ParseInt(s) == ParseUnsigned([]);
    assert DigitRun([], 10) == 0;
  }

  lemma ParseIntAfterMinusSign(s: string)
    requires TrimStart(s) != [] && TrimStart(s)[0] == '-'
    ensures ParseInt(s).Some? ==> ParseInt(s).value <= 0
  {
  }

  lemma ParseIntOfLeadingDigit(s: string)
    requires var t := TrimStart(s);
      t != [] && IsDecimalDigit(t[0]) && !(|t| >= 2 && t[0] == '0' && (t[1] == 'x' || t[1] == 'X'))
    ensures ParseInt(s).Some? && ParseInt(s).value >= 0
  {
    var t := TrimStart(s);
    assert t[0] != '-' && t[0] != '+';
    assert ParseInt(s) == ParseUnsigned(t);
    LeadingDigitReads(t);
  }

  /** Digits at the start, not read as a `0x` prefix, always give a number. */
  lemma LeadingDigitReads(u: string)
    requires u != [] && IsDecimalDigit(u[0]) && !(|u| >= 2 && u[0] == '0' && (u[1] == 'x' || u[1] == 'X'))
    ensures ParseUnsigned(u).Some?
  {
    assert ParseUnsigned(u) == ParseDigits(u, 10);
    assert DigitValue(u[0], 10).Some?;
    assert DigitRun(u, 10) >= 1;
  }

  lemma NoWhiteSpaceAtStart(t: string)
    requires t != [] && (IsDecimalDigit(t[0]) || t[0] == '-')
    ensures TrimStart(t) == t
  {
  }
}

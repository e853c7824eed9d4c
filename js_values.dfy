/** The few pieces of JavaScript semantics the playlist store relies on:
    the values a song field can hold, truthiness (for `if (x)` and `x || y`),
    `ToString` and the global `parseInt` with no radix argument. */
module JsValues {

  /** A JavaScript value as it can appear in a song field or a request body.
      Numbers are modelled as unbounded integers; `NaN` is kept apart. */
  datatype JsVal = Undefined | Null | Bool(b: bool) | Num(n: int) | NaN | Str(s: string)

  /** JavaScript truthiness: `undefined`, `null`, `false`, `0`, `NaN` and `""` are falsy. */
  predicate Truthy(v: JsVal) {
    match v
    case Undefined => false
    case Null => false
    case Bool(b) => b
    case Num(n) => n != 0
    case NaN => false
    case Str(s) => s != ""
  }

  /** The six falsy values are the only ones. */
  lemma FalsyValues(v: JsVal)
    ensures !Truthy(v) <==> (v == Undefined || v == Null || v == Bool(false) || v == Num(0)
                             || v == NaN || v == Str(""))
  {
  }

  /** The expression `a || b`: the first operand when it is truthy, else the second. */
  function Or(a: JsVal, b: JsVal): (r: JsVal)
    ensures r == a || r == b
    ensures Truthy(r) <==> Truthy(a) || Truthy(b)
    ensures Truthy(a) ==> r == a
    ensures !Truthy(a) ==> r == b
  {
    if Truthy(a) then a else b
  }

  /** The value of one character read as a digit in any radix up to 36:
      `0`-`9` are 0-9, letters of either case are 10-35, anything else is 36. */
  function DigitValue(c: char): (v: nat)
    ensures v <= 36
    ensures v < 10 <==> '0' <= c <= '9'
  {
    if '0' <= c <= '9' then c as int - '0' as int
    else if 'a' <= c <= 'z' then c as int - 'a' as int + 10
    else if 'A' <= c <= 'Z' then c as int - 'A' as int + 10
    else 36
  }

  function DigitChar(d: nat): (c: char)
    requires d < 10
    ensures DigitValue(c) == d
  {
    ('0' as int + d) as char
  }

  predicate AllDigits(s: string, radix: nat) {
    forall i :: 0 <= i < |s| ==> DigitValue(s[i]) < radix
  }

  /** Decimal notation of a natural number, most significant digit first. */
  function NatToString(n: nat): (r: string)
    ensures |r| > 0 && AllDigits(r, 10)
    decreases n
  {
    if n < 10 then [DigitChar(n)] else NatToString(n / 10) + [DigitChar(n % 10)]
  }

  /** `String(n)` for an integer number. */
  function IntToString(n: int): string {
    if n < 0 then "-" + NatToString(-n) else NatToString(n)
  }

  /** The abstract operation ToString applied to a value. */
  function ToString(v: JsVal): string {
    match v
    case Undefined => "undefined"
    case Null => "null"
    case Bool(b) => if b then "true" else "false"
    case Num(n) => IntToString(n)
    case NaN => "NaN"
    case Str(s) => s
  }

  /** WhiteSpace and LineTerminator code points, which `parseInt` skips at the start. */
  predicate IsJsWhitespace(c: char) {
    var k := c as int;
    k == 0x09 || k == 0x0A || k == 0x0B || k == 0x0C || k == 0x0D || k == 0x20
    || k == 0xA0 || k == 0x1680 || (0x2000 <= k <= 0x200A) || k == 0x2028 || k == 0x2029
    || k == 0x202F || k == 0x205F || k == 0x3000 || k == 0xFEFF
  }

  /** The string with its leading white space removed. */
  function TrimStart(s: string): (r: string)
    ensures |r| <= |s| && r == s[|s| - |r|..]
    ensures forall i :: 0 <= i < |s| - |r| ==> IsJsWhitespace(s[i])
    ensures r == [] || !IsJsWhitespace(r[0])
    decreases |s|
  {
    if |s| > 0 && IsJsWhitespace(s[0]) then TrimStart(s[1..]) else s
  }

  /** The longest prefix of `s` made of digits of the given radix. */
  function DigitPrefix(s: string, radix: nat): (r: string)
    ensures |r| <= |s| && r == s[..|r|]
    ensures AllDigits(r, radix)
    ensures |r| == |s| || DigitValue(s[|r|]) >= radix
    decreases |s|
  {
    if |s| > 0 && DigitValue(s[0]) < radix then [s[0]] + DigitPrefix(s[1..], radix) else []
  }

  /** The number a digit string denotes in the given radix. */
  function DigitsValue(ds: string, radix: nat): nat
    decreases |ds|
  {
    if ds == [] then 0 else DigitsValue(ds[..|ds| - 1], radix) * radix + DigitValue(ds[|ds| - 1])
  }

  /** `parseInt(s)` with the radix left undefined: skip leading white space, take an
      optional sign, read the `0x`/`0X` prefix as radix 16 and otherwise use radix 10,
      then read the longest run of digits; without any digit the result is NaN. */
  function ParseIntString(s: string): (r: JsVal)
    ensures r.Num? || r.NaN?
  {
    var (radix, w) := ParseIntBody(s);
    ReadDigits(IsNegative(s), radix, w)
  }

  /** Whether the number `parseInt` reads carries a minus sign. */
  predicate IsNegative(s: string) {
    var t := TrimStart(s);
    |t| > 0 && t[0] == '-'
  }

  /** The value of the leading digits of `w`, or NaN if there are none. */
  function ReadDigits(negative: bool, radix: nat, w: string): (r: JsVal)
    ensures r.Num? || r.NaN?
  {
    var z := DigitPrefix(w, radix);
    var magnitude: int := DigitsValue(z, radix);
    if z == [] then NaN
    else if negative then Num(-magnitude)
    else Num(magnitude)
  }

  /** The radix `parseInt` settles on, and what is left of the string once the
      white space, the sign and a hexadecimal prefix have been taken off. */
  function ParseIntBody(s: string): (r: (nat, string))
    ensures r.0 == 10 || r.0 == 16
  {
    var t := TrimStart(s);
    var u := if |t| > 0 && (t[0] == '-' || t[0] == '+') then t[1..] else t;
    if |u| >= 2 && u[0] == '0' && (u[1] == 'x' || u[1] == 'X') then (16, u[2..]) else (10, u)
  }

  /** `parseInt(v)`: the value is converted to a string first. */
  function ParseInt(v: JsVal): (r: JsVal)
    ensures r.Num? || r.NaN?
  {
    ParseIntString(ToString(v))
  }

  // ---------------------------------------------------------------------------
  // Properties of parseInt

  lemma {:induction false} DigitsValueOfNatToString(n: nat)
    ensures DigitsValue(NatToString(n), 10) == n
    decreases n
  {
    var s := NatToString(n);
    if n >= 10 {
      DigitsValueOfNatToString(n / 10);
      assert s[..|s| - 1] == NatToString(n / 10);
    }
  }

  lemma {:induction false} LeadingDigitOfNatToString(n: nat)
    ensures NatToString(n)[0] == '0' <==> n == 0
    decreases n
  {
    if n >= 10 {
      LeadingDigitOfNatToString(n / 10);
    }
  }

  /** A run of digits followed by something that is not a digit is exactly the digit prefix. */
  lemma {:induction false} DigitPrefixOfDigits(ds: string, rest: string, radix: nat)
    requires AllDigits(ds, radix)
    requires rest == [] || DigitValue(rest[0]) >= radix
    ensures DigitPrefix(ds + rest, radix) == ds
    decreases |ds|
  {
    if ds != [] {
      assert (ds + rest)[1..] == ds[1..] + rest;
      DigitPrefixOfDigits(ds[1..], rest, radix);
    } else {
      assert ds + rest == rest;
    }
  }

  /** A string that starts with a decimal digit, and not with `0x` or `0X`, is read
      in radix 10 from its first character. */
  lemma DecimalBody(s: string)
    requires |s| > 0 && DigitValue(s[0]) < 10
    requires |s| >= 2 && s[0] == '0' ==> s[1] != 'x' && s[1] != 'X'
    ensures TrimStart(s) == s
    ensures ParseIntBody(s) == (10, s)
  {
    assert !IsJsWhitespace(s[0]);
  }

  /** `parseInt` of a string whose body in radix 10 is a run of digits followed by
      a character that ends it. */
  lemma ParseDecimalDigits(s: string, ds: string, rest: string, negative: bool)
    requires ParseIntBody(s) == (10, ds + rest)
    requires negative == IsNegative(s)
    requires AllDigits(ds, 10) && ds != []
    requires rest == [] || DigitValue(rest[0]) >= 10
    ensures ParseIntString(s) == Num(if negative then 0 - DigitsValue(ds, 10) else DigitsValue(ds, 10))
  {
    DigitPrefixOfDigits(ds, rest, 10);
  }

  /** `parseInt` reads a decimal number up to the first character that ends it,
      as in `parseInt("42px") == 42`. A `0` followed by `x` or `X` is the one
      exception: it starts a hexadecimal number instead. */
  lemma ParseIntStopsAtNonDigit(n: nat, rest: string)
    requires rest == [] || DigitValue(rest[0]) >= 10
    requires n == 0 ==> rest == [] || (rest[0] != 'x' && rest[0] != 'X')
    ensures ParseIntString(NatToString(n) + rest) == Num(n)
  {
    var ds := NatToString(n);
    var s := ds + rest;
    LeadingDigitOfNatToString(n);
    assert s[0] == ds[0];
    if |s| >= 2 && s[0] == '0' {
      assert |ds| == 1 && s[1] == rest[0];
    }
    DecimalBody(s);
    ParseDecimalDigits(s, ds, rest, false);
    DigitsValueOfNatToString(n);
  }

  /** `parseInt` reads a minus sign followed by the decimal notation of a number. */
  lemma ParseIntOfNegative(m: nat)
    requires m > 0
    ensures ParseIntString("-" + NatToString(m)) == Num(0 - m)
  {
    var ds := NatToString(m);
    var s := "-" + ds;
    assert s[0] == '-' && s[1..] == ds;
    assert TrimStart(s) == s;
    LeadingDigitOfNatToString(m);
    assert ds[0] != '0';
    assert ParseIntBody(s) == (10, ds);
    assert ds + [] == ds;
    ParseDecimalDigits(s, ds, [], true);
    DigitsValueOfNatToString(m);
  }

  /** Reading back the decimal notation of an integer gives the integer. */
  lemma ParseIntOfIntString(n: int)
    ensures ParseIntString(IntToString(n)) == Num(n)
  {
    if n < 0 {
      ParseIntOfNegative(-n);
    } else {
      ParseIntStopsAtNonDigit(n, []);
      assert NatToString(n) + [] == NatToString(n);
    }
  }

  /** `parseInt` leaves an integer number as it is. */
  lemma ParseIntOfNumber(n: int)
    ensures ParseInt(Num(n)) == Num(n)
  {
    ParseIntOfIntString(n);
  }

  /** A string whose first character after the white space is neither a sign nor a
      decimal digit holds no number. */
  lemma ParseIntOfNonDigit(s: string)
    requires |s| > 0 && !IsJsWhitespace(s[0]) && s[0] != '-' && s[0] != '+'
    requires DigitValue(s[0]) >= 10
    ensures ParseIntString(s) == NaN
  {
    assert TrimStart(s) == s;
    assert ParseIntBody(s) == (10, s);
    assert DigitPrefix(s, 10) == [];
  }

  /** Values that do not convert to a string holding digits give NaN. */
  lemma ParseIntOfNonNumbers(v: JsVal)
    requires v.Undefined? || v.Null? || v.Bool? || v.NaN? || v == Str("")
    ensures ParseInt(v) == NaN
  {
    var s := ToString(v);
    if s == [] {
      assert TrimStart(s) == s;
      assert ParseIntBody(s) == (10, s);
    } else {
      ParseIntOfNonDigit(s);
    }
  }

  /** Parsing a parsed value changes nothing. */
  lemma ParseIntIdempotent(v: JsVal)
    ensures ParseInt(ParseInt(v)) == ParseInt(v)
  {
    var r := ParseInt(v);
    if r.Num? {
      ParseIntOfNumber(r.n);
    } else {
      ParseIntOfNonNumbers(r);
    }
  }

  /** Leading white space does not change what `parseInt` reads. */
  lemma ParseIntSkipsWhitespace(c: char, s: string)
    requires IsJsWhitespace(c)
    ensures ParseIntString([c] + s) == ParseIntString(s)
  {
    assert ([c] + s)[1..] == s;
    assert TrimStart([c] + s) == TrimStart(s);
    assert ParseIntBody([c] + s) == ParseIntBody(s);
    assert IsNegative([c] + s) == IsNegative(s);
  }
}

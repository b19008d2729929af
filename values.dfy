/** The values a decoded JSON frame can hold, read with Python's semantics:
    truthiness, `type(v).__name__`, `dict.get`, `int(v)` and `str(v)`. Floating-point
    numbers are not part of the model. */
module Values {
  import opened Wrappers
  import opened Text

  datatype Json =
    | JNull
    | JBool(b: bool)
    | JInt(i: int)
    | JStr(s: string)
    | JArr(items: seq<Json>)
    | JObj(fields: map<string, Json>)

  /** The Python exceptions the core raises or catches, each with its `str(e)`. */
  datatype Exception =
    | ValueError(message: string)
    | TypeError(message: string)
    | AttributeError(message: string)
    | DatabaseError(message: string)

  /** `bool(v)` in Python: `None`, `False`, `0`, `""`, `[]` and `{}` are falsy. */
  predicate Truthy(v: Json)
    ensures Truthy(v) <==>
              v != JNull && v != JBool(false) && v != JInt(0) && v != JStr([])
              && v != JArr([]) && v != JObj(map[])
  {
    match v
    case JNull => false
    case JBool(b) => b
    case JInt(i) => i != 0
    case JStr(s) => s != []
    case JArr(a) => a != []
    case JObj(m) => m != map[]
  }

  /** `type(v).__name__` */
  function TypeName(v: Json): string {
    match v
    case JNull => "NoneType"
    case JBool(_) => "bool"
    case JInt(_) => "int"
    case JStr(_) => "str"
    case JArr(_) => "list"
    case JObj(_) => "dict"
  }

  /** Lists and dicts cannot be dictionary keys. */
  predicate Hashable(v: Json) {
    !v.JArr? && !v.JObj?
  }

  /** `v.get(key, default)`: only a dict has `get`. */
  function Get(v: Json, key: string, default: Json): (r: Result<Json, Exception>)
    ensures r.Ok? <==> v.JObj?
    ensures v.JObj? && key in v.fields ==> r == Ok(v.fields[key])
    ensures v.JObj? && key !in v.fields ==> r == Ok(default)
    ensures r.Err? ==> r.error == AttributeError("'" + TypeName(v) + "' object has no attribute 'get'")
  {
    match v
    case JObj(m) => Ok(if key in m then m[key] else default)
    case _ => Err(AttributeError("'" + TypeName(v) + "' object has no attribute 'get'"))
  }

  // ------------------------------------------------------------ numerals

  /** The whitespace `int()` skips around a numeral: `str.isspace()` without the
      separators U+001C to U+001F, which `int()` does not skip. */
  predicate IsIntSpace(c: char) {
    IsSpace(c) && !('\U{1c}' <= c <= '\U{1f}')
  }

  /** The value of a digit character in base `base`, as `int(..., base)` reads it: `0` to
      `9`, then the letters of either case from 10 on. */
  function DigitIn(c: char, base: nat): (d: Option<nat>)
    ensures d.Some? ==> d.value < base
    ensures IsDigit(c) && base == 10 ==> d == Some(c as int - '0' as int)
  {
    var v := if IsDigit(c) then c as int - '0' as int
             else if IsLower(c) then c as int - 'a' as int + 10
             else if IsUpper(c) then c as int - 'A' as int + 10
             else 36;
    if v < base then Some(v) else None
  }

  function DigitChar(d: nat): (c: char)
    requires d < 10
    ensures IsDigit(c) && DigitIn(c, 10) == Some(d)
  {
    ('0' as int + d) as char
  }

  /** Digits of base `base`, with single underscores allowed between two digits. */
  predicate IsNumeral(s: string, base: nat) {
    s != [] && DigitIn(s[0], base).Some? && DigitIn(s[|s| - 1], base).Some? &&
    (forall i :: 0 <= i < |s| ==> DigitIn(s[i], base).Some? || s[i] == '_') &&
    (forall i :: 0 <= i < |s| - 1 ==> !(s[i] == '_' && s[i + 1] == '_'))
  }

  /** The digits of a numeral, most significant first, underscores skipped. */
  function NumeralDigits(s: string, base: nat): (ds: seq<nat>)
    requires forall i :: 0 <= i < |s| ==> DigitIn(s[i], base).Some? || s[i] == '_'
    ensures |ds| <= |s|
    ensures forall i :: 0 <= i < |ds| ==> ds[i] < base
  {
    if s == [] then []
    else
      var last := s[|s| - 1];
      NumeralDigits(s[..|s| - 1], base) + (if last == '_' then [] else [DigitIn(last, base).value])
  }

  /** The number the digits `ds` stand for in base `base`, most significant first. */
  function DigitsValue(ds: seq<nat>, base: nat): nat {
    if ds == [] then 0 else base * DigitsValue(ds[..|ds| - 1], base) + ds[|ds| - 1]
  }

  /** `str(n)` for a natural number: its digits, most significant first. */
  function NatToString(n: nat): (s: string)
    ensures s != [] && forall i :: 0 <= i < |s| ==> IsDigit(s[i])
  {
    if n < 10 then [DigitChar(n)] else NatToString(n / 10) + [DigitChar(n % 10)]
  }

  /** `str(i)` */
  function IntToString(i: int): string {
    if i < 0 then "-" + NatToString(-i) else NatToString(i)
  }

  /** The numeral `str()` writes has one digit per character, and reads back as the
      number. */
  lemma {:induction false} NatToStringValue(n: nat)
    ensures IsNumeral(NatToString(n), 10)
    ensures |NumeralDigits(NatToString(n), 10)| == |NatToString(n)|
    ensures DigitsValue(NumeralDigits(NatToString(n), 10), 10) == n
  {
    var s := NatToString(n);
    NatToStringNumeral(n);
    if n >= 10 {
      var t := NatToString(n / 10);
      assert s[..|s| - 1] == t;
      NatToStringValue(n / 10);
      var ds := NumeralDigits(s, 10);
      assert ds == NumeralDigits(t, 10) + [n % 10];
      assert ds[..|ds| - 1] == NumeralDigits(t, 10);
    }
  }

  lemma NatToStringNumeral(n: nat)
    ensures IsNumeral(NatToString(n), 10)
  {
    var s := NatToString(n);
    forall i | 0 <= i < |s| ensures DigitIn(s[i], 10).Some? {
      assert IsDigit(s[i]);
    }
  }

  /** The greatest number of decimal digits `int()` reads: a longer decimal numeral
      raises a ValueError (`sys.get_int_max_str_digits()`, 4300 by default). */
  const MaxStrDigits: nat := 4300

  /** A leading sign cut off: whether it is `-`, and the text after it. */
  function Unsigned(t: string): (r: (bool, string))
    ensures |r.1| <= |t|
  {
    if t != [] && (t[0] == '+' || t[0] == '-') then (t[0] == '-', t[1..]) else (false, t)
  }

  /** In base 16, a leading `0x` or `0X` cut off together with at most one underscore
      after it. */
  function Unprefixed(u: string, base: nat): (v: string)
    ensures |v| <= |u|
  {
    if base == 16 && |u| >= 2 && u[0] == '0' && (u[1] == 'x' || u[1] == 'X') then
      (if |u| >= 3 && u[2] == '_' then u[3..] else u[2..])
    else u
  }

  /** A numeral has no prefix to cut. */
  lemma NumeralUnprefixed(s: string, base: nat)
    requires base == 10 || base == 16
    requires IsNumeral(s, base)
    ensures Unprefixed(s, base) == s
  {
    if |s| >= 2 {
      assert DigitIn(s[1], base).Some? || s[1] == '_';
    }
  }

  /** What `int(s, base)` reads, before any limit on the number of digits: surrounding
      whitespace, an optional sign, in base 16 an optional `0x` or `0X` prefix with at
      most one underscore after it, then a numeral. The result tells whether the sign is
      `-`, and gives the digits. */
  function IntLiteral(s: string, base: nat): (r: Option<(bool, seq<nat>)>)
    requires base == 10 || base == 16
    ensures r.Some? ==> |r.value.1| <= |s|
    ensures r.Some? ==> forall i :: 0 <= i < |r.value.1| ==> r.value.1[i] < base
  {
    var (negative, u) := Unsigned(StripRight(StripLeft(s, IsIntSpace), IsIntSpace));
    var v := Unprefixed(u, base);
    if IsNumeral(v, base) then Some((negative, NumeralDigits(v, base))) else None
  }

  /** `int(s, base)` for a string, `None` where Python raises a ValueError. A decimal
      numeral of more than `MaxStrDigits` digits is refused; base 16, a power of two, has
      no such limit. */
  function ParseInt(s: string, base: nat): (r: Option<int>)
    requires base == 10 || base == 16
    ensures r.Some? ==> IntLiteral(s, base).Some?
    ensures r.Some? ==> var (negative, ds) := IntLiteral(s, base).value;
                        && (if r.value < 0 then -r.value else r.value) == DigitsValue(ds, base)
                        && (r.value < 0 ==> negative)
                        && (base == 10 ==> |ds| <= MaxStrDigits)
  {
    match IntLiteral(s, base)
    case None => None
    case Some((negative, ds)) =>
      if base == 10 && |ds| > MaxStrDigits then None
      else Some(SignedValue(negative, ds, base))
  }

  /** The value of a literal's digits, negated for a literal with `-`. */
  function SignedValue(negative: bool, ds: seq<nat>, base: nat): int {
    var n: int := DigitsValue(ds, base);
    if negative then -n else n
  }

  /** A bare numeral is read as its digits. */
  lemma PlainLiteral(s: string, base: nat)
    requires base == 10 || base == 16
    requires IsNumeral(s, base)
    ensures IntLiteral(s, base) == Some((false, NumeralDigits(s, base)))
  {
    assert !IsIntSpace(s[0]) && !IsIntSpace(s[|s| - 1]);
    StripKeeps(s, IsIntSpace);
    assert Unsigned(s) == (false, s);
    NumeralUnprefixed(s, base);
  }

  /** A numeral after a minus sign is read as negative. */
  lemma NegativeLiteral(s: string, base: nat)
    requires base == 10 || base == 16
    requires IsNumeral(s, base)
    ensures IntLiteral("-" + s, base) == Some((true, NumeralDigits(s, base)))
  {
    var m := "-" + s;
    assert m[1..] == s && m[|m| - 1] == s[|s| - 1];
    assert !IsIntSpace(m[0]) && !IsIntSpace(m[|m| - 1]);
    StripKeeps(m, IsIntSpace);
    assert Unsigned(m) == (true, s);
    NumeralUnprefixed(s, base);
  }

  /** `int()` reads back what `str()` writes, up to `MaxStrDigits` digits. */
  lemma ParseIntToString(i: int)
    requires |NatToString(if i < 0 then -i else i)| <= MaxStrDigits
    ensures ParseInt(IntToString(i), 10) == Some(i)
  {
    var n: nat := if i < 0 then -i else i;
    var t := NatToString(n);
    NatToStringValue(n);
    if i < 0 {
      NegativeLiteral(t, 10);
      ReadLiteral("-" + t, true, NumeralDigits(t, 10));
    } else {
      PlainLiteral(t, 10);
      ReadLiteral(t, false, NumeralDigits(t, 10));
    }
  }

  /** A decimal literal within the digit limit reads as its signed value. */
  lemma ReadLiteral(s: string, negative: bool, ds: seq<nat>)
    requires IntLiteral(s, 10) == Some((negative, ds)) && |ds| <= MaxStrDigits
    ensures ParseInt(s, 10) == Some(SignedValue(negative, ds, 10))
  {
  }

  /** A decimal numeral longer than `MaxStrDigits` digits is refused. */
  lemma LongNumeralRefused(n: nat)
    requires |NatToString(n)| > MaxStrDigits
    ensures ParseInt(NatToString(n), 10) == None
  {
    NatToStringValue(n);
    PlainLiteral(NatToString(n), 10);
  }

  /** The message of the ValueError `int(s)` raises for a string it refuses. */
  function IntRefusal(s: string): string {
    match IntLiteral(s, 10)
    case Some((_, ds)) =>
      "Exceeds the limit (4300 digits) for integer string conversion: value has "
      + NatToString(|ds|) + " digits; use sys.set_int_max_str_digits() to increase the limit"
    case None => "invalid literal for int() with base 10: '" + s + "'"
  }

  /** `int(v)` */
  function IntOf(v: Json): (r: Result<int, Exception>)
    ensures v.JInt? ==> r == Ok(v.i)
    ensures v.JBool? ==> r == Ok(if v.b then 1 else 0)
    ensures v.JStr? ==> (r.Ok? <==> ParseInt(v.s, 10).Some?) && (r.Err? ==> r.error.ValueError?)
    ensures v.JStr? && r.Ok? ==> ParseInt(v.s, 10) == Some(r.value)
    ensures v.JNull? || v.JArr? || v.JObj? ==> r.Err? && r.error.TypeError?
  {
    match v
    case JBool(b) => Ok(if b then 1 else 0)
    case JInt(i) => Ok(i)
    case JStr(s) =>
      (match ParseInt(s, 10)
       case Some(n) => Ok(n)
       case None => Err(ValueError(IntRefusal(s))))
    case _ =>
      Err(TypeError("int() argument must be a string, a bytes-like object or a real number, not '"
                    + TypeName(v) + "'"))
  }

  /** `str(v)` for the hashable values. */
  function Str(v: Json): (r: string)
    requires Hashable(v)
    ensures v.JStr? ==> r == v.s
    ensures !v.JStr? ==> r != []
    ensures v.JInt? ==> (r[0] == '-' <==> v.i < 0)
  {
    match v
    case JNull => "None"
    case JBool(b) => if b then "True" else "False"
    case JInt(i) => IntToString(i)
    case JStr(s) => s
  }
}

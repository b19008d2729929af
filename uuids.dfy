/** UUIDs as the core handles them: the primary keys of users and rows, written out by
    `str(uuid)` (in group names, cache keys and `UUIDEncoder`) and `uuid.hex` (avatar
    paths), and read back by `uuid.UUID(hex=...)` when a row is looked up by id. */
module Uuids {
  import opened Wrappers
  import opened Text
  import opened Values

  type Nibble = x: int | 0 <= x < 16

  /** A UUID is its 128 bits, as 32 hexadecimal digits, most significant first. */
  type Uuid = s: seq<Nibble> | |s| == 32 witness seq(32, i => 0)

  const HexDigits: string := "0123456789abcdef"

  function HexChar(n: Nibble): (c: char)
    ensures IsDigit(c) || 'a' <= c <= 'f'
  {
    HexDigits[n]
  }

  lemma HexValueOfChar(n: Nibble)
    ensures DigitIn(HexChar(n), 16) == Some(n)
  {
  }

  /** `uuid.hex`: 32 lower-case hexadecimal digits. */
  function Hex(u: Uuid): (r: string)
    ensures |r| == 32
    ensures forall i :: 0 <= i < 32 ==> r[i] == HexChar(u[i])
  {
    seq(32, i requires 0 <= i < 32 => HexChar(u[i]))
  }

  /** `str(uuid)`: the 8-4-4-4-12 hyphenated form. */
  function Canonical(u: Uuid): (r: string)
    ensures |r| == 36
    ensures r[8] == '-' && r[13] == '-' && r[18] == '-' && r[23] == '-'
  {
    var h := Hex(u);
    h[..8] + "-" + h[8..12] + "-" + h[12..16] + "-" + h[16..20] + "-" + h[20..]
  }

  /** `uuid.int`: the 128-bit value, read from the digits most significant first. */
  function Value(u: Uuid): nat {
    DigitsValue(u, 16)
  }

  /** Leading zero digits do not change a value. */
  lemma {:induction false} ZerosValue(z: seq<nat>, ds: seq<nat>, base: nat)
    requires forall i :: 0 <= i < |z| ==> z[i] == 0
    ensures DigitsValue(z + ds, base) == DigitsValue(ds, base)
    decreases |z| + |ds|
  {
    if ds == [] {
      assert z + ds == z;
      if z != [] {
        ZerosValue(z[..|z| - 1], [], base);
        assert z[..|z| - 1] + [] == z[..|z| - 1];
      }
    } else {
      var zd := z + ds;
      assert zd[..|zd| - 1] == z + ds[..|ds| - 1];
      ZerosValue(z, ds[..|ds| - 1], base);
    }
  }

  /** A last digit below the base is determined, and so is what stands before it. */
  lemma LastDigit(base: nat, x: nat, y: nat, p: nat, q: nat)
    requires p < base && q < base
    requires base * x + p == base * y + q
    ensures x == y && p == q
  {
    MulGap(base, x, y);
    MulGap(base, y, x);
  }

  /** Multiples of a natural number are at least that number apart. */
  lemma MulGap(base: int, x: int, y: int)
    ensures base >= 0 && x < y ==> base * y >= base * x + base
  {
    if base >= 0 && x < y {
      var j := y - x - 1;
      assert base * y == base * x + base * j + base;
      assert base * j >= 0;
    }
  }

  /** Digits of the same number and length are the same digits. */
  lemma {:induction false} ValueInjective(a: seq<nat>, b: seq<nat>, base: nat)
    requires |a| == |b|
    requires forall i :: 0 <= i < |a| ==> a[i] < base && b[i] < base
    requires DigitsValue(a, base) == DigitsValue(b, base)
    ensures a == b
    decreases |a|
  {
    if a != [] {
      var n := |a| - 1;
      LastDigit(base, DigitsValue(a[..n], base), DigitsValue(b[..n], base), a[n], b[n]);
      ValueInjective(a[..n], b[..n], base);
      assert a == a[..n] + [a[n]] && b == b[..n] + [b[n]];
    }
  }

  /** The text `uuid.UUID(hex=s)` hands to `int(..., 16)`: `urn:` and `uuid:` removed,
      braces stripped from both ends, hyphens removed. */
  function UuidText(s: string): (r: string)
    ensures '-' !in r && |r| <= |s|
    ensures 'u' !in s && '{' !in s && '}' !in s && '-' !in s ==> r == s
  {
    if 'u' !in s && '{' !in s && '}' !in s && '-' !in s then
      RemoveAllAbsent(s, "urn:");
      RemoveAllAbsent(s, "uuid:");
      WithoutAbsent(s, '-');
      Without(StripChars(RemoveAll(RemoveAll(s, "urn:"), "uuid:"), {'{', '}'}), '-')
    else
      Without(StripChars(RemoveAll(RemoveAll(s, "urn:"), "uuid:"), {'{', '}'}), '-')
  }

  /** The digits of a number below 2^128 widened to the 32 digits of a UUID. */
  function Pad(ds: seq<nat>): (u: Uuid)
    requires |ds| <= 32 && forall i :: 0 <= i < |ds| ==> ds[i] < 16
    ensures Value(u) == DigitsValue(ds, 16)
  {
    var z := seq(32 - |ds|, i => 0);
    ZerosValue(z, ds, 16);
    z + ds
  }

  /** `uuid.UUID(hex=s)` once `s` is prepared into `t`: `t` must have 32 characters,
      which `int(t, 16)` then reads; a value outside 0 to 2^128 - 1 is refused, and 32
      characters hold no more than 32 digits. */
  function UuidOfText(t: string): (r: Option<Uuid>)
    ensures r.Some? <==> |t| == 32 && ParseInt(t, 16).Some? && ParseInt(t, 16).value >= 0
    ensures r.Some? ==> ParseInt(t, 16) == Some(Value(r.value))
  {
    if |t| != 32 then None
    else match IntLiteral(t, 16)
      case None => None
      case Some((negative, ds)) =>
        if negative && DigitsValue(ds, 16) != 0 then None else Some(Pad(ds))
  }

  /** `uuid.UUID(hex=s)`, `None` where it raises. */
  function ParseUuid(s: string): (r: Option<Uuid>)
    ensures r.Some? <==> |UuidText(s)| == 32 && ParseInt(UuidText(s), 16).Some?
                         && ParseInt(UuidText(s), 16).value >= 0
    ensures r.Some? ==> ParseInt(UuidText(s), 16) == Some(Value(r.value))
  {
    UuidOfText(UuidText(s))
  }

  /** `UUID(hex=s)` names `u` exactly when `int(..., 16)` reads `u`'s value from the 32
      prepared characters. */
  lemma ParseUuidNames(s: string, u: Uuid)
    ensures ParseUuid(s) == Some(u)
            <==> |UuidText(s)| == 32 && ParseInt(UuidText(s), 16) == Some(Value(u))
  {
    var r := ParseUuid(s);
    if r.Some? && ParseInt(UuidText(s), 16) == Some(Value(u)) {
      ValueInjective(r.value, u, 16);
    }
  }

  /** The digits of `uuid.hex` read back as the UUID's nibbles. */
  lemma {:induction false} HexDigitsRead(u: Uuid, k: nat)
    requires k <= 32
    ensures forall i :: 0 <= i < k ==> DigitIn(Hex(u)[..k][i], 16).Some?
    ensures NumeralDigits(Hex(u)[..k], 16) == u[..k]
  {
    var h := Hex(u)[..k];
    forall i | 0 <= i < k ensures DigitIn(h[i], 16).Some? {
      HexValueOfChar(u[i]);
    }
    if k > 0 {
      assert h[..k - 1] == Hex(u)[..k - 1];
      HexDigitsRead(u, k - 1);
      HexValueOfChar(u[k - 1]);
      assert u[..k] == u[..k - 1] + [u[k - 1]];
    }
  }

  /** `uuid.hex` is a base-16 numeral whose digits are the UUID. */
  lemma HexNumeral(u: Uuid)
    ensures IsNumeral(Hex(u), 16) && NumeralDigits(Hex(u), 16) == u
  {
    HexDigitsRead(u, 32);
    assert Hex(u)[..32] == Hex(u) && u[..32] == u;
  }

  predicate IsLowerHex(c: char) {
    IsDigit(c) || 'a' <= c <= 'f'
  }

  /** On a string of hyphens and lower-case digits, `UUID(hex=...)` only drops hyphens. */
  lemma {:induction false} PrepareKeepsDigits(s: string)
    requires s != [] && IsLowerHex(s[0]) && IsLowerHex(s[|s| - 1])
    requires forall i :: 0 <= i < |s| ==> s[i] == '-' || IsLowerHex(s[i])
    ensures UuidText(s) == Without(s, '-')
  {
    assert 'u' !in s;
    RemoveAllAbsent(s, "urn:");
    RemoveAllAbsent(s, "uuid:");
    var braces := {'{', '}'};
    assert s[0] !in braces && s[|s| - 1] !in braces;
    assert StripChars(s, braces) == s;
  }

  lemma HyphenJoin(x: string, y: string)
    ensures Without(x + "-" + y, '-') == Without(x, '-') + Without(y, '-')
  {
    assert Without("-", '-') == [];
    WithoutConcat(x, "-", '-');
    WithoutConcat(x + "-", y, '-');
  }

  lemma WithoutHyphens(a: string, b: string, c: string, d: string, e: string)
    requires '-' !in a && '-' !in b && '-' !in c && '-' !in d && '-' !in e
    ensures Without(a + "-" + b + "-" + c + "-" + d + "-" + e, '-') == a + b + c + d + e
  {
    WithoutAbsent(a, '-');
    WithoutAbsent(b, '-');
    WithoutAbsent(c, '-');
    WithoutAbsent(d, '-');
    WithoutAbsent(e, '-');
    var ab := a + "-" + b;
    HyphenJoin(a, b);
    var abc := ab + "-" + c;
    HyphenJoin(ab, c);
    var abcd := abc + "-" + d;
    HyphenJoin(abc, d);
    HyphenJoin(abcd, e);
  }

  lemma CanonicalWithoutHyphens(u: Uuid)
    ensures Without(Canonical(u), '-') == Hex(u)
  {
    var h := Hex(u);
    assert forall i :: 0 <= i < 32 ==> h[i] != '-';
    WithoutHyphens(h[..8], h[8..12], h[12..16], h[16..20], h[20..]);
    assert h[..8] + h[8..12] + h[12..16] + h[16..20] + h[20..] == h;
  }

  lemma CanonicalChars(u: Uuid)
    ensures forall i :: 0 <= i < 36 ==> Canonical(u)[i] == '-' || IsLowerHex(Canonical(u)[i])
  {
    var h := Hex(u);
    var c := Canonical(u);
    forall i | 0 <= i < 36 ensures c[i] == '-' || IsLowerHex(c[i]) {
      if i < 8 { assert c[i] == h[i]; }
      else if 8 < i < 13 { assert c[i] == h[i - 1]; }
      else if 13 < i < 18 { assert c[i] == h[i - 2]; }
      else if 18 < i < 23 { assert c[i] == h[i - 3]; }
      else if 23 < i { assert c[i] == h[i - 4]; }
    }
  }

  /** `int(u.hex, 16)` is `u.int`, and so `uuid.UUID(hex=u.hex) == u`. */
  lemma ParseHex(u: Uuid)
    ensures UuidText(Hex(u)) == Hex(u)
    ensures ParseUuid(Hex(u)) == Some(u)
  {
    var h := Hex(u);
    PrepareKeepsDigits(h);
    HexNoHyphen(u);
    WithoutAbsent(h, '-');
    HexReadsBack(u);
    ParseUuidNames(h, u);
  }

  lemma HexNoHyphen(u: Uuid)
    ensures '-' !in Hex(u)
  {
    var h := Hex(u);
    forall i | 0 <= i < 32 ensures h[i] != '-' {
      assert h[i] == HexChar(u[i]);
    }
  }

  /** `int(u.hex, 16) == u.int` */
  lemma HexReadsBack(u: Uuid)
    ensures ParseInt(Hex(u), 16) == Some(Value(u))
  {
    HexNumeral(u);
    PlainLiteral(Hex(u), 16);
  }

  /** `uuid.UUID(hex=str(u)) == u`. */
  lemma ParseCanonical(u: Uuid)
    ensures ParseUuid(Canonical(u)) == Some(u)
  {
    CanonicalChars(u);
    PrepareKeepsDigits(Canonical(u));
    CanonicalWithoutHyphens(u);
    ParseHex(u);
  }

  /** Distinct UUIDs have distinct string forms; so do their group names and cache keys. */
  lemma CanonicalInjective(u: Uuid, v: Uuid)
    requires Canonical(u) == Canonical(v)
    ensures u == v
  {
    ParseCanonical(u);
    ParseCanonical(v);
  }
}

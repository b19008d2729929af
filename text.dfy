/** Python `str` operations on `seq<char>`, as the core uses them: `strip`, `replace`,
    `title`, `split` and `startswith`. Case mapping is that of ASCII; every other
    character counts as uncased. */
module Text {

  /** Python's `str.isspace()` for one character. */
  predicate IsSpace(c: char) {
    c == ' ' || ('\t' <= c <= '\r') || ('\U{1c}' <= c <= '\U{1f}') ||
    c == '\U{85}' || c == '\U{a0}' || c == '\U{1680}' || ('\U{2000}' <= c <= '\U{200a}') ||
    c == '\U{2028}' || c == '\U{2029}' || c == '\U{202f}' || c == '\U{205f}' || c == '\U{3000}'
  }

  predicate IsUpper(c: char) { 'A' <= c <= 'Z' }
  predicate IsLower(c: char) { 'a' <= c <= 'z' }
  predicate IsCased(c: char) { IsUpper(c) || IsLower(c) }
  predicate IsDigit(c: char) { '0' <= c <= '9' }

  function Lower(c: char): (r: char)
    ensures IsCased(r) == IsCased(c)
    ensures IsUpper(c) ==> IsLower(r)
    ensures !IsUpper(c) ==> r == c
  {
    if IsUpper(c) then (c as int + 32) as char else c
  }

  function Upper(c: char): (r: char)
    ensures IsCased(r) == IsCased(c)
    ensures IsLower(c) ==> IsUpper(r)
    ensures !IsLower(c) ==> r == c
  {
    if IsLower(c) then (c as int - 32) as char else c
  }

  predicate StartsWith(s: string, prefix: string) {
    |prefix| <= |s| && s[..|prefix|] == prefix
  }

  // ---------------------------------------------------------------- strip

  /** `s.lstrip()`, for the whitespace characters `ws` names. */
  function StripLeft(s: string, ws: char -> bool): (r: string)
    ensures |r| <= |s| && r == s[|s| - |r|..]
    ensures forall i :: 0 <= i < |s| - |r| ==> ws(s[i])
    ensures r == [] || !ws(r[0])
  {
    if s != [] && ws(s[0]) then StripLeft(s[1..], ws) else s
  }

  /** `s.rstrip()`, for the whitespace characters `ws` names. */
  function StripRight(s: string, ws: char -> bool): (r: string)
    ensures |r| <= |s| && r == s[..|r|]
    ensures forall i :: |r| <= i < |s| ==> ws(s[i])
    ensures r == [] || !ws(r[|r| - 1])
  {
    if s != [] && ws(s[|s| - 1]) then StripRight(s[..|s| - 1], ws) else s
  }

  /** A text that neither starts nor ends with a character `ws` names is kept. */
  lemma StripKeeps(s: string, ws: char -> bool)
    requires s == [] || (!ws(s[0]) && !ws(s[|s| - 1]))
    ensures StripLeft(s, ws) == s && StripRight(s, ws) == s
  {
  }

  /** Every character of `s` is one of those `ws` names. */
  ghost predicate AllOf(s: string, ws: char -> bool) {
    forall i :: 0 <= i < |s| ==> ws(s[i])
  }

  /** Every character of `s` is whitespace. */
  ghost predicate AllSpace(s: string) {
    AllOf(s, IsSpace)
  }

  /** `lstrip` cuts only characters `ws` names. */
  lemma StripLeftCut(s: string, ws: char -> bool)
    ensures AllOf(s[..|s| - |StripLeft(s, ws)|], ws)
  {
    var head := s[..|s| - |StripLeft(s, ws)|];
    forall k | 0 <= k < |head| ensures ws(head[k]) {
      assert head[k] == s[k];
    }
  }

  /** `rstrip` cuts only characters `ws` names. */
  lemma StripRightCut(t: string, ws: char -> bool)
    ensures AllOf(t[|StripRight(t, ws)|..], ws)
  {
    var r := StripRight(t, ws);
    var tail := t[|r|..];
    forall k | 0 <= k < |tail| ensures ws(tail[k]) {
      assert tail[k] == t[|r| + k];
    }
  }

  /** Stripping keeps the middle of `s` and cuts only characters `ws` names. */
  lemma StripSlice(s: string, ws: char -> bool)
    ensures exists head, tail :: s == head + StripRight(StripLeft(s, ws), ws) + tail
                                 && AllOf(head, ws) && AllOf(tail, ws)
  {
    var t := StripLeft(s, ws);
    var r := StripRight(t, ws);
    var head, tail := s[..|s| - |t|], t[|r|..];
    StripLeftCut(s, ws);
    StripRightCut(t, ws);
    SplitAt(t, |r|);
    SplitAt(s, |s| - |t|);
    ConcatAssoc(head, r, tail);
  }

  lemma SplitAt(s: string, k: nat)
    requires k <= |s|
    ensures s == s[..k] + s[k..]
  {
  }

  /** The two parts of a concatenation are its slices. */
  lemma ConcatParts(x: string, y: string)
    ensures (x + y)[..|x|] == x && (x + y)[|x|..] == y
  {
  }

  lemma ConcatAssoc(a: string, b: string, c: string)
    ensures a + (b + c) == a + b + c
  {
  }

  /** `s.strip()`: the result is `s` with whitespace cut from both ends, and it neither
      starts nor ends with whitespace. */
  function Strip(s: string): (r: string)
    ensures r == [] || (!IsSpace(r[0]) && !IsSpace(r[|r| - 1]))
    ensures exists head, tail :: s == head + r + tail && AllOf(head, IsSpace) && AllOf(tail, IsSpace)
  {
    StripSlice(s, IsSpace);
    StripRight(StripLeft(s, IsSpace), IsSpace)
  }

  lemma AllSpaceConcat(a: string, b: string)
    requires AllSpace(a) && AllSpace(b)
    ensures AllSpace(a + b)
  {
    forall i | 0 <= i < |a + b| ensures IsSpace((a + b)[i]) {
      if i < |a| {
        assert (a + b)[i] == a[i];
      } else {
        assert (a + b)[i] == b[i - |a|];
      }
    }
  }

  /** `strip()` leaves nothing exactly when the text is all whitespace. */
  lemma StripEmpty(s: string)
    ensures Strip(s) == [] <==> AllSpace(s)
  {
    var t := StripLeft(s, IsSpace);
    var r := StripRight(t, IsSpace);
    assert t != [] ==> !IsSpace(t[0]);
    if r != [] {
      assert !IsSpace(s[|s| - |t|]);
    }
  }

  /** `strip()` keeps a text that has no whitespace at either end as it is. */
  lemma StripUnchanged(s: string)
    requires s == [] || (!IsSpace(s[0]) && !IsSpace(s[|s| - 1]))
    ensures Strip(s) == s
  {
  }

  // -------------------------------------------------------------- replace

  /** `s.replace(from, to)` for one-character arguments. */
  function ReplaceChar(s: string, from: char, to: char): (r: string)
    ensures |r| == |s|
    ensures forall i :: 0 <= i < |s| ==> r[i] == if s[i] == from then to else s[i]
  {
    seq(|s|, i requires 0 <= i < |s| => if s[i] == from then to else s[i])
  }

  /** `s.replace(c, '')`: every occurrence of `c` removed. */
  function Without(s: string, c: char): (r: string)
    ensures c !in r
    ensures |r| <= |s|
  {
    if s == [] then [] else (if s[0] == c then [] else [s[0]]) + Without(s[1..], c)
  }

  lemma {:induction false} WithoutConcat(s: string, t: string, c: char)
    ensures Without(s + t, c) == Without(s, c) + Without(t, c)
  {
    if s != [] {
      assert (s + t)[1..] == s[1..] + t;
      WithoutConcat(s[1..], t, c);
    } else {
      assert s + t == t;
    }
  }

  lemma {:induction false} WithoutAbsent(s: string, c: char)
    requires c !in s
    ensures Without(s, c) == s
  {
    if s != [] {
      WithoutAbsent(s[1..], c);
    }
  }

  /** `s.replace(p, '')` for a non-empty `p`: scanning left to right, every
      non-overlapping occurrence of `p` is removed. */
  function RemoveAll(s: string, p: string): (r: string)
    requires p != []
    ensures |r| <= |s|
    ensures multiset(r) <= multiset(s)
    ensures |s| < |p| ==> r == s
    decreases |s|
  {
    if |s| < |p| then s
    else if s[..|p|] == p then
      assert s == s[..|p|] + s[|p|..];
      RemoveAll(s[|p|..], p)
    else
      assert s == [s[0]] + s[1..];
      [s[0]] + RemoveAll(s[1..], p)
  }

  lemma {:induction false} RemoveAllAbsent(s: string, p: string)
    requires p != [] && p[0] !in s
    ensures RemoveAll(s, p) == s
    decreases |s|
  {
    if |s| >= |p| {
      assert s[..|p|][0] == s[0];
      RemoveAllAbsent(s[1..], p);
    }
  }

  /** `s.strip(chars)`: the characters of `cs` removed from both ends. */
  function StripChars(s: string, cs: set<char>): (r: string)
    ensures |r| <= |s|
    ensures (s == [] || (s[0] !in cs && s[|s| - 1] !in cs)) ==> r == s
  {
    StripRight(StripLeft(s, c => c in cs), c => c in cs)
  }

  // ---------------------------------------------------------------- title

  /** Python's `str.title()`: walking left to right, a character that follows a cased
      character is lower-cased and every other character is title-cased (upper-cased). */
  function Title(s: string): (r: string)
    ensures |r| == |s|
    ensures s != [] ==> r[0] == Upper(s[0])
  {
    TitleAfter(s, false)
  }

  function TitleAfter(s: string, prevCased: bool): (r: string)
    ensures |r| == |s|
  {
    if s == [] then []
    else [if prevCased then Lower(s[0]) else Upper(s[0])] + TitleAfter(s[1..], IsCased(s[0]))
  }

  /** The character-wise reading of `str.title()`. */
  predicate TitledFrom(s: string, r: string) {
    |r| == |s| &&
    forall i :: 0 <= i < |s| ==>
      r[i] == if i > 0 && IsCased(s[i - 1]) then Lower(s[i]) else Upper(s[i])
  }

  lemma {:induction false} TitleAfterAt(s: string, prevCased: bool, i: nat)
    requires i < |s|
    ensures TitleAfter(s, prevCased)[i] ==
      if (if i == 0 then prevCased else IsCased(s[i - 1])) then Lower(s[i]) else Upper(s[i])
  {
    if i > 0 {
      TitleAfterAt(s[1..], IsCased(s[0]), i - 1);
    }
  }

  lemma TitleIsTitled(s: string)
    ensures TitledFrom(s, Title(s))
  {
    forall i | 0 <= i < |s|
      ensures Title(s)[i] == if i > 0 && IsCased(s[i - 1]) then Lower(s[i]) else Upper(s[i])
    {
      TitleAfterAt(s, false, i);
    }
  }

  /** Title-casing twice is title-casing once. */
  lemma TitleIdempotent(s: string)
    ensures Title(Title(s)) == Title(s)
  {
    var t := Title(s);
    TitleIsTitled(s);
    TitleIsTitled(t);
    forall i | 0 <= i < |s| ensures Title(t)[i] == t[i] {
      if i > 0 {
        assert t[i - 1] == if i - 1 > 0 && IsCased(s[i - 2]) then Lower(s[i - 1]) else Upper(s[i - 1]);
        assert IsCased(t[i - 1]) == IsCased(s[i - 1]);
      }
    }
  }

  /** Title-casing keeps every character that is not a letter. */
  lemma TitleKeepsUncased(s: string, c: char)
    requires !IsCased(c)
    ensures forall i :: 0 <= i < |s| ==> (Title(s)[i] == c <==> s[i] == c)
  {
    TitleIsTitled(s);
    forall i | 0 <= i < |s| ensures Title(s)[i] == c <==> s[i] == c {
      assert Title(s)[i] == if i > 0 && IsCased(s[i - 1]) then Lower(s[i]) else Upper(s[i]);
    }
  }

  // ---------------------------------------------------------------- split

  /** The index of the first `c` in `s`. */
  function IndexOf(s: string, c: char): (k: nat)
    requires c in s
    ensures k < |s| && s[k] == c && c !in s[..k]
  {
    if s[0] == c then 0 else 1 + IndexOf(s[1..], c)
  }

  /** `s.split(c, 1)[1]`: everything after the first `c`. */
  function AfterFirst(s: string, c: char): (r: string)
    requires c in s
    ensures |r| < |s| && s == s[..|s| - |r| - 1] + [c] + r && c !in s[..|s| - |r| - 1]
  {
    var k := IndexOf(s, c);
    assert s == s[..k] + [c] + s[k + 1..];
    s[k + 1..]
  }

  /** `s.split(c)[-1]`: everything after the last `c`, or all of `s` without one. */
  function LastField(s: string, c: char): (r: string)
    ensures c !in r
    ensures |r| <= |s| && r == s[|s| - |r|..]
    ensures c in s ==> |r| < |s| && s[|s| - |r| - 1] == c
    ensures c !in s ==> r == s
  {
    if s == [] then []
    else if s[|s| - 1] == c then []
    else
      var r := LastField(s[..|s| - 1], c) + [s[|s| - 1]];
      assert c in s ==> c in s[..|s| - 1] by {
        if c in s {
          var k :| 0 <= k < |s| && s[k] == c;
          assert s[..|s| - 1][k] == c;
        }
      }
      r
  }
}

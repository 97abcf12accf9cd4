/** The Python string operations the core relies on, over `seq<char>` with code-point characters. */
module Strings {
  import opened Wrappers

  /** The characters for which Python's `str.isspace()` holds; `str.strip()` removes exactly these. */
  predicate IsSpace(c: char) {
    var n := c as int;
    || 9 <= n <= 13 || 28 <= n <= 32 || n == 0x85 || n == 0xA0 || n == 0x1680
    || 0x2000 <= n <= 0x200A || n == 0x2028 || n == 0x2029 || n == 0x202F
    || n == 0x205F || n == 0x3000
  }

  /** `s` without its leading whitespace. */
  function TrimStart(s: string): (r: string)
    ensures |r| <= |s| && r == s[|s| - |r|..]
    ensures r == [] || !IsSpace(r[0])
    ensures forall i :: 0 <= i < |s| - |r| ==> IsSpace(s[i])
  {
    if s != [] && IsSpace(s[0]) then TrimStart(s[1..]) else s
  }

  /** `s` without its trailing whitespace. */
  function TrimEnd(s: string): (r: string)
    ensures |r| <= |s| && r == s[..|r|]
    ensures r == [] || !IsSpace(r[|r| - 1])
    ensures forall i :: |r| <= i < |s| ==> IsSpace(s[i])
  {
    if s != [] && IsSpace(s[|s| - 1]) then TrimEnd(s[..|s| - 1]) else s
  }

  /** Python's `s.strip()`: the longest middle slice of `s` that neither starts nor ends with whitespace. */
  function Strip(s: string): (r: string)
    ensures exists i, j ::
              && 0 <= i <= j <= |s| && r == s[i..j]
              && (forall k :: 0 <= k < i ==> IsSpace(s[k]))
              && (forall k :: j <= k < |s| ==> IsSpace(s[k]))
    ensures r == [] || (!IsSpace(r[0]) && !IsSpace(r[|r| - 1]))
  {
    var t := TrimStart(s);
    var r := TrimEnd(t);
    assert r == s[|s| - |t|..|s| - |t| + |r|];
    r
  }

  /** A string that neither starts nor ends with whitespace is its own strip. */
  lemma StripUnpadded(s: string)
    requires s != [] && !IsSpace(s[0]) && !IsSpace(s[|s| - 1])
    ensures Strip(s) == s
  {
    assert TrimStart(s) == s;
  }

  lemma StripEmpty()
    ensures Strip([]) == []
  {
    assert TrimStart([]) == [];
  }

  /** Stripping twice is stripping once, so the `c.strip()` test made on already stripped categories
      (pump.py:130) adds nothing to the `c` test beside it. */
  lemma StripIdempotent(s: string)
    ensures Strip(Strip(s)) == Strip(s)
  {
    var r := Strip(s);
    assert TrimStart(r) == r;
    assert TrimEnd(r) == r;
  }

  /** Python's `s.endswith(suffix)`. */
  predicate EndsWith(s: string, suffix: string) {
    |suffix| <= |s| && s[|s| - |suffix|..] == suffix
  }

  /** Python's `s.replace(ch, '')` for a one-character pattern. */
  function RemoveChar(s: string, ch: char): string {
    if s == [] then []
    else (if s[0] == ch then [] else [s[0]]) + RemoveChar(s[1..], ch)
  }

  /** Removing `ch` leaves every other character and none of `ch`, and changes nothing when `ch`
      does not occur. */
  lemma {:induction false} RemoveCharSpec(s: string, ch: char)
    ensures ch !in RemoveChar(s, ch)
    ensures forall c :: c != ch ==> (c in RemoveChar(s, ch) <==> c in s)
    ensures |RemoveChar(s, ch)| <= |s|
    ensures ch !in s ==> RemoveChar(s, ch) == s
  {
    if s != [] {
      RemoveCharSpec(s[1..], ch);
      assert s == [s[0]] + s[1..];
    }
  }

  /** Removing `ch` from a concatenation removes it from each part and keeps the parts in order, so
      together with the one-character case it fixes the order of what is left. */
  lemma {:induction false} RemoveCharAppend(a: string, b: string, ch: char)
    ensures RemoveChar(a + b, ch) == RemoveChar(a, ch) + RemoveChar(b, ch)
    ensures |a| == 1 ==> RemoveChar(a, ch) == if a[0] == ch then [] else a
  {
    if a != [] {
      assert (a + b)[0] == a[0] && (a + b)[1..] == a[1..] + b;
      RemoveCharAppend(a[1..], b, ch);
      var head := if a[0] == ch then [] else [a[0]];
      assert RemoveChar(a + b, ch) == head + (RemoveChar(a[1..], ch) + RemoveChar(b, ch));
      assert RemoveChar(a, ch) == head + RemoveChar(a[1..], ch);
    } else {
      assert a + b == b;
    }
  }

  /** Removing `ch` removes every copy of it and keeps every other character as often as before. */
  lemma {:induction false} RemoveCharCounts(s: string, ch: char)
    ensures multiset(RemoveChar(s, ch)) == multiset(s)[ch := 0]
  {
    if s != [] {
      RemoveCharCounts(s[1..], ch);
      assert s == [s[0]] + s[1..];
    }
  }

  /** `sub` occurs in `s` starting at position `k`. */
  predicate OccursAt(s: string, sub: string, k: nat) {
    k + |sub| <= |s| && s[k..k + |sub|] == sub
  }

  /** The first position at or after `from` where `sub` occurs in `s` (Python's `s.find(sub, from)`). */
  function FindFrom(s: string, sub: string, from: nat): (r: Option<nat>)
    requires from <= |s|
    decreases |s| - from
    ensures r.Some? ==> from <= r.value && OccursAt(s, sub, r.value)
                        && forall k :: from <= k < r.value ==> !OccursAt(s, sub, k)
    ensures r.None? ==> forall k :: from <= k ==> !OccursAt(s, sub, k)
  {
    if from + |sub| > |s| then None
    else if s[from..from + |sub|] == sub then Some(from)
    else if from == |s| then None
    else FindFrom(s, sub, from + 1)
  }

  /** Python's `sub in s`. */
  predicate Contains(s: string, sub: string) {
    FindFrom(s, sub, 0).Some?
  }

  /** Python's `s.split(sep)[0]`: the text before the first occurrence of `sep`, or all of `s`. */
  function SplitFirst(s: string, sep: string): string {
    match FindFrom(s, sep, 0)
    case Some(k) => s[..k]
    case None => s
  }

  /** The first piece of the split ends where `sep` first occurs, or is all of `s` when `sep` does not occur. */
  lemma SplitFirstSpec(s: string, sep: string)
    ensures var r := SplitFirst(s, sep);
      && (Contains(s, sep) ==> OccursAt(s, sep, |r|) && r == s[..|r|] && forall k: nat :: k < |r| ==> !OccursAt(s, sep, k))
      && (!Contains(s, sep) ==> r == s)
  {
  }


  /** ASCII-only lower-casing; `str.lower()` agrees with it on whether a string lowers to "nan" or
      "none", since no non-ASCII character lowers to one of the letters n, a, o, e. */
  function AsciiLower(s: string): (r: string)
    ensures |r| == |s|
    ensures forall i :: 0 <= i < |s| ==> r[i] == if 'A' <= s[i] <= 'Z' then (s[i] as int + 32) as char else s[i]
  {
    if s == [] then []
    else [if 'A' <= s[0] <= 'Z' then (s[0] as int + 32) as char else s[0]] + AsciiLower(s[1..])
  }

  /** Python's `sep.join(parts)`. */
  function Join(parts: seq<string>, sep: string): (r: string)
    ensures parts == [] ==> r == []
    ensures |parts| == 1 ==> r == parts[0]
  {
    if parts == [] then []
    else if |parts| == 1 then parts[0]
    else parts[0] + sep + Join(parts[1..], sep)
  }

  /** Python's `a <= b` on strings: lexicographic by code point, a prefix first. */
  predicate StrLe(a: string, b: string) {
    if a == [] then true
    else if b == [] then false
    else if a[0] != b[0] then a[0] < b[0]
    else StrLe(a[1..], b[1..])
  }

  lemma {:induction false} StrLeTotal(a: string, b: string)
    ensures StrLe(a, b) || StrLe(b, a)
  {
    if a != [] && b != [] && a[0] == b[0] {
      StrLeTotal(a[1..], b[1..]);
    }
  }

  lemma {:induction false} StrLeTransitive(a: string, b: string, c: string)
    requires StrLe(a, b) && StrLe(b, c)
    ensures StrLe(a, c)
  {
    if a != [] && b != [] && c != [] && a[0] == b[0] && b[0] == c[0] {
      StrLeTransitive(a[1..], b[1..], c[1..]);
    }
  }

  lemma {:induction false} StrLeAntisymmetric(a: string, b: string)
    requires StrLe(a, b) && StrLe(b, a)
    ensures a == b
  {
    if a != [] && b != [] {
      StrLeAntisymmetric(a[1..], b[1..]);
      assert a == [a[0]] + a[1..] && b == [b[0]] + b[1..];
    }
  }
}

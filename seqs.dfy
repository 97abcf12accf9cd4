/** Order-preserving selection and element-wise update of sequences: the two ways a
    dataframe is changed by a boolean mask and by a column overwrite. */
module Seqs {
  import opened Wrappers


  /** The elements of `s` that satisfy `p`, in their original order. */
  function Keep<T(!new)>(s: seq<T>, p: T -> bool): (r: seq<T>)
    ensures |r| <= |s|
    ensures forall x :: x in r <==> x in s && p(x)
    ensures multiset(r) <= multiset(s)
  {
    if s == [] then []
    else
      assert s == [s[0]] + s[1..];
      (if p(s[0]) then [s[0]] else []) + Keep(s[1..], p)
  }

  /** `f` applied to every element of `s`. */
  function MapSeq<T>(s: seq<T>, f: T -> T): (r: seq<T>)
    ensures |r| == |s|
    ensures forall i :: 0 <= i < |s| ==> r[i] == f(s[i])
  {
    if s == [] then [] else [f(s[0])] + MapSeq(s[1..], f)
  }

  lemma {:induction false} KeepAll<T(!new)>(s: seq<T>, p: T -> bool)
    requires forall x :: x in s ==> p(x)
    ensures Keep(s, p) == s
  {
    if s != [] {
      KeepAll(s[1..], p);
    }
  }

  /** Two masks applied one after the other select what their conjunction selects. */
  lemma {:induction false} KeepKeep<T(!new)>(s: seq<T>, p: T -> bool, q: T -> bool, pq: T -> bool)
    requires forall x :: pq(x) == (p(x) && q(x))
    ensures Keep(Keep(s, p), q) == Keep(s, pq)
  {
    if s != [] {
      KeepKeep(s[1..], p, q, pq);
      var k := Keep(s[1..], p);
      if p(s[0]) {
        var kp := [s[0]] + k;
        assert Keep(s, p) == kp;
        assert kp[0] == s[0] && kp[1..] == k;
        assert Keep(kp, q) == (if q(s[0]) then [s[0]] else []) + Keep(k, q);
      } else {
        assert Keep(s, p) == k;
      }
    }
  }

  /** Updating the survivors of a mask is masking the updated elements, when the update
      does not change what the mask reads. */
  lemma {:induction false} MapKeep<T(!new)>(s: seq<T>, p: T -> bool, f: T -> T)
    requires forall x :: p(f(x)) == p(x)
    ensures MapSeq(Keep(s, p), f) == Keep(MapSeq(s, f), p)
  {
    if s != [] {
      MapKeep(s[1..], p, f);
      assert MapSeq(s, f)[1..] == MapSeq(s[1..], f);
      if p(s[0]) {
        assert Keep(s, p)[1..] == Keep(s[1..], p);
      }
    }
  }

  /** Two updates in a row are their composition. */
  lemma {:induction false} MapMap<T(!new)>(s: seq<T>, f: T -> T, g: T -> T, gf: T -> T)
    requires forall x :: gf(x) == g(f(x))
    ensures MapSeq(MapSeq(s, f), g) == MapSeq(s, gf)
  {
  }

  /** A mask depends only on the values of its predicate. */
  lemma {:induction false} KeepExt<T(!new)>(s: seq<T>, p: T -> bool, q: T -> bool)
    requires forall x :: x in s ==> p(x) == q(x)
    ensures Keep(s, p) == Keep(s, q)
  {
    if s != [] {
      KeepExt(s[1..], p, q);
    }
  }

  /** The mask of a two- or three-element sequence, written out. */
  lemma KeepTwo<T(!new)>(b: T, c: T, p: T -> bool)
    ensures Keep([b, c], p) == (if p(b) then [b] else []) + (if p(c) then [c] else [])
  {
    assert [b, c][1..] == [c] && [c][1..] == [];
  }

  lemma {:induction false} KeepThree<T(!new)>(a: T, b: T, c: T, p: T -> bool)
    ensures Keep([a, b, c], p) == (if p(a) then [a] else []) + ((if p(b) then [b] else []) + (if p(c) then [c] else []))
  {
    KeepTwo(b, c, p);
    assert [a, b, c][1..] == [b, c];
  }

  /** Keeping from a sequence extended at the end keeps from the front, then tests the new element. */
  lemma {:induction false} KeepSnoc<T(!new)>(s: seq<T>, x: T, p: T -> bool)
    ensures Keep(s + [x], p) == Keep(s, p) + (if p(x) then [x] else [])
  {
    if s == [] {
      assert [x][1..] == [];
    } else {
      assert (s + [x])[1..] == s[1..] + [x];
      KeepSnoc(s[1..], x, p);
    }
  }

  /** The values of the present entries of `s`, in order. */
  function Somes<T>(s: seq<Option<T>>): (r: seq<T>)
    ensures |r| <= |s|
  {
    if s == [] then []
    else
      var last := s[|s| - 1];
      Somes(s[..|s| - 1]) + (if last.Some? then [last.value] else [])
  }

  lemma SomesSnoc<T>(s: seq<Option<T>>, x: Option<T>)
    ensures Somes(s + [x]) == Somes(s) + (if x.Some? then [x.value] else [])
  {
    assert (s + [x])[..|s|] == s;
  }

  /** One more entry of `s` extends the values of the prefix by its value, if it has one. */
  lemma SomesPrefixStep<T>(s: seq<Option<T>>, i: nat)
    requires i < |s|
    ensures Somes(s[..i + 1]) == Somes(s[..i]) + (if s[i].Some? then [s[i].value] else [])
  {
    assert s[..i + 1][..i] == s[..i];
  }

  lemma {:induction false} SomesMembers<T>(s: seq<Option<T>>)
    ensures forall x :: x in Somes(s) <==> exists i :: 0 <= i < |s| && s[i] == Some(x)
  {
    if s != [] {
      var front := s[..|s| - 1];
      SomesMembers(front);
      assert forall i :: 0 <= i < |front| ==> front[i] == s[i];
    }
  }

  /** No element occurs twice. */
  predicate NoDuplicates<T(==)>(s: seq<T>) {
    forall i, j :: 0 <= i < j < |s| ==> s[i] != s[j]
  }

  lemma {:induction false} NoDuplicatesMultiset<T>(s: seq<T>)
    ensures NoDuplicates(s) <==> forall x :: multiset(s)[x] <= 1
  {
    if s != [] {
      NoDuplicatesMultiset(s[1..]);
      assert s == [s[0]] + s[1..];
      assert multiset(s) == multiset{s[0]} + multiset(s[1..]);
      if NoDuplicates(s) {
        assert NoDuplicates(s[1..]) by {
          forall i, j | 0 <= i < j < |s[1..]| ensures s[1..][i] != s[1..][j] {
            assert s[1..][i] == s[i + 1] && s[1..][j] == s[j + 1];
          }
        }
        assert s[0] !in s[1..] by {
          forall k | 0 <= k < |s[1..]| ensures s[1..][k] != s[0] {
            assert s[1..][k] == s[k + 1];
          }
        }
      }
      if forall x :: multiset(s)[x] <= 1 {
        assert multiset(s)[s[0]] <= 1;
        assert multiset(s[1..])[s[0]] == 0;
        assert forall x :: multiset(s[1..])[x] <= multiset(s)[x];
        assert NoDuplicates(s[1..]);
        forall i, j | 0 <= i < j < |s| ensures s[i] != s[j] {
          if i == 0 {
            assert s[j] == s[1..][j - 1];
            assert s[j] in multiset(s[1..]);
          } else {
            assert s[i] == s[1..][i - 1] && s[j] == s[1..][j - 1];
          }
        }
      }
    }
  }

  /** Reordering keeps a sequence free of duplicates. */
  lemma NoDuplicatesPermutation<T>(s: seq<T>, t: seq<T>)
    requires NoDuplicates(s)
    requires multiset(t) == multiset(s)
    ensures NoDuplicates(t)
  {
    NoDuplicatesMultiset(s);
    NoDuplicatesMultiset(t);
  }

  /** pandas' `unique()`: each value once, at its first occurrence. */
  function Unique<T(==,!new)>(s: seq<T>): (r: seq<T>)
    ensures NoDuplicates(r)
    ensures forall x :: x in r <==> x in s
  {
    if s == [] then []
    else
      var d := Unique(s[..|s| - 1]);
      assert forall x :: x in s <==> x in s[..|s| - 1] || x == s[|s| - 1] by {
        assert s == s[..|s| - 1] + [s[|s| - 1]];
      }
      if s[|s| - 1] in d then d else d + [s[|s| - 1]]
  }

  /** The position of the first occurrence of `x` in `s`. */
  function FirstIndex<T(==)>(s: seq<T>, x: T): (i: nat)
    requires x in s
    ensures i < |s| && s[i] == x
    ensures forall j :: 0 <= j < i ==> s[j] != x
  {
    if s[0] == x then 0
    else
      var i := FirstIndex(s[1..], x);
      assert forall j :: 1 <= j <= i ==> s[j] == s[1..][j - 1];
      i + 1
  }

  /** Every element of `r` occurs in `s`, and `r` lists them in the order they first occur in `s`. */
  predicate ByFirstOccurrence<T(==)>(r: seq<T>, s: seq<T>) {
    (forall i :: 0 <= i < |r| ==> r[i] in s)
    && forall i, j :: 0 <= i < j < |r| ==> FirstIndex(s, r[i]) < FirstIndex(s, r[j])
  }

  /** Appending to `s` does not move the first occurrence of a value `s` already holds. */
  lemma FirstIndexSnoc<T>(s: seq<T>, x: T, y: T)
    requires y in s
    ensures FirstIndex(s + [x], y) == FirstIndex(s, y)
  {
    var i, k := FirstIndex(s, y), FirstIndex(s + [x], y);
    assert (s + [x])[i] == y;
  }

  /** `unique()` lists the values in the order they first occur. */
  lemma {:induction false} UniqueOrder<T(!new)>(s: seq<T>)
    ensures ByFirstOccurrence(Unique(s), s)
  {
    if s != [] {
      var p, x := s[..|s| - 1], s[|s| - 1];
      assert s == p + [x];
      UniqueOrder(p);
      var d := Unique(p);
      forall y | y in p ensures FirstIndex(s, y) == FirstIndex(p, y) {
        FirstIndexSnoc(p, x, y);
      }
      forall i | 0 <= i < |d| ensures d[i] in p && FirstIndex(s, d[i]) == FirstIndex(p, d[i]) {
        assert d[i] in d;
      }
      if x !in d {
        var r := d + [x];
        assert FirstIndex(s, x) == |p|;
        forall i, j | 0 <= i < j < |r| ensures FirstIndex(s, r[i]) < FirstIndex(s, r[j]) {
          if j < |d| {
            assert r[i] == d[i] && r[j] == d[j];
          } else {
            assert r[i] == d[i];
          }
        }
      }
    }
  }

  /** In a sequence listed by first occurrence, the first element comes before every later one, and
      the rest is listed by first occurrence too. */
  lemma ByFirstOccurrenceTail<T>(t: seq<T>, s: seq<T>)
    requires t != [] && ByFirstOccurrence(t, s)
    ensures t[0] in s && ByFirstOccurrence(t[1..], s)
    ensures forall y :: y in t[1..] ==> y in s && FirstIndex(s, t[0]) < FirstIndex(s, y)
  {
    var rest := t[1..];
    forall i, j | 0 <= i < j < |rest| ensures FirstIndex(s, rest[i]) < FirstIndex(s, rest[j]) {
      assert rest[i] == t[i + 1] && rest[j] == t[j + 1];
    }
    forall y | y in rest ensures y in s && FirstIndex(s, t[0]) < FirstIndex(s, y) {
      var k :| 0 <= k < |rest| && rest[k] == y;
      assert y == t[k + 1];
    }
  }

  /** A value that first occurs before everything in `r` can be put in front of it. */
  lemma ByFirstOccurrenceCons<T>(x: T, r: seq<T>, s: seq<T>)
    requires x in s && ByFirstOccurrence(r, s)
    requires forall y :: y in r ==> y in s && FirstIndex(s, x) < FirstIndex(s, y)
    ensures ByFirstOccurrence([x] + r, s)
  {
    var c := [x] + r;
    forall i, j | 0 <= i < j < |c| ensures FirstIndex(s, c[i]) < FirstIndex(s, c[j]) {
      if i == 0 {
        assert c[j] == r[j - 1] && c[j] in r;
      } else {
        assert c[i] == r[i - 1] && c[j] == r[j - 1];
      }
    }
  }

  /** Filtering keeps the order of first occurrence. */
  lemma {:induction false} KeepByFirstOccurrence<T(!new)>(t: seq<T>, p: T -> bool, s: seq<T>)
    requires ByFirstOccurrence(t, s)
    ensures ByFirstOccurrence(Keep(t, p), s)
  {
    if t != [] {
      ByFirstOccurrenceTail(t, s);
      KeepByFirstOccurrence(t[1..], p, s);
      if p(t[0]) {
        ByFirstOccurrenceCons(t[0], Keep(t[1..], p), s);
      }
    }
  }

  lemma {:induction false} KeepNoDuplicates<T(!new)>(s: seq<T>, p: T -> bool)
    requires NoDuplicates(s)
    ensures NoDuplicates(Keep(s, p))
  {
    NoDuplicatesMultiset(s);
    NoDuplicatesMultiset(Keep(s, p));
  }
}

/**
 * Sequence helpers shared by the summaries, the breakdown and the home
 * screen: a stable sort by non-increasing key, a keyed sum, distinctness.
 */
module Sequences {
  import opened Wrappers
  /** Non-increasing by `key`. */
  predicate SortedDesc<T>(s: seq<T>, key: T -> real) {
    forall i, j :: 0 <= i < j < |s| ==> key(s[i]) >= key(s[j])
  }

  /** A non-empty list is its front followed by its last element. */
  lemma LastSplit<T>(s: seq<T>)
    requires s != []
    ensures s[..|s| - 1] + [s[|s| - 1]] == s
  {
  }

  /** Put `x` after every element whose key is at least its own. */
  function Insert<T>(x: T, s: seq<T>, key: T -> real): (r: seq<T>)
    requires SortedDesc(s, key)
    ensures SortedDesc(r, key)
    ensures multiset(r) == multiset(s) + multiset{x}
    ensures |r| == |s| + 1
    ensures r != [] && (r[0] == x || (s != [] && r[0] == s[0]))
  {
    if s == [] then [x]
    else if key(s[0]) >= key(x) then
      TailSorted(s, key);
      var rest := Insert(x, s[1..], key);
      InsertBehindHead(x, s, rest, key);
      [s[0]] + rest
    else
      ConsSorted(x, s, key);
      [x] + s
  }

  lemma TailSorted<T>(s: seq<T>, key: T -> real)
    requires s != [] && SortedDesc(s, key)
    ensures SortedDesc(s[1..], key)
  {
    forall i, j | 0 <= i < j < |s| - 1
      ensures key(s[1..][i]) >= key(s[1..][j])
    {
      assert s[1..][i] == s[i + 1] && s[1..][j] == s[j + 1];
    }
  }

  /** Keeping the head of `s` in front of `x` inserted into its tail keeps the order and the elements. */
  lemma InsertBehindHead<T>(x: T, s: seq<T>, rest: seq<T>, key: T -> real)
    requires s != [] && SortedDesc(s, key) && key(s[0]) >= key(x)
    requires SortedDesc(rest, key) && multiset(rest) == multiset(s[1..]) + multiset{x}
    requires rest != [] && (rest[0] == x || (|s| > 1 && rest[0] == s[1]))
    ensures SortedDesc([s[0]] + rest, key)
    ensures multiset([s[0]] + rest) == multiset(s) + multiset{x}
  {
    assert s == [s[0]] + s[1..];
    assert |s| > 1 ==> key(s[0]) >= key(s[1]);
    ConsSorted(s[0], rest, key);
  }

  /** An element no smaller than the head of a sorted list can go in front of it. */
  lemma ConsSorted<T>(y: T, s: seq<T>, key: T -> real)
    requires SortedDesc(s, key)
    requires s != [] ==> key(y) >= key(s[0])
    ensures SortedDesc([y] + s, key)
  {
    var r := [y] + s;
    forall i, j | 0 <= i < j < |r|
      ensures key(r[i]) >= key(r[j])
    {
      if i == 0 {
        assert r[j] == s[j - 1];
        assert key(s[0]) >= key(s[j - 1]);
      }
    }
  }

  /** Stable sort by non-increasing key: elements are inserted in input order. */
  function SortDesc<T>(s: seq<T>, key: T -> real): (r: seq<T>)
    ensures SortedDesc(r, key)
    ensures multiset(r) == multiset(s)
    ensures |r| == |s|
  {
    if s == [] then []
    else
      assert s == s[..|s| - 1] + [s[|s| - 1]];
      Insert(s[|s| - 1], SortDesc(s[..|s| - 1], key), key)
  }

  /** Inserting an element no larger than everything present appends it. */
  lemma {:induction false} InsertSmallest<T>(x: T, s: seq<T>, key: T -> real)
    requires SortedDesc(s, key)
    requires forall i :: 0 <= i < |s| ==> key(s[i]) >= key(x)
    ensures Insert(x, s, key) == s + [x]
  {
    if s != [] {
      InsertSmallest(x, s[1..], key);
    }
  }

  /** Sorting a list that is already in order changes nothing (so the sort is stable on ties). */
  lemma {:induction false} SortDescOfSorted<T>(s: seq<T>, key: T -> real)
    requires SortedDesc(s, key)
    ensures SortDesc(s, key) == s
  {
    if s != [] {
      var init := s[..|s| - 1];
      assert SortedDesc(init, key);
      SortDescOfSorted(init, key);
      InsertSmallest(s[|s| - 1], init, key);
    }
  }

  /** The sum of `f` over `s`. */
  function SumBy<T>(s: seq<T>, f: T -> real): real {
    if s == [] then 0.0 else SumBy(s[..|s| - 1], f) + f(s[|s| - 1])
  }

  /** Appending one element adds its value. */
  lemma SumBySnoc<T>(s: seq<T>, x: T, f: T -> real)
    ensures SumBy(s + [x], f) == SumBy(s, f) + f(x)
  {
    assert (s + [x])[..|s + [x]| - 1] == s;
  }

  lemma {:induction false} SumByConcat<T>(a: seq<T>, b: seq<T>, f: T -> real)
    ensures SumBy(a + b, f) == SumBy(a, f) + SumBy(b, f)
  {
    if b == [] {
      assert a + b == a;
    } else {
      assert (a + b)[..|a + b| - 1] == a + b[..|b| - 1];
      assert (a + b)[|a + b| - 1] == b[|b| - 1];
      SumByConcat(a, b[..|b| - 1], f);
    }
  }

  /** Removing the element at `j` removes one occurrence of it. */
  lemma MultisetRemoveAt<T>(b: seq<T>, j: nat)
    requires j < |b|
    ensures multiset(b[..j] + b[j + 1..]) == multiset(b) - multiset{b[j]}
  {
    assert b == b[..j] + [b[j]] + b[j + 1..];
    assert multiset(b) == multiset(b[..j]) + multiset{b[j]} + multiset(b[j + 1..]);
  }

  /** Taking one term out of a sum. */
  lemma SumByRemoveAt<T>(b: seq<T>, j: nat, f: T -> real)
    requires j < |b|
    ensures SumBy(b, f) == SumBy(b[..j] + b[j + 1..], f) + f(b[j])
  {
    var left, x, right := b[..j], b[j], b[j + 1..];
    assert b == left + ([x] + right);
    assert [x][..0] == [];
    calc {
      SumBy(b, f);
      { SumByConcat(left, [x] + right, f); }
      SumBy(left, f) + SumBy([x] + right, f);
      { SumByConcat([x], right, f); }
      SumBy(left, f) + f(x) + SumBy(right, f);
      { SumByConcat(left, right, f); }
      SumBy(left + right, f) + f(x);
    }
  }

  /** A sum does not depend on the order of its terms. */
  lemma {:induction false} SumByPermutation<T>(a: seq<T>, b: seq<T>, f: T -> real)
    requires multiset(a) == multiset(b)
    ensures SumBy(a, f) == SumBy(b, f)
    decreases |a|
  {
    if a == [] {
      assert |b| == |multiset(b)|;
    } else {
      var x := a[|a| - 1];
      var init := a[..|a| - 1];
      assert x in multiset(b) by {
        assert a == init + [x];
      }
      var j :| 0 <= j < |b| && b[j] == x;
      assert multiset(init) == multiset(b[..j] + b[j + 1..]) by {
        assert a == init + [x];
        assert multiset(init) == multiset(a) - multiset{x};
        MultisetRemoveAt(b, j);
      }
      SumByPermutation(init, b[..j] + b[j + 1..], f);
      SumByRemoveAt(b, j, f);
    }
  }

  /** The sum of `g` over `t` equals the sum of `f` over `s` when they agree position by position. */
  lemma {:induction false} SumByPointwise<A, B>(s: seq<A>, f: A -> real, t: seq<B>, g: B -> real)
    requires |s| == |t|
    requires forall i :: 0 <= i < |s| ==> f(s[i]) == g(t[i])
    ensures SumBy(s, f) == SumBy(t, g)
  {
    if s != [] {
      SumByPointwise(s[..|s| - 1], f, t[..|t| - 1], g);
    }
  }

  /** Dividing every term by `k` divides the sum by `k`. */
  lemma {:induction false} SumByScaled<T>(s: seq<T>, f: T -> real, g: T -> real, k: real)
    requires k != 0.0
    requires forall i :: 0 <= i < |s| ==> g(s[i]) == f(s[i]) / k
    ensures SumBy(s, g) == SumBy(s, f) / k
  {
    if s != [] {
      SumByScaled(s[..|s| - 1], f, g, k);
    }
  }

  /** No element occurs twice. */
  predicate Distinct<T(==)>(s: seq<T>) {
    forall i, j :: 0 <= i < j < |s| ==> s[i] != s[j]
  }

  lemma {:induction false} DistinctCount<T>(s: seq<T>, x: T)
    requires Distinct(s)
    ensures multiset(s)[x] <= 1
  {
    if s != [] {
      var init := s[..|s| - 1];
      assert s == init + [s[|s| - 1]];
      DistinctCount(init, x);
      if s[|s| - 1] == x {
        assert x !in init;
      }
    }
  }

  /** A reordering of a list without repeats has no repeats. */
  lemma DistinctPermutation<T>(s: seq<T>, r: seq<T>)
    requires Distinct(s)
    requires multiset(r) == multiset(s)
    ensures Distinct(r)
  {
    forall i, j | 0 <= i < j < |r| ensures r[i] != r[j] {
      if r[i] == r[j] {
        assert r == r[..j] + [r[j]] + r[j + 1..];
        assert r[i] in r[..j];
        assert multiset(r)[r[j]] >= 2;
        DistinctCount(s, r[j]);
      }
    }
  }

  /** The values `read` yields for the elements of `s`, each read with its index, in order; `None` drops the element. */
  function KeptBy<A, B>(s: seq<A>, read: (A, nat) -> Option<B>): seq<B>
    decreases |s|
  {
    if s == [] then []
    else
      var k := |s| - 1;
      KeptBy(s[..k], read) + (match read(s[k], k) case None => [] case Some(b) => [b])
  }

  /** The values `read` makes of the elements of `s`, with their indices. */
  function ReadAll<A, B>(s: seq<A>, read: (A, nat) -> Option<B>): (r: seq<Option<B>>)
    ensures |r| == |s| && forall i :: 0 <= i < |s| ==> r[i] == read(s[i], i)
  {
    seq(|s|, i requires 0 <= i < |s| => read(s[i], i))
  }

  /** At most one value per element, and each value is what some element reads as. */
  lemma {:induction false} KeptByFromElements<A, B>(s: seq<A>, read: (A, nat) -> Option<B>)
    ensures |KeptBy(s, read)| <= |s|
    ensures forall j :: 0 <= j < |KeptBy(s, read)| ==> Some(KeptBy(s, read)[j]) in ReadAll(s, read)
    decreases |s|
  {
    if s != [] {
      var k := |s| - 1;
      var init := s[..k];
      KeptByFromElements(init, read);
      var r := KeptBy(s, read);
      var p := KeptBy(init, read);
      var tail := match read(s[k], k) case None => [] case Some(b) => [b];
      assert r == p + tail;
      assert |tail| <= 1;
      assert ReadAll(init, read) == ReadAll(s, read)[..k];
      forall j | 0 <= j < |r|
        ensures Some(r[j]) in ReadAll(s, read)
      {
        if j < |p| {
          assert Some(p[j]) in ReadAll(init, read);
        } else {
          assert ReadAll(s, read)[k] == Some(r[j]);
        }
      }
    }
  }

  /** Reading more elements only appends: what is kept stays in order. */
  lemma {:induction false} KeptByPrefix<A, B>(s: seq<A>, k: nat, read: (A, nat) -> Option<B>)
    requires k <= |s|
    ensures KeptBy(s[..k], read) <= KeptBy(s, read)
    decreases |s| - k
  {
    if k < |s| {
      var n := |s| - 1;
      assert s[..n][..k] == s[..k];
      KeptByPrefix(s[..n], k, read);
    } else {
      assert s[..k] == s;
    }
  }

  /** When every element is kept, the i-th value is what the i-th element reads as. */
  lemma {:induction false} KeptByAll<A, B>(s: seq<A>, read: (A, nat) -> Option<B>)
    requires forall i :: 0 <= i < |s| ==> read(s[i], i).Some?
    ensures |KeptBy(s, read)| == |s|
    ensures forall i :: 0 <= i < |s| ==> KeptBy(s, read)[i] == read(s[i], i).value
    decreases |s|
  {
    if s != [] {
      var k := |s| - 1;
      var init := s[..k];
      assert forall i :: 0 <= i < |init| ==> init[i] == s[i];
      KeptByAll(init, read);
    }
  }

  /** When no element is kept, nothing is. */
  lemma {:induction false} KeptByNone<A, B>(s: seq<A>, read: (A, nat) -> Option<B>)
    requires forall i :: 0 <= i < |s| ==> read(s[i], i).None?
    ensures KeptBy(s, read) == []
    decreases |s|
  {
    if s != [] {
      var k := |s| - 1;
      var init := s[..k];
      assert forall i :: 0 <= i < |init| ==> init[i] == s[i];
      KeptByNone(init, read);
    }
  }
}

/**
 * Python's ordering of strings and its stable sort, as used by
 * `sorted(d.items())`, `sorted(keys, key=...)` and `list.sort(key=...,
 * reverse=True)`.
 */
module Sorting {
  /** Python's `a < b` on str: code point by code point, a proper prefix first. */
  predicate StrLess(a: string, b: string)
  {
    if a == [] then b != []
    else if b == [] then false
    else if a[0] != b[0] then a[0] < b[0]
    else StrLess(a[1..], b[1..])
  }

  predicate StrLe(a: string, b: string)
  {
    a == b || StrLess(a, b)
  }

  lemma {:induction false} StrLessIrreflexive(a: string)
    ensures !StrLess(a, a)
  {
    if a != [] {
      StrLessIrreflexive(a[1..]);
    }
  }

  lemma {:induction false} StrLessAsymmetric(a: string, b: string)
    ensures !(StrLess(a, b) && StrLess(b, a))
  {
    if a != [] && b != [] && a[0] == b[0] {
      StrLessAsymmetric(a[1..], b[1..]);
    }
  }

  lemma {:induction false} StrLessTransitive(a: string, b: string, c: string)
    requires StrLess(a, b) && StrLess(b, c)
    ensures StrLess(a, c)
  {
    if a != [] && b != [] && c != [] && a[0] == b[0] && b[0] == c[0] {
      StrLessTransitive(a[1..], b[1..], c[1..]);
    }
  }

  /** Two different strings are always ordered one way or the other. */
  lemma {:induction false} StrLessTotal(a: string, b: string)
    requires a != b
    ensures StrLess(a, b) || StrLess(b, a)
  {
    if a != [] && b != [] && a[0] == b[0] {
      assert a == [a[0]] + a[1..] && b == [b[0]] + b[1..];
      StrLessTotal(a[1..], b[1..]);
    }
  }

  /** leq orders keys: any two are comparable, and the order is transitive. */
  ghost predicate TotalPreorder<K(!new)>(leq: (K, K) -> bool)
  {
    && (forall a, b :: leq(a, b) || leq(b, a))
    && (forall a, b, c :: leq(a, b) && leq(b, c) ==> leq(a, c))
  }

  /** `<=` on str is a total preorder. */
  lemma StrLeTotalPreorder()
    ensures TotalPreorder(StrLe)
  {
    forall a: string, b: string ensures StrLe(a, b) || StrLe(b, a) {
      if a != b {
        StrLessTotal(a, b);
      }
    }
    forall a: string, b: string, c: string | StrLe(a, b) && StrLe(b, c) ensures StrLe(a, c) {
      if a != b && b != c {
        StrLessTransitive(a, b, c);
      }
    }
  }

  /** The order of `reverse=True` on integers: larger first. */
  predicate IntGe(a: int, b: int)
  {
    a >= b
  }

  lemma IntGeTotalPreorder()
    ensures TotalPreorder(IntGe)
  {
  }

  /**
   * One step of a stable insertion sort: x goes after every element whose
   * key is at most its own, so ties keep their input order.
   */
  function InsertBy<T, K>(r: seq<T>, x: T, key: T -> K, leq: (K, K) -> bool): seq<T>
  {
    if r == [] || leq(key(r[|r| - 1]), key(x)) then r + [x]
    else InsertBy(r[..|r| - 1], x, key, leq) + [r[|r| - 1]]
  }

  /** Python's `sorted(xs, key=key)` under the key order leq. */
  function SortBy<T, K>(xs: seq<T>, key: T -> K, leq: (K, K) -> bool): seq<T>
  {
    if xs == [] then []
    else InsertBy(SortBy(xs[..|xs| - 1], key, leq), xs[|xs| - 1], key, leq)
  }

  predicate SortedBy<T, K>(r: seq<T>, key: T -> K, leq: (K, K) -> bool)
  {
    forall i, j :: 0 <= i < j < |r| ==> leq(key(r[i]), key(r[j]))
  }

  /** The elements of xs whose key is k, in order. */
  function Select<T, K(==)>(xs: seq<T>, key: T -> K, k: K): seq<T>
  {
    if xs == [] then []
    else Select(xs[..|xs| - 1], key, k) + (if key(xs[|xs| - 1]) == k then [xs[|xs| - 1]] else [])
  }

  lemma {:induction false} InsertByPermutes<T, K>(r: seq<T>, x: T, key: T -> K, leq: (K, K) -> bool)
    ensures multiset(InsertBy(r, x, key, leq)) == multiset(r) + multiset{x}
  {
    if r != [] && !leq(key(r[|r| - 1]), key(x)) {
      InsertByPermutes(r[..|r| - 1], x, key, leq);
      assert r == r[..|r| - 1] + [r[|r| - 1]];
    }
  }

  /** Sorting rearranges: the result holds the input's elements, each as often. */
  lemma {:induction false} SortByPermutes<T, K>(xs: seq<T>, key: T -> K, leq: (K, K) -> bool)
    ensures multiset(SortBy(xs, key, leq)) == multiset(xs)
  {
    if xs != [] {
      SortByPermutes(xs[..|xs| - 1], key, leq);
      InsertByPermutes(SortBy(xs[..|xs| - 1], key, leq), xs[|xs| - 1], key, leq);
      assert xs == xs[..|xs| - 1] + [xs[|xs| - 1]];
    }
  }

  lemma {:induction false} InsertBySorted<T, K(!new)>(r: seq<T>, x: T, key: T -> K, leq: (K, K) -> bool)
    requires TotalPreorder(leq) && SortedBy(r, key, leq)
    ensures SortedBy(InsertBy(r, x, key, leq), key, leq)
    ensures |InsertBy(r, x, key, leq)| == |r| + 1
    ensures forall i :: 0 <= i < |InsertBy(r, x, key, leq)| ==>
              InsertBy(r, x, key, leq)[i] == x || exists j :: 0 <= j < |r| && r[j] == InsertBy(r, x, key, leq)[i]
  {
    if r != [] && !leq(key(r[|r| - 1]), key(x)) {
      var init := r[..|r| - 1];
      var last := r[|r| - 1];
      InsertBySorted(init, x, key, leq);
      var s := InsertBy(init, x, key, leq);
      assert leq(key(x), key(last));
      forall i | 0 <= i < |s| ensures leq(key(s[i]), key(last)) {
        if s[i] != x {
          var j :| 0 <= j < |init| && init[j] == s[i];
          assert r[j] == init[j];
        }
      }
      forall i | 0 <= i < |s| + 1 ensures (s + [last])[i] == x || exists j :: 0 <= j < |r| && r[j] == (s + [last])[i] {
        if i == |s| {
          assert r[|r| - 1] == (s + [last])[i];
        } else if s[i] != x {
          var j :| 0 <= j < |init| && init[j] == s[i];
          assert r[j] == (s + [last])[i];
        }
      }
    }
  }

  /** Under a total preorder the result is in order. */
  lemma {:induction false} SortBySorted<T, K(!new)>(xs: seq<T>, key: T -> K, leq: (K, K) -> bool)
    requires TotalPreorder(leq)
    ensures SortedBy(SortBy(xs, key, leq), key, leq)
  {
    if xs != [] {
      SortBySorted(xs[..|xs| - 1], key, leq);
      InsertBySorted(SortBy(xs[..|xs| - 1], key, leq), xs[|xs| - 1], key, leq);
    }
  }

  lemma {:induction false} InsertBySelect<T, K(!new)>(r: seq<T>, x: T, key: T -> K, leq: (K, K) -> bool, k: K)
    requires forall a :: leq(a, a)
    ensures Select(InsertBy(r, x, key, leq), key, k)
      == Select(r, key, k) + (if key(x) == k then [x] else [])
  {
    if r == [] || leq(key(r[|r| - 1]), key(x)) {
      assert (r + [x])[..|r|] == r;
    } else {
      var init := r[..|r| - 1];
      var last := r[|r| - 1];
      InsertBySelect(init, x, key, leq, k);
      var s := InsertBy(init, x, key, leq);
      assert (s + [last])[..|s|] == s;
      assert leq(key(x), key(x));
    }
  }

  /**
   * The sort is stable: the elements sharing any one key keep their input
   * order.
   */
  lemma {:induction false} SortByStable<T, K(!new)>(xs: seq<T>, key: T -> K, leq: (K, K) -> bool, k: K)
    requires forall a :: leq(a, a)
    ensures Select(SortBy(xs, key, leq), key, k) == Select(xs, key, k)
  {
    if xs != [] {
      var init := xs[..|xs| - 1];
      SortByStable(init, key, leq, k);
      InsertBySelect(SortBy(init, key, leq), xs[|xs| - 1], key, leq, k);
    }
  }

  /** No two elements share a key. */
  predicate KeysDistinct<T, K(==)>(r: seq<T>, key: T -> K)
  {
    forall i, j :: 0 <= i < j < |r| ==> key(r[i]) != key(r[j])
  }

  lemma {:induction false} InsertByMembers<T, K>(r: seq<T>, x: T, key: T -> K, leq: (K, K) -> bool)
    ensures forall y :: y in InsertBy(r, x, key, leq) <==> y in r || y == x
    ensures |InsertBy(r, x, key, leq)| == |r| + 1
  {
    if r != [] && !leq(key(r[|r| - 1]), key(x)) {
      InsertByMembers(r[..|r| - 1], x, key, leq);
      assert r == r[..|r| - 1] + [r[|r| - 1]];
    }
  }

  /** A key that no element of r and not x has, no element of the result has. */
  lemma InsertByAvoids<T, K>(r: seq<T>, x: T, key: T -> K, leq: (K, K) -> bool, k: K)
    requires (forall y :: y in r ==> key(y) != k) && key(x) != k
    ensures forall y :: y in InsertBy(r, x, key, leq) ==> key(y) != k
  {
    InsertByMembers(r, x, key, leq);
  }

  lemma {:induction false} InsertByDistinct<T, K>(r: seq<T>, x: T, key: T -> K, leq: (K, K) -> bool)
    requires KeysDistinct(r, key) && forall y :: y in r ==> key(y) != key(x)
    ensures KeysDistinct(InsertBy(r, x, key, leq), key)
  {
    if r != [] && !leq(key(r[|r| - 1]), key(x)) {
      var init := r[..|r| - 1];
      var last := r[|r| - 1];
      assert forall y :: y in init ==> y in r;
      InsertByDistinct(init, x, key, leq);
      assert forall j :: 0 <= j < |init| ==> key(init[j]) != key(last);
      assert forall y :: y in init ==> key(y) != key(last);
      InsertByAvoids(init, x, key, leq, key(last));
      var s := InsertBy(init, x, key, leq);
      assert forall i :: 0 <= i < |s| ==> s[i] in s;
    }
  }

  /** Sorting keeps exactly the elements it was given. */
  lemma {:induction false} SortByMembers<T, K>(xs: seq<T>, key: T -> K, leq: (K, K) -> bool)
    ensures forall y :: y in SortBy(xs, key, leq) <==> y in xs
    ensures |SortBy(xs, key, leq)| == |xs|
  {
    if xs != [] {
      var init := xs[..|xs| - 1];
      SortByMembers(init, key, leq);
      InsertByMembers(SortBy(init, key, leq), xs[|xs| - 1], key, leq);
      assert xs == init + [xs[|xs| - 1]];
    }
  }

  /** Distinct keys stay distinct. */
  lemma {:induction false} SortByAvoids<T, K>(xs: seq<T>, key: T -> K, leq: (K, K) -> bool, k: K)
    requires forall y :: y in xs ==> key(y) != k
    ensures forall y :: y in SortBy(xs, key, leq) ==> key(y) != k
  {
    if xs != [] {
      var init := xs[..|xs| - 1];
      assert forall y :: y in init ==> y in xs;
      SortByAvoids(init, key, leq, k);
      InsertByAvoids(SortBy(init, key, leq), xs[|xs| - 1], key, leq, k);
    }
  }

  lemma {:induction false} SortByDistinct<T, K>(xs: seq<T>, key: T -> K, leq: (K, K) -> bool)
    requires KeysDistinct(xs, key)
    ensures KeysDistinct(SortBy(xs, key, leq), key)
  {
    if xs != [] {
      var init := xs[..|xs| - 1];
      var x := xs[|xs| - 1];
      SortByDistinct(init, key, leq);
      assert forall j :: 0 <= j < |init| ==> key(init[j]) != key(x);
      assert forall y :: y in init ==> key(y) != key(x);
      SortByAvoids(init, key, leq, key(x));
      InsertByDistinct(SortBy(init, key, leq), x, key, leq);
    }
  }

  /** The insertion step, in place of the function: scans from the end for x's place. */
  method Insert<T, K>(r: seq<T>, x: T, key: T -> K, leq: (K, K) -> bool) returns (s: seq<T>)
    ensures s == InsertBy(r, x, key, leq)
  {
    var j := |r|;
    assert r[..j] == r && r[j..] == [];
    while j > 0 && !leq(key(r[j - 1]), key(x))
      invariant 0 <= j <= |r|
      invariant InsertBy(r, x, key, leq) == InsertBy(r[..j], x, key, leq) + r[j..]
    {
      assert r[..j][..j - 1] == r[..j - 1];
      assert [r[j - 1]] + r[j..] == r[j - 1..];
      j := j - 1;
    }
    s := r[..j] + [x] + r[j..];
  }

  /** The stable sort, as a loop of insertions. */
  method StableSort<T, K>(xs: seq<T>, key: T -> K, leq: (K, K) -> bool) returns (r: seq<T>)
    ensures r == SortBy(xs, key, leq)
  {
    r := [];
    for i := 0 to |xs|
      invariant r == SortBy(xs[..i], key, leq)
    {
      assert xs[..i + 1][..i] == xs[..i];
      r := Insert(r, xs[i], key, leq);
    }
    assert xs[..|xs|] == xs;
  }
}

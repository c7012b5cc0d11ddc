/**
 * Counting with Python dictionaries: a `defaultdict(int)` incremented once
 * per item, and the order in which a dict yields its keys, which is the
 * order the keys were first inserted.
 */
module Counting {
  /** How many times x occurs in xs. */
  function Occurrences<K(==)>(xs: seq<K>, x: K): nat
  {
    if xs == [] then 0
    else Occurrences(xs[..|xs| - 1], x) + (if xs[|xs| - 1] == x then 1 else 0)
  }

  /** `d[k]` on a `defaultdict(int)`: a missing key reads as 0. */
  function Get<K(==)>(m: map<K, nat>, k: K): nat
  {
    if k in m then m[k] else 0
  }

  /** `c = defaultdict(int)`, then `c[x] += 1` for each x of xs in order. */
  function CountMap<K(==)>(xs: seq<K>): map<K, nat>
  {
    if xs == [] then map[]
    else
      var m := CountMap(xs[..|xs| - 1]);
      var x := xs[|xs| - 1];
      m[x := Get(m, x) + 1]
  }

  /** The keys of that counter in the order the dict yields them: first insertion first. */
  function FirstSeen<K(==)>(xs: seq<K>): seq<K>
  {
    if xs == [] then []
    else
      var prev := FirstSeen(xs[..|xs| - 1]);
      var x := xs[|xs| - 1];
      if x in prev then prev else prev + [x]
  }

  predicate Distinct<K(==)>(ks: seq<K>)
  {
    forall i, j :: 0 <= i < j < |ks| ==> ks[i] != ks[j]
  }

  /** The counter holds exactly the items seen, each with its number of occurrences. */
  lemma {:induction false} CountMapMeaning<K>(xs: seq<K>)
    ensures forall k :: k in CountMap(xs) <==> k in xs
    ensures forall k :: Get(CountMap(xs), k) == Occurrences(xs, k)
    ensures forall k :: k in CountMap(xs) ==> CountMap(xs)[k] > 0
  {
    if xs != [] {
      var init := xs[..|xs| - 1];
      CountMapMeaning(init);
      assert forall k :: k in xs <==> k in init || k == xs[|xs| - 1];
    }
  }

  /** The dict yields every item seen exactly once. */
  lemma {:induction false} FirstSeenMeaning<K>(xs: seq<K>)
    ensures Distinct(FirstSeen(xs))
    ensures forall k :: k in FirstSeen(xs) <==> k in xs
  {
    if xs != [] {
      var init := xs[..|xs| - 1];
      FirstSeenMeaning(init);
      assert forall k :: k in xs <==> k in init || k == xs[|xs| - 1];
    }
  }

  /** The sum of the counts of the keys ks, in order; `sum(d.values())` when ks are d's keys. */
  function SumAlong<K(==)>(ks: seq<K>, m: map<K, nat>): nat
  {
    if ks == [] then 0 else SumAlong(ks[..|ks| - 1], m) + Get(m, ks[|ks| - 1])
  }

  lemma {:induction false} SumAlongOutside<K>(ks: seq<K>, m: map<K, nat>, x: K, v: nat)
    requires x !in ks
    ensures SumAlong(ks, m[x := v]) == SumAlong(ks, m)
  {
    if ks != [] {
      SumAlongOutside(ks[..|ks| - 1], m, x, v);
    }
  }

  lemma {:induction false} SumAlongBump<K>(ks: seq<K>, m: map<K, nat>, x: K)
    requires Distinct(ks) && x in ks
    ensures SumAlong(ks, m[x := Get(m, x) + 1]) == SumAlong(ks, m) + 1
  {
    var init := ks[..|ks| - 1];
    if ks[|ks| - 1] == x {
      assert x !in init;
      SumAlongOutside(init, m, x, Get(m, x) + 1);
    } else {
      assert x in init;
      SumAlongBump(init, m, x);
    }
  }

  /** The counts add up to the number of items counted. */
  lemma {:induction false} CountsSumToLength<K>(xs: seq<K>)
    ensures SumAlong(FirstSeen(xs), CountMap(xs)) == |xs|
  {
    if xs != [] {
      var init := xs[..|xs| - 1];
      var x := xs[|xs| - 1];
      CountsSumToLength(init);
      FirstSeenMeaning(init);
      CountMapMeaning(init);
      var ks := FirstSeen(init);
      var m := CountMap(init);
      if x in ks {
        SumAlongBump(ks, m, x);
      } else {
        assert x !in m;
        SumAlongOutside(ks, m, x, 1);
        assert (ks + [x])[..|ks|] == ks;
      }
    }
  }

  /**
   * An insertion-ordered `defaultdict(int)`: its keys in the order the
   * dict yields them, and the count of each.
   */
  datatype Counter<K> = Counter(keys: seq<K>, counts: map<K, nat>)

  /** `c[x] += 1` */
  function Bump<K(==)>(c: Counter<K>, x: K): Counter<K>
  {
    Counter(if x in c.counts then c.keys else c.keys + [x], c.counts[x := Get(c.counts, x) + 1])
  }

  /** The counter after `c[x] += 1` for each x of xs in order, starting empty. */
  function CounterOf<K(==)>(xs: seq<K>): Counter<K>
  {
    Counter(FirstSeen(xs), CountMap(xs))
  }

  /** The counter after `c[x] += 1` for each x of xs in order, starting from c. */
  function BumpAll<K(==)>(c: Counter<K>, xs: seq<K>): Counter<K>
  {
    if xs == [] then c else Bump(BumpAll(c, xs[..|xs| - 1]), xs[|xs| - 1])
  }

  /** `sum(c.values())` */
  function Total<K(==)>(c: Counter<K>): nat
  {
    SumAlong(c.keys, c.counts)
  }

  /** One more increment extends the counter of the items seen so far. */
  lemma CounterOfSnoc<K>(xs: seq<K>, x: K)
    ensures CounterOf(xs + [x]) == Bump(CounterOf(xs), x)
  {
    assert (xs + [x])[..|xs|] == xs;
    CountMapMeaning(xs);
    FirstSeenMeaning(xs);
  }

  /** Counting xs and then ys is counting xs + ys. */
  lemma {:induction false} BumpAllOfCounterOf<K>(xs: seq<K>, ys: seq<K>)
    ensures BumpAll(CounterOf(xs), ys) == CounterOf(xs + ys)
  {
    if ys == [] {
      assert xs + ys == xs;
    } else {
      var init := ys[..|ys| - 1];
      BumpAllOfCounterOf(xs, init);
      CounterOfSnoc(xs + init, ys[|ys| - 1]);
      assert xs + init + [ys[|ys| - 1]] == xs + ys;
    }
  }

  /**
   * The counter holds each item seen with its number of occurrences, the
   * keys are the items seen, each once, and the values add up to the
   * number of items.
   */
  lemma CounterOfMeaning<K>(xs: seq<K>)
    ensures var c := CounterOf(xs);
      && Distinct(c.keys)
      && (forall k :: k in c.keys <==> k in xs)
      && (forall k :: k in c.counts <==> k in xs)
      && (forall k :: Get(c.counts, k) == Occurrences(xs, k))
      && Total(c) == |xs|
  {
    FirstSeenMeaning(xs);
    CountMapMeaning(xs);
    CountsSumToLength(xs);
  }

  /**
   * The counting loop `for x in xs: c[x] += 1` over a `defaultdict(int)`,
   * with the keys in the order the dict yields them.
   */
  method Tally<K(==)>(xs: seq<K>) returns (c: Counter<K>)
    ensures c == CounterOf(xs)
  {
    c := Counter([], map[]);
    for i := 0 to |xs|
      invariant c == CounterOf(xs[..i])
    {
      assert xs[..i + 1] == xs[..i] + [xs[i]];
      CounterOfSnoc(xs[..i], xs[i]);
      c := Bump(c, xs[i]);
    }
    assert xs[..|xs|] == xs;
  }

  // ---------------------------------------------------------------------
  // Column sums
  // ---------------------------------------------------------------------

  /** The sum of f over the rows xs. */
  function SumBy<T>(xs: seq<T>, f: T -> nat): nat
  {
    if xs == [] then 0 else SumBy(xs[..|xs| - 1], f) + f(xs[|xs| - 1])
  }

  lemma {:induction false} SumByAppend<T>(a: seq<T>, b: seq<T>, f: T -> nat)
    ensures SumBy(a + b, f) == SumBy(a, f) + SumBy(b, f)
  {
    if b == [] {
      assert a + b == a;
    } else {
      SumByAppend(a, b[..|b| - 1], f);
      assert (a + b)[..|a + b| - 1] == a + b[..|b| - 1];
    }
  }

  /** Reordering the rows does not change a column's sum. */
  lemma {:induction false} SumByPermutation<T>(a: seq<T>, b: seq<T>, f: T -> nat)
    requires multiset(a) == multiset(b)
    ensures SumBy(a, f) == SumBy(b, f)
    decreases |a|
  {
    if a == [] {
      assert |multiset(b)| == 0;
    } else {
      var x := a[|a| - 1];
      var init := a[..|a| - 1];
      assert a == init + [x];
      assert x in multiset(b);
      var k :| 0 <= k < |b| && b[k] == x;
      var rest := b[..k] + b[k + 1..];
      assert b == b[..k] + [x] + b[k + 1..];
      assert multiset(b) == multiset(b[..k]) + multiset([x]) + multiset(b[k + 1..]);
      assert multiset(a) == multiset(init) + multiset([x]);
      assert multiset(rest) == multiset(b[..k]) + multiset(b[k + 1..]);
      assert multiset(init) == multiset(a) - multiset([x]);
      assert multiset(rest) == multiset(b) - multiset([x]);
      SumByPermutation(init, rest, f);
      SumByAppend(b[..k] + [x], b[k + 1..], f);
      SumByAppend(b[..k], [x], f);
      SumByAppend(b[..k], b[k + 1..], f);
      assert SumBy([x], f) == f(x) by {
        assert [x][..0] == [];
      }
    }
  }

  /** `d[k]` as a function of k. */
  function Lookup<K(==)>(m: map<K, nat>): K -> nat
  {
    k => Get(m, k)
  }

  lemma {:induction false} SumAlongIsSumBy<K>(ks: seq<K>, m: map<K, nat>)
    ensures SumAlong(ks, m) == SumBy(ks, Lookup(m))
  {
    if ks != [] {
      SumAlongIsSumBy(ks[..|ks| - 1], m);
    }
  }

  /** Summing the counts along keys in another order gives the same sum. */
  lemma SumAlongPermutation<K>(a: seq<K>, b: seq<K>, m: map<K, nat>)
    requires multiset(a) == multiset(b)
    ensures SumAlong(a, m) == SumAlong(b, m)
  {
    SumAlongIsSumBy(a, m);
    SumAlongIsSumBy(b, m);
    SumByPermutation(a, b, Lookup(m));
  }

  /** In a sequence without repeats, no item occurs twice. */
  lemma {:induction false} DistinctCounts<K>(xs: seq<K>)
    requires Distinct(xs)
    ensures forall x :: multiset(xs)[x] <= 1
  {
    if xs != [] {
      var init := xs[..|xs| - 1];
      DistinctCounts(init);
      assert xs == init + [xs[|xs| - 1]];
      assert xs[|xs| - 1] !in init;
    }
  }

  /** Reordering a sequence without repeats gives one without repeats. */
  lemma DistinctPermutation<K>(a: seq<K>, b: seq<K>)
    requires Distinct(a) && multiset(a) == multiset(b)
    ensures Distinct(b)
  {
    DistinctCounts(a);
    forall i, j | 0 <= i < j < |b| ensures b[i] != b[j] {
      assert b == b[..j] + [b[j]] + b[j + 1..];
      assert multiset(b)[b[j]] == multiset(b[..j])[b[j]] + 1 + multiset(b[j + 1..])[b[j]];
      assert b[i] in b[..j];
    }
  }
}

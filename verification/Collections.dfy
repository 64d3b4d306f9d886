/** The list operations the services and pages compose: `filter`, the
    `reduce` that sums a numeric field, grouping into buckets in
    first-occurrence order (JavaScript `Map` insertion order) and the
    stable `Array.prototype.sort` with a numeric comparator. */
module Collections {

  import opened Wrappers

  /** `s.find(p)`: the first element that passes `p`, or nothing. */
  function Find<T>(s: seq<T>, p: T -> bool): (r: Option<T>)
    ensures r.Some? ==> exists i :: 0 <= i < |s| && s[i] == r.value && p(s[i]) && forall j :: 0 <= j < i ==> !p(s[j])
    ensures r.None? <==> forall i :: 0 <= i < |s| ==> !p(s[i])
  {
    if s == [] then None
    else if p(s[0]) then Some(s[0])
    else
      var r := Find(s[1..], p);
      assert forall i :: 1 <= i < |s| ==> s[i] == s[1..][i - 1];
      r
  }

  /** `s.findIndex(p)`, with `-1` for "not found". */
  function FindIndex<T>(s: seq<T>, p: T -> bool): (i: int)
    ensures -1 <= i < |s|
    ensures i >= 0 ==> p(s[i]) && forall j :: 0 <= j < i ==> !p(s[j])
    ensures i == -1 <==> forall j :: 0 <= j < |s| ==> !p(s[j])
  {
    if s == [] then -1
    else if p(s[0]) then 0
    else
      var k := FindIndex(s[1..], p);
      assert forall j :: 1 <= j < |s| ==> s[j] == s[1..][j - 1];
      if k == -1 then -1 else k + 1
  }

  /** `find` returns the element at the index `findIndex` reports. */
  lemma {:induction false} FindAtFindIndex<T>(s: seq<T>, p: T -> bool)
    ensures FindIndex(s, p) == -1 ==> Find(s, p) == None
    ensures FindIndex(s, p) >= 0 ==> Find(s, p) == Some(s[FindIndex(s, p)])
  {
    if s != [] && !p(s[0]) {
      FindAtFindIndex(s[1..], p);
    }
  }

  /** `s.filter(p)`. */
  function Filter<T>(s: seq<T>, p: T -> bool): (r: seq<T>)
    ensures |r| <= |s|
    ensures forall i :: 0 <= i < |r| ==> r[i] in s && p(r[i])
    ensures forall i :: 0 <= i < |s| && p(s[i]) ==> s[i] in r
    ensures multiset(r) <= multiset(s)
  {
    if s == [] then []
    else
      assert s == s[..|s| - 1] + [s[|s| - 1]];
      if p(s[|s| - 1]) then Filter(s[..|s| - 1], p) + [s[|s| - 1]]
      else Filter(s[..|s| - 1], p)
  }

  lemma {:induction false} FilterAppend<T>(a: seq<T>, b: seq<T>, p: T -> bool)
    ensures Filter(a + b, p) == Filter(a, p) + Filter(b, p)
    decreases |b|
  {
    if b == [] {
      assert a + b == a;
    } else {
      assert (a + b)[..|a + b| - 1] == a + b[..|b| - 1];
      FilterAppend(a, b[..|b| - 1], p);
    }
  }

  /** Filtering keeps the order of what it keeps: the result is a
      subsequence, so filtering twice with the same test changes nothing. */
  lemma {:induction false} FilterIdempotent<T>(s: seq<T>, p: T -> bool)
    ensures Filter(Filter(s, p), p) == Filter(s, p)
  {
    if s != [] {
      FilterIdempotent(s[..|s| - 1], p);
      if p(s[|s| - 1]) {
        FilterAppend(Filter(s[..|s| - 1], p), [s[|s| - 1]], p);
      }
    }
  }

  /** Both tests at once. */
  function Both<T>(p: T -> bool, q: T -> bool): T -> bool {
    x => p(x) && q(x)
  }

  /** Two filters in a row are one filter with both tests. */
  lemma {:induction false} FilterFilter<T>(s: seq<T>, p: T -> bool, q: T -> bool)
    ensures Filter(Filter(s, p), q) == Filter(s, Both(p, q))
  {
    if s != [] {
      var s' := s[..|s| - 1];
      FilterFilter(s', p, q);
      if p(s[|s| - 1]) {
        FilterAppend(Filter(s', p), [s[|s| - 1]], q);
      }
    }
  }

  /** Filtering keeps every copy of what passes and drops every copy of
      what does not. */
  lemma {:induction false} FilterMultiplicity<T>(s: seq<T>, p: T -> bool, x: T)
    ensures multiset(Filter(s, p))[x] == if p(x) then multiset(s)[x] else 0
  {
    if s != [] {
      var init, last := s[..|s| - 1], s[|s| - 1];
      FilterMultiplicity(init, p, x);
      assert s == init + [last];
    }
  }

  /** Filtering commutes with permuting. */
  lemma FilterPermutation<T>(a: seq<T>, b: seq<T>, p: T -> bool)
    requires multiset(a) == multiset(b)
    ensures multiset(Filter(a, p)) == multiset(Filter(b, p))
  {
    forall x ensures multiset(Filter(a, p))[x] == multiset(Filter(b, p))[x] {
      FilterMultiplicity(a, p, x);
      FilterMultiplicity(b, p, x);
    }
  }

  /** Filtering with two tests that agree everywhere gives the same list. */
  lemma {:induction false} FilterSameTest<T>(s: seq<T>, p: T -> bool, q: T -> bool)
    requires forall x :: p(x) <==> q(x)
    ensures Filter(s, p) == Filter(s, q)
  {
    if s != [] {
      FilterSameTest(s[..|s| - 1], p, q);
    }
  }

  /** `s.map(f)`. */
  function MapSeq<A, B>(s: seq<A>, f: A -> B): (r: seq<B>)
    ensures |r| == |s|
    ensures forall i :: 0 <= i < |s| ==> r[i] == f(s[i])
  {
    if s == [] then [] else MapSeq(s[..|s| - 1], f) + [f(s[|s| - 1])]
  }

  /** `s.reduce((sum, x) => sum + f(x), 0)`. */
  function SumOf<T>(s: seq<T>, f: T -> real): real {
    if s == [] then 0.0 else SumOf(s[..|s| - 1], f) + f(s[|s| - 1])
  }

  lemma SumSnoc<T>(s: seq<T>, x: T, f: T -> real)
    ensures SumOf(s + [x], f) == SumOf(s, f) + f(x)
  {
    assert (s + [x])[..|s|] == s;
  }

  lemma {:induction false} SumAppend<T>(a: seq<T>, b: seq<T>, f: T -> real)
    ensures SumOf(a + b, f) == SumOf(a, f) + SumOf(b, f)
    decreases |b|
  {
    if b == [] {
      assert a + b == a;
    } else {
      assert (a + b)[..|a + b| - 1] == a + b[..|b| - 1];
      SumAppend(a, b[..|b| - 1], f);
    }
  }

  /** A sum does not depend on the order of its terms. */
  lemma {:induction false} SumPermutation<T>(a: seq<T>, b: seq<T>, f: T -> real)
    requires multiset(a) == multiset(b)
    ensures SumOf(a, f) == SumOf(b, f)
    decreases |a|
  {
    if a != [] {
      var x := a[|a| - 1];
      assert x in multiset(b);
      var j :| 0 <= j < |b| && b[j] == x;
      var b' := b[..j] + b[j + 1..];
      assert b == b[..j] + [x] + b[j + 1..];
      assert a == a[..|a| - 1] + [x];
      assert multiset(b) == multiset(b[..j]) + multiset{x} + multiset(b[j + 1..]);
      assert multiset(b') == multiset(b[..j]) + multiset(b[j + 1..]);
      assert multiset(a) == multiset(a[..|a| - 1]) + multiset{x};
      assert multiset(a[..|a| - 1]) == multiset(a) - multiset{x};
      assert multiset(b') == multiset(b) - multiset{x};
      SumPermutation(a[..|a| - 1], b', f);
      SumAppend(b[..j] + [x], b[j + 1..], f);
      SumAppend(b[..j], [x], f);
      SumAppend(b[..j], b[j + 1..], f);
    }
  }

  /** The opposite test. */
  function Not<T>(p: T -> bool): T -> bool {
    x => !p(x)
  }

  /** The sum of `f` over the elements that pass `p` plus the sum over
      those that fail it is the whole sum. */
  lemma {:induction false} SumSplit<T>(s: seq<T>, p: T -> bool, f: T -> real)
    ensures SumOf(Filter(s, p), f) + SumOf(Filter(s, Not(p)), f) == SumOf(s, f)
  {
    if s != [] {
      var s' := s[..|s| - 1];
      SumSplit(s', p, f);
      var x := s[|s| - 1];
      if p(x) {
        SumAppend(Filter(s', p), [x], f);
      } else {
        SumAppend(Filter(s', Not(p)), [x], f);
      }
    }
  }

  /** Number of elements of `s` whose key is `k`. */
  function CountKey<T, K(==)>(s: seq<T>, key: T -> K, k: K): (n: nat)
    ensures n <= |s|
  {
    if s == [] then 0 else CountKey(s[..|s| - 1], key, k) + (if key(s[|s| - 1]) == k then 1 else 0)
  }

  /** Sum of `f` over the elements of `s` whose key is `k`. */
  function SumKey<T, K(==)>(s: seq<T>, key: T -> K, k: K, f: T -> real): real {
    if s == [] then 0.0 else SumKey(s[..|s| - 1], key, k, f) + (if key(s[|s| - 1]) == k then f(s[|s| - 1]) else 0.0)
  }

  /** Some element of `s` has key `k`. */
  predicate Occurs<T, K(==)>(s: seq<T>, key: T -> K, k: K) {
    exists i :: 0 <= i < |s| && key(s[i]) == k
  }

  /** The element of `s` where key `k` first occurs. */
  function FirstWithKey<T, K(==)>(s: seq<T>, key: T -> K, k: K): (x: T)
    requires Occurs(s, key, k)
    ensures x in s && key(x) == k
  {
    if key(s[0]) == k then s[0]
    else
      var i :| 0 <= i < |s| && key(s[i]) == k;
      assert key(s[1..][i - 1]) == k;
      FirstWithKey(s[1..], key, k)
  }

  /** One group of a grouping: its key, the element that opened it, the
      running total and the number of members. */
  datatype Bucket<T, K> = Bucket(key: K, first: T, total: real, count: nat)

  function BucketKeys<T, K>(bs: seq<Bucket<T, K>>): seq<K> {
    seq(|bs|, i requires 0 <= i < |bs| => bs[i].key)
  }

  predicate Distinct<K(==)>(ks: seq<K>) {
    forall i, j :: 0 <= i < j < |ks| ==> ks[i] != ks[j]
  }

  /** Index of the bucket for `k`, or `|bs|` when there is none. */
  function FindBucket<T, K(==)>(bs: seq<Bucket<T, K>>, k: K): (i: nat)
    ensures i <= |bs|
    ensures i < |bs| ==> bs[i].key == k
    ensures forall j :: 0 <= j < i ==> bs[j].key != k
  {
    if bs == [] then 0
    else if bs[0].key == k then 0
    else 1 + FindBucket(bs[1..], k)
  }

  /** One step of a grouping loop over a `Map`: add to the bucket of `x`'s
      key when there is one, otherwise open a new bucket at the end. */
  function AddToBuckets<T, K(==)>(bs: seq<Bucket<T, K>>, x: T, key: T -> K, f: T -> real): (r: seq<Bucket<T, K>>)
    ensures BucketKeys(r) == if key(x) in BucketKeys(bs) then BucketKeys(bs) else BucketKeys(bs) + [key(x)]
  {
    var i := FindBucket(bs, key(x));
    var r := if i < |bs| then bs[i := bs[i].(total := bs[i].total + f(x), count := bs[i].count + 1)]
             else bs + [Bucket(key(x), x, f(x), 1)];
    assert key(x) in BucketKeys(bs) <==> i < |bs| by {
      if key(x) in BucketKeys(bs) {
        var j :| 0 <= j < |bs| && BucketKeys(bs)[j] == key(x);
        assert bs[j].key == key(x);
      }
      if i < |bs| {
        assert BucketKeys(bs)[i] == key(x);
      }
    }
    assert BucketKeys(r) == if i < |bs| then BucketKeys(bs) else BucketKeys(bs) + [key(x)];
    r
  }

  /** The buckets a `forEach` over `s` builds, keyed by `key` and summing
      `f`, in order of first occurrence. */
  function GroupBy<T, K(==)>(s: seq<T>, key: T -> K, f: T -> real): seq<Bucket<T, K>> {
    if s == [] then [] else AddToBuckets(GroupBy(s[..|s| - 1], key, f), s[|s| - 1], key, f)
  }

  /** The buckets of a grouping have distinct keys, and their keys are
      exactly the keys occurring in the input. */
  lemma {:induction false} GroupByKeys<T, K>(s: seq<T>, key: T -> K, f: T -> real)
    ensures Distinct(BucketKeys(GroupBy(s, key, f)))
    ensures forall k :: k in BucketKeys(GroupBy(s, key, f)) <==> Occurs(s, key, k)
  {
    if s != [] {
      var s' := s[..|s| - 1];
      GroupByKeys(s', key, f);
      forall k
        ensures Occurs(s, key, k) <==> Occurs(s', key, k) || k == key(s[|s| - 1])
      {
        OccursSnoc(s', s[|s| - 1], key, k);
        assert s == s' + [s[|s| - 1]];
      }
    }
  }

  lemma OccursSnoc<T, K>(s: seq<T>, x: T, key: T -> K, k: K)
    ensures Occurs(s + [x], key, k) <==> Occurs(s, key, k) || key(x) == k
  {
    if Occurs(s + [x], key, k) {
      var i :| 0 <= i < |s + [x]| && key((s + [x])[i]) == k;
      if i < |s| {
        assert key(s[i]) == k;
      }
    }
    if Occurs(s, key, k) {
      var i :| 0 <= i < |s| && key(s[i]) == k;
      assert key((s + [x])[i]) == k;
    }
    if key(x) == k {
      assert key((s + [x])[|s|]) == k;
    }
  }

  /** The `j`-th bucket of a grouping holds exactly the total and the count
      of the input elements with its key, and was opened by the first of
      them. */
  lemma {:induction false} GroupByBucket<T, K>(s: seq<T>, key: T -> K, f: T -> real, j: nat)
    requires j < |GroupBy(s, key, f)|
    ensures var b := GroupBy(s, key, f)[j];
            Occurs(s, key, b.key) && b.total == SumKey(s, key, b.key, f) && b.count == CountKey(s, key, b.key)
            && b.first == FirstWithKey(s, key, b.key)
  {
    var s' := s[..|s| - 1];
    var x := s[|s| - 1];
    assert s == s' + [x];
    var bs := GroupBy(s', key, f);
    var i := FindBucket(bs, key(x));
    var b := GroupBy(s, key, f)[j];
    GroupByKeys(s', key, f);
    OccursSnoc(s', x, key, b.key);
    if j < |bs| {
      GroupByBucket(s', key, f, j);
      FirstWithKeyPrefix(s', x, key, bs[j].key);
      if j != i {
        assert BucketKeys(bs)[j] == bs[j].key;
        if i < |bs| {
          assert BucketKeys(bs)[i] == key(x);
        }
        assert bs[j].key != key(x);
      }
    } else {
      assert key(x) !in BucketKeys(bs);
      assert b == Bucket(key(x), x, f(x), 1);
      assert !Occurs(s', key, key(x));
      FirstWithKeyNew(s', x, key);
      SumKeyAbsent(s', key, key(x), f);
      CountKeyAbsent(s', key, key(x));
    }
  }

  lemma {:induction false} FirstWithKeyPrefix<T, K>(s: seq<T>, x: T, key: T -> K, k: K)
    requires Occurs(s, key, k)
    ensures Occurs(s + [x], key, k)
    ensures FirstWithKey(s + [x], key, k) == FirstWithKey(s, key, k)
  {
    OccursSnoc(s, x, key, k);
    if key(s[0]) != k {
      var i :| 0 <= i < |s| && key(s[i]) == k;
      assert key(s[1..][i - 1]) == k;
      assert (s + [x])[1..] == s[1..] + [x];
      FirstWithKeyPrefix(s[1..], x, key, k);
    }
  }

  lemma {:induction false} FirstWithKeyNew<T, K>(s: seq<T>, x: T, key: T -> K)
    requires !Occurs(s, key, key(x))
    ensures Occurs(s + [x], key, key(x))
    ensures FirstWithKey(s + [x], key, key(x)) == x
  {
    OccursSnoc(s, x, key, key(x));
    if s != [] {
      assert key(s[0]) != key(x);
      assert (s + [x])[1..] == s[1..] + [x];
      FirstWithKeyNew(s[1..], x, key);
    }
  }

  lemma {:induction false} SumKeyAbsent<T, K>(s: seq<T>, key: T -> K, k: K, f: T -> real)
    requires !Occurs(s, key, k)
    ensures SumKey(s, key, k, f) == 0.0
  {
    if s != [] {
      OccursSnoc(s[..|s| - 1], s[|s| - 1], key, k);
      assert s == s[..|s| - 1] + [s[|s| - 1]];
      SumKeyAbsent(s[..|s| - 1], key, k, f);
    }
  }

  lemma {:induction false} CountKeyAbsent<T, K>(s: seq<T>, key: T -> K, k: K)
    requires !Occurs(s, key, k)
    ensures CountKey(s, key, k) == 0
  {
    if s != [] {
      OccursSnoc(s[..|s| - 1], s[|s| - 1], key, k);
      assert s == s[..|s| - 1] + [s[|s| - 1]];
      CountKeyAbsent(s[..|s| - 1], key, k);
    }
  }

  /** Mapping, then filtering and summing, is filtering and summing the
      originals with the tests and values read through the map. */
  lemma {:induction false} MapFilterSum<A, B>(s: seq<A>, f: A -> B, p: A -> bool, q: B -> bool, g: A -> real, h: B -> real)
    requires forall x :: q(f(x)) == p(x) && h(f(x)) == g(x)
    ensures SumOf(Filter(MapSeq(s, f), q), h) == SumOf(Filter(s, p), g)
  {
    if s != [] {
      var x := s[|s| - 1];
      var m := MapSeq(s, f);
      var m' := MapSeq(s[..|s| - 1], f);
      assert m == m' + [f(x)];
      assert m[..|m| - 1] == m';
      MapFilterSum(s[..|s| - 1], f, p, q, g, h);
      if p(x) {
        SumAppend(Filter(m', q), [f(x)], h);
        SumAppend(Filter(s[..|s| - 1], p), [x], g);
      }
    }
  }

  /** Sum of the bucket totals. */
  function BucketTotal<T, K>(bs: seq<Bucket<T, K>>): real {
    if bs == [] then 0.0 else BucketTotal(bs[..|bs| - 1]) + bs[|bs| - 1].total
  }

  /** Sum of the bucket counts. */
  function BucketCount<T, K>(bs: seq<Bucket<T, K>>): nat {
    if bs == [] then 0 else BucketCount(bs[..|bs| - 1]) + bs[|bs| - 1].count
  }

  lemma {:induction false} BucketTotalUpdate<T, K>(bs: seq<Bucket<T, K>>, i: nat, b: Bucket<T, K>)
    requires i < |bs|
    ensures BucketTotal(bs[i := b]) == BucketTotal(bs) - bs[i].total + b.total
    ensures BucketCount(bs[i := b]) == BucketCount(bs) - bs[i].count + b.count
  {
    if i < |bs| - 1 {
      assert bs[i := b][..|bs| - 1] == bs[..|bs| - 1][i := b];
      BucketTotalUpdate(bs[..|bs| - 1], i, b);
    } else {
      assert bs[i := b][..|bs| - 1] == bs[..|bs| - 1];
    }
  }

  /** Grouping loses and duplicates nothing: the bucket totals add up to the
      overall total and the bucket counts to the number of elements. */
  lemma {:induction false} GroupByPartition<T, K>(s: seq<T>, key: T -> K, f: T -> real)
    ensures BucketTotal(GroupBy(s, key, f)) == SumOf(s, f)
    ensures BucketCount(GroupBy(s, key, f)) == |s|
  {
    if s != [] {
      GroupByPartition(s[..|s| - 1], key, f);
      AddToBucketsTotals(GroupBy(s[..|s| - 1], key, f), s[|s| - 1], key, f);
    }
  }

  /** One grouping step adds the element's value to the total and one to
      the count. */
  lemma AddToBucketsTotals<T, K>(bs: seq<Bucket<T, K>>, x: T, key: T -> K, f: T -> real)
    ensures BucketTotal(AddToBuckets(bs, x, key, f)) == BucketTotal(bs) + f(x)
    ensures BucketCount(AddToBuckets(bs, x, key, f)) == BucketCount(bs) + 1
  {
    var i := FindBucket(bs, key(x));
    if i < |bs| {
      BucketTotalUpdate(bs, i, bs[i].(total := bs[i].total + f(x), count := bs[i].count + 1));
    } else {
      var r := bs + [Bucket(key(x), x, f(x), 1)];
      assert r[..|r| - 1] == bs;
    }
  }

  /** `s` is ordered by `key` from largest to smallest. */
  predicate SortedDesc<T>(s: seq<T>, key: T -> real) {
    forall i, j :: 0 <= i < j < |s| ==> key(s[i]) >= key(s[j])
  }

  /** Insert `x` into a descending list after every element whose key is at
      least `x`'s, which is where a stable sort places it. */
  function InsertDesc<T>(s: seq<T>, x: T, key: T -> real): (r: seq<T>)
    requires SortedDesc(s, key)
    ensures SortedDesc(r, key)
    ensures |r| == |s| + 1
    ensures r[0] == x || (s != [] && r[0] == s[0])
  {
    if s == [] then [x]
    else if key(s[0]) >= key(x) then
      var t := InsertDesc(s[1..], x, key);
      assert s == [s[0]] + s[1..];
      assert forall k :: 0 <= k < |t| ==> key(t[0]) >= key(t[k]);
      [s[0]] + t
    else
      [x] + s
  }

  /** Inserting adds exactly `x`. */
  lemma {:induction false} InsertDescPermutes<T>(s: seq<T>, x: T, key: T -> real)
    requires SortedDesc(s, key)
    ensures multiset(InsertDesc(s, x, key)) == multiset(s) + multiset{x}
  {
    if s != [] && key(s[0]) >= key(x) {
      var t := InsertDesc(s[1..], x, key);
      InsertDescPermutes(s[1..], x, key);
      assert InsertDesc(s, x, key) == [s[0]] + t;
      assert multiset(s) == multiset{s[0]} + multiset(s[1..]) by {
        assert s == [s[0]] + s[1..];
      }
    }
  }

  /** `s.sort((a, b) => key(b) - key(a))`: a stable sort from the largest
      key to the smallest. */
  function SortDesc<T>(s: seq<T>, key: T -> real): (r: seq<T>)
    ensures SortedDesc(r, key)
    ensures |r| == |s|
  {
    if s == [] then []
    else InsertDesc(SortDesc(s[..|s| - 1], key), s[|s| - 1], key)
  }

  /** Sorting only reorders. */
  lemma {:induction false} SortDescPermutes<T>(s: seq<T>, key: T -> real)
    ensures multiset(SortDesc(s, key)) == multiset(s)
  {
    if s != [] {
      SortDescPermutes(s[..|s| - 1], key);
      InsertDescPermutes(SortDesc(s[..|s| - 1], key), s[|s| - 1], key);
      assert s == s[..|s| - 1] + [s[|s| - 1]];
    }
  }

  /** Filtering one element keeps it exactly when it passes. */
  lemma FilterSingle<T>(x: T, p: T -> bool)
    ensures Filter([x], p) == if p(x) then [x] else []
  {
    assert [x][..0] == [];
  }

  /** Nothing passes, nothing is kept. */
  lemma FilterNone<T>(s: seq<T>, p: T -> bool)
    requires forall i :: 0 <= i < |s| ==> !p(s[i])
    ensures Filter(s, p) == []
  {
  }

  /** Inserting `x` keeps, among the elements of any one key, the order
      they had, with `x` last among those of its own key. */
  lemma {:induction false} InsertDescStable<T>(s: seq<T>, x: T, key: T -> real, k: real)
    requires SortedDesc(s, key)
    ensures Filter(InsertDesc(s, x, key), KeyIs(key, k))
            == Filter(s, KeyIs(key, k)) + (if key(x) == k then [x] else [])
    decreases |s|
  {
    if s == [] {
      FilterSingle(x, KeyIs(key, k));
    } else if key(s[0]) >= key(x) {
      InsertDescStable(s[1..], x, key, k);
      assert InsertDesc(s, x, key) == [s[0]] + InsertDesc(s[1..], x, key);
      assert s == [s[0]] + s[1..];
      FilterConsStep(s[0], s[1..], InsertDesc(s[1..], x, key), if key(x) == k then [x] else [], KeyIs(key, k));
    } else {
      InsertInFront(s, x, key, k);
    }
  }

  /** Putting the same head in front of two lists keeps a relation between
      what filtering them keeps. */
  lemma FilterConsStep<T>(h: T, t: seq<T>, u: seq<T>, tail: seq<T>, p: T -> bool)
    requires Filter(u, p) == Filter(t, p) + tail
    ensures Filter([h] + u, p) == Filter([h] + t, p) + tail
  {
    FilterAppend([h], u, p);
    FilterAppend([h], t, p);
    AppendRegroup(Filter([h], p), Filter(u, p), Filter(t, p), tail, Filter([h] + u, p), Filter([h] + t, p));
  }

  /** Regrouping a concatenation of three parts. */
  lemma AppendRegroup<T>(head: seq<T>, fu: seq<T>, ft: seq<T>, tail: seq<T>, l: seq<T>, r: seq<T>)
    requires l == head + fu && fu == ft + tail && r == head + ft
    ensures l == r + tail
  {
  }

  /** The step of `InsertDescStable` where `x` goes in front: nothing
      already there has its key. */
  lemma InsertInFront<T>(s: seq<T>, x: T, key: T -> real, k: real)
    requires SortedDesc(s, key) && s != [] && key(s[0]) < key(x)
    ensures Filter(InsertDesc(s, x, key), KeyIs(key, k))
            == Filter(s, KeyIs(key, k)) + (if key(x) == k then [x] else [])
  {
    var p := KeyIs(key, k);
    assert InsertDesc(s, x, key) == [x] + s;
    FilterAppend([x], s, p);
    FilterSingle(x, p);
    if key(x) == k {
      FilterNone(s, p);
    }
  }

  /** The sort is stable: the elements of any one key come out in the
      order they went in, as `Array.prototype.sort` guarantees. */
  lemma {:induction false} SortDescStable<T>(s: seq<T>, key: T -> real, k: real)
    ensures Filter(SortDesc(s, key), KeyIs(key, k)) == Filter(s, KeyIs(key, k))
  {
    if s != [] {
      SortDescStable(s[..|s| - 1], key, k);
      InsertDescStable(SortDesc(s[..|s| - 1], key), s[|s| - 1], key, k);
    }
  }

  /** Sorting does not change a sum. */
  lemma SortKeepsSum<T>(s: seq<T>, key: T -> real, f: T -> real)
    ensures SumOf(SortDesc(s, key), f) == SumOf(s, f)
  {
    SortDescPermutes(s, key);
    SumPermutation(SortDesc(s, key), s, f);
  }

  /** Sorting does not change what passes a filter. */
  lemma SortKeepsMembers<T>(s: seq<T>, key: T -> real)
    ensures forall x :: x in SortDesc(s, key) <==> x in s
  {
    SortDescPermutes(s, key);
    forall x ensures x in SortDesc(s, key) <==> x in s {
      assert x in SortDesc(s, key) <==> x in multiset(SortDesc(s, key));
      assert x in s <==> x in multiset(s);
    }
  }

  /** Keep what passes `p`, then sort by `key`, largest first. */
  function FilterSorted<T>(s: seq<T>, p: T -> bool, key: T -> real): seq<T> {
    SortDesc(Filter(s, p), key)
  }

  /** A filter-and-sort holds exactly what passes, as often as the filter
      does, largest key first. */
  lemma FilterSortedShows<T(!new)>(s: seq<T>, p: T -> bool, key: T -> real)
    ensures var r := FilterSorted(s, p, key);
      && (forall x :: x in r <==> x in s && p(x))
      && multiset(r) == multiset(Filter(s, p))
      && SortedDesc(r, key)
  {
    SortKeepsMembers(Filter(s, p), key);
    SortDescPermutes(Filter(s, p), key);
  }

  /** Summing what passes `q` after a filter-and-sort is summing what
      passes both tests in the original order. */
  lemma FilterSortedSum<T(!new)>(s: seq<T>, p: T -> bool, key: T -> real, q: T -> bool, f: T -> real)
    ensures SumOf(Filter(FilterSorted(s, p, key), q), f) == SumOf(Filter(s, Both(p, q)), f)
  {
    var kept := Filter(s, p);
    var sorted := FilterSorted(s, p, key);
    SortDescPermutes(kept, key);
    FilterPermutation(sorted, kept, q);
    SumPermutation(Filter(sorted, q), Filter(kept, q), f);
    FilterFilter(s, p, q);
  }

  /** The test "has key `k`". */
  function KeyIs<T, K(==)>(key: T -> K, k: K): T -> bool {
    x => key(x) == k
  }

  /** The distinct keys of `s` in order of first occurrence (the keys of a
      `Map` filled by a `forEach` over `s`). */
  function KeysInOrder<T, K(==,!new)>(s: seq<T>, key: T -> K): (ks: seq<K>)
    ensures Distinct(ks)
    ensures forall k :: k in ks <==> Occurs(s, key, k)
  {
    if s == [] then []
    else
      var s' := s[..|s| - 1];
      var x := s[|s| - 1];
      var ks' := KeysInOrder(s', key);
      assert s == s' + [x];
      assert forall k :: Occurs(s, key, k) <==> Occurs(s', key, k) || key(x) == k by {
        forall k ensures Occurs(s, key, k) <==> Occurs(s', key, k) || key(x) == k {
          OccursSnoc(s', x, key, k);
        }
      }
      if key(x) in ks' then ks' else ks' + [key(x)]
  }

  /** No two elements of `s` share a key. */
  predicate DistinctBy<T, K(==)>(s: seq<T>, key: T -> K) {
    forall i, j :: 0 <= i < j < |s| ==> key(s[i]) != key(s[j])
  }

  /** Reordering a list whose keys are distinct keeps them distinct. */
  lemma {:induction false} PermutationKeepsDistinct<T, K>(a: seq<T>, b: seq<T>, key: T -> K)
    requires multiset(a) == multiset(b)
    requires DistinctBy(a, key)
    ensures DistinctBy(b, key)
    decreases |b|
  {
    if b != [] {
      var x := b[|b| - 1];
      var b' := b[..|b| - 1];
      assert b == b' + [x];
      assert x in multiset(a);
      var j :| 0 <= j < |a| && a[j] == x;
      var a' := RemoveAt(a, j, key);
      assert multiset(b') == multiset(b) - multiset{x};
      PermutationKeepsDistinct(a', b', key);
      forall i | 0 <= i < |b'| ensures key(b'[i]) != key(x) {
        assert b'[i] in multiset(a');
      }
    }
  }

  /** `a` without its `j`-th element, which keeps the other keys distinct
      from the removed one and from each other. */
  lemma RemoveAt<T, K>(a: seq<T>, j: nat, key: T -> K) returns (a': seq<T>)
    requires j < |a| && DistinctBy(a, key)
    ensures multiset(a') == multiset(a) - multiset{a[j]}
    ensures DistinctBy(a', key)
    ensures forall y :: y in a' ==> key(y) != key(a[j])
  {
    a' := a[..j] + a[j + 1..];
    assert a == a[..j] + [a[j]] + a[j + 1..];
    assert multiset(a) == multiset(a[..j]) + multiset{a[j]} + multiset(a[j + 1..]);
    forall p, q | 0 <= p < q < |a'| ensures key(a'[p]) != key(a'[q]) {
      var p0 := if p < j then p else p + 1;
      var q0 := if q < j then q else q + 1;
      assert a'[p] == a[p0] && a'[q] == a[q0];
    }
    forall y | y in a' ensures key(y) != key(a[j]) {
      var p :| 0 <= p < |a'| && a'[p] == y;
      var p0 := if p < j then p else p + 1;
      assert a'[p] == a[p0];
    }
  }

  /** Filtering a list extended by one element. */
  lemma FilterSnoc<T>(s: seq<T>, x: T, p: T -> bool)
    ensures Filter(s + [x], p) == if p(x) then Filter(s, p) + [x] else Filter(s, p)
  {
    assert (s + [x])[..|s|] == s;
  }

  /** Summing what passes a filter over a list extended by one element. */
  lemma SumFilterSnoc<T>(s: seq<T>, x: T, p: T -> bool, f: T -> real)
    ensures SumOf(Filter(s + [x], p), f) == SumOf(Filter(s, p), f) + (if p(x) then f(x) else 0.0)
  {
    FilterSnoc(s, x, p);
    var r := Filter(s, p) + [x];
    assert r[..|r| - 1] == Filter(s, p);
  }

  /** A filter applied only when `apply` holds is the filter whose test
      lets everything through otherwise. */
  lemma OptionalFilter<T>(s: seq<T>, apply: bool, p: T -> bool, q: T -> bool)
    requires forall x :: q(x) <==> (apply ==> p(x))
    ensures (if apply then Filter(s, p) else s) == Filter(s, q)
  {
    if apply {
      FilterSameTest(s, p, q);
    } else {
      FilterAll(s, q);
    }
  }

  /** A filter every element passes changes nothing. */
  lemma {:induction false} FilterAll<T>(s: seq<T>, p: T -> bool)
    requires forall x :: p(x)
    ensures Filter(s, p) == s
  {
    if s != [] {
      FilterAll(s[..|s| - 1], p);
      assert s == s[..|s| - 1] + [s[|s| - 1]];
    }
  }

  /** A list that agrees with `b` up to `b`'s length and then holds `x`. */
  lemma SnocOfPointwise<T>(a: seq<T>, b: seq<T>, x: T)
    requires |a| == |b| + 1 && a[|b|] == x
    requires forall i :: 0 <= i < |b| ==> a[i] == b[i]
    ensures a == b + [x]
  {
  }

  /** A list that agrees with `b` everywhere except at `j`, where it holds `x`. */
  lemma UpdateOfPointwise<T>(a: seq<T>, b: seq<T>, j: int, x: T)
    requires |a| == |b| && 0 <= j < |b| && a[j] == x
    requires forall i :: 0 <= i < |b| && i != j ==> a[i] == b[i]
    ensures a == b[j := x]
  {
  }

  /** Appending an element and then replacing it is appending the replacement. */
  lemma AppendThenUpdate<T>(s: seq<T>, x: T, y: T)
    ensures (s + [x])[|s| := y] == s + [y]
  {
  }

  /** The sum of `f` over the elements that pass `p`, added in order. */
  function SumWhere<T>(s: seq<T>, p: T -> bool, f: T -> real): real {
    if s == [] then 0.0
    else SumWhere(s[..|s| - 1], p, f) + (if p(s[|s| - 1]) then f(s[|s| - 1]) else 0.0)
  }

  /** Adding up what passes a test is summing the filtered list. */
  lemma {:induction false} SumWhereIsFilteredSum<T>(s: seq<T>, p: T -> bool, f: T -> real)
    ensures SumWhere(s, p, f) == SumOf(Filter(s, p), f)
  {
    if s != [] {
      var s' := s[..|s| - 1];
      assert s == s' + [s[|s| - 1]];
      SumWhereIsFilteredSum(s', p, f);
      SumFilterSnoc(s', s[|s| - 1], p, f);
    }
  }

  /** One more element adds its value when it passes the test. */
  lemma SumWhereSnoc<T>(s: seq<T>, x: T, p: T -> bool, f: T -> real)
    ensures SumWhere(s + [x], p, f) == SumWhere(s, p, f) + (if p(x) then f(x) else 0.0)
  {
    assert (s + [x])[..|s|] == s;
  }
}

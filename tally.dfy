/**
 * Counting items per key, as the services do with a record of counters that is
 * updated item by item (`acc[k] = (acc[k] || 0) + 1`, `map[k].count += 1`).
 */
module Tally {
  import opened Wrappers
  import Sorting

  /** One counter: its key, the first item seen with that key, and how many items had it. */
  datatype Bucket<T, K> = Bucket(key: K, first: T, count: nat)

  /** The keys of the items, in order. */
  function KeysOf<T, K>(s: seq<T>, key: T -> K): (r: seq<K>)
    ensures |r| == |s| && forall i :: 0 <= i < |s| ==> r[i] == key(s[i])
  {
    if s == [] then [] else KeysOf(s[..|s| - 1], key) + [key(s[|s| - 1])]
  }

  /** The keys of the buckets, in order. */
  function BucketKeys<T, K>(bs: seq<Bucket<T, K>>): (r: seq<K>)
    ensures |r| == |bs| && forall i :: 0 <= i < |bs| ==> r[i] == bs[i].key
  {
    if bs == [] then [] else BucketKeys(bs[..|bs| - 1]) + [bs[|bs| - 1].key]
  }

  /** The values of s without repetitions, each at its first occurrence (a JavaScript `Set`). */
  function Distinct<K(==)>(s: seq<K>): (r: seq<K>)
    ensures forall i, j :: 0 <= i < j < |r| ==> r[i] != r[j]
    ensures forall i :: 0 <= i < |s| ==> s[i] in r
    ensures forall i :: 0 <= i < |r| ==> r[i] in s
  {
    if s == [] then []
    else
      var d := Distinct(s[..|s| - 1]);
      assert s == s[..|s| - 1] + [s[|s| - 1]];
      if s[|s| - 1] in d then d else d + [s[|s| - 1]]
  }

  /** The number of items with key k. */
  function CountKey<T, K(==)>(s: seq<T>, key: T -> K, k: K): (n: nat)
    ensures n <= |s|
  {
    if s == [] then 0
    else CountKey(s[..|s| - 1], key, k) + (if key(s[|s| - 1]) == k then 1 else 0)
  }

  /** The position of the bucket with key k. */
  function Find<T, K(==)>(bs: seq<Bucket<T, K>>, k: K): (r: Option<nat>)
    ensures r.Some? ==> r.value < |bs| && bs[r.value].key == k
    ensures r.None? <==> forall j :: 0 <= j < |bs| ==> bs[j].key != k
  {
    if bs == [] then None
    else if bs[|bs| - 1].key == k && Find(bs[..|bs| - 1], k).None? then Some(|bs| - 1)
    else Find(bs[..|bs| - 1], k)
  }

  /** Account for one more item: bump its key's counter, or open a counter at 1. */
  function Step<T, K(==)>(bs: seq<Bucket<T, K>>, x: T, key: T -> K): seq<Bucket<T, K>> {
    match Find(bs, key(x))
    case Some(j) => bs[j := bs[j].(count := bs[j].count + 1)]
    case None => bs + [Bucket(key(x), x, 1)]
  }

  /** The counters after all items, in the order their keys first appeared. */
  function Tally<T, K(==)>(s: seq<T>, key: T -> K): seq<Bucket<T, K>> {
    if s == [] then [] else Step(Tally(s[..|s| - 1], key), s[|s| - 1], key)
  }

  ghost predicate DistinctKeys<T, K>(bs: seq<Bucket<T, K>>) {
    forall i, j :: 0 <= i < j < |bs| ==> bs[i].key != bs[j].key
  }

  function SumCounts<T, K>(bs: seq<Bucket<T, K>>): nat {
    if bs == [] then 0 else bs[0].count + SumCounts(bs[1..])
  }

  /** The counting loop: a record of positions stands for the source's object of counters. */
  method CountByKey<T, K(==)>(items: seq<T>, key: T -> K) returns (buckets: seq<Bucket<T, K>>)
    ensures buckets == Tally(items, key)
  {
    buckets := [];
    var position: map<K, nat> := map[];
    for i := 0 to |items|
      invariant buckets == Tally(items[..i], key)
      invariant forall k :: k in position <==> Find(buckets, k).Some?
      invariant forall k :: k in position ==> Find(buckets, k) == Some(position[k])
    {
      TallyStep(items, i, key);
      var x := items[i];
      var k := key(x);
      if k in position {
        var j := position[k];
        BumpStep(buckets, x, key, j);
        buckets := buckets[j := buckets[j].(count := buckets[j].count + 1)];
      } else {
        OpenStep(buckets, x, key);
        position := position[k := |buckets|];
        buckets := buckets + [Bucket(k, x, 1)];
      }
    }
    assert items[..|items|] == items;
  }

  /** Bumping an existing counter is the step, and every lookup finds what it found before. */
  lemma BumpStep<T, K>(bs: seq<Bucket<T, K>>, x: T, key: T -> K, j: nat)
    requires Find(bs, key(x)) == Some(j)
    ensures Step(bs, x, key) == bs[j := bs[j].(count := bs[j].count + 1)]
    ensures forall k :: Find(Step(bs, x, key), k) == Find(bs, k)
  {
    var r := bs[j := bs[j].(count := bs[j].count + 1)];
    forall k ensures Find(r, k) == Find(bs, k) {
      FindUpdate(bs, j, r[j], k);
    }
  }

  /** Opening a counter is the step; it is found at the end, and other lookups are unchanged. */
  lemma OpenStep<T, K>(bs: seq<Bucket<T, K>>, x: T, key: T -> K)
    requires Find(bs, key(x)).None?
    ensures Step(bs, x, key) == bs + [Bucket(key(x), x, 1)]
    ensures Find(Step(bs, x, key), key(x)) == Some(|bs|)
    ensures forall k :: k != key(x) ==> Find(Step(bs, x, key), k) == Find(bs, k)
  {
    FindAppend(bs, Bucket(key(x), x, 1));
  }

  lemma TallyStep<T, K>(items: seq<T>, i: nat, key: T -> K)
    requires i < |items|
    ensures Tally(items[..i + 1], key) == Step(Tally(items[..i], key), items[i], key)
  {
    assert items[..i + 1][..i] == items[..i];
  }

  lemma {:induction false} FindUpdate<T, K>(bs: seq<Bucket<T, K>>, j: nat, b: Bucket<T, K>, k: K)
    requires j < |bs| && b.key == bs[j].key
    ensures Find(bs[j := b], k) == Find(bs, k)
  {
    if j < |bs| - 1 {
      assert bs[j := b][..|bs| - 1] == bs[..|bs| - 1][j := b];
      FindUpdate(bs[..|bs| - 1], j, b, k);
    } else {
      assert bs[j := b][..|bs| - 1] == bs[..|bs| - 1];
    }
  }

  lemma FindAppend<T, K>(bs: seq<Bucket<T, K>>, b: Bucket<T, K>)
    requires Find(bs, b.key).None?
    ensures Find(bs + [b], b.key) == Some(|bs|)
    ensures forall k :: k != b.key ==> Find(bs + [b], k) == Find(bs, k)
  {
    assert (bs + [b])[..|bs|] == bs;
  }

  lemma StepKeys<T, K>(bs: seq<Bucket<T, K>>, x: T, key: T -> K)
    ensures BucketKeys(Step(bs, x, key)) ==
            if key(x) in BucketKeys(bs) then BucketKeys(bs) else BucketKeys(bs) + [key(x)]
  {
    var ks := BucketKeys(bs);
    var k := key(x);
    match Find(bs, k)
    case Some(j) =>
      assert ks[j] == k;
      SameKeys(bs, bs[j := bs[j].(count := bs[j].count + 1)]);
    case None =>
      assert k !in ks by {
        forall i | 0 <= i < |ks| ensures ks[i] != k {
          assert ks[i] == bs[i].key;
        }
      }
      BucketKeysAppend(bs, Bucket(k, x, 1));
  }

  lemma SameKeys<T, K>(a: seq<Bucket<T, K>>, b: seq<Bucket<T, K>>)
    requires |a| == |b| && forall i :: 0 <= i < |a| ==> a[i].key == b[i].key
    ensures BucketKeys(a) == BucketKeys(b)
  {
    var ka := BucketKeys(a);
    var kb := BucketKeys(b);
    assert forall i :: 0 <= i < |ka| ==> ka[i] == kb[i];
  }

  lemma BucketKeysAppend<T, K>(bs: seq<Bucket<T, K>>, b: Bucket<T, K>)
    ensures BucketKeys(bs + [b]) == BucketKeys(bs) + [b.key]
  {
    assert (bs + [b])[..|bs|] == bs;
  }

  /** There is one counter per distinct key, in order of first appearance. */
  lemma {:induction false} TallyKeys<T, K>(s: seq<T>, key: T -> K)
    ensures BucketKeys(Tally(s, key)) == Distinct(KeysOf(s, key))
  {
    if s != [] {
      var p := s[..|s| - 1];
      TallyKeys(p, key);
      StepKeys(Tally(p, key), s[|s| - 1], key);
      assert KeysOf(s, key)[..|s| - 1] == KeysOf(p, key);
    }
  }

  lemma TallyDistinct<T, K>(s: seq<T>, key: T -> K)
    ensures DistinctKeys(Tally(s, key))
  {
    TallyKeys(s, key);
    var ks := BucketKeys(Tally(s, key));
    assert forall i :: 0 <= i < |ks| ==> ks[i] == Tally(s, key)[i].key;
  }

  lemma StepCounts<T, K>(bs: seq<Bucket<T, K>>, x: T, key: T -> K, i: nat)
    requires DistinctKeys(bs)
    requires i < |Step(bs, x, key)|
    ensures var b := Step(bs, x, key)[i];
      b.count == (if i < |bs| then bs[i].count else 0) + (if key(x) == b.key then 1 else 0)
    ensures i < |bs| ==> Step(bs, x, key)[i].key == bs[i].key && Step(bs, x, key)[i].first == bs[i].first
    ensures i >= |bs| ==> Step(bs, x, key)[i] == Bucket(key(x), x, 1) && Find(bs, key(x)).None?
  {
  }

  /** Every counter's value is the number of items with its key. */
  lemma {:induction false} TallyCounts<T, K>(s: seq<T>, key: T -> K)
    ensures forall i :: 0 <= i < |Tally(s, key)| ==>
              Tally(s, key)[i].count == CountKey(s, key, Tally(s, key)[i].key)
  {
    if s != [] {
      var p := s[..|s| - 1];
      TallyCounts(p, key);
      TallyDistinct(p, key);
      var bs := Tally(p, key);
      forall i | 0 <= i < |Tally(s, key)|
        ensures Tally(s, key)[i].count == CountKey(s, key, Tally(s, key)[i].key)
      {
        StepCounts(bs, s[|s| - 1], key, i);
        if i >= |bs| {
          // a fresh counter: no earlier item had this key
          assert Find(bs, key(s[|s| - 1])).None?;
          CountKeyAbsent(p, key, key(s[|s| - 1]));
        }
      }
    }
  }

  /** A key no counter has was never seen. */
  lemma {:induction false} CountKeyAbsent<T, K>(s: seq<T>, key: T -> K, k: K)
    requires k !in BucketKeys(Tally(s, key))
    ensures CountKey(s, key, k) == 0
  {
    if s != [] {
      var p := s[..|s| - 1];
      TallyKeys(s, key);
      TallyKeys(p, key);
      assert KeysOf(s, key)[..|s| - 1] == KeysOf(p, key);
      assert KeysOf(s, key) == KeysOf(p, key) + [key(s[|s| - 1])];
      assert k != key(s[|s| - 1]);
      CountKeyAbsent(p, key, k);
    }
  }

  /** A key without a counter belongs to no item. */
  lemma {:induction false} UnseenKey<T, K>(s: seq<T>, key: T -> K, k: K)
    requires Find(Tally(s, key), k).None?
    ensures forall q :: 0 <= q < |s| ==> key(s[q]) != k
  {
    TallyKeys(s, key);
    forall q | 0 <= q < |s| ensures key(s[q]) != k {
      assert KeysOf(s, key)[q] == key(s[q]);
      assert key(s[q]) in BucketKeys(Tally(s, key));
    }
  }

  /** Position p holds the first item with its key. */
  ghost predicate FirstAt<T, K>(s: seq<T>, key: T -> K, p: int) {
    0 <= p < |s| && forall q :: 0 <= q < p ==> key(s[q]) != key(s[p])
  }

  /** Every counter remembers the first item that had its key. */
  lemma {:induction false} TallyFirst<T, K>(s: seq<T>, key: T -> K, i: nat)
    requires i < |Tally(s, key)|
    ensures exists p :: FirstAt(s, key, p) && s[p] == Tally(s, key)[i].first &&
                        key(s[p]) == Tally(s, key)[i].key
  {
    var pre := s[..|s| - 1];
    var bs := Tally(pre, key);
    var x := s[|s| - 1];
    var t := Tally(s, key);
    assert t == Step(bs, x, key);
    TallyDistinct(pre, key);
    StepCounts(bs, x, key, i);
    var p: int;
    if i < |bs| {
      TallyFirst(pre, key, i);
      p :| FirstAt(pre, key, p) && pre[p] == bs[i].first && key(pre[p]) == bs[i].key;
      assert s[p] == pre[p];
      assert forall q :: 0 <= q < p ==> s[q] == pre[q];
    } else {
      UnseenKey(pre, key, key(x));
      p := |s| - 1;
      assert forall q :: 0 <= q < p ==> s[q] == pre[q];
    }
    assert FirstAt(s, key, p) && s[p] == t[i].first && key(s[p]) == t[i].key;
  }

  lemma {:induction false} SumCountsUpdate<T, K>(bs: seq<Bucket<T, K>>, j: nat, b: Bucket<T, K>)
    requires j < |bs|
    ensures SumCounts(bs[j := b]) == SumCounts(bs) - bs[j].count + b.count
  {
    if j > 0 {
      assert bs[j := b][1..] == bs[1..][j - 1 := b];
      SumCountsUpdate(bs[1..], j - 1, b);
    }
  }

  lemma {:induction false} SumCountsAppend<T, K>(bs: seq<Bucket<T, K>>, b: Bucket<T, K>)
    ensures SumCounts(bs + [b]) == SumCounts(bs) + b.count
  {
    if bs != [] {
      assert (bs + [b])[1..] == bs[1..] + [b];
      SumCountsAppend(bs[1..], b);
    }
  }

  /** The counters add up to the number of items. */
  lemma {:induction false} TallySum<T, K>(s: seq<T>, key: T -> K)
    ensures SumCounts(Tally(s, key)) == |s|
  {
    if s != [] {
      var bs := Tally(s[..|s| - 1], key);
      var x := s[|s| - 1];
      TallySum(s[..|s| - 1], key);
      match Find(bs, key(x))
      case Some(j) => SumCountsUpdate(bs, j, bs[j].(count := bs[j].count + 1));
      case None => SumCountsAppend(bs, Bucket(key(x), x, 1));
    }
  }

  // ---------------------------------------------------------------------------
  // Reordering counters keeps what they say
  // ---------------------------------------------------------------------------

  lemma {:induction false} SumCountsInsert<T, K>(b: Bucket<T, K>, bs: seq<Bucket<T, K>>,
                                                   le: (Bucket<T, K>, Bucket<T, K>) -> bool)
    ensures SumCounts(Sorting.Insert(b, bs, le)) == b.count + SumCounts(bs)
  {
    if bs != [] && !le(b, bs[0]) {
      var r := Sorting.Insert(b, bs[1..], le);
      SumCountsInsert(b, bs[1..], le);
      assert ([bs[0]] + r)[1..] == r;
    } else {
      assert ([b] + bs)[1..] == bs;
    }
  }

  lemma {:induction false} SumCountsSorted<T, K>(bs: seq<Bucket<T, K>>, le: (Bucket<T, K>, Bucket<T, K>) -> bool)
    ensures SumCounts(Sorting.SortBy(bs, le)) == SumCounts(bs)
  {
    if bs != [] {
      SumCountsSorted(bs[1..], le);
      SumCountsInsert(bs[0], Sorting.SortBy(bs[1..], le), le);
    }
  }

  lemma {:induction false} DistinctKeysSorted<T(!new), K(!new)>(bs: seq<Bucket<T, K>>, le: (Bucket<T, K>, Bucket<T, K>) -> bool)
    requires DistinctKeys(bs)
    ensures DistinctKeys(Sorting.SortBy(bs, le))
  {
    if bs != [] {
      var t := Sorting.SortBy(bs[1..], le);
      DistinctKeysSorted(bs[1..], le);
      Sorting.SortByPermutes(bs[1..], le);
      forall c | c in t ensures c.key != bs[0].key {
        assert c in multiset(bs[1..]);
        var k :| 0 <= k < |bs[1..]| && bs[1..][k] == c;
        assert bs[k + 1] == c;
      }
      DistinctKeysInsert(bs[0], t, le);
    }
  }

  lemma {:induction false} DistinctKeysInsert<T(!new), K(!new)>(b: Bucket<T, K>, bs: seq<Bucket<T, K>>,
                                                      le: (Bucket<T, K>, Bucket<T, K>) -> bool)
    requires DistinctKeys(bs) && forall c :: c in bs ==> c.key != b.key
    ensures DistinctKeys(Sorting.Insert(b, bs, le))
  {
    var r := Sorting.Insert(b, bs, le);
    assert multiset(r) == multiset(bs) + multiset{b};
    if bs != [] && !le(b, bs[0]) {
      var t := Sorting.Insert(b, bs[1..], le);
      DistinctKeysInsert(b, bs[1..], le);
      assert multiset(t) == multiset(bs[1..]) + multiset{b};
      forall j | 0 < j < |r| ensures r[0].key != r[j].key {
        assert r[j] == t[j - 1];
        assert t[j - 1] in multiset(t);
        if t[j - 1] != b {
          assert t[j - 1] in multiset(bs[1..]);
          var k :| 0 <= k < |bs[1..]| && bs[1..][k] == t[j - 1];
          assert bs[k + 1] == t[j - 1];
        }
      }
    }
  }

  /** Sorting counters keeps every one of them. */
  lemma SortedMembers<T(!new), K(!new)>(bs: seq<Bucket<T, K>>, le: (Bucket<T, K>, Bucket<T, K>) -> bool)
    ensures forall b :: b in Sorting.SortBy(bs, le) <==> b in bs
  {
    Sorting.SortByPermutes(bs, le);
    forall b ensures b in Sorting.SortBy(bs, le) <==> b in bs {
      assert b in Sorting.SortBy(bs, le) <==> b in multiset(Sorting.SortBy(bs, le));
      assert b in bs <==> b in multiset(bs);
    }
  }
}

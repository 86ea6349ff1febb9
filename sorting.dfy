/**
 * `Array.prototype.sort` with a comparator: a stable sort. A comparator `cmp` is
 * represented by `le(a, b) == (cmp(a, b) <= 0)`, "a may stay before b".
 */
module Sorting {

  /** The comparator is consistent: total and transitive (what `Array.sort` needs). */
  ghost predicate TotalPreorder<T(!new)>(le: (T, T) -> bool) {
    (forall a, b :: le(a, b) || le(b, a)) &&
    (forall a, b, c :: le(a, b) && le(b, c) ==> le(a, c))
  }

  /** Every earlier element may stay before every later one. */
  ghost predicate SortedBy<T>(s: seq<T>, le: (T, T) -> bool) {
    forall i, j :: 0 <= i < j < |s| ==> le(s[i], s[j])
  }

  /** Insert x before the first element it may precede. */
  function Insert<T>(x: T, s: seq<T>, le: (T, T) -> bool): (r: seq<T>)
    ensures multiset(r) == multiset(s) + multiset{x}
    ensures |r| == |s| + 1
  {
    if s == [] || le(x, s[0]) then [x] + s
    else
      assert s == [s[0]] + s[1..];
      [s[0]] + Insert(x, s[1..], le)
  }

  /** The stable sort of s under le (insertion sort). */
  function SortBy<T>(s: seq<T>, le: (T, T) -> bool): (r: seq<T>)
    ensures |r| == |s|
  {
    if s == [] then [] else Insert(s[0], SortBy(s[1..], le), le)
  }

  /** The sort is a permutation of its input. */
  lemma {:induction false} SortByPermutes<T>(s: seq<T>, le: (T, T) -> bool)
    ensures multiset(SortBy(s, le)) == multiset(s)
  {
    if s != [] {
      SortByPermutes(s[1..], le);
      assert s == [s[0]] + s[1..];
    }
  }

  lemma {:induction false} InsertSorted<T(!new)>(x: T, s: seq<T>, le: (T, T) -> bool)
    requires TotalPreorder(le) && SortedBy(s, le)
    ensures SortedBy(Insert(x, s, le), le)
  {
    if s == [] || le(x, s[0]) {
      forall y | y in s ensures le(x, y) {
        var k :| 0 <= k < |s| && s[k] == y;
        if k > 0 {
          assert le(s[0], s[k]);
        }
      }
      ConsSorted(x, s, le);
    } else {
      var h := s[0];
      var t := s[1..];
      InsertSorted(x, t, le);
      var r := Insert(x, t, le);
      forall y | y in r ensures le(h, y) {
        InsertMembers(x, t, le, y);
        if y != x {
          var k :| 0 <= k < |t| && t[k] == y;
          assert s[k + 1] == y;
        }
      }
      ConsSorted(h, r, le);
    }
  }

  lemma InsertMembers<T>(x: T, s: seq<T>, le: (T, T) -> bool, y: T)
    ensures y in Insert(x, s, le) <==> y == x || y in s
  {
    assert y in Insert(x, s, le) <==> y in multiset(Insert(x, s, le));
    assert y in s <==> y in multiset(s);
  }

  lemma ConsSorted<T>(h: T, r: seq<T>, le: (T, T) -> bool)
    requires SortedBy(r, le) && forall y :: y in r ==> le(h, y)
    ensures SortedBy([h] + r, le)
  {
    var s := [h] + r;
    forall i, j | 0 <= i < j < |s| ensures le(s[i], s[j]) {
      assert s[j] == r[j - 1];
      if i > 0 {
        assert s[i] == r[i - 1];
      }
    }
  }

  /** Under a total preorder the sort's output is sorted. */
  lemma {:induction false} SortBySorted<T(!new)>(s: seq<T>, le: (T, T) -> bool)
    requires TotalPreorder(le)
    ensures SortedBy(SortBy(s, le), le)
  {
    if s != [] {
      SortBySorted(s[1..], le);
      InsertSorted(s[0], SortBy(s[1..], le), le);
    }
  }

  /** The elements of s that compare equal to c, in order. */
  function ClassOf<T>(s: seq<T>, c: T, le: (T, T) -> bool): (r: seq<T>)
    ensures |r| <= |s|
  {
    if s == [] then []
    else (if le(s[0], c) && le(c, s[0]) then [s[0]] else []) + ClassOf(s[1..], c, le)
  }

  lemma {:induction false} ClassOfInsert<T(!new)>(x: T, s: seq<T>, c: T, le: (T, T) -> bool)
    requires TotalPreorder(le)
    ensures le(x, c) && le(c, x) ==> ClassOf(Insert(x, s, le), c, le) == [x] + ClassOf(s, c, le)
    ensures !(le(x, c) && le(c, x)) ==> ClassOf(Insert(x, s, le), c, le) == ClassOf(s, c, le)
  {
    if s == [] || le(x, s[0]) {
      ClassOfCons(x, s, c, le);
    } else {
      var r := Insert(x, s[1..], le);
      ClassOfInsert(x, s[1..], c, le);
      ClassOfCons(s[0], r, c, le);
      ClassOfCons(s[0], s[1..], c, le);
      assert s == [s[0]] + s[1..];
      if le(x, c) && le(c, x) {
        // s[0] is strictly before x, so it is not in x's class
        var h := s[0];
        assert le(x, c) && le(c, h) ==> le(x, h);
        assert !le(c, h);
      }
    }
  }

  lemma ClassOfCons<T>(y: T, t: seq<T>, c: T, le: (T, T) -> bool)
    ensures ClassOf([y] + t, c, le) == (if le(y, c) && le(c, y) then [y] else []) + ClassOf(t, c, le)
  {
    assert ([y] + t)[0] == y;
    assert ([y] + t)[1..] == t;
  }

  /**
   * Stability: the elements that compare equal to any c keep their input order.
   * Together with the permutation and sortedness lemmas this fixes the output.
   */
  lemma {:induction false} SortByStable<T(!new)>(s: seq<T>, c: T, le: (T, T) -> bool)
    requires TotalPreorder(le)
    ensures ClassOf(SortBy(s, le), c, le) == ClassOf(s, c, le)
  {
    if s != [] {
      SortByStable(s[1..], c, le);
      ClassOfInsert(s[0], SortBy(s[1..], le), c, le);
    }
  }

  /** An already sorted sequence is left as it is. */
  lemma {:induction false} SortBySortedNoop<T(!new)>(s: seq<T>, le: (T, T) -> bool)
    requires SortedBy(s, le)
    ensures SortBy(s, le) == s
  {
    if s != [] {
      assert SortedBy(s[1..], le);
      SortBySortedNoop(s[1..], le);
      var t := s[1..];
      if t != [] {
        assert le(s[0], t[0]);
      }
    }
  }

  /**
   * The comparator of a two-key sort: compare by the first key, and only when the
   * first keys compare equal, by the second.
   */
  function ThenBy<T, K>(key1: T -> K, key2: T -> K, le: (K, K) -> bool): (T, T) -> bool {
    (a: T, b: T) => !le(key1(b), key1(a)) || (le(key1(a), key1(b)) && le(key2(a), key2(b)))
  }

  /** The comparator that orders by one key. */
  function By<T, K>(key: T -> K, le: (K, K) -> bool): (T, T) -> bool {
    (a: T, b: T) => le(key(a), key(b))
  }

  lemma ByPreorder<T(!new), K(!new)>(key: T -> K, le: (K, K) -> bool)
    requires TotalPreorder(le)
    ensures TotalPreorder(By(key, le))
  {
  }

  /** Combining two keys under a total preorder gives a total preorder. */
  lemma ThenByPreorder<T(!new), K(!new)>(key1: T -> K, key2: T -> K, le: (K, K) -> bool)
    requires TotalPreorder(le)
    ensures TotalPreorder(ThenBy(key1, key2, le))
  {
  }

  /**
   * What the two-key comparator says: the first keys are in order, and when they
   * compare equal the second keys are too.
   */
  lemma ThenByMeaning<T, K(!new)>(key1: T -> K, key2: T -> K, le: (K, K) -> bool, a: T, b: T)
    requires (forall x, y :: le(x, y) || le(y, x))
    requires ThenBy(key1, key2, le)(a, b)
    ensures le(key1(a), key1(b))
    ensures le(key1(b), key1(a)) ==> le(key2(a), key2(b))
  {
    assert le(key1(a), key1(b)) || le(key1(b), key1(a));
  }
}

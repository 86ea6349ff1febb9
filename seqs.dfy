/**
 * `Array.prototype.filter`, the index `Math.floor(Math.random() * length)`, and sets and
 * map keys in insertion order.
 */
module Seqs {

  /** The elements of s that satisfy p, in their order. */
  function Filter<T>(s: seq<T>, p: T -> bool): (r: seq<T>)
    ensures |r| <= |s|
    ensures forall i :: 0 <= i < |r| ==> p(r[i])
  {
    if s == [] then []
    else
      var pre := Filter(s[..|s| - 1], p);
      if p(s[|s| - 1]) then pre + [s[|s| - 1]] else pre
  }

  /** filter keeps exactly the elements that satisfy p, with their multiplicities. */
  lemma {:induction false} FilterMultiset<T>(s: seq<T>, p: T -> bool)
    ensures forall x :: x in multiset(Filter(s, p)) ==> x in multiset(s) && p(x)
    ensures forall x :: p(x) ==> multiset(Filter(s, p))[x] == multiset(s)[x]
    ensures multiset(Filter(s, p)) <= multiset(s)
  {
    if s != [] {
      var pre := s[..|s| - 1];
      FilterMultiset(pre, p);
      assert s == pre + [s[|s| - 1]];
    }
  }

  lemma FilterMembers<T>(s: seq<T>, p: T -> bool)
    ensures forall x :: x in Filter(s, p) <==> x in s && p(x)
  {
    FilterMultiset(s, p);
    forall x ensures x in Filter(s, p) <==> x in s && p(x) {
      assert x in Filter(s, p) <==> x in multiset(Filter(s, p));
      assert x in s <==> x in multiset(s);
    }
  }

  /** Filtering with a predicate every element meets changes nothing. */
  lemma {:induction false} FilterAll<T>(s: seq<T>, p: T -> bool)
    requires forall i :: 0 <= i < |s| ==> p(s[i])
    ensures Filter(s, p) == s
  {
    if s != [] {
      FilterAll(s[..|s| - 1], p);
      assert s == s[..|s| - 1] + [s[|s| - 1]];
    }
  }

  /** `Array.prototype.some`, element by element from the front. */
  function Any<T>(s: seq<T>, p: T -> bool): bool {
    s != [] && (p(s[0]) || Any(s[1..], p))
  }

  /** some holds exactly when one element satisfies p. */
  lemma {:induction false} AnyIff<T>(s: seq<T>, p: T -> bool)
    ensures Any(s, p) <==> exists i :: 0 <= i < |s| && p(s[i])
  {
    if s != [] {
      AnyIff(s[1..], p);
      if !p(s[0]) && exists i :: 0 <= i < |s| && p(s[i]) {
        var i :| 0 <= i < |s| && p(s[i]);
        assert s[1..][i - 1] == s[i];
      }
    }
  }

  /** Appending elements can turn some from false to true, never back. */
  lemma AnyAppend<T>(s: seq<T>, t: seq<T>, p: T -> bool)
    ensures Any(s + t, p) <==> Any(s, p) || Any(t, p)
  {
    AnyIff(s, p);
    AnyIff(t, p);
    AnyIff(s + t, p);
    if Any(t, p) {
      var i :| 0 <= i < |t| && p(t[i]);
      assert (s + t)[|s| + i] == t[i];
    }
    if Any(s, p) {
      var i :| 0 <= i < |s| && p(s[i]);
      assert (s + t)[i] == s[i];
    }
    if Any(s + t, p) {
      var i :| 0 <= i < |s + t| && p((s + t)[i]);
      if i >= |s| {
        assert t[i - |s|] == (s + t)[i];
      } else {
        assert s[i] == (s + t)[i];
      }
    }
  }

  /** some does not depend on the order of the elements. */
  lemma AnyPermutation<T>(s: seq<T>, t: seq<T>, p: T -> bool)
    requires multiset(s) == multiset(t)
    ensures Any(s, p) == Any(t, p)
  {
    AnyIff(s, p);
    AnyIff(t, p);
    if Any(s, p) {
      var i :| 0 <= i < |s| && p(s[i]);
      assert s[i] in multiset(t);
      var j :| 0 <= j < |t| && t[j] == s[i];
    }
    if Any(t, p) {
      var j :| 0 <= j < |t| && p(t[j]);
      assert t[j] in multiset(s);
      var i :| 0 <= i < |s| && s[i] == t[j];
    }
  }

  /** `Math.floor(random * length)` for `0 <= random < 1`: always a valid index. */
  function RandomIndex(random: real, length: nat): (i: nat)
    requires 0.0 <= random < 1.0 && length > 0
    ensures i < length
  {
    var x := random * length as real;
    assert 0.0 <= x < length as real;
    x.Floor
  }

  /** The pieces `f` gives for the elements of s, one after the other. */
  function FlatMap<T, U>(s: seq<T>, f: T -> seq<U>): seq<U>
    decreases |s|
  {
    if s == [] then [] else FlatMap(s[..|s| - 1], f) + f(s[|s| - 1])
  }

  /** The pieces of a + b are those of a, then those of b. */
  lemma {:induction false} FlatMapAppend<T, U>(a: seq<T>, b: seq<T>, f: T -> seq<U>)
    ensures FlatMap(a + b, f) == FlatMap(a, f) + FlatMap(b, f)
    decreases |b|
  {
    if b == [] {
      assert a + b == a;
    } else {
      var pre := b[..|b| - 1];
      FlatMapAppend(a, pre, f);
      assert (a + b)[..|a + b| - 1] == a + pre;
      assert (a + b)[|a + b| - 1] == b[|b| - 1];
    }
  }

  /** An element of the pieces comes from the piece of some element. */
  lemma {:induction false} FlatMapMembers<T, U>(s: seq<T>, f: T -> seq<U>, x: U)
    ensures x in FlatMap(s, f) <==> exists k :: 0 <= k < |s| && x in f(s[k])
    decreases |s|
  {
    if s != [] {
      var pre := s[..|s| - 1];
      var last := s[|s| - 1];
      FlatMapMembers(pre, f, x);
      assert FlatMap(s, f) == FlatMap(pre, f) + f(last);
      if exists k :: 0 <= k < |pre| && x in f(pre[k]) {
        var k :| 0 <= k < |pre| && x in f(pre[k]);
        assert s[k] == pre[k];
      }
      if exists k :: 0 <= k < |s| && x in f(s[k]) {
        var k :| 0 <= k < |s| && x in f(s[k]);
        if k < |pre| {
          assert pre[k] == s[k];
        }
      }
    }
  }

  // ---------------------------------------------------------------------------
  // Insertion-ordered sets (`new Set(...)`, `Set.add`, `Map` keys)
  // ---------------------------------------------------------------------------

  /** `set.add(x)` on an insertion-ordered set held as a sequence. */
  function Add<T(==)>(acc: seq<T>, x: T): seq<T> {
    if x in acc then acc else acc + [x]
  }

  /** Adding the elements of xs one after the other. */
  function AddAll<T(==)>(acc: seq<T>, xs: seq<T>): seq<T>
    decreases |xs|
  {
    if xs == [] then acc else Add(AddAll(acc, xs[..|xs| - 1]), xs[|xs| - 1])
  }

  predicate NoDuplicates<T(==)>(s: seq<T>) {
    forall i, j :: 0 <= i < j < |s| ==> s[i] != s[j]
  }

  /**
   * Adding keeps a set without duplicates, holds exactly the old elements and the added
   * ones, and leaves the old elements first and in their order.
   */
  lemma {:induction false} AddAllSpec<T>(acc: seq<T>, xs: seq<T>)
    requires NoDuplicates(acc)
    ensures NoDuplicates(AddAll(acc, xs))
    ensures forall x :: x in AddAll(acc, xs) <==> x in acc || x in xs
    ensures |acc| <= |AddAll(acc, xs)| && AddAll(acc, xs)[..|acc|] == acc
    decreases |xs|
  {
    if xs != [] {
      var pre := xs[..|xs| - 1];
      AddAllSpec(acc, pre);
      assert xs == pre + [xs[|xs| - 1]];
      var s := AddAll(acc, pre);
      assert s[..|acc|] == acc;
      if xs[|xs| - 1] !in s {
        assert (s + [xs[|xs| - 1]])[..|acc|] == s[..|acc|];
      }
    }
  }

  /** Adding a + b is adding a, then b. */
  lemma {:induction false} AddAllAppend<T>(acc: seq<T>, a: seq<T>, b: seq<T>)
    ensures AddAll(acc, a + b) == AddAll(AddAll(acc, a), b)
    decreases |b|
  {
    if b == [] {
      assert a + b == a;
    } else {
      var pre := b[..|b| - 1];
      AddAllAppend(acc, a, pre);
      assert (a + b)[..|a + b| - 1] == a + pre;
      assert (a + b)[|a + b| - 1] == b[|b| - 1];
    }
  }

  /** Adding fresh, distinct elements appends them. */
  lemma {:induction false} AddAllFresh<T>(acc: seq<T>, xs: seq<T>)
    requires NoDuplicates(xs) && forall x :: x in xs ==> x !in acc
    ensures AddAll(acc, xs) == acc + xs
    decreases |xs|
  {
    if xs != [] {
      var pre := xs[..|xs| - 1];
      assert forall x :: x in pre ==> x in xs;
      AddAllFresh(acc, pre);
      assert xs[|xs| - 1] !in pre;
      assert acc + xs == (acc + pre) + [xs[|xs| - 1]];
    }
  }
}

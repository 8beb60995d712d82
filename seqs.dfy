/**
 * Sequence helpers: JavaScript's `Array.prototype.filter`, the
 * order-preserving subsequence relation that states what a filter keeps,
 * and a shuffle driven by an explicit choice sequence that stands for the
 * source's `sort(() => 0.5 - Math.random())`.
 */
module Seqs {
  import opened Wrappers

  /** `s.filter(p)`: the elements of `s` that satisfy `p`, in their original order. */
  function Filter<T(==)>(s: seq<T>, p: T -> bool): (r: seq<T>)
    ensures |r| <= |s|
    ensures forall i :: 0 <= i < |r| ==> p(r[i])
  {
    if s == [] then []
    else
      var init := s[..|s| - 1];
      assert s == init + [s[|s| - 1]];
      Filter(init, p) + (if p(s[|s| - 1]) then [s[|s| - 1]] else [])
  }

  /** A value is kept exactly when it occurs in the input and passes the test. */
  lemma {:induction false} FilterMembers<T>(s: seq<T>, p: T -> bool)
    ensures forall x :: x in Filter(s, p) <==> x in s && p(x)
  {
    if s != [] {
      var init := s[..|s| - 1];
      FilterMembers(init, p);
      assert s == init + [s[|s| - 1]];
    }
  }

  /** The test `(y) => y !== x`. */
  function Except<T(==)>(x: T): T -> bool
  {
    (y: T) => y != x
  }

  /** `s.filter((y) => y !== x)`: every copy of `x` dropped. */
  function Remove<T(==)>(s: seq<T>, x: T): seq<T>
  {
    Filter(s, Except(x))
  }

  /** Removing `x` drops exactly `x`: every other value keeps its membership. */
  lemma RemoveMembers<T>(s: seq<T>, x: T)
    ensures x !in Remove(s, x)
    ensures forall y :: y != x ==> (y in Remove(s, x) <==> y in s)
  {
    FilterMembers(s, Except(x));
  }

  /** Removing a value that does not occur changes nothing. */
  lemma RemoveAbsent<T>(s: seq<T>, x: T)
    requires x !in s
    ensures Remove(s, x) == s
  {
    FilterKeepsAll(s, Except(x));
  }

  /** Appending a new value and removing it again gives back the sequence. */
  lemma RemoveAppended<T>(s: seq<T>, x: T)
    requires x !in s
    ensures Remove(s + [x], x) == s
  {
    FilterAppend(s, [x], Except(x));
    FilterKeepsAll(s, Except(x));
    assert [x][..0] == [];
  }

  /** `a` is `b` with some elements left out and the rest in their order. */
  predicate IsSubsequence<T(==)>(a: seq<T>, b: seq<T>)
    decreases |b|
  {
    || a == []
    || (&& b != []
        && (|| (a[|a| - 1] == b[|b| - 1] && IsSubsequence(a[..|a| - 1], b[..|b| - 1]))
            || IsSubsequence(a, b[..|b| - 1])))
  }

  lemma {:induction false} FilterIsSubsequence<T>(s: seq<T>, p: T -> bool)
    ensures IsSubsequence(Filter(s, p), s)
  {
    if s != [] {
      var init := s[..|s| - 1];
      FilterIsSubsequence(init, p);
      var r := Filter(s, p);
      if p(s[|s| - 1]) {
        assert r[..|r| - 1] == Filter(init, p);
      } else {
        assert r == Filter(init, p);
      }
    }
  }

  lemma {:induction false} FilterAppend<T>(a: seq<T>, b: seq<T>, p: T -> bool)
    ensures Filter(a + b, p) == Filter(a, p) + Filter(b, p)
    decreases |b|
  {
    if b == [] {
      assert a + b == a;
    } else {
      var bi := b[..|b| - 1];
      assert (a + b)[..|a + b| - 1] == a + bi;
      FilterAppend(a, bi, p);
    }
  }

  /** A filter whose test every element passes keeps the whole sequence. */
  lemma {:induction false} FilterKeepsAll<T>(s: seq<T>, p: T -> bool)
    requires forall i :: 0 <= i < |s| ==> p(s[i])
    ensures Filter(s, p) == s
  {
    if s != [] {
      FilterKeepsAll(s[..|s| - 1], p);
    }
  }

  /** A filter that no element passes yields the empty sequence. */
  lemma {:induction false} FilterKeepsNone<T>(s: seq<T>, p: T -> bool)
    requires forall i :: 0 <= i < |s| ==> !p(s[i])
    ensures Filter(s, p) == []
  {
    if s != [] {
      FilterKeepsNone(s[..|s| - 1], p);
    }
  }

  /** Two tests that agree on every element select the same elements. */
  lemma {:induction false} FilterExtensional<T>(s: seq<T>, p: T -> bool, q: T -> bool)
    requires forall i :: 0 <= i < |s| ==> p(s[i]) == q(s[i])
    ensures Filter(s, p) == Filter(s, q)
  {
    if s != [] {
      FilterExtensional(s[..|s| - 1], p, q);
    }
  }

  /** The conjunction of two tests. */
  function And<T>(p: T -> bool, q: T -> bool): T -> bool
  {
    (x: T) => p(x) && q(x)
  }

  /** Filtering twice is filtering once by the conjunction of the tests. */
  lemma {:induction false} FilterCompose<T>(s: seq<T>, p: T -> bool, q: T -> bool)
    ensures Filter(Filter(s, p), q) == Filter(s, And(p, q))
  {
    var pq := And(p, q);
    if s != [] {
      var init := s[..|s| - 1];
      var last := s[|s| - 1];
      FilterCompose(init, p, q);
      assert Filter(s, pq) == Filter(init, pq) + (if pq(last) then [last] else []);
      if p(last) {
        assert Filter(s, p) == Filter(init, p) + [last];
        FilterAppend(Filter(init, p), [last], q);
        assert [last][..0] == [];
        assert Filter([last], q) == (if q(last) then [last] else []);
      } else {
        assert Filter(s, p) == Filter(init, p);
      }
    }
  }

  /** Each value keeps all of its copies when it passes the test and none when it fails. */
  lemma {:induction false} FilterMultiplicity<T>(s: seq<T>, p: T -> bool, x: T)
    ensures multiset(Filter(s, p))[x] == if p(x) then multiset(s)[x] else 0
  {
    if s != [] {
      var init := s[..|s| - 1];
      assert s == init + [s[|s| - 1]];
      FilterMultiplicity(init, p, x);
    }
  }

  /**
   * The order produced by a random-comparator sort, with the random source
   * made explicit: each choice picks the next element among those not yet
   * placed, by its index among them; a missing or out-of-range choice picks
   * the first. Every permutation arises from some choice sequence.
   */
  function Shuffle<T>(s: seq<T>, choices: seq<nat>): (r: seq<T>)
    ensures |r| == |s|
    decreases |s|
  {
    if s == [] then []
    else
      var j := if choices != [] && choices[0] < |s| then choices[0] else 0;
      [s[j]] + Shuffle(s[..j] + s[j + 1..], if choices == [] then [] else choices[1..])
  }

  /** A shuffle is a permutation: every value keeps its number of copies. */
  lemma {:induction false} ShufflePermutes<T>(s: seq<T>, choices: seq<nat>)
    ensures multiset(Shuffle(s, choices)) == multiset(s)
    decreases |s|
  {
    if s != [] {
      var j := if choices != [] && choices[0] < |s| then choices[0] else 0;
      ShufflePermutes(s[..j] + s[j + 1..], if choices == [] then [] else choices[1..]);
      assert s == s[..j] + [s[j]] + s[j + 1..];
    }
  }

  /** With no choices, the shuffle keeps the order. */
  lemma {:induction false} ShuffleWithoutChoices<T>(s: seq<T>)
    ensures Shuffle(s, []) == s
    decreases |s|
  {
    if s != [] {
      assert s[..0] + s[1..] == s[1..];
      ShuffleWithoutChoices(s[1..]);
    }
  }

  /**
   * `s.findIndex(p)` as an option: the index of the first element that
   * passes, or None when no element does.
   */
  function FindFirst<T>(s: seq<T>, p: T -> bool): (r: Option<nat>)
    ensures r.Some? ==> r.value < |s| && p(s[r.value]) && forall j :: 0 <= j < r.value ==> !p(s[j])
    ensures r.None? ==> forall j :: 0 <= j < |s| ==> !p(s[j])
  {
    if s == [] then None
    else if p(s[0]) then Some(0)
    else
      match FindFirst(s[1..], p)
      case None => None
      case Some(k) => Some(k + 1)
  }

  /** Number of positions in `s` holding `x`. */
  function Occurrences<T(==)>(s: seq<T>, x: T): nat
  {
    multiset(s)[x]
  }

  /** No two elements of `s` share a key. */
  predicate UniqueKeys<T, K(==)>(s: seq<T>, key: T -> K)
  {
    forall i, j :: 0 <= i < j < |s| ==> key(s[i]) != key(s[j])
  }

  /** The test "has key `k`". */
  function KeyIs<T, K(==)>(key: T -> K, k: K): T -> bool
  {
    (x: T) => key(x) == k
  }

  /** `s` without its `i`-th element. */
  function RemoveAt<T>(s: seq<T>, i: nat): (r: seq<T>)
    requires i < |s|
    ensures |r| == |s| - 1
    ensures forall j :: 0 <= j < i ==> r[j] == s[j]
    ensures forall j :: i < j < |s| ==> r[j - 1] == s[j]
  {
    s[..i] + s[i + 1..]
  }

  /** Dropping one element keeps the others' keys distinct, and drops only that element's key. */
  lemma RemoveAtUnique<T, K>(s: seq<T>, i: nat, key: T -> K)
    requires i < |s| && UniqueKeys(s, key)
    ensures UniqueKeys(RemoveAt(s, i), key)
    ensures forall x :: x in RemoveAt(s, i) ==> key(x) != key(s[i])
  {
    var r := RemoveAt(s, i);
    forall a, b | 0 <= a < b < |r| ensures key(r[a]) != key(r[b]) {
      var a' := if a < i then a else a + 1;
      var b' := if b < i then b else b + 1;
      assert r[a] == s[a'] && r[b] == s[b'];
    }
    forall x | x in r ensures key(x) != key(s[i]) {
      var a :| 0 <= a < |r| && r[a] == x;
      var a' := if a < i then a else a + 1;
      assert r[a] == s[a'];
    }
  }

  /** Dropping one element keeps every element whose key differs from it. */
  lemma RemoveAtKeeps<T, K>(s: seq<T>, i: nat, key: T -> K)
    requires i < |s|
    ensures forall x :: key(x) != key(s[i]) ==> (x in RemoveAt(s, i) <==> x in s)
  {
    var r := RemoveAt(s, i);
    forall x | key(x) != key(s[i]) ensures x in r <==> x in s {
      if x in s {
        var a :| 0 <= a < |s| && s[a] == x;
        if a < i {
          assert r[a] == x;
        } else {
          assert r[a - 1] == x;
        }
      }
      if x in r {
        var a :| 0 <= a < |r| && r[a] == x;
        var a' := if a < i then a else a + 1;
        assert r[a] == s[a'];
      }
    }
  }

  /** Replacing an element by one with the same key keeps keys distinct. */
  lemma ReplaceKeepsUnique<T, K>(s: seq<T>, i: nat, x: T, key: T -> K)
    requires i < |s| && UniqueKeys(s, key) && key(x) == key(s[i])
    ensures UniqueKeys(s[i := x], key)
  {
    var r := s[i := x];
    forall a, b | 0 <= a < b < |r| ensures key(r[a]) != key(r[b]) {
      assert key(r[a]) == key(s[a]) && key(r[b]) == key(s[b]);
    }
  }
}

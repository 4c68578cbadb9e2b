/** Order-preserving filtering over sequences, the model of JavaScript's `Array.prototype.filter`. */
module Seqs {

  /** The elements of `s` satisfying `p`, in their original order. */
  function Filter<T>(s: seq<T>, p: T -> bool): (r: seq<T>)
    ensures |r| <= |s|
    ensures forall i :: 0 <= i < |r| ==> r[i] in s && p(r[i])
    ensures forall i :: 0 <= i < |s| && p(s[i]) ==> s[i] in r
    ensures multiset(r) <= multiset(s)
  {
    if s == [] then []
    else
      assert s == [s[0]] + s[1..];
      (if p(s[0]) then [s[0]] else []) + Filter(s[1..], p)
  }

  /** Filtering with a predicate every element satisfies keeps the whole sequence. */
  lemma {:induction false} FilterAll<T>(s: seq<T>, p: T -> bool)
    requires forall i :: 0 <= i < |s| ==> p(s[i])
    ensures Filter(s, p) == s
  {
    if s != [] {
      FilterAll(s[1..], p);
    }
  }

  /** Filtering distributes over concatenation: the relative order of the kept elements is the original one. */
  lemma {:induction false} FilterConcat<T>(a: seq<T>, b: seq<T>, p: T -> bool)
    ensures Filter(a + b, p) == Filter(a, p) + Filter(b, p)
  {
    if a == [] {
      assert a + b == b;
    } else {
      assert (a + b)[1..] == a[1..] + b;
      FilterConcat(a[1..], b, p);
    }
  }

  /** Filtering twice is filtering once with the conjunction: a filtered view of a filtered list is a subsequence of the original. */
  lemma {:induction false} FilterFilter<T>(s: seq<T>, p: T -> bool, q: T -> bool, both: T -> bool)
    requires forall i :: 0 <= i < |s| ==> both(s[i]) == (p(s[i]) && q(s[i]))
    ensures Filter(Filter(s, p), q) == Filter(s, both)
  {
    if s != [] {
      var head := if p(s[0]) then [s[0]] else [];
      FilterFilter(s[1..], p, q, both);
      FilterConcat(head, Filter(s[1..], p), q);
      assert Filter(head, q) == (if p(s[0]) && q(s[0]) then [s[0]] else []) by {
        if p(s[0]) {
          assert Filter(head, q) == (if q(s[0]) then [s[0]] else []) + Filter(head[1..], q);
        }
      }
    }
  }

  /** Filtering with a predicate and with its complement splits `s` into two parts that together hold every element once. */
  lemma {:induction false} FilterPartition<T>(s: seq<T>, p: T -> bool, q: T -> bool)
    requires forall i :: 0 <= i < |s| ==> q(s[i]) == !p(s[i])
    ensures multiset(Filter(s, p)) + multiset(Filter(s, q)) == multiset(s)
    ensures |Filter(s, p)| + |Filter(s, q)| == |s|
  {
    if s != [] {
      var t := s[1..];
      assert forall i :: 0 <= i < |t| ==> t[i] == s[i + 1];
      FilterPartition(t, p, q);
      var hp := if p(s[0]) then [s[0]] else [];
      var hq := if q(s[0]) then [s[0]] else [];
      assert Filter(s, p) == hp + Filter(t, p);
      assert Filter(s, q) == hq + Filter(t, q);
      assert multiset(hp) + multiset(hq) == multiset{s[0]} by {
        if p(s[0]) {
          assert hq == [];
        } else {
          assert hp == [];
        }
      }
      MultisetInterchange(multiset(hp), multiset(Filter(t, p)), multiset(hq), multiset(Filter(t, q)));
      assert s == [s[0]] + t;
    }
  }

  lemma MultisetInterchange<T>(a: multiset<T>, b: multiset<T>, c: multiset<T>, d: multiset<T>)
    ensures (a + b) + (c + d) == (a + c) + (b + d)
  {
    assert forall x :: ((a + b) + (c + d))[x] == ((a + c) + (b + d))[x];
  }

  /** Number of elements of `s` satisfying `p`. */
  function Count<T>(s: seq<T>, p: T -> bool): nat
  {
    |Filter(s, p)|
  }

  /** `s.filter(y => y !== x)`: every occurrence of `x` removed, the rest kept in order. */
  function RemoveAll<T(==)>(s: seq<T>, x: T): (r: seq<T>)
    ensures x !in r
    ensures forall i :: 0 <= i < |s| && s[i] != x ==> s[i] in r
    ensures forall i :: 0 <= i < |r| ==> r[i] in s
    ensures |r| <= |s|
  {
    Filter(s, y => y != x)
  }

  /** True when no value occurs twice in `s`. */
  predicate Distinct<T(==)>(s: seq<T>)
  {
    forall i, j :: 0 <= i < j < |s| ==> s[i] != s[j]
  }

  /** Removing a value from a sequence without repetitions keeps it without repetitions. */
  lemma {:induction false} RemoveAllDistinct<T>(s: seq<T>, x: T)
    requires Distinct(s)
    ensures Distinct(RemoveAll(s, x))
  {
    if s != [] {
      RemoveAllDistinct(s[1..], x);
      assert s[0] !in s[1..];
      assert Filter(s, y => y != x) == (if s[0] != x then [s[0]] else []) + Filter(s[1..], y => y != x);
    }
  }

  /** Filtering twice with the same predicate is filtering once. */
  lemma {:induction false} FilterIdempotent<T>(s: seq<T>, p: T -> bool)
    ensures Filter(Filter(s, p), p) == Filter(s, p)
  {
    if s != [] {
      var rest := Filter(s[1..], p);
      FilterIdempotent(s[1..], p);
      if p(s[0]) {
        var t := [s[0]] + rest;
        assert Filter(s, p) == t;
        assert t[0] == s[0] && t[1..] == rest;
        assert Filter(t, p) == [s[0]] + Filter(rest, p);
      } else {
        assert Filter(s, p) == rest;
      }
    }
  }

  /** Removing a value twice is removing it once, and a trailing occurrence of it is removed with the rest. */
  lemma RemoveAllAgain<T>(s: seq<T>, x: T)
    ensures RemoveAll(RemoveAll(s, x), x) == RemoveAll(s, x)
    ensures RemoveAll(s + [x], x) == RemoveAll(s, x)
  {
    FilterIdempotent(s, y => y != x);
    FilterConcat(s, [x], y => y != x);
    assert Filter([x], y => y != x) == [] + Filter([x][1..], y => y != x);
  }
}

/** `Array.prototype.filter` over sequences, with the facts every list page
    relies on: the result is an order-preserving subsequence of the input and
    holds exactly the elements that pass the test. */
module Seqs {

  /** `s.filter(keep)`. */
  function Filter<T>(s: seq<T>, keep: T -> bool): (r: seq<T>)
    ensures |r| <= |s|
    ensures forall x | x in r :: x in s && keep(x)
    ensures forall x | x in s && keep(x) :: x in r
  {
    if s == [] then []
    else (if keep(s[0]) then [s[0]] else []) + Filter(s[1..], keep)
  }

  /** idx picks, in strictly increasing order, positions of b whose elements
      spell out a. */
  ghost predicate EmbeddingOf<T>(a: seq<T>, b: seq<T>, idx: seq<nat>) {
    && |idx| == |a|
    && (forall k :: 0 <= k < |idx| ==> idx[k] < |b| && b[idx[k]] == a[k])
    && (forall k, l :: 0 <= k < l < |idx| ==> idx[k] < idx[l])
  }

  /** a is obtained from b by deleting elements, keeping the order. */
  ghost predicate IsSubsequence<T>(a: seq<T>, b: seq<T>) {
    exists idx: seq<nat> :: EmbeddingOf(a, b, idx)
  }

  /** Every position moved one place to the right. */
  function Shifted(idx: seq<nat>): (r: seq<nat>)
    ensures |r| == |idx| && forall k :: 0 <= k < |idx| ==> r[k] == idx[k] + 1
  {
    seq(|idx|, k requires 0 <= k < |idx| => idx[k] + 1)
  }

  /** An embedding survives putting one more element in front of both sides. */
  lemma EmbedKept<T>(x: T, a: seq<T>, b: seq<T>, idx: seq<nat>)
    requires EmbeddingOf(a, b, idx)
    ensures EmbeddingOf([x] + a, [x] + b, [0] + Shifted(idx))
  {
    var sh, b' := Shifted(idx), [x] + b;
    forall k | 0 <= k < |sh| ensures sh[k] < |b'| && b'[sh[k]] == a[k] {
      assert b'[sh[k]] == b[idx[k]];
    }
  }

  /** An embedding survives putting one more element in front of the bigger side. */
  lemma EmbedSkipped<T>(x: T, a: seq<T>, b: seq<T>, idx: seq<nat>)
    requires EmbeddingOf(a, b, idx)
    ensures EmbeddingOf(a, [x] + b, Shifted(idx))
  {
    var sh, b' := Shifted(idx), [x] + b;
    forall k | 0 <= k < |sh| ensures sh[k] < |b'| && b'[sh[k]] == a[k] {
      assert b'[sh[k]] == b[idx[k]];
    }
  }

  /** The positions of the kept elements embed the filter result in its
      input: the filter keeps the passing elements in their original order. */
  lemma {:induction false} FilterEmbedding<T>(s: seq<T>, keep: T -> bool) returns (idx: seq<nat>)
    ensures EmbeddingOf(Filter(s, keep), s, idx)
  {
    if s == [] {
      idx := [];
    } else {
      var tail := Filter(s[1..], keep);
      var rest := FilterEmbedding(s[1..], keep);
      assert s == [s[0]] + s[1..];
      if keep(s[0]) {
        EmbedKept(s[0], tail, s[1..], rest);
        idx := [0] + Shifted(rest);
        assert Filter(s, keep) == [s[0]] + tail;
      } else {
        EmbedSkipped(s[0], tail, s[1..], rest);
        idx := Shifted(rest);
        assert Filter(s, keep) == tail;
      }
    }
  }

  /** Every filter result is an order-preserving subsequence of its input. */
  lemma FilterIsSubsequence<T>(s: seq<T>, keep: T -> bool)
    ensures IsSubsequence(Filter(s, keep), s)
  {
    var idx := FilterEmbedding(s, keep);
  }

  /** The filter keeps every occurrence of a passing element, repeats
      included, and none of a failing one. */
  lemma {:induction false} FilterCounts<T>(s: seq<T>, keep: T -> bool, x: T)
    ensures multiset(Filter(s, keep))[x] == if keep(x) then multiset(s)[x] else 0
  {
    if s != [] {
      FilterCounts(s[1..], keep, x);
      var head := if keep(s[0]) then [s[0]] else [];
      assert Filter(s, keep) == head + Filter(s[1..], keep);
      assert s == [s[0]] + s[1..];
      assert multiset(s) == multiset([s[0]]) + multiset(s[1..]);
    }
  }

  /** A test every element passes keeps the whole sequence. */
  lemma {:induction false} FilterAll<T>(s: seq<T>, keep: T -> bool)
    requires forall x :: x in s ==> keep(x)
    ensures Filter(s, keep) == s
  {
    if s != [] {
      FilterAll(s[1..], keep);
    }
  }

  /** A test no element passes keeps nothing. */
  lemma {:induction false} FilterNone<T>(s: seq<T>, keep: T -> bool)
    requires forall x :: x in s ==> !keep(x)
    ensures Filter(s, keep) == []
  {
    if s != [] {
      FilterNone(s[1..], keep);
    }
  }

  /** Two tests that agree on every element keep the same elements. */
  lemma {:induction false} FilterSameTest<T>(s: seq<T>, keep: T -> bool, keep': T -> bool)
    requires forall x :: x in s ==> keep(x) == keep'(x)
    ensures Filter(s, keep) == Filter(s, keep')
  {
    if s != [] {
      FilterSameTest(s[1..], keep, keep');
    }
  }

  /** Filtering a sequence with one more element in front. */
  lemma FilterCons<T>(x: T, s: seq<T>, keep: T -> bool)
    ensures Filter([x] + s, keep) == (if keep(x) then [x] else []) + Filter(s, keep)
  {
    assert ([x] + s)[0] == x && ([x] + s)[1..] == s;
  }

  /** Filtering distributes over concatenation. */
  lemma {:induction false} FilterAppend<T>(a: seq<T>, b: seq<T>, keep: T -> bool)
    ensures Filter(a + b, keep) == Filter(a, keep) + Filter(b, keep)
  {
    if a != [] {
      var x, rest := a[0], a[1..];
      var head := if keep(x) then [x] else [];
      assert a == [x] + rest;
      calc {
        Filter(a + b, keep);
        { assert a + b == [x] + (rest + b); }
        Filter([x] + (rest + b), keep);
        { FilterCons(x, rest + b, keep); }
        head + Filter(rest + b, keep);
        { FilterAppend(rest, b, keep); }
        head + (Filter(rest, keep) + Filter(b, keep));
        (head + Filter(rest, keep)) + Filter(b, keep);
        { FilterCons(x, rest, keep); }
        Filter(a, keep) + Filter(b, keep);
      }
    } else {
      assert a + b == b;
    }
  }

  /** Each element of a mapped sequence comes from an element of the input. */
  lemma MapOrigin<T, U>(s: seq<T>, f: T -> U, y: U)
    requires y in Map(s, f)
    ensures exists x :: x in s && f(x) == y
  {
    var k :| 0 <= k < |s| && Map(s, f)[k] == y;
    assert s[k] in s;
  }

  lemma MapImage<T, U>(s: seq<T>, f: T -> U, x: T)
    requires x in s
    ensures f(x) in Map(s, f)
  {
    var k :| 0 <= k < |s| && s[k] == x;
    assert Map(s, f)[k] == f(x);
  }

  /** `s.map(f)`. */
  function Map<T, U>(s: seq<T>, f: T -> U): (r: seq<U>)
    ensures |r| == |s|
    ensures forall i :: 0 <= i < |s| ==> r[i] == f(s[i])
  {
    seq(|s|, i requires 0 <= i < |s| => f(s[i]))
  }
}

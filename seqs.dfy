/** Sequence operations that the TypeScript code performs with the array
    methods `filter`, `map`, `findIndex`, `indexOf` and `splice`, each with
    the facts the rest of the model relies on. */
module Seqs {

  /** `Array.prototype.filter`: the elements satisfying `p`, in their order. */
  function Filter<T(!new)>(s: seq<T>, p: T -> bool): (r: seq<T>)
    ensures |r| <= |s|
    ensures forall x :: x in r <==> x in s && p(x)
    ensures forall i :: 0 <= i < |r| ==> p(r[i])
    decreases |s|
  {
    if s == [] then [] else (if p(s[0]) then [s[0]] else []) + Filter(s[1..], p)
  }

  /** `filter` keeps every copy of an element that passes and no copy of
      one that fails. */
  lemma {:induction false} FilterMultiset<T(!new)>(s: seq<T>, p: T -> bool, x: T)
    ensures multiset(Filter(s, p))[x] == if p(x) then multiset(s)[x] else 0
    decreases |s|
  {
    if s != [] {
      FilterMultiset(s[1..], p, x);
      assert s == [s[0]] + s[1..];
    }
  }

  /** The same, for every element at once. */
  lemma FilterMultisetAll<T(!new)>(s: seq<T>, p: T -> bool)
    ensures forall x :: multiset(Filter(s, p))[x] == if p(x) then multiset(s)[x] else 0
  {
    forall x ensures multiset(Filter(s, p))[x] == if p(x) then multiset(s)[x] else 0 {
      FilterMultiset(s, p, x);
    }
  }

  /** `Array.prototype.map`. */
  function Map<T, U>(s: seq<T>, f: T -> U): (r: seq<U>)
    ensures |r| == |s|
    ensures forall i :: 0 <= i < |s| ==> r[i] == f(s[i])
  {
    seq(|s|, i requires 0 <= i < |s| => f(s[i]))
  }

  /** `Array.prototype.findIndex`: the first index whose element satisfies
      `p`, or -1 when there is none. */
  function FindIndex<T>(s: seq<T>, p: T -> bool): (i: int)
    ensures -1 <= i < |s|
    ensures i == -1 <==> forall k :: 0 <= k < |s| ==> !p(s[k])
    ensures 0 <= i ==> p(s[i]) && forall k :: 0 <= k < i ==> !p(s[k])
    decreases |s|
  {
    if s == [] then -1
    else if p(s[0]) then 0
    else
      var j := FindIndex(s[1..], p);
      if j == -1 then -1 else j + 1
  }

  /** `Array.prototype.indexOf`: the first index holding `x`, or -1. */
  function IndexOf<T(==)>(s: seq<T>, x: T): (i: int)
    ensures -1 <= i < |s|
    ensures i == -1 <==> x !in s
    ensures 0 <= i ==> s[i] == x && x !in s[..i]
    decreases |s|
  {
    if s == [] then -1
    else if s[0] == x then 0
    else
      var j := IndexOf(s[1..], x);
      if j == -1 then -1 else j + 1
  }

  /** Both `splice(i, 1)` and `filter((_, j) => j !== i)`: drop the element at
      index `i`; an index outside the sequence drops nothing. */
  function RemoveAt<T>(s: seq<T>, i: int): (r: seq<T>)
    ensures 0 <= i < |s| ==> |r| == |s| - 1
    ensures 0 <= i < |s| ==> forall j :: 0 <= j < |r| ==> r[j] == s[if j < i then j else j + 1]
    ensures !(0 <= i < |s|) ==> r == s
  {
    if 0 <= i < |s| then s[..i] + s[i + 1..] else s
  }

  /** `p` holds of no element. */
  ghost predicate NoneMatch<T>(s: seq<T>, p: T -> bool) {
    forall i :: 0 <= i < |s| ==> !p(s[i])
  }

  /** Filtering distributes over concatenation. */
  lemma {:induction false} FilterConcat<T(!new)>(a: seq<T>, b: seq<T>, p: T -> bool)
    ensures Filter(a + b, p) == Filter(a, p) + Filter(b, p)
    decreases |a|
  {
    if a == [] {
      assert a + b == b;
    } else {
      assert (a + b)[0] == a[0];
      assert (a + b)[1..] == a[1..] + b;
      FilterConcat(a[1..], b, p);
    }
  }

  /** Filtering after appending one element. */
  lemma FilterSnoc<T(!new)>(s: seq<T>, x: T, p: T -> bool)
    ensures Filter(s + [x], p) == Filter(s, p) + (if p(x) then [x] else [])
  {
    FilterConcat(s, [x], p);
    assert Filter([x], p) == (if p(x) then [x] else []) + Filter([x][1..], p);
    assert [x][1..] == [];
  }

  /** How many elements satisfy `p` once index `i` is removed. */
  lemma FilterRemoveAt<T(!new)>(s: seq<T>, i: int, p: T -> bool)
    requires 0 <= i < |s|
    ensures |Filter(RemoveAt(s, i), p)| == |Filter(s, p)| - (if p(s[i]) then 1 else 0)
  {
    assert s == s[..i] + [s[i]] + s[i + 1..];
    FilterConcat(s[..i] + [s[i]], s[i + 1..], p);
    FilterSnoc(s[..i], s[i], p);
    FilterConcat(s[..i], s[i + 1..], p);
  }

  /** A filter that keeps every element is the identity. */
  lemma {:induction false} FilterAll<T(!new)>(s: seq<T>, p: T -> bool)
    requires forall i :: 0 <= i < |s| ==> p(s[i])
    ensures Filter(s, p) == s
    decreases |s|
  {
    if s != [] {
      FilterAll(s[1..], p);
    }
  }

  /** A filter that keeps no element yields the empty sequence. */
  lemma {:induction false} FilterNone<T(!new)>(s: seq<T>, p: T -> bool)
    requires NoneMatch(s, p)
    ensures Filter(s, p) == []
    decreases |s|
  {
    if s != [] {
      FilterNone(s[1..], p);
    }
  }

  /** Two filters in a row are one filter on the conjunction. */
  lemma {:induction false} FilterFuse<T(!new)>(s: seq<T>, p: T -> bool, q: T -> bool, pq: T -> bool)
    requires forall x :: pq(x) == (p(x) && q(x))
    ensures Filter(Filter(s, p), q) == Filter(s, pq)
    decreases |s|
  {
    if s != [] {
      FilterFuse(s[1..], p, q, pq);
      var head := if p(s[0]) then [s[0]] else [];
      FilterConcat(head, Filter(s[1..], p), q);
      if p(s[0]) {
        assert Filter(head, q) == (if q(s[0]) then [s[0]] else []) + Filter(head[1..], q);
        assert head[1..] == [];
      }
    }
  }

  /** Replacing one element changes the number of elements satisfying `p` by
      what the old and the new element contribute. */
  lemma FilterReplace<T(!new)>(a: seq<T>, b: seq<T>, k: nat, p: T -> bool)
    requires |a| == |b| && k < |a|
    requires forall j :: 0 <= j < |a| && j != k ==> a[j] == b[j]
    ensures |Filter(b, p)| == |Filter(a, p)| - (if p(a[k]) then 1 else 0) + (if p(b[k]) then 1 else 0)
  {
    assert a == a[..k] + [a[k]] + a[k + 1..];
    assert b == b[..k] + [b[k]] + b[k + 1..];
    assert a[..k] == b[..k];
    assert a[k + 1..] == b[k + 1..];
    FilterConcat(a[..k] + [a[k]], a[k + 1..], p);
    FilterConcat(b[..k] + [b[k]], b[k + 1..], p);
    FilterSnoc(a[..k], a[k], p);
    FilterSnoc(b[..k], b[k], p);
  }

  /** Removing a later index keeps the head. */
  lemma RemoveAtCons<T>(s: seq<T>, k: int)
    requires 0 < k < |s|
    ensures RemoveAt(s, k) == [s[0]] + RemoveAt(s[1..], k - 1)
  {
    var t := s[1..];
    var a := RemoveAt(s, k);
    var b := [s[0]] + RemoveAt(t, k - 1);
    assert |a| == |b|;
    forall j | 0 <= j < |a| ensures a[j] == b[j] {
      if j > 0 {
        assert b[j] == RemoveAt(t, k - 1)[j - 1];
      }
    }
  }

  /** A filter that rejects exactly the element at `k` removes index `k`. */
  lemma {:induction false} FilterRejectsOne<T(!new)>(s: seq<T>, k: int, p: T -> bool)
    requires 0 <= k < |s| && !p(s[k])
    requires forall j :: 0 <= j < |s| && j != k ==> p(s[j])
    ensures Filter(s, p) == RemoveAt(s, k)
    decreases |s|
  {
    var t := s[1..];
    if k == 0 {
      forall j | 0 <= j < |t| ensures p(t[j]) {
        assert t[j] == s[j + 1];
      }
      FilterAll(t, p);
    } else {
      forall j | 0 <= j < |t| && j != k - 1 ensures p(t[j]) {
        assert t[j] == s[j + 1];
      }
      FilterRejectsOne(t, k - 1, p);
      RemoveAtCons(s, k);
    }
  }

  /** `idx` picks, in increasing order, positions of `s` that spell `r`. */
  ghost predicate EmbedsAt<T>(r: seq<T>, s: seq<T>, idx: seq<int>) {
    && |idx| == |r|
    && (forall i :: 0 <= i < |idx| ==> 0 <= idx[i] < |s| && s[idx[i]] == r[i])
    && (forall i, j :: 0 <= i < j < |idx| ==> idx[i] < idx[j])
  }

  /** `r` is `s` with some elements left out and the rest in their order. */
  ghost predicate IsSubsequence<T>(r: seq<T>, s: seq<T>) {
    exists idx :: EmbedsAt(r, s, idx)
  }

  /** Every position moved one to the right. */
  ghost function Shifted(idx: seq<int>): (r: seq<int>)
    ensures |r| == |idx| && forall k :: 0 <= k < |idx| ==> r[k] == idx[k] + 1
  {
    seq(|idx|, k requires 0 <= k < |idx| => idx[k] + 1)
  }

  /** An embedding into the tail is one into the whole sequence. */
  lemma EmbedsInTail<T>(r: seq<T>, s: seq<T>, idx: seq<int>)
    requires s != [] && EmbedsAt(r, s[1..], idx)
    ensures EmbedsAt(r, s, Shifted(idx))
  {
    var sh := Shifted(idx);
    forall i | 0 <= i < |sh| ensures 0 <= sh[i] < |s| && s[sh[i]] == r[i] {
      assert s[1..][idx[i]] == s[idx[i] + 1];
    }
  }

  /** The head can be put in front of an embedding that avoids position 0. */
  lemma EmbedsWithHead<T>(r: seq<T>, s: seq<T>, sh: seq<int>)
    requires s != [] && EmbedsAt(r, s, sh)
    requires forall i :: 0 <= i < |sh| ==> 0 < sh[i]
    ensures EmbedsAt([s[0]] + r, s, [0] + sh)
  {
    var full := [0] + sh;
    var r1 := [s[0]] + r;
    forall i | 0 <= i < |full| ensures 0 <= full[i] < |s| && s[full[i]] == r1[i] {
      if i > 0 {
        assert full[i] == sh[i - 1] && r1[i] == r[i - 1];
      }
    }
    forall i, j | 0 <= i < j < |full| ensures full[i] < full[j] {
      assert full[j] == sh[j - 1];
      if i > 0 {
        assert full[i] == sh[i - 1];
      }
    }
  }

  /** Filtering keeps the surviving elements in their original order. */
  lemma {:induction false} FilterIsSubsequence<T(!new)>(s: seq<T>, p: T -> bool)
    ensures IsSubsequence(Filter(s, p), s)
    decreases |s|
  {
    if s == [] {
      assert EmbedsAt(Filter(s, p), s, []);
    } else {
      FilterIsSubsequence(s[1..], p);
      var rest := Filter(s[1..], p);
      var idx :| EmbedsAt(rest, s[1..], idx);
      EmbedsInTail(rest, s, idx);
      if p(s[0]) {
        EmbedsWithHead(rest, s, Shifted(idx));
        assert Filter(s, p) == [s[0]] + rest;
        assert EmbedsAt(Filter(s, p), s, [0] + Shifted(idx));
      } else {
        assert Filter(s, p) == rest;
        assert EmbedsAt(Filter(s, p), s, Shifted(idx));
      }
    }
  }
}

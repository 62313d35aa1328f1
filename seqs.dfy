/**
 * `Array.prototype.filter` and the facts every filtering page relies on:
 * the kept elements are exactly the matching ones, in their original order.
 */
module Seqs {

  /** The elements of `s` that satisfy `p`, in order (recursion on the last element, as a left-to-right scan). */
  function Filter<T>(s: seq<T>, p: T -> bool): (r: seq<T>)
    ensures |r| <= |s|
  {
    if |s| == 0 then []
    else
      var rest := Filter(s[..|s| - 1], p);
      if p(s[|s| - 1]) then rest + [s[|s| - 1]] else rest
  }

  /** Filter keeps only elements of `s` that satisfy `p`, and keeps every one of them. */
  lemma {:induction false} FilterMembers<T>(s: seq<T>, p: T -> bool)
    ensures forall i :: 0 <= i < |Filter(s, p)| ==> Filter(s, p)[i] in s && p(Filter(s, p)[i])
    ensures forall i :: 0 <= i < |s| && p(s[i]) ==> s[i] in Filter(s, p)
  {
    if |s| > 0 {
      var init := s[..|s| - 1];
      FilterMembers(init, p);
      assert s == init + [s[|s| - 1]];
      assert forall i :: 0 <= i < |init| ==> init[i] == s[i];
    }
  }

  /** The positions of `s` whose element satisfies `p`, in increasing order: an index-based reference for Filter. */
  function Selected<T>(s: seq<T>, p: T -> bool): seq<nat>
  {
    if |s| == 0 then []
    else
      var rest := Selected(s[..|s| - 1], p);
      if p(s[|s| - 1]) then rest + [|s| - 1] else rest
  }

  ghost predicate StrictlyIncreasing(idx: seq<nat>) {
    forall a, b :: 0 <= a < b < |idx| ==> idx[a] < idx[b]
  }

  /** The k-th element Filter keeps is the element at the k-th selected position. */
  lemma {:induction false} FilterIsSelection<T>(s: seq<T>, p: T -> bool)
    ensures |Filter(s, p)| == |Selected(s, p)|
    ensures forall k :: 0 <= k < |Selected(s, p)| ==>
      Selected(s, p)[k] < |s| && Filter(s, p)[k] == s[Selected(s, p)[k]]
  {
    if |s| > 0 {
      var init := s[..|s| - 1];
      FilterIsSelection(init, p);
      var idx0 := Selected(init, p);
      forall k | 0 <= k < |Selected(s, p)|
        ensures Selected(s, p)[k] < |s| && Filter(s, p)[k] == s[Selected(s, p)[k]]
      {
        if k < |idx0| {
          assert Selected(s, p)[k] == idx0[k];
          assert Filter(s, p)[k] == Filter(init, p)[k];
        }
      }
    }
  }

  /** The selected positions are in increasing order and are exactly those where `p` holds. */
  lemma {:induction false} SelectedExact<T>(s: seq<T>, p: T -> bool)
    ensures StrictlyIncreasing(Selected(s, p))
    ensures forall i :: i in Selected(s, p) <==> 0 <= i < |s| && p(s[i])
  {
    if |s| > 0 {
      var init := s[..|s| - 1];
      SelectedExact(init, p);
      var idx := Selected(s, p);
      var idx0 := Selected(init, p);
      forall k | 0 <= k < |idx0| ensures idx0[k] < |init| {
        assert idx0[k] in idx0;
      }
      forall i ensures i in idx <==> 0 <= i < |s| && p(s[i]) {
        if 0 <= i < |s| - 1 {
          assert s[i] == init[i];
        }
      }
    }
  }

  lemma {:induction false} FilterConcat<T>(a: seq<T>, b: seq<T>, p: T -> bool)
    ensures Filter(a + b, p) == Filter(a, p) + Filter(b, p)
  {
    if |b| > 0 {
      var b0 := b[..|b| - 1];
      assert (a + b)[..|a + b| - 1] == a + b0;
      FilterConcat(a, b0, p);
    } else {
      assert a + b == a;
    }
  }

  /** One more element at the end: it is kept exactly when it satisfies the predicate. */
  lemma FilterSnoc<T>(s: seq<T>, x: T, p: T -> bool)
    ensures Filter(s + [x], p) == Filter(s, p) + (if p(x) then [x] else [])
  {
    assert (s + [x])[..|s|] == s;
  }

  /** Filtering with a predicate that holds everywhere returns the input. */
  lemma {:induction false} FilterAll<T>(s: seq<T>, p: T -> bool)
    requires forall i :: 0 <= i < |s| ==> p(s[i])
    ensures Filter(s, p) == s
  {
    if |s| > 0 {
      FilterAll(s[..|s| - 1], p);
      assert s == s[..|s| - 1] + [s[|s| - 1]];
    }
  }

  /**
   * Two complementary filters split a sequence: their lengths add up to the
   * whole and together they hold every element exactly as often as `s` does.
   */
  lemma {:induction false} FilterPartition<T>(s: seq<T>, p: T -> bool, q: T -> bool)
    requires forall x :: q(x) == !p(x)
    ensures |Filter(s, p)| + |Filter(s, q)| == |s|
    ensures multiset(Filter(s, p)) + multiset(Filter(s, q)) == multiset(s)
  {
    if |s| > 0 {
      var init, x := s[..|s| - 1], s[|s| - 1];
      FilterPartition(init, p, q);
      assert s == init + [x];
      FilterSnoc(init, x, p);
      FilterSnoc(init, x, q);
      assert q(x) == !p(x);
    }
  }

  /** The first `n` elements, or all of them when there are fewer: `slice(0, n)`. */
  function Take<T>(s: seq<T>, n: nat): (r: seq<T>)
    ensures |r| <= n && |r| <= |s|
    ensures |r| == if |s| < n then |s| else n
    ensures forall i :: 0 <= i < |r| ==> r[i] == s[i]
  {
    if |s| <= n then s else s[..n]
  }

  /** A prefix one longer is the prefix extended by the next element. */
  lemma PrefixSnoc<T>(s: seq<T>, i: nat)
    requires i < |s|
    ensures s[..i + 1] == s[..i] + [s[i]]
  {
  }
}

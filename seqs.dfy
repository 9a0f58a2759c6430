/**
 * `Array.prototype.filter` over immutable sequences, and what it means for
 * a list to be an order-preserving selection of another.
 */
module Seqs {

  /** `s.filter(p)`: the elements satisfying `p`, in their original order. */
  function Filter<T>(s: seq<T>, p: T -> bool): (r: seq<T>)
    ensures |r| <= |s|
    ensures forall x :: x in r ==> x in s && p(x)
  {
    if s == [] then [] else (if p(s[0]) then [s[0]] else []) + Filter(s[1..], p)
  }

  /**
   * `idx` lists, strictly increasing, the positions of `s` that make up `r`:
   * `r` is `s` with some elements dropped and the rest kept in order.
   */
  ghost predicate Embeds<T>(r: seq<T>, s: seq<T>, idx: seq<nat>) {
    && |idx| == |r|
    && (forall k :: 0 <= k < |idx| ==> idx[k] < |s| && r[k] == s[idx[k]])
    && (forall j, k :: 0 <= j < k < |idx| ==> idx[j] < idx[k])
  }

  ghost predicate IsSubsequence<T>(r: seq<T>, s: seq<T>) {
    exists idx :: Embeds(r, s, idx)
  }

  /** Every index shifted by one. */
  function Shift(idx: seq<nat>): (r: seq<nat>)
    ensures |r| == |idx| && forall k :: 0 <= k < |idx| ==> r[k] == idx[k] + 1
  {
    seq(|idx|, k requires 0 <= k < |idx| => idx[k] + 1)
  }

  /** Positions in `s[1..]` become positions in `s` once shifted. */
  lemma EmbedsSkip<T>(r: seq<T>, s: seq<T>, idx: seq<nat>)
    requires s != [] && Embeds(r, s[1..], idx)
    ensures Embeds(r, s, Shift(idx))
  {
    var sh := Shift(idx);
    forall k | 0 <= k < |sh| ensures sh[k] < |s| && r[k] == s[sh[k]] {
      assert r[k] == s[1..][idx[k]];
    }
  }

  /** Keeping the head as well adds position 0 in front. */
  lemma EmbedsKeep<T>(r: seq<T>, s: seq<T>, idx: seq<nat>)
    requires s != [] && Embeds(r, s[1..], idx)
    ensures Embeds([s[0]] + r, s, [0] + Shift(idx))
  {
    EmbedsSkip(r, s, idx);
    var sh := Shift(idx);
    var full := [0] + sh;
    forall k | 0 <= k < |full| ensures full[k] < |s| && ([s[0]] + r)[k] == s[full[k]] {
      if k > 0 {
        assert full[k] == sh[k - 1];
      }
    }
  }

  /** Shifting moves membership up by one and never contains 0. */
  lemma ShiftMembership(idx: seq<nat>, i: nat)
    ensures i in Shift(idx) <==> i > 0 && i - 1 in idx
  {
    var sh := Shift(idx);
    if i in sh {
      var k :| 0 <= k < |sh| && sh[k] == i;
      assert idx[k] == i - 1;
    }
    if i > 0 && i - 1 in idx {
      var k :| 0 <= k < |idx| && idx[k] == i - 1;
      assert sh[k] == i;
    }
  }

  /**
   * `Filter(s, p)` keeps exactly the positions of `s` whose element satisfies
   * `p`, in increasing order.
   */
  lemma {:induction false} FilterSelects<T>(s: seq<T>, p: T -> bool) returns (idx: seq<nat>)
    ensures Embeds(Filter(s, p), s, idx)
    ensures forall i :: 0 <= i < |s| ==> (p(s[i]) <==> i in idx)
  {
    if s == [] {
      idx := [];
    } else {
      var rest := FilterSelects(s[1..], p);
      var tail := Filter(s[1..], p);
      assert Filter(s, p) == (if p(s[0]) then [s[0]] else []) + tail;
      if p(s[0]) {
        EmbedsKeep(tail, s, rest);
        idx := [0] + Shift(rest);
      } else {
        EmbedsSkip(tail, s, rest);
        idx := Shift(rest);
      }
      forall i | 0 <= i < |s| ensures p(s[i]) <==> i in idx {
        ShiftMembership(rest, i);
        if i > 0 {
          assert s[i] == s[1..][i - 1];
        }
      }
    }
  }

  /** The filtered list is an order-preserving selection of the original. */
  lemma FilterIsSubsequence<T>(s: seq<T>, p: T -> bool)
    ensures IsSubsequence(Filter(s, p), s)
  {
    var idx := FilterSelects(s, p);
  }

  /** An element is kept exactly when it is in the list and satisfies `p`. */
  lemma FilterMembership<T>(s: seq<T>, p: T -> bool)
    ensures forall x :: x in Filter(s, p) <==> x in s && p(x)
  {
    var idx := FilterSelects(s, p);
    var r := Filter(s, p);
    forall x | x in s && p(x) ensures x in r {
      var i :| 0 <= i < |s| && s[i] == x;
      var k :| 0 <= k < |idx| && idx[k] == i;
      assert r[k] == x;
    }
  }

  /** A predicate and its complement split a list: their counts sum to its length. */
  lemma {:induction false} FilterPartition<T>(s: seq<T>, p: T -> bool, q: T -> bool)
    requires forall x :: q(x) == !p(x)
    ensures |Filter(s, p)| + |Filter(s, q)| == |s|
  {
    if s != [] {
      FilterPartition(s[1..], p, q);
    }
  }

  /** Three mutually exclusive predicates select at most the whole list between them. */
  lemma {:induction false} FilterExclusiveBound<T>(s: seq<T>, p: T -> bool, q: T -> bool, r: T -> bool)
    requires forall x :: !(p(x) && q(x)) && !(p(x) && r(x)) && !(q(x) && r(x))
    ensures |Filter(s, p)| + |Filter(s, q)| + |Filter(s, r)| <= |s|
  {
    if s != [] {
      FilterExclusiveBound(s[1..], p, q, r);
    }
  }

  /** A selection of a selection is a selection of the original. */
  lemma SubsequenceTransitive<T>(a: seq<T>, b: seq<T>, c: seq<T>)
    requires IsSubsequence(a, b) && IsSubsequence(b, c)
    ensures IsSubsequence(a, c)
  {
    var ia :| Embeds(a, b, ia);
    var ib :| Embeds(b, c, ib);
    var idx := seq(|ia|, k requires 0 <= k < |ia| => ib[ia[k]]);
    assert Embeds(a, c, idx);
  }

  /** Every list is a selection of itself. */
  lemma SubsequenceReflexive<T>(s: seq<T>)
    ensures IsSubsequence(s, s)
  {
    var idx := seq(|s|, k requires 0 <= k < |s| => k);
    assert Embeds(s, s, idx);
  }
}

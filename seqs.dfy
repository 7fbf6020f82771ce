/** Generic sequence facts: the order-preserving filter that JavaScript's
    `Array.prototype.filter` performs, and how it behaves on concatenations. */
module Seqs {

  /** The elements of `s` that satisfy `p`, in the order they appear in `s`. */
  function Filter<T>(s: seq<T>, p: T -> bool): (r: seq<T>)
    ensures |r| <= |s|
  {
    if s == [] then [] else (if p(s[0]) then [s[0]] else []) + Filter(s[1..], p)
  }

  /** The filter keeps exactly the elements that satisfy `p`: everything it
      returns is an element of `s` satisfying `p`, and every such element is
      returned. */
  lemma {:induction false} FilterMembers<T>(s: seq<T>, p: T -> bool)
    ensures forall i :: 0 <= i < |Filter(s, p)| ==> Filter(s, p)[i] in s && p(Filter(s, p)[i])
    ensures forall i :: 0 <= i < |s| && p(s[i]) ==> s[i] in Filter(s, p)
  {
    if s != [] {
      var tail := s[1..];
      FilterMembers(tail, p);
      var r, rest := Filter(s, p), Filter(tail, p);
      assert r == (if p(s[0]) then [s[0]] else []) + rest;
      assert forall x :: x in tail ==> x in s;
      assert forall i :: 0 < i < |s| ==> s[i] == tail[i - 1];
      assert forall x :: x in rest ==> x in r;
    }
  }

  /** Filtering distributes over concatenation: the relative order of the kept
      elements is the order of the input. */
  lemma {:induction false} FilterAppend<T>(s: seq<T>, t: seq<T>, p: T -> bool)
    ensures Filter(s + t, p) == Filter(s, p) + Filter(t, p)
  {
    if s == [] {
      assert s + t == t;
    } else {
      var head := if p(s[0]) then [s[0]] else [];
      assert (s + t)[0] == s[0] && (s + t)[1..] == s[1..] + t;
      assert Filter(s + t, p) == head + Filter(s[1..] + t, p);
      FilterAppend(s[1..], t, p);
      assert Filter(s, p) == head + Filter(s[1..], p);
      assert head + (Filter(s[1..], p) + Filter(t, p)) == (head + Filter(s[1..], p)) + Filter(t, p);
    }
  }

  /** A filter that keeps every element is the identity. */
  lemma {:induction false} FilterKeepsAll<T>(s: seq<T>, p: T -> bool)
    requires forall i :: 0 <= i < |s| ==> p(s[i])
    ensures Filter(s, p) == s
  {
    if s != [] {
      FilterKeepsAll(s[1..], p);
    }
  }

  /** A filter that rejects exactly one position of `s` deletes that position. */
  lemma {:induction false} FilterDropsOne<T>(s: seq<T>, p: T -> bool, k: nat)
    requires k < |s| && !p(s[k])
    requires forall i :: 0 <= i < |s| && i != k ==> p(s[i])
    ensures Filter(s, p) == s[..k] + s[k + 1..]
  {
    var tail := s[1..];
    assert forall i :: 0 <= i < |tail| ==> tail[i] == s[i + 1];
    if k == 0 {
      FilterKeepsAll(tail, p);
      assert s[k + 1..] == tail;
    } else {
      FilterDropsOne(tail, p, k - 1);
      assert tail[..k - 1] + tail[k..] == s[1..k] + s[k + 1..];
      assert s[..k] == [s[0]] + s[1..k];
    }
  }

  /** Two filters with complementary tests split `s`: every element goes to
      exactly one of the two results. */
  lemma {:induction false} FilterPartition<T>(s: seq<T>, p: T -> bool, q: T -> bool)
    requires forall i :: 0 <= i < |s| ==> p(s[i]) != q(s[i])
    ensures multiset(Filter(s, p)) + multiset(Filter(s, q)) == multiset(s)
    ensures |Filter(s, p)| + |Filter(s, q)| == |s|
  {
    if s != [] {
      var tail := s[1..];
      assert forall i :: 0 <= i < |tail| ==> tail[i] == s[i + 1];
      FilterPartition(tail, p, q);
      assert s == [s[0]] + tail;
      assert multiset(s) == multiset{s[0]} + multiset(tail);
      if p(s[0]) {
        assert Filter(s, p) == [s[0]] + Filter(tail, p);
        assert Filter(s, q) == Filter(tail, q);
        assert multiset(Filter(s, p)) == multiset{s[0]} + multiset(Filter(tail, p));
      } else {
        assert Filter(s, p) == Filter(tail, p);
        assert Filter(s, q) == [s[0]] + Filter(tail, q);
        assert multiset(Filter(s, q)) == multiset{s[0]} + multiset(Filter(tail, q));
      }
    }
  }
}

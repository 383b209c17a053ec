/** Order-preserving filtering of sequences, the shape of every `Array.prototype.filter` in the model. */
module Seqs {

  /** `a` is obtained from `b` by deleting elements and keeping the rest in order. */
  ghost predicate IsSubseq<T>(a: seq<T>, b: seq<T>)
    decreases |b|
  {
    a == [] || (b != [] && ((a[0] == b[0] && IsSubseq(a[1..], b[1..])) || IsSubseq(a, b[1..])))
  }

  /** `s.filter(p)`: the elements satisfying `p`, in their original order. */
  function Filter<T(!new)>(p: T -> bool, s: seq<T>): (r: seq<T>)
    ensures |r| <= |s|
    ensures IsSubseq(r, s)
    ensures forall x :: multiset(r)[x] == if p(x) then multiset(s)[x] else 0
    decreases |s|
  {
    if s == [] then []
    else
      assert s == [s[0]] + s[1..];
      if p(s[0]) then [s[0]] + Filter(p, s[1..]) else Filter(p, s[1..])
  }

  /** Membership in a filtered sequence, the form most clients need. */
  lemma FilterMembership<T(!new)>(p: T -> bool, s: seq<T>)
    ensures forall x :: x in Filter(p, s) <==> x in s && p(x)
  {
    var r := Filter(p, s);
    forall x ensures x in r <==> x in s && p(x) {
      assert x in r <==> multiset(r)[x] > 0;
      assert x in s <==> multiset(s)[x] > 0;
    }
  }

  /** A filter that every element passes returns the sequence itself. */
  lemma {:induction false} FilterKeepsAll<T(!new)>(p: T -> bool, s: seq<T>)
    requires forall i :: 0 <= i < |s| ==> p(s[i])
    ensures Filter(p, s) == s
    decreases |s|
  {
    if s != [] {
      FilterKeepsAll(p, s[1..]);
    }
  }

  /** A filter that no element passes returns the empty sequence. */
  lemma {:induction false} FilterDropsAll<T(!new)>(p: T -> bool, s: seq<T>)
    requires forall i :: 0 <= i < |s| ==> !p(s[i])
    ensures Filter(p, s) == []
    decreases |s|
  {
    if s != [] {
      FilterDropsAll(p, s[1..]);
    }
  }

  /** Filtering leaves nothing exactly when no element passes. */
  lemma FilterEmptyIff<T(!new)>(p: T -> bool, s: seq<T>)
    ensures Filter(p, s) == [] <==> forall k :: 0 <= k < |s| ==> !p(s[k])
  {
    if forall k :: 0 <= k < |s| ==> !p(s[k]) {
      FilterDropsAll(p, s);
    } else {
      var k :| 0 <= k < |s| && p(s[k]);
      assert multiset(s)[s[k]] > 0;
      assert multiset(Filter(p, s))[s[k]] > 0;
    }
  }
}

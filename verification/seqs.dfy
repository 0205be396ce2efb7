/** `Array.prototype.filter` on sequences, with the facts the catalog
    filter and the session dashboard rely on. */
module Seqs {

  /** `a` is `b` with some elements dropped, the rest in their order. */
  ghost predicate IsSubsequence<T>(a: seq<T>, b: seq<T>)
    decreases |b|
  {
    a == [] ||
    (b != [] && (IsSubsequence(a, b[1..]) || (a[0] == b[0] && IsSubsequence(a[1..], b[1..]))))
  }

  /** The elements of `s` that satisfy `p`, in order. */
  function Filter<T>(s: seq<T>, p: T -> bool): (r: seq<T>)
    ensures |r| <= |s|
    ensures forall i :: 0 <= i < |r| ==> r[i] in s && p(r[i])
    ensures forall i :: 0 <= i < |s| && p(s[i]) ==> s[i] in r
    ensures IsSubsequence(r, s)
    decreases |s|
  {
    if s == [] then []
    else if p(s[0]) then [s[0]] + Filter(s[1..], p)
    else Filter(s[1..], p)
  }

  /** The filter holds each element that passes exactly as often as the
      input does, and no element that fails. */
  lemma {:induction false} FilterCounts<T>(s: seq<T>, p: T -> bool)
    ensures forall x :: multiset(Filter(s, p))[x] == if p(x) then multiset(s)[x] else 0
    decreases |s|
  {
    if s != [] {
      FilterCounts(s[1..], p);
      assert s == [s[0]] + s[1..];
    }
  }

  /** Filtering distributes over concatenation. */
  lemma {:induction false} FilterAppend<T>(a: seq<T>, b: seq<T>, p: T -> bool)
    ensures Filter(a + b, p) == Filter(a, p) + Filter(b, p)
    decreases |a|
  {
    if a != [] {
      assert (a + b)[1..] == a[1..] + b;
      FilterAppend(a[1..], b, p);
    } else {
      assert a + b == b;
    }
  }

  /** A filter every element passes keeps the whole sequence. */
  lemma {:induction false} FilterKeepsAll<T>(s: seq<T>, p: T -> bool)
    requires forall i :: 0 <= i < |s| ==> p(s[i])
    ensures Filter(s, p) == s
    decreases |s|
  {
    if s != [] {
      FilterKeepsAll(s[1..], p);
    }
  }

  /** A filter no element passes keeps nothing. */
  lemma {:induction false} FilterDropsAll<T>(s: seq<T>, p: T -> bool)
    requires forall i :: 0 <= i < |s| ==> !p(s[i])
    ensures Filter(s, p) == []
    decreases |s|
  {
    if s != [] {
      FilterDropsAll(s[1..], p);
    }
  }

  /** Filters by two predicates that agree everywhere give the same result. */
  lemma {:induction false} FilterCongruent<T>(s: seq<T>, p: T -> bool, q: T -> bool)
    requires forall i :: 0 <= i < |s| ==> p(s[i]) == q(s[i])
    ensures Filter(s, p) == Filter(s, q)
    decreases |s|
  {
    if s != [] {
      FilterCongruent(s[1..], p, q);
    }
  }

  /** Filtering two sequences that are related element by element, with
      tests that agree on related elements, keeps related elements at the
      same positions. */
  lemma {:induction false} FilterPairwise<T>(a: seq<T>, b: seq<T>, p: T -> bool, q: T -> bool, related: (T, T) -> bool)
    requires |a| == |b|
    requires forall i {:trigger related(a[i], b[i])} :: 0 <= i < |a| ==> related(a[i], b[i]) && p(a[i]) == q(b[i])
    ensures |Filter(a, p)| == |Filter(b, q)|
    ensures forall i :: 0 <= i < |Filter(a, p)| ==> related(Filter(a, p)[i], Filter(b, q)[i])
    decreases |a|
  {
    if a != [] {
      var a', b' := a[1..], b[1..];
      forall i | 0 <= i < |a'|
        ensures related(a'[i], b'[i]) && p(a'[i]) == q(b'[i])
      {
        assert a'[i] == a[i + 1] && b'[i] == b[i + 1];
        assert related(a[i + 1], b[i + 1]);
      }
      FilterPairwise(a', b', p, q, related);
      var fa, fb := Filter(a', p), Filter(b', q);
      var ra, rb := Filter(a, p), Filter(b, q);
      assert related(a[0], b[0]);
      if p(a[0]) {
        assert ra == [a[0]] + fa && rb == [b[0]] + fb;
        forall i | 0 <= i < |ra|
          ensures related(ra[i], rb[i])
        {
          if i > 0 {
            assert ra[i] == fa[i - 1] && rb[i] == fb[i - 1];
          }
        }
      } else {
        assert ra == fa && rb == fb;
      }
    }
  }

  /** Three tests of which each element passes exactly one split the
      sequence: the three filters together hold each element as often as
      the sequence does. */
  lemma FilterPartition<T>(s: seq<T>, p: T -> bool, q: T -> bool, r: T -> bool)
    requires forall i :: 0 <= i < |s| ==> (p(s[i]) && !q(s[i]) && !r(s[i])) || (!p(s[i]) && q(s[i]) && !r(s[i]))
                                           || (!p(s[i]) && !q(s[i]) && r(s[i]))
    ensures multiset(Filter(s, p)) + multiset(Filter(s, q)) + multiset(Filter(s, r)) == multiset(s)
  {
    forall x
      ensures (multiset(Filter(s, p)) + multiset(Filter(s, q)) + multiset(Filter(s, r)))[x] == multiset(s)[x]
    {
      PartitionCount(s, p, q, r, x);
    }
  }

  /** One element's count in the three filters of a partition. */
  lemma PartitionCount<T>(s: seq<T>, p: T -> bool, q: T -> bool, r: T -> bool, x: T)
    requires forall i :: 0 <= i < |s| ==> (p(s[i]) && !q(s[i]) && !r(s[i])) || (!p(s[i]) && q(s[i]) && !r(s[i]))
                                           || (!p(s[i]) && !q(s[i]) && r(s[i]))
    ensures multiset(Filter(s, p))[x] + multiset(Filter(s, q))[x] + multiset(Filter(s, r))[x] == multiset(s)[x]
  {
    FilterCounts(s, p);
    FilterCounts(s, q);
    FilterCounts(s, r);
    if x in multiset(s) {
      var i :| 0 <= i < |s| && s[i] == x;
    }
  }



}

/** `Array.prototype.filter` over sequences, and the facts about it that the
    list reducers of the ordering flow rely on. */
module Seqs {

  /** The elements of `s` that satisfy `p`, in their original order. */
  function Filter<T(!new)>(s: seq<T>, p: T -> bool): (r: seq<T>)
    ensures |r| <= |s|
    ensures forall x :: x in r <==> x in s && p(x)
    ensures forall i :: 0 <= i < |r| ==> p(r[i])
  {
    if s == [] then []
    else if p(s[0]) then [s[0]] + Filter(s[1..], p)
    else Filter(s[1..], p)
  }

  /** Filtering keeps everything when every element passes. */
  lemma {:induction false} FilterAllPass<T(!new)>(s: seq<T>, p: T -> bool)
    requires forall i :: 0 <= i < |s| ==> p(s[i])
    ensures Filter(s, p) == s
  {
    if s != [] {
      FilterAllPass(s[1..], p);
    }
  }

  /** Filtering twice with the same predicate is filtering once. */
  lemma FilterIdempotent<T(!new)>(s: seq<T>, p: T -> bool)
    ensures Filter(Filter(s, p), p) == Filter(s, p)
  {
    FilterAllPass(Filter(s, p), p);
  }

  /** Filtering distributes over concatenation. */
  lemma {:induction false} FilterAppend<T(!new)>(a: seq<T>, b: seq<T>, p: T -> bool)
    ensures Filter(a + b, p) == Filter(a, p) + Filter(b, p)
  {
    if a == [] {
      assert a + b == b;
    } else {
      assert (a + b)[0] == a[0];
      assert (a + b)[1..] == a[1..] + b;
      FilterAppend(a[1..], b, p);
    }
  }

  /** Three mutually exclusive filters together select at most every element once. */
  lemma {:induction false} ExclusiveFilterCounts<T(!new)>(s: seq<T>, p: T -> bool, q: T -> bool, r: T -> bool)
    requires forall i :: 0 <= i < |s| ==> !(p(s[i]) && q(s[i])) && !(p(s[i]) && r(s[i])) && !(q(s[i]) && r(s[i]))
    ensures |Filter(s, p)| + |Filter(s, q)| + |Filter(s, r)| <= |s|
  {
    if s != [] {
      ExclusiveFilterCounts(s[1..], p, q, r);
    }
  }

  /** When exactly one element fails, filtering splices it out and keeps the
      rest in order. */
  lemma {:induction false} FilterRemovesOne<T(!new)>(s: seq<T>, p: T -> bool, k: int)
    requires 0 <= k < |s| && !p(s[k])
    requires forall i :: 0 <= i < |s| && i != k ==> p(s[i])
    ensures Filter(s, p) == s[..k] + s[k + 1..]
  {
    var tail := s[1..];
    if k == 0 {
      forall i | 0 <= i < |tail| ensures p(tail[i]) {
        assert tail[i] == s[i + 1];
      }
      FilterAllPass(tail, p);
      assert s[..0] + s[1..] == tail;
    } else {
      forall i | 0 <= i < |tail| && i != k - 1 ensures p(tail[i]) {
        assert tail[i] == s[i + 1];
      }
      FilterRemovesOne(tail, p, k - 1);
      assert s[..k] + s[k + 1..] == [s[0]] + (tail[..k - 1] + tail[k..]);
    }
  }
}

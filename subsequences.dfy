/** Order-preserving selections from a sequence. */
module Subsequences {

  /** Concatenation regroups freely. */
  lemma AppendAssoc<T>(a: seq<T>, b: seq<T>, c: seq<T>)
    ensures (a + b) + c == a + (b + c)
  {
  }

  /** `a` is `b` with some elements deleted, order kept. */
  ghost predicate IsSubsequence<T>(a: seq<T>, b: seq<T>)
    decreases |b|
  {
    if b == [] then a == []
    else
      || (a != [] && a[0] == b[0] && IsSubsequence(a[1..], b[1..]))
      || IsSubsequence(a, b[1..])
  }

  /** Dropping a prefix of `b` keeps its subsequences subsequences of `b`. */
  lemma {:induction false} SubsequenceOfSuffix<T>(a: seq<T>, b: seq<T>, k: nat)
    requires k <= |b| && IsSubsequence(a, b[k..])
    ensures IsSubsequence(a, b)
    decreases k
  {
    if k > 0 {
      assert b[k - 1..][1..] == b[k..];
      SubsequenceOfSuffix(a, b, k - 1);
    }
  }

  /** Every sequence is a subsequence of itself. */
  lemma {:induction false} SubsequenceRefl<T>(a: seq<T>)
    ensures IsSubsequence(a, a)
    decreases |a|
  {
    if a != [] {
      SubsequenceRefl(a[1..]);
    }
  }

  /** A subsequence of a subsequence of `c` is a subsequence of `c`. */
  lemma {:induction false} SubsequenceTrans<T>(a: seq<T>, b: seq<T>, c: seq<T>)
    requires IsSubsequence(a, b) && IsSubsequence(b, c)
    ensures IsSubsequence(a, c)
    decreases |c|
  {
    if c != [] {
      if IsSubsequence(b, c[1..]) {
        SubsequenceTrans(a, b, c[1..]);
      } else if a != [] && a[0] == b[0] && IsSubsequence(a[1..], b[1..]) {
        SubsequenceTrans(a[1..], b[1..], c[1..]);
      } else {
        SubsequenceTrans(a, b[1..], c[1..]);
      }
    }
  }

  /** `c` is an order-preserving shuffle of `a` and `d`: each element of `c` is taken from the front of one of them. */
  ghost predicate Interleaves<T>(c: seq<T>, a: seq<T>, d: seq<T>)
    decreases |c|
  {
    if c == [] then a == [] && d == []
    else
      || (a != [] && c[0] == a[0] && Interleaves(c[1..], a[1..], d))
      || (d != [] && c[0] == d[0] && Interleaves(c[1..], a, d[1..]))
  }

  /** Shuffling loses and invents nothing, and each part keeps its order. */
  lemma {:induction false} InterleavesParts<T>(c: seq<T>, a: seq<T>, d: seq<T>)
    requires Interleaves(c, a, d)
    ensures multiset(c) == multiset(a) + multiset(d)
    ensures IsSubsequence(a, c) && IsSubsequence(d, c)
    decreases |c|
  {
    if c != [] {
      assert c == [c[0]] + c[1..];
      if a != [] && c[0] == a[0] && Interleaves(c[1..], a[1..], d) {
        InterleavesParts(c[1..], a[1..], d);
        assert a == [a[0]] + a[1..];
      } else {
        InterleavesParts(c[1..], a, d[1..]);
        assert d == [d[0]] + d[1..];
      }
    }
  }

  /** Two shuffles placed one after the other form a shuffle of the concatenated parts. */
  lemma {:induction false} InterleavesConcat<T>(c1: seq<T>, a1: seq<T>, d1: seq<T>, c2: seq<T>, a2: seq<T>, d2: seq<T>)
    requires Interleaves(c1, a1, d1) && Interleaves(c2, a2, d2)
    ensures Interleaves(c1 + c2, a1 + a2, d1 + d2)
    decreases |c1|
  {
    if c1 == [] {
      assert c1 + c2 == c2 && a1 + a2 == a2 && d1 + d2 == d2;
    } else {
      assert (c1 + c2)[1..] == c1[1..] + c2;
      if a1 != [] && c1[0] == a1[0] && Interleaves(c1[1..], a1[1..], d1) {
        InterleavesConcat(c1[1..], a1[1..], d1, c2, a2, d2);
        assert (a1 + a2)[1..] == a1[1..] + a2;
      } else {
        InterleavesConcat(c1[1..], a1, d1[1..], c2, a2, d2);
        assert (d1 + d2)[1..] == d1[1..] + d2;
      }
    }
  }

  /** `rest` is what is left of `pool` once a prefix is taken, and that prefix is a shuffle of `a` and `d`. */
  ghost predicate Consumed<T>(pool: seq<T>, rest: seq<T>, a: seq<T>, d: seq<T>) {
    && |rest| <= |pool| && rest == pool[|pool| - |rest|..]
    && Interleaves(pool[..|pool| - |rest|], a, d)
  }

  /**
   * `pool` splits, with multiplicity, into `a`, `d` and `rest`, and `a` is an
   * order-preserving selection of what precedes `rest`.
   */
  ghost predicate Accounted<T>(pool: seq<T>, rest: seq<T>, a: seq<T>, d: seq<T>) {
    && multiset(pool) == multiset(a) + multiset(d) + multiset(rest)
    && |pool| == |a| + |d| + |rest|
    && |rest| <= |pool| && IsSubsequence(a, pool[..|pool| - |rest|])
  }

  /** A consumed pool is accounted for. */
  lemma {:induction false} ConsumedParts<T>(pool: seq<T>, rest: seq<T>, a: seq<T>, d: seq<T>)
    requires Consumed(pool, rest, a, d)
    ensures Accounted(pool, rest, a, d)
  {
    var k := |pool| - |rest|;
    InterleavesParts(pool[..k], a, d);
    assert pool == pool[..k] + rest;
    assert |pool[..k]| == |multiset(pool[..k])|;
  }

  /** Taking the first element of `pool` as well, into either part. */
  lemma {:induction false} ConsumedCons<T>(pool: seq<T>, rest: seq<T>, a: seq<T>, d: seq<T>)
    requires pool != [] && Consumed(pool[1..], rest, a, d)
    ensures Consumed(pool, rest, [pool[0]] + a, d) && Consumed(pool, rest, a, [pool[0]] + d)
  {
    var c := pool[..|pool| - |rest|];
    assert c[0] == pool[0] && c[1..] == pool[1..][..|pool[1..]| - |rest|];
    assert ([pool[0]] + a)[1..] == a && ([pool[0]] + d)[1..] == d;
  }

  /**
   * Consuming a prefix of `pool` and then a prefix of what is left consumes a
   * prefix of `pool`, shuffled from the two steps' parts in turn.
   */
  lemma {:induction false} ConsumedPrefixes<T>(pool: seq<T>, rest1: seq<T>, a1: seq<T>, d1: seq<T>,
                                                rest2: seq<T>, a2: seq<T>, d2: seq<T>)
    requires Consumed(pool, rest1, a1, d1) && Consumed(rest1, rest2, a2, d2)
    ensures Consumed(pool, rest2, a1 + a2, d1 + d2)
  {
    var k1, k2 := |pool| - |rest1|, |rest1| - |rest2|;
    InterleavesConcat(pool[..k1], a1, d1, rest1[..k2], a2, d2);
    assert pool[..|pool| - |rest2|] == pool[..k1] + rest1[..k2];
  }
}

/**
 * Order-preserving selection: `a` is a subsequence of `b` when `a` can be
 * obtained from `b` by deleting elements, the rest keeping their order.
 */
module Subsequences {

  predicate IsSubsequence<T(==)>(a: seq<T>, b: seq<T>)
    decreases |b|
  {
    if |a| == 0 then true
    else if |b| == 0 then false
    else if a[0] == b[0] then IsSubsequence(a[1..], b[1..])
    else IsSubsequence(a, b[1..])
  }

  /** The empty sequence is a subsequence of anything. */
  lemma SubsequenceEmpty<T>(b: seq<T>)
    ensures IsSubsequence([], b)
  {
  }

  /** Dropping an element of `b` cannot be undone: a subsequence of `b[1..]` is one of `b`. */
  lemma {:induction false} SubsequenceCons<T>(a: seq<T>, x: T, b: seq<T>)
    requires IsSubsequence(a, b)
    ensures IsSubsequence(a, [x] + b)
    decreases |b|, 1
  {
    if |a| > 0 && a[0] == x {
      assert ([x] + b)[1..] == b;
      SubsequenceDropHead(a, b);
    } else {
      assert ([x] + b)[1..] == b;
    }
  }

  /** A subsequence of `b` with its first element removed is still a subsequence of `b`. */
  lemma {:induction false} SubsequenceDropHead<T>(a: seq<T>, b: seq<T>)
    requires |a| > 0 && IsSubsequence(a, b)
    ensures IsSubsequence(a[1..], b)
    decreases |b|, 0
  {
    if |a[1..]| > 0 && |b| > 0 {
      if a[0] == b[0] {
        SubsequenceCons(a[1..], b[0], b[1..]);
        assert [b[0]] + b[1..] == b;
      } else {
        SubsequenceDropHead(a, b[1..]);
        SubsequenceCons(a[1..], b[0], b[1..]);
        assert [b[0]] + b[1..] == b;
      }
    }
  }

  /** Subsequences of the two halves concatenate to a subsequence of the whole. */
  lemma {:induction false} SubsequenceAppend<T>(a1: seq<T>, b1: seq<T>, a2: seq<T>, b2: seq<T>)
    requires IsSubsequence(a1, b1) && IsSubsequence(a2, b2)
    ensures IsSubsequence(a1 + a2, b1 + b2)
    decreases |b1|
  {
    if |b1| == 0 {
      assert a1 == [];
      assert a1 + a2 == a2 && b1 + b2 == b2;
    } else if |a1| > 0 && a1[0] == b1[0] {
      SubsequenceAppend(a1[1..], b1[1..], a2, b2);
      assert (a1 + a2)[1..] == a1[1..] + a2;
      assert (b1 + b2)[1..] == b1[1..] + b2;
    } else {
      SubsequenceAppend(a1, b1[1..], a2, b2);
      assert (b1 + b2)[1..] == b1[1..] + b2;
      if |a1 + a2| > 0 && (a1 + a2)[0] == (b1 + b2)[0] {
        SubsequenceDropHead(a1 + a2, b1[1..] + b2);
        if |a1| == 0 {
          assert a1 + a2 == a2;
        }
      }
    }
  }

  /** A subsequence keeps only elements of the sequence it is taken from. */
  lemma {:induction false} SubsequenceMembers<T>(a: seq<T>, b: seq<T>)
    requires IsSubsequence(a, b)
    ensures forall x :: x in a ==> x in b
    decreases |b|
  {
    if |a| > 0 && |b| > 0 {
      if a[0] == b[0] {
        SubsequenceMembers(a[1..], b[1..]);
        assert forall x :: x in a ==> x == a[0] || x in a[1..];
      } else {
        SubsequenceMembers(a, b[1..]);
      }
    }
  }
}

/**
 * Traversal of a syntax tree through `accept` and `acceptChildren`.
 *
 * `n.accept(v)` calls exactly one visitor hook for `n` and nothing else;
 * the walk goes deeper only when that hook calls `n.acceptChildren(v)`,
 * which calls `accept` on each child in `Children(n)` order. What a hook
 * does besides is the visitor author's code, so it is a parameter here:
 * `descend(n)` says whether the hook that handles `n` calls
 * `acceptChildren`. The result of a traversal is the sequence of nodes
 * handed to a hook, in call order.
 */
module Walk {
  import opened Ast
  import opened Subsequences

  /**
   * The pre-order walk: `n`, then the walk of each child in turn. It is
   * the traversal of a visitor whose every hook calls `acceptChildren`.
   */
  function Walk(n: Node): (w: seq<Node>)
    ensures |w| >= 1 && w[0] == n
    ensures forall x :: x in w[1..] ==> x < n
    decreases n
  {
    ChildrenBelow(n);
    [n] + WalkAll(Children(n), n)
  }

  /** The walks of the nodes of `s`, one after another; `p` bounds them. */
  function WalkAll(s: seq<Node>, ghost p: Node): (w: seq<Node>)
    requires forall k :: 0 <= k < |s| ==> s[k] < p
    ensures forall x :: x in w ==> x < p
    ensures |w| >= |s|
    decreases p, |s|
  {
    if |s| == 0 then []
    else
      Walk(s[0]) + WalkAll(s[1..], p)
  }

  /** The nodes handed to a hook by `n.accept(v)`. */
  function Visit(n: Node, descend: Node -> bool): (t: seq<Node>)
    ensures |t| >= 1 && t[0] == n
    ensures forall x :: x in t[1..] ==> x < n
    decreases n
  {
    if descend(n) then
      ChildrenBelow(n);
      [n] + VisitAll(Children(n), n, descend)
    else [n]
  }

  /** The traversals of the nodes of `s`, one after another. */
  function VisitAll(s: seq<Node>, ghost p: Node, descend: Node -> bool): (t: seq<Node>)
    requires forall k :: 0 <= k < |s| ==> s[k] < p
    ensures forall x :: x in t ==> x < p
    decreases p, |s|
  {
    if |s| == 0 then []
    else
      Visit(s[0], descend) + VisitAll(s[1..], p, descend)
  }

  // ---------------------------------------------------------------------
  // accept calls one hook; acceptChildren calls accept on every child

  /** `accept` never recurses by itself: a hook that does not descend sees only its node. */
  lemma AcceptCallsOneHook(n: Node)
    ensures Visit(n, (x: Node) => false) == [n]
  {
  }

  /** A visitor whose every hook descends produces exactly the pre-order walk. */
  lemma {:induction false} FullDescentIsWalk(n: Node)
    ensures Visit(n, (x: Node) => true) == Walk(n)
    decreases n
  {
    ChildrenBelow(n);
    FullDescentIsWalkAll(Children(n), n);
  }

  lemma {:induction false} FullDescentIsWalkAll(s: seq<Node>, p: Node)
    requires forall k :: 0 <= k < |s| ==> s[k] < p
    ensures VisitAll(s, p, (x: Node) => true) == WalkAll(s, p)
    decreases p, |s|
  {
    if |s| > 0 {
      FullDescentIsWalk(s[0]);
      FullDescentIsWalkAll(s[1..], p);
    }
  }

  /**
   * Whatever the hooks decide, the traversal is the pre-order walk with
   * some subtrees cut off: the visited nodes appear in walk order.
   */
  lemma {:induction false} VisitIsPrunedWalk(n: Node, descend: Node -> bool)
    ensures IsSubsequence(Visit(n, descend), Walk(n))
    decreases n
  {
    ChildrenBelow(n);
    var s := Children(n);
    if descend(n) {
      VisitAllIsPrunedWalkAll(s, n, descend);
      assert IsSubsequence(Visit(n, descend)[1..], Walk(n)[1..]);
    } else {
      SubsequenceEmpty(WalkAll(s, n));
      assert Visit(n, descend)[1..] == [];
    }
  }

  lemma {:induction false} VisitAllIsPrunedWalkAll(s: seq<Node>, p: Node, descend: Node -> bool)
    requires forall k :: 0 <= k < |s| ==> s[k] < p
    ensures IsSubsequence(VisitAll(s, p, descend), WalkAll(s, p))
    decreases p, |s|
  {
    if |s| > 0 {
      VisitIsPrunedWalk(s[0], descend);
      VisitAllIsPrunedWalkAll(s[1..], p, descend);
      SubsequenceAppend(Visit(s[0], descend), Walk(s[0]), VisitAll(s[1..], p, descend), WalkAll(s[1..], p));
    }
  }

  /** Only the root and its descendants are ever visited. */
  lemma VisitStaysInWalk(n: Node, descend: Node -> bool)
    ensures forall x :: x in Visit(n, descend) ==> x in Walk(n)
  {
    VisitIsPrunedWalk(n, descend);
    SubsequenceMembers(Visit(n, descend), Walk(n));
  }

  // ---------------------------------------------------------------------
  // Shape of the walk

  /** Traversing a list of nodes piece by piece gives the traversal of the whole list. */
  lemma {:induction false} VisitAllAppend(a: seq<Node>, b: seq<Node>, p: Node, descend: Node -> bool)
    requires forall k :: 0 <= k < |a| ==> a[k] < p
    requires forall k :: 0 <= k < |b| ==> b[k] < p
    ensures VisitAll(a + b, p, descend) == VisitAll(a, p, descend) + VisitAll(b, p, descend)
    decreases |a|
  {
    if |a| == 0 {
      assert a + b == b;
    } else {
      assert (a + b)[0] == a[0];
      assert (a + b)[1..] == a[1..] + b;
      VisitAllAppend(a[1..], b, p, descend);
    }
  }

  /**
   * `acceptChildren` hands the children to `accept` one after another: the
   * traversal of child `i` is one contiguous block, after the traversals
   * of the children before it and before those of the children after it.
   */
  lemma VisitAllSplit(s: seq<Node>, p: Node, descend: Node -> bool, i: nat)
    requires forall k :: 0 <= k < |s| ==> s[k] < p
    requires i < |s|
    ensures VisitAll(s, p, descend)
         == VisitAll(s[..i], p, descend) + Visit(s[i], descend) + VisitAll(s[i + 1..], p, descend)
  {
    assert s == s[..i] + ([s[i]] + s[i + 1..]);
    VisitAllAppend(s[..i], [s[i]] + s[i + 1..], p, descend);
    VisitAllAppend([s[i]], s[i + 1..], p, descend);
    assert ([s[i]] + s[i + 1..])[1..] == s[i + 1..];
    assert VisitAll([s[i]], p, descend) == Visit(s[i], descend) + VisitAll([], p, descend);
  }

  /**
   * The root occurs in its own walk exactly once, at the front. Other nodes
   * may occur more than once: equal children are walked once each.
   */
  lemma WalkRootOnce(n: Node)
    ensures Walk(n)[0] == n && n !in Walk(n)[1..]
  {
  }
}

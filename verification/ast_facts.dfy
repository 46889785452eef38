/**
 * Facts about the syntax tree: what `acceptChildren` visits for the kinds
 * whose child order carries meaning, how lists with null entries and
 * modifier lists are read, and where the wrappers get their locus.
 */
module AstFacts {
  import opened Wrappers
  import opened Ast

  // ---------------------------------------------------------------------
  // Lists with null entries

  /** Reading null-padded lists piece by piece gives the reading of the whole list. */
  lemma {:induction false} PresentAppend(a: seq<Option<Node>>, b: seq<Option<Node>>)
    ensures Present(a + b) == Present(a) + Present(b)
    decreases |a|
  {
    if |a| == 0 {
      assert a + b == b;
    } else {
      assert (a + b)[0] == a[0];
      assert (a + b)[1..] == a[1..] + b;
      PresentAppend(a[1..], b);
    }
  }

  /** A list without null entries is read in full and in list order. */
  lemma {:induction false} PresentNoNulls(s: seq<Option<Node>>)
    requires forall k :: 0 <= k < |s| ==> s[k].Some?
    ensures |Present(s)| == |s|
    ensures forall k :: 0 <= k < |s| ==> Present(s)[k] == s[k].value
    decreases |s|
  {
    if |s| > 0 {
      PresentNoNulls(s[1..]);
    }
  }

  /** A list of null entries only contributes no children. */
  lemma {:induction false} PresentAllNulls(s: seq<Option<Node>>)
    requires forall k :: 0 <= k < |s| ==> s[k].None?
    ensures Present(s) == []
    decreases |s|
  {
    if |s| > 0 {
      PresentAllNulls(s[1..]);
    }
  }

  /** A one-entry list is read as the entry, if present. */
  lemma PresentSingle(o: Option<Node>)
    ensures Present([o]) == Opt(o)
  {
    assert [o][1..] == [];
  }

  /** Deleting a null entry changes nothing that is visited. */
  lemma NullSlotSkipped(s: seq<Option<Node>>, i: nat)
    requires i < |s| && s[i].None?
    ensures Present(s) == Present(s[..i] + s[i + 1..])
  {
    var before, slot, after := s[..i], [s[i]], s[i + 1..];
    assert s == before + (slot + after);
    PresentAppend(before, slot + after);
    PresentAppend(slot, after);
    PresentSingle(s[i]);
    assert Present(slot + after) == Present(after);
    PresentAppend(before, after);
  }

  /** A present entry is visited in its place: after the entries before it, before those after it. */
  lemma PresentSlotInPlace(s: seq<Option<Node>>, i: nat)
    requires i < |s| && s[i].Some?
    ensures Present(s) == Present(s[..i]) + [s[i].value] + Present(s[i + 1..])
  {
    var before, slot, after := s[..i], [s[i]], s[i + 1..];
    assert s == before + (slot + after);
    PresentAppend(before, slot + after);
    PresentAppend(slot, after);
    PresentSingle(s[i]);
    assert Present(slot + after) == [s[i].value] + Present(after);
  }

  // ---------------------------------------------------------------------
  // Annotations among modifiers

  /** The annotations of a split modifier list are those of its parts, in order. */
  lemma {:induction false} AnnotationsAppend(a: seq<Node>, b: seq<Node>)
    ensures Annotations(a + b) == Annotations(a) + Annotations(b)
    decreases |a|
  {
    if |a| == 0 {
      assert a + b == b;
    } else {
      assert (a + b)[0] == a[0];
      assert (a + b)[1..] == a[1..] + b;
      AnnotationsAppend(a[1..], b);
    }
  }

  /** Taking the annotations of a list of annotations changes nothing. */
  lemma {:induction false} AnnotationsOfAnnotations(mods: seq<Node>)
    requires forall k :: 0 <= k < |mods| ==> mods[k].Annotation?
    ensures Annotations(mods) == mods
    decreases |mods|
  {
    if |mods| > 0 {
      AnnotationsOfAnnotations(mods[1..]);
    }
  }

  /** Keeping the annotations is idempotent. */
  lemma AnnotationsIdempotent(mods: seq<Node>)
    ensures Annotations(Annotations(mods)) == Annotations(mods)
  {
    var r := Annotations(mods);
    forall k | 0 <= k < |r|
      ensures r[k].Annotation?
    {
      assert r[k] in r;
    }
    AnnotationsOfAnnotations(r);
  }

  /** A modifier list without annotations yields no `anns`. */
  lemma {:induction false} AnnotationsNone(mods: seq<Node>)
    requires forall k :: 0 <= k < |mods| ==> !mods[k].Annotation?
    ensures Annotations(mods) == []
    decreases |mods|
  {
    if |mods| > 0 {
      AnnotationsNone(mods[1..]);
    }
  }

  // ---------------------------------------------------------------------
  // Child order of individual kinds

  /** A binary expression visits the left operand, the operator, then the right operand. */
  lemma BinaryExpressionChildren(n: Node)
    requires n.BinaryExpression?
    ensures Children(n) == [n.lhs, n.oper, n.rhs]
  {
  }

  /** `is`/`as` expressions visit the expression, the operator, then the type. */
  lemma TypeExpressionChildren(n: Node)
    requires n.TypeExpression?
    ensures Children(n) == [n.lhs, n.oper, n.rhs]
  {
  }

  /** A class declaration never visits its parents: they do not affect what is visited. */
  lemma ClassDeclarationSkipsParents(locus: Locus, mods: seq<Node>, kind: ClassKind, name: string,
                                     tps: seq<Node>, pc: Option<Node>, parentAnns: seq<Node>,
                                     parents1: seq<Node>, parents2: seq<Node>, tcs: seq<Node>,
                                     members: seq<Node>)
    ensures Children(ClassDeclaration(locus, mods, kind, name, tps, pc, parentAnns, parents1, tcs, members))
         == Children(ClassDeclaration(locus, mods, kind, name, tps, pc, parentAnns, parents2, tcs, members))
  {
  }

  /** A class declaration visits its modifiers first and its members last. */
  lemma ClassDeclarationEnds(n: Node)
    requires n.ClassDeclaration?
    ensures n.mods <= Children(n)
    ensures Children(n)[|Children(n)| - |n.members|..] == n.members
  {
  }

  /** A call visits its present type arguments, then its value arguments, then its trailing lambda. */
  lemma CallExpressionChildren(n: Node)
    requires n.CallExpression?
    ensures Children(n) == Present(n.typeArgSlots) + n.arguments + Opt(n.lambda)
  {
    assert Children(n) == ChildrenOfCalls(n);
  }

  /** A call never visits its callee: the callee does not affect what is visited. */
  lemma CallExpressionSkipsCallee(locus: Locus, callee1: Node, callee2: Node, typeArgs: seq<Option<Node>>,
                                  args: seq<Node>, lambda: Option<Node>)
    ensures Children(CallExpression(locus, callee1, typeArgs, args, lambda))
         == Children(CallExpression(locus, callee2, typeArgs, args, lambda))
  {
    CallExpressionChildren(CallExpression(locus, callee1, typeArgs, args, lambda));
    CallExpressionChildren(CallExpression(locus, callee2, typeArgs, args, lambda));
  }

  /** A call without type arguments and trailing lambda visits exactly its value arguments. */
  lemma CallExpressionArgumentsOnly(n: Node)
    requires n.CallExpression?
    requires forall k :: 0 <= k < |n.typeArgSlots| ==> n.typeArgSlots[k].None?
    requires n.lambda.None?
    ensures Children(n) == n.arguments
  {
    CallExpressionChildren(n);
    PresentAllNulls(n.typeArgSlots);
  }

  /** An indexing expression visits the indices only, never the indexed expression. */
  lemma ArrayAccessChildren(locus: Locus, expr: Node, indices: seq<Node>)
    ensures Children(ArrayAccessExpression(locus, expr, indices)) == indices
  {
  }

  /** A type piece visits its type arguments, skipping the wildcards. */
  lemma SimpleTypePieceChildren(n: Node)
    requires n.SimpleTypePiece?
    ensures Children(n) == Present(n.typeParams)
  {
  }

  /** A call visits its present type arguments first, skipping the wildcards. */
  lemma CallExpressionTypeArgsFirst(n: Node)
    requires n.CallExpression?
    ensures Present(n.typeArgSlots) <= Children(n)
  {
    CallExpressionChildren(n);
  }

  /** A property visits its present destructuring entries as one block, after modifiers, type parameters and receiver. */
  lemma PropertyDeclarationSlots(n: Node)
    requires n.PropertyDeclaration?
    ensures
      var before := |n.mods| + |n.typeParameters| + |Opt(n.receiverType)|;
      before + |Present(n.vars)| <= |Children(n)| &&
      Children(n)[before..before + |Present(n.vars)|] == Present(n.vars)
  {
    var head := n.mods + n.typeParameters + Opt(n.receiverType);
    var tail := n.typeConstraints + Opt(n.optExpr) + Opt(n.getter) + Opt(n.setter);
    assert Children(n) == ChildrenOfProperties(n) == head + Present(n.vars) + tail;
  }

  /** A `for` loop visits its present destructuring entries right after its annotations. */
  lemma ForLoopSlots(n: Node)
    requires n.ForLoop?
    ensures
      var before := |n.anns|;
      before + |Present(n.vars)| <= |Children(n)| &&
      Children(n)[before..before + |Present(n.vars)|] == Present(n.vars)
  {
    assert Children(n) == ChildrenOfControl(n) == n.anns + Present(n.vars) + [n.inExpr, n.body];
  }

  /** A lambda parameter visits its present destructuring entries first. */
  lemma LambdaParamSlots(n: Node)
    requires n.LambdaParam?
    ensures Present(n.vars) <= Children(n)
  {
    assert Children(n) == ChildrenOfLambdas(n) == Present(n.vars) + Opt(n.destructType);
  }

  /** A `when` entry visits its conditions, then its body; an `else` entry visits only the body. */
  lemma WhenEntryChildren(n: Node)
    requires n.WhenEntry?
    ensures |Children(n)| == |n.conds| + 1
    ensures Children(n)[..|n.conds|] == n.conds && Children(n)[|n.conds|] == n.body
    ensures n.conds == [] ==> Children(n) == [n.body]
  {
  }

  /** A `when` expression visits its subject, if any, before the entries. */
  lemma WhenExpressionChildren(n: Node)
    requires n.WhenExpression?
    ensures n.subject.None? ==> Children(n) == n.entries
    ensures n.subject.Some? ==> Children(n) == [n.subject.value] + n.entries
  {
  }

  // ---------------------------------------------------------------------
  // Wrappers

  /** A wrapper visits exactly the node it wraps and reports that node's locus. */
  lemma WrapperLocus(n: Node)
    requires IsWrapper(n)
    ensures |Children(n)| == 1
    ensures LocusOf(n) == LocusOf(Children(n)[0])
  {
    var inner := WrappedNode(n);
    if n.BlockBody? || n.ExpressionBody? {
      assert Children(n) == ChildrenOfFunctions(n) == [inner];
    } else if n.ExpressionReceiver? || n.TypeReceiver? {
      assert Children(n) == ChildrenOfReferences(n) == [inner];
    } else if n.ExpressionCondition? {
      assert Children(n) == ChildrenOfWhen(n) == [inner];
    } else {
      assert Children(n) == ChildrenOfWrappers(n) == [inner];
    }
  }

  /** Any node that is not a wrapper reports the locus it stores. */
  lemma StoredLocus(n: Node)
    requires !IsWrapper(n)
    ensures LocusOf(n) == n.locus && LocusSource(n) == n
  {
  }
}

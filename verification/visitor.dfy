/**
 * The visitor protocol of visitor.kt: the set of hooks, each default hook's
 * one fallback target, the fallback chain every call runs along, and which
 * hook body runs for a visitor that overrides a given set of hooks.
 */
module Visitor {
  import opened Wrappers

  /** One constructor per hook of `abstract class Visitor`, in source order. */
  datatype Hook =
    | VisitElement
    | VisitFile
    | VisitScript
    | VisitPackage
    | VisitImport
    | VisitDeclaration
    | VisitClassDeclaration
    | VisitClassParent
    | VisitSuperClassConstructorCall
    | VisitSuperInterfaceType
    | VisitPrimaryConstructor
    | VisitInitBlock
    | VisitFunction
    | VisitValueParameter
    | VisitFunctionBody
    | VisitBlockBody
    | VisitExpressionBody
    | VisitPropertyDeclaration
    | VisitDestructuringEntry
    | VisitPropertyGetter
    | VisitPropertySetter
    | VisitTypeAliasDeclaration
    | VisitConstructor
    | VisitConstructorDelegationCall
    | VisitEnumEntry
    | VisitTypeParameter
    | VisitTypeConstraint
    | VisitTypeRef
    | VisitFunctionalType
    | VisitFunctionalTypeParameter
    | VisitSimpleType
    | VisitSimpleTypePiece
    | VisitNullableType
    | VisitDynamicType
    | VisitTypeOrWildcard
    | VisitType
    | VisitWildcard
    | VisitValueArgument
    | VisitExpression
    | VisitIfExpression
    | VisitTryExpression
    | VisitCatch
    | VisitForLoop
    | VisitWhileLoop
    | VisitDoWhileLoop
    | VisitBinaryExpression
    | VisitBinaryOperatorOrInfixCall
    | VisitInfixFunctionName
    | VisitBinaryOperator
    | VisitUnaryExpression
    | VisitUnaryOperator
    | VisitTypeExpression
    | VisitTypeOperator
    | VisitReferenceExpression
    | VisitCallableReferenceExpression
    | VisitClassReferenceExpression
    | VisitReferenceReceiver
    | VisitReferenceExpressionReceiver
    | VisitReferenceTypeExpression
    | VisitConstantExpression
    | VisitLambdaLiteral
    | VisitLambdaParameter
    | VisitThisReference
    | VisitSuperReference
    | VisitWhenExpression
    | VisitWhenEntry
    | VisitWhenCondition
    | VisitWhenExpressionCondition
    | VisitWhenInCondition
    | VisitWhenIsCondition
    | VisitAnonymousObjectExpression
    | VisitThrowStatement
    | VisitReturnStatement
    | VisitContinueStatement
    | VisitBreakStatement
    | VisitCollectionLiteral
    | VisitIdentifier
    | VisitLabelledExpression
    | VisitAnnotatedExpression
    | VisitCallExpression
    | VisitTrailingLambda
    | VisitArrayAccessExpression
    | VisitAnonymousFunctionExpression
    | VisitPropertyExpression
    | VisitBlock
    | VisitModifierOrAnnotation
    | VisitAnnotation
    | VisitModifier

  /** The member name of each hook in visitor.kt. */
  function HookName(h: Hook): string
  {
    match h
    case VisitElement => "visitElement"
    case VisitFile => "visitFile"
    case VisitScript => "visitScript"
    case VisitPackage => "visitPackage"
    case VisitImport => "visitImport"
    case VisitDeclaration => "visitDeclaration"
    case VisitClassDeclaration => "visitClassDeclaration"
    case VisitClassParent => "visitClassParent"
    case VisitSuperClassConstructorCall => "visitSuperClassConstructorCall"
    case VisitSuperInterfaceType => "visitSuperInterfaceType"
    case VisitPrimaryConstructor => "visitPrimaryConstructor"
    case VisitInitBlock => "visitInitBlock"
    case VisitFunction => "visitFunction"
    case VisitValueParameter => "visitValueParameter"
    case VisitFunctionBody => "visitFunctionBody"
    case VisitBlockBody => "visitBlockBody"
    case VisitExpressionBody => "visitExpressionBody"
    case VisitPropertyDeclaration => "visitPropertyDeclaration"
    case VisitDestructuringEntry => "visitDestructuringEntry"
    case VisitPropertyGetter => "visitPropertyGetter"
    case VisitPropertySetter => "visitPropertySetter"
    case VisitTypeAliasDeclaration => "visitTypeAliasDeclaration"
    case VisitConstructor => "visitConstructor"
    case VisitConstructorDelegationCall => "visitConstructorDelegationCall"
    case VisitEnumEntry => "visitEnumEntry"
    case VisitTypeParameter => "visitTypeParameter"
    case VisitTypeConstraint => "visitTypeConstraint"
    case VisitTypeRef => "visitTypeRef"
    case VisitFunctionalType => "visitFunctionalType"
    case VisitFunctionalTypeParameter => "visitFunctionalTypeParameter"
    case VisitSimpleType => "visitSimpleType"
    case VisitSimpleTypePiece => "visitSimpleTypePiece"
    case VisitNullableType => "visitNullableType"
    case VisitDynamicType => "visitDynamicType"
    case VisitTypeOrWildcard => "visitTypeOrWildcard"
    case VisitType => "visitType"
    case VisitWildcard => "visitWildcard"
    case VisitValueArgument => "visitValueArgument"
    case VisitExpression => "visitExpression"
    case VisitIfExpression => "visitIfExpression"
    case VisitTryExpression => "visitTryExpression"
    case VisitCatch => "visitCatch"
    case VisitForLoop => "visitForLoop"
    case VisitWhileLoop => "visitWhileLoop"
    case VisitDoWhileLoop => "visitDoWhileLoop"
    case VisitBinaryExpression => "visitBinaryExpression"
    case VisitBinaryOperatorOrInfixCall => "visitBinaryOperatorOrInfixCall"
    case VisitInfixFunctionName => "visitInfixFunctionName"
    case VisitBinaryOperator => "visitBinaryOperator"
    case VisitUnaryExpression => "visitUnaryExpression"
    case VisitUnaryOperator => "visitUnaryOperator"
    case VisitTypeExpression => "visitTypeExpression"
    case VisitTypeOperator => "visitTypeOperator"
    case VisitReferenceExpression => "visitReferenceExpression"
    case VisitCallableReferenceExpression => "visitCallableReferenceExpression"
    case VisitClassReferenceExpression => "visitClassReferenceExpression"
    case VisitReferenceReceiver => "visitReferenceReceiver"
    case VisitReferenceExpressionReceiver => "visitReferenceExpressionReceiver"
    case VisitReferenceTypeExpression => "visitReferenceTypeExpression"
    case VisitConstantExpression => "visitConstantExpression"
    case VisitLambdaLiteral => "visitLambdaLiteral"
    case VisitLambdaParameter => "visitLambdaParameter"
    case VisitThisReference => "visitThisReference"
    case VisitSuperReference => "visitSuperReference"
    case VisitWhenExpression => "visitWhenExpression"
    case VisitWhenEntry => "visitWhenEntry"
    case VisitWhenCondition => "visitWhenCondition"
    case VisitWhenExpressionCondition => "visitWhenExpressionCondition"
    case VisitWhenInCondition => "visitWhenInCondition"
    case VisitWhenIsCondition => "visitWhenIsCondition"
    case VisitAnonymousObjectExpression => "visitAnonymousObjectExpression"
    case VisitThrowStatement => "visitThrowStatement"
    case VisitReturnStatement => "visitReturnStatement"
    case VisitContinueStatement => "visitContinueStatement"
    case VisitBreakStatement => "visitBreakStatement"
    case VisitCollectionLiteral => "visitCollectionLiteral"
    case VisitIdentifier => "visitIdentifier"
    case VisitLabelledExpression => "visitLabelledExpression"
    case VisitAnnotatedExpression => "visitAnnotatedExpression"
    case VisitCallExpression => "visitCallExpression"
    case VisitTrailingLambda => "visitTrailingLambda"
    case VisitArrayAccessExpression => "visitArrayAccessExpression"
    case VisitAnonymousFunctionExpression => "visitAnonymousFunctionExpression"
    case VisitPropertyExpression => "visitPropertyExpression"
    case VisitBlock => "visitBlock"
    case VisitModifierOrAnnotation => "visitModifierOrAnnotation"
    case VisitAnnotation => "visitAnnotation"
    case VisitModifier => "visitModifier"
  }

  /**
   * The one hook each default body forwards to; `None` for the abstract
   * `visitElement`, which has no default.
   */
  function Fallback(h: Hook): (r: Option<Hook>)
    ensures r.None? <==> h == VisitElement
  {
    match h
    case VisitElement => None
    case VisitFile => Some(VisitElement)
    case VisitScript => Some(VisitElement)
    case VisitPackage => Some(VisitElement)
    case VisitImport => Some(VisitElement)
    case VisitDeclaration => Some(VisitElement)
    case VisitClassDeclaration => Some(VisitDeclaration)
    case VisitClassParent => Some(VisitElement)
    case VisitSuperClassConstructorCall => Some(VisitClassParent)
    case VisitSuperInterfaceType => Some(VisitClassParent)
    case VisitPrimaryConstructor => Some(VisitElement)
    case VisitInitBlock => Some(VisitDeclaration)
    case VisitFunction => Some(VisitDeclaration)
    case VisitValueParameter => Some(VisitElement)
    case VisitFunctionBody => Some(VisitElement)
    case VisitBlockBody => Some(VisitFunctionBody)
    case VisitExpressionBody => Some(VisitFunctionBody)
    case VisitPropertyDeclaration => Some(VisitDeclaration)
    case VisitDestructuringEntry => Some(VisitElement)
    case VisitPropertyGetter => Some(VisitElement)
    case VisitPropertySetter => Some(VisitElement)
    case VisitTypeAliasDeclaration => Some(VisitDeclaration)
    case VisitConstructor => Some(VisitDeclaration)
    case VisitConstructorDelegationCall => Some(VisitElement)
    case VisitEnumEntry => Some(VisitDeclaration)
    case VisitTypeParameter => Some(VisitElement)
    case VisitTypeConstraint => Some(VisitElement)
    case VisitTypeRef => Some(VisitElement)
    case VisitFunctionalType => Some(VisitTypeRef)
    case VisitFunctionalTypeParameter => Some(VisitElement)
    case VisitSimpleType => Some(VisitTypeRef)
    case VisitSimpleTypePiece => Some(VisitElement)
    case VisitNullableType => Some(VisitTypeRef)
    case VisitDynamicType => Some(VisitTypeRef)
    case VisitTypeOrWildcard => Some(VisitElement)
    case VisitType => Some(VisitTypeOrWildcard)
    case VisitWildcard => Some(VisitTypeOrWildcard)
    case VisitValueArgument => Some(VisitElement)
    case VisitExpression => Some(VisitElement)
    case VisitIfExpression => Some(VisitExpression)
    case VisitTryExpression => Some(VisitExpression)
    case VisitCatch => Some(VisitElement)
    case VisitForLoop => Some(VisitExpression)
    case VisitWhileLoop => Some(VisitExpression)
    case VisitDoWhileLoop => Some(VisitExpression)
    case VisitBinaryExpression => Some(VisitExpression)
    case VisitBinaryOperatorOrInfixCall => Some(VisitElement)
    case VisitInfixFunctionName => Some(VisitBinaryOperatorOrInfixCall)
    case VisitBinaryOperator => Some(VisitBinaryOperatorOrInfixCall)
    case VisitUnaryExpression => Some(VisitExpression)
    case VisitUnaryOperator => Some(VisitElement)
    case VisitTypeExpression => Some(VisitExpression)
    case VisitTypeOperator => Some(VisitElement)
    case VisitReferenceExpression => Some(VisitExpression)
    case VisitCallableReferenceExpression => Some(VisitReferenceExpression)
    case VisitClassReferenceExpression => Some(VisitReferenceExpression)
    case VisitReferenceReceiver => Some(VisitElement)
    case VisitReferenceExpressionReceiver => Some(VisitReferenceReceiver)
    case VisitReferenceTypeExpression => Some(VisitReferenceReceiver)
    case VisitConstantExpression => Some(VisitExpression)
    case VisitLambdaLiteral => Some(VisitExpression)
    case VisitLambdaParameter => Some(VisitExpression)
    case VisitThisReference => Some(VisitExpression)
    case VisitSuperReference => Some(VisitExpression)
    case VisitWhenExpression => Some(VisitExpression)
    case VisitWhenEntry => Some(VisitElement)
    case VisitWhenCondition => Some(VisitElement)
    case VisitWhenExpressionCondition => Some(VisitWhenCondition)
    case VisitWhenInCondition => Some(VisitWhenCondition)
    case VisitWhenIsCondition => Some(VisitWhenCondition)
    case VisitAnonymousObjectExpression => Some(VisitExpression)
    case VisitThrowStatement => Some(VisitExpression)
    case VisitReturnStatement => Some(VisitExpression)
    case VisitContinueStatement => Some(VisitExpression)
    case VisitBreakStatement => Some(VisitExpression)
    case VisitCollectionLiteral => Some(VisitExpression)
    case VisitIdentifier => Some(VisitExpression)
    case VisitLabelledExpression => Some(VisitExpression)
    case VisitAnnotatedExpression => Some(VisitExpression)
    case VisitCallExpression => Some(VisitExpression)
    case VisitTrailingLambda => Some(VisitElement)
    case VisitArrayAccessExpression => Some(VisitExpression)
    case VisitAnonymousFunctionExpression => Some(VisitExpression)
    case VisitPropertyExpression => Some(VisitExpression)
    case VisitBlock => Some(VisitElement)
    case VisitModifierOrAnnotation => Some(VisitElement)
    case VisitAnnotation => Some(VisitModifierOrAnnotation)
    case VisitModifier => Some(VisitModifierOrAnnotation)
  }

  // ---------------------------------------------------------------------
  // Fallback chains

  /** No chain is longer than this many hops. */
  const MaxHops: nat := 3

  /** `visitElement` is the only hook without a default body. */
  lemma OnlyElementIsAbstract(h: Hook)
    ensures Fallback(h).None? <==> h == VisitElement
  {
  }

  /**
   * How many fallbacks separate each hook from `visitElement`: the family
   * hooks sit one hop away, the hooks of single kinds two (three for the
   * two reference-expression hooks, which go through
   * `visitReferenceExpression` and then `visitExpression`).
   */
  function Depth(h: Hook): (d: nat)
    ensures d <= MaxHops
  {
    match h
    case VisitElement => 0
    case VisitFile => 1
    case VisitScript => 1
    case VisitPackage => 1
    case VisitImport => 1
    case VisitDeclaration => 1
    case VisitClassDeclaration => 2
    case VisitClassParent => 1
    case VisitSuperClassConstructorCall => 2
    case VisitSuperInterfaceType => 2
    case VisitPrimaryConstructor => 1
    case VisitInitBlock => 2
    case VisitFunction => 2
    case VisitValueParameter => 1
    case VisitFunctionBody => 1
    case VisitBlockBody => 2
    case VisitExpressionBody => 2
    case VisitPropertyDeclaration => 2
    case VisitDestructuringEntry => 1
    case VisitPropertyGetter => 1
    case VisitPropertySetter => 1
    case VisitTypeAliasDeclaration => 2
    case VisitConstructor => 2
    case VisitConstructorDelegationCall => 1
    case VisitEnumEntry => 2
    case VisitTypeParameter => 1
    case VisitTypeConstraint => 1
    case VisitTypeRef => 1
    case VisitFunctionalType => 2
    case VisitFunctionalTypeParameter => 1
    case VisitSimpleType => 2
    case VisitSimpleTypePiece => 1
    case VisitNullableType => 2
    case VisitDynamicType => 2
    case VisitTypeOrWildcard => 1
    case VisitType => 2
    case VisitWildcard => 2
    case VisitValueArgument => 1
    case VisitExpression => 1
    case VisitIfExpression => 2
    case VisitTryExpression => 2
    case VisitCatch => 1
    case VisitForLoop => 2
    case VisitWhileLoop => 2
    case VisitDoWhileLoop => 2
    case VisitBinaryExpression => 2
    case VisitBinaryOperatorOrInfixCall => 1
    case VisitInfixFunctionName => 2
    case VisitBinaryOperator => 2
    case VisitUnaryExpression => 2
    case VisitUnaryOperator => 1
    case VisitTypeExpression => 2
    case VisitTypeOperator => 1
    case VisitReferenceExpression => 2
    case VisitCallableReferenceExpression => 3
    case VisitClassReferenceExpression => 3
    case VisitReferenceReceiver => 1
    case VisitReferenceExpressionReceiver => 2
    case VisitReferenceTypeExpression => 2
    case VisitConstantExpression => 2
    case VisitLambdaLiteral => 2
    case VisitLambdaParameter => 2
    case VisitThisReference => 2
    case VisitSuperReference => 2
    case VisitWhenExpression => 2
    case VisitWhenEntry => 1
    case VisitWhenCondition => 1
    case VisitWhenExpressionCondition => 2
    case VisitWhenInCondition => 2
    case VisitWhenIsCondition => 2
    case VisitAnonymousObjectExpression => 2
    case VisitThrowStatement => 2
    case VisitReturnStatement => 2
    case VisitContinueStatement => 2
    case VisitBreakStatement => 2
    case VisitCollectionLiteral => 2
    case VisitIdentifier => 2
    case VisitLabelledExpression => 2
    case VisitAnnotatedExpression => 2
    case VisitCallExpression => 2
    case VisitTrailingLambda => 1
    case VisitArrayAccessExpression => 2
    case VisitAnonymousFunctionExpression => 2
    case VisitPropertyExpression => 2
    case VisitBlock => 1
    case VisitModifierOrAnnotation => 1
    case VisitAnnotation => 2
    case VisitModifier => 2
  }

  /** Every default forwards to one of these twelve hooks. */
  lemma FallbackTargets(h: Hook)
    ensures Fallback(h).Some? ==>
      Fallback(h).value in {VisitElement, VisitDeclaration, VisitClassParent,
                            VisitFunctionBody, VisitTypeRef, VisitTypeOrWildcard,
                            VisitExpression, VisitBinaryOperatorOrInfixCall,
                            VisitReferenceExpression, VisitReferenceReceiver,
                            VisitWhenCondition, VisitModifierOrAnnotation}
  {
  }

  /**
   * Every default forwards to a hook exactly one level closer to
   * `visitElement`. This is the ranking that makes the fallback relation
   * well-founded.
   */
  lemma FallbackLowersDepth(h: Hook)
    ensures Fallback(h).Some? ==> Depth(Fallback(h).value) == Depth(h) - 1
    ensures Fallback(h).None? ==> Depth(h) == 0
  {
    FallbackTargets(h);
    match Fallback(h)
    case None =>
    case Some(t) =>
      if t == VisitElement {
        FallsToElement(h);
      } else if t == VisitDeclaration {
        FallsToDeclaration(h);
      } else if t == VisitClassParent {
        FallsToClassParent(h);
      } else if t == VisitFunctionBody {
        FallsToFunctionBody(h);
      } else if t == VisitTypeRef {
        FallsToTypeRef(h);
      } else if t == VisitTypeOrWildcard {
        FallsToTypeOrWildcard(h);
      } else if t == VisitExpression {
        FallsToExpression(h);
      } else if t == VisitBinaryOperatorOrInfixCall {
        FallsToBinaryOperatorOrInfixCall(h);
      } else if t == VisitReferenceExpression {
        FallsToReferenceExpression(h);
      } else if t == VisitReferenceReceiver {
        FallsToReferenceReceiver(h);
      } else if t == VisitWhenCondition {
        FallsToWhenCondition(h);
      } else {
        FallsToModifierOrAnnotation(h);
      }
  }

  // One lemma per fallback target: the hooks forwarding to it sit one level below it.

  lemma FallsToElement(h: Hook)
    requires Fallback(h) == Some(VisitElement)
    ensures Depth(h) == Depth(VisitElement) + 1
  {
  }

  lemma FallsToDeclaration(h: Hook)
    requires Fallback(h) == Some(VisitDeclaration)
    ensures Depth(h) == Depth(VisitDeclaration) + 1
  {
  }

  lemma FallsToClassParent(h: Hook)
    requires Fallback(h) == Some(VisitClassParent)
    ensures Depth(h) == Depth(VisitClassParent) + 1
  {
  }

  lemma FallsToFunctionBody(h: Hook)
    requires Fallback(h) == Some(VisitFunctionBody)
    ensures Depth(h) == Depth(VisitFunctionBody) + 1
  {
  }

  lemma FallsToTypeRef(h: Hook)
    requires Fallback(h) == Some(VisitTypeRef)
    ensures Depth(h) == Depth(VisitTypeRef) + 1
  {
  }

  lemma FallsToTypeOrWildcard(h: Hook)
    requires Fallback(h) == Some(VisitTypeOrWildcard)
    ensures Depth(h) == Depth(VisitTypeOrWildcard) + 1
  {
  }

  lemma FallsToExpression(h: Hook)
    requires Fallback(h) == Some(VisitExpression)
    ensures Depth(h) == Depth(VisitExpression) + 1
  {
  }

  lemma FallsToBinaryOperatorOrInfixCall(h: Hook)
    requires Fallback(h) == Some(VisitBinaryOperatorOrInfixCall)
    ensures Depth(h) == Depth(VisitBinaryOperatorOrInfixCall) + 1
  {
  }

  lemma FallsToReferenceExpression(h: Hook)
    requires Fallback(h) == Some(VisitReferenceExpression)
    ensures Depth(h) == Depth(VisitReferenceExpression) + 1
  {
  }

  lemma FallsToReferenceReceiver(h: Hook)
    requires Fallback(h) == Some(VisitReferenceReceiver)
    ensures Depth(h) == Depth(VisitReferenceReceiver) + 1
  {
  }

  lemma FallsToWhenCondition(h: Hook)
    requires Fallback(h) == Some(VisitWhenCondition)
    ensures Depth(h) == Depth(VisitWhenCondition) + 1
  {
  }

  lemma FallsToModifierOrAnnotation(h: Hook)
    requires Fallback(h) == Some(VisitModifierOrAnnotation)
    ensures Depth(h) == Depth(VisitModifierOrAnnotation) + 1
  {
  }

  /**
   * The hooks a call to `h` passes through when none of them is
   * overridden: every link is a fallback edge and the chain ends at
   * `visitElement`, the one hook with no default.
   */
  function Chain(h: Hook): (c: seq<Hook>)
    ensures |c| == Depth(h) + 1 && c[0] == h
    ensures c[|c| - 1] == VisitElement
    decreases Depth(h)
  {
    FallbackLowersDepth(h);
    match Fallback(h)
    case None =>
      OnlyElementIsAbstract(h);
      [h]
    case Some(g) => [h] + Chain(g)
  }

  /** A chain is its first hook followed by the chain of that hook's fallback. */
  lemma ChainStep(h: Hook, g: Hook)
    requires Fallback(h) == Some(g)
    ensures Chain(h) == [h] + Chain(g)
  {
  }

  /** Each hook on a chain forwards to the next one. */
  lemma {:induction false} ChainLinks(h: Hook)
    ensures forall i :: 0 <= i < |Chain(h)| - 1 ==> Fallback(Chain(h)[i]) == Some(Chain(h)[i + 1])
    decreases Depth(h)
  {
    FallbackLowersDepth(h);
    if Fallback(h).Some? {
      ChainLinks(Fallback(h).value);
    }
  }

  /** The hook reached from `h` after `k` fallbacks, if the chain is that long. */
  function Reach(h: Hook, k: nat): Option<Hook>
    decreases k
  {
    if k == 0 then Some(h)
    else if Fallback(h).None? then None
    else Reach(Fallback(h).value, k - 1)
  }

  /** `k` fallbacks from `h` land `k` levels closer to `visitElement`. */
  lemma {:induction false} ReachLowersDepth(h: Hook, k: nat, g: Hook)
    requires Reach(h, k) == Some(g)
    ensures Depth(g) + k == Depth(h)
    decreases k
  {
    if k > 0 {
      FallbackLowersDepth(h);
      ReachLowersDepth(Fallback(h).value, k - 1, g);
    }
  }

  /** The fallback relation has no cycle: no chain of one or more hops returns to its start. */
  lemma Acyclic(h: Hook, k: nat)
    requires k >= 1
    ensures Reach(h, k) != Some(h)
  {
    if Reach(h, k) == Some(h) {
      ReachLowersDepth(h, k, h);
    }
  }

  /** The chain lists exactly the hooks reached by 0, 1, 2, ... fallbacks. */
  lemma {:induction false} ReachAlongChain(h: Hook, k: nat)
    ensures k < |Chain(h)| ==> Reach(h, k) == Some(Chain(h)[k])
    ensures k >= |Chain(h)| ==> Reach(h, k) == None
    decreases k
  {
    if k > 0 {
      FallbackLowersDepth(h);
      match Fallback(h)
      case None =>
        assert |Chain(h)| == 1;
      case Some(g) =>
        assert Chain(h) == [h] + Chain(g);
        ReachAlongChain(g, k - 1);
    }
  }

  /**
   * Every hook reaches `visitElement` in exactly `Depth(h)` hops, at most
   * three, and the chain stops there.
   */
  lemma ReachesElement(h: Hook)
    ensures Depth(h) <= MaxHops
    ensures Reach(h, Depth(h)) == Some(VisitElement)
    ensures Reach(h, Depth(h) + 1) == None
  {
    ReachAlongChain(h, Depth(h));
    ReachAlongChain(h, Depth(h) + 1);
  }

  /** Hooks along a chain sit at strictly decreasing depths, so none repeats. */
  lemma {:induction false} ChainDistinct(h: Hook)
    ensures forall i :: 0 <= i < |Chain(h)| ==> Depth(Chain(h)[i]) == Depth(h) - i
    ensures forall i, j :: 0 <= i < j < |Chain(h)| ==> Chain(h)[i] != Chain(h)[j]
    decreases Depth(h)
  {
    FallbackLowersDepth(h);
    if Fallback(h).Some? {
      ChainDistinct(Fallback(h).value);
    }
  }

  // ---------------------------------------------------------------------
  // Dispatch on a visitor with overridden hooks

  /**
   * The hooks a call to `h` enters on a visitor that overrides exactly the
   * hooks in `overrides`: default bodies forward along the chain until the
   * first overridden hook, whose body runs instead. `visitElement` is
   * abstract, so every concrete visitor overrides it.
   */
  function Resolution(h: Hook, overrides: set<Hook>): (r: seq<Hook>)
    requires VisitElement in overrides
    ensures 1 <= |r| <= |Chain(h)| && r == Chain(h)[..|r|]
    ensures r[|r| - 1] in overrides
    ensures forall i :: 0 <= i < |r| - 1 ==> r[i] !in overrides
    decreases Depth(h)
  {
    if h in overrides then [h]
    else
      OnlyElementIsAbstract(h);
      FallbackLowersDepth(h);
      [h] + Resolution(Fallback(h).value, overrides)
  }

  /** The one hook whose overriding body runs when `h` is called. */
  function Handler(h: Hook, overrides: set<Hook>): (r: Hook)
    requires VisitElement in overrides
    ensures r in overrides && r in Chain(h)
  {
    var trace := Resolution(h, overrides);
    trace[|trace| - 1]
  }

  /** A visitor overriding only `visitElement` runs the whole chain and then `visitElement`. */
  lemma ElementOnlyVisitor(h: Hook)
    ensures Resolution(h, {VisitElement}) == Chain(h)
    ensures Handler(h, {VisitElement}) == VisitElement
  {
    ChainDistinct(h);
  }

  /**
   * The search stops at the first overridden hook: if the hook `k` hops
   * down the chain is overridden, at most `k` defaults forward before a
   * body runs.
   */
  lemma {:induction false} ResolutionStopsAt(h: Hook, overrides: set<Hook>, k: nat)
    requires VisitElement in overrides
    requires k < |Chain(h)| && Chain(h)[k] in overrides
    ensures |Resolution(h, overrides)| <= k + 1
    decreases k
  {
    if h !in overrides {
      OnlyElementIsAbstract(h);
      var g := Fallback(h).value;
      ChainStep(h, g);
      ResolutionStopsAt(g, overrides, k - 1);
    }
  }

  /**
   * Overriding any one hook `g` on the chain of `h` (besides the
   * mandatory `visitElement`) makes `g` the handler: the chain is searched
   * in order and `visitElement` comes last.
   */
  lemma OverrideOnChain(h: Hook, g: Hook)
    requires g in Chain(h)
    ensures Handler(h, {g, VisitElement}) == g
  {
    var c := Chain(h);
    var k :| 0 <= k < |c| && c[k] == g;
    ChainUnique(h);
    forall i | 0 <= i < k
      ensures c[i] !in {g, VisitElement}
    {
      // Entries are distinct, and visitElement is the last one.
      assert c[i] != c[k] && c[i] != c[|c| - 1];
    }
    FirstOverrideRuns(h, {g, VisitElement}, k);
  }

  /** The body that runs is the first override met along the chain. */
  lemma FirstOverrideRuns(h: Hook, overrides: set<Hook>, k: nat)
    requires VisitElement in overrides
    requires k < |Chain(h)| && Chain(h)[k] in overrides
    requires forall i :: 0 <= i < k ==> Chain(h)[i] !in overrides
    ensures Handler(h, overrides) == Chain(h)[k]
  {
    var r := Resolution(h, overrides);
    ResolutionStopsAt(h, overrides, k);
    var j := |r| - 1;
    assert r[j] == Chain(h)[j] && r[j] in overrides;
    assert j == k;
  }

  /** No hook occurs twice in a chain. */
  lemma ChainUnique(h: Hook)
    ensures forall i, j :: 0 <= i < j < |Chain(h)| ==> Chain(h)[i] != Chain(h)[j]
  {
    ChainDistinct(h);
  }

  /** Overriding the hook a hook falls back to catches the calls to the hook. */
  lemma FallbackTargetHandles(h: Hook, g: Hook)
    requires Fallback(h) == Some(g)
    ensures Handler(h, {g, VisitElement}) == g
  {
    ChainStep(h, g);
    assert Chain(h)[1] == g;
    OverrideOnChain(h, g);
  }

  // ---------------------------------------------------------------------
  // The families of visitor.kt

  /** The declaration hooks: they fall back to `visitDeclaration`, and only they do. */
  lemma DeclarationHooks(h: Hook)
    ensures Fallback(h) == Some(VisitDeclaration) <==>
      h in {VisitClassDeclaration, VisitInitBlock, VisitFunction, VisitPropertyDeclaration,
            VisitTypeAliasDeclaration, VisitConstructor, VisitEnumEntry}
    ensures Fallback(VisitDeclaration) == Some(VisitElement)
  {
  }

  /** The type-reference hooks fall back to `visitTypeRef`; `visitType` goes through `visitTypeOrWildcard`. */
  lemma TypeRefHooks(h: Hook)
    ensures Fallback(h) == Some(VisitTypeRef) <==>
      h in {VisitFunctionalType, VisitSimpleType, VisitNullableType, VisitDynamicType}
  {
  }

  /** The hooks whose parameter type extends `Expression` directly. */
  predicate InExpressionFamily(h: Hook)
  {
    match h
    case VisitIfExpression | VisitTryExpression | VisitForLoop | VisitWhileLoop | VisitDoWhileLoop |
      VisitBinaryExpression | VisitUnaryExpression | VisitTypeExpression | VisitReferenceExpression |
      VisitConstantExpression | VisitLambdaLiteral | VisitLambdaParameter | VisitThisReference |
      VisitSuperReference | VisitWhenExpression | VisitAnonymousObjectExpression |
      VisitThrowStatement | VisitReturnStatement | VisitContinueStatement | VisitBreakStatement |
      VisitCollectionLiteral | VisitIdentifier | VisitLabelledExpression | VisitAnnotatedExpression |
      VisitCallExpression | VisitArrayAccessExpression | VisitAnonymousFunctionExpression |
      VisitPropertyExpression => true
    case _ => false
  }

  /** The expression hooks: they fall back to `visitExpression`, and only they do. */
  lemma ExpressionHooks(h: Hook)
    ensures Fallback(h) == Some(VisitExpression) <==> InExpressionFamily(h)
  {
  }

  /**
   * The hooks of auxiliary parts go straight to `visitElement`, although
   * the parts sit inside expressions.
   */
  lemma AuxiliaryHooks(h: Hook)
    requires h in {VisitCatch, VisitWhenEntry, VisitTrailingLambda, VisitBlock}
    ensures Fallback(h) == Some(VisitElement) && Chain(h) == [h, VisitElement]
  {
    FallbackLowersDepth(h);
    ChainStep(h, VisitElement);
  }

  /** `visitType` reaches `visitElement` through `visitTypeOrWildcard`, not through `visitTypeRef`. */
  lemma TypeChain()
    ensures Chain(VisitType) == [VisitType, VisitTypeOrWildcard, VisitElement]
  {
  }

  /**
   * The two reference-expression hooks are exactly the ones three hops from
   * `visitElement`, through `visitReferenceExpression` and `visitExpression`.
   */
  lemma DeepestHooks(h: Hook)
    ensures Depth(h) == MaxHops <==> h in {VisitCallableReferenceExpression, VisitClassReferenceExpression}
  {
  }

  /** The chain of a reference-expression hook. */
  lemma ReferenceHookChain(h: Hook)
    requires Fallback(h) == Some(VisitReferenceExpression)
    ensures Chain(h) == [h, VisitReferenceExpression, VisitExpression, VisitElement]
  {
    ReferenceChain();
    ChainStep(h, VisitReferenceExpression);
  }

  /** `visitReferenceExpression` forwards to `visitExpression`, which forwards to `visitElement`. */
  lemma ReferenceChain()
    ensures Chain(VisitReferenceExpression) == [VisitReferenceExpression, VisitExpression, VisitElement]
  {
  }
}

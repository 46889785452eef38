/**
 * `accept` in ast.kt and the visitor it calls into. Each class's `accept`
 * calls one visitor method, by name, and nothing else; only 22 of those
 * names are hooks of visitor.kt; the others (`visitClass`, `visitFunc`, ...)
 * are not declared by visitor.kt. Where a hook is called, its fallback
 * chain and the overriding body that runs are known.
 */
module Dispatch {
  import opened Wrappers
  import opened Visitor
  import opened Classes
  import Ast

  /** The method `accept` calls: a hook of visitor.kt, or a name visitor.kt does not declare. */
  datatype Target = Declared(hook: Hook) | Undeclared(name: string)

  /** The name of the method called. */
  function TargetName(t: Target): string
  {
    match t
    case Declared(h) => HookName(h)
    case Undeclared(name) => name
  }

  /** The one method `accept` calls, for each class. */
  function AcceptTarget(k: Kind): (r: Target)
    ensures r.Declared? ==> Fallback(r.hook).Some?
  {
    match AcceptHook(k)
    case Some(h) => Declared(h)
    case None => Undeclared(UndeclaredName(k))
  }

  /** The hook `accept` calls, for the classes whose `accept` calls one visitor.kt declares. */
  function AcceptHook(k: Kind): (r: Option<Hook>)
    ensures r.Some? ==> r.value != VisitElement
  {
    match k
    case File => Some(VisitFile)
    case Script => Some(VisitScript)
    case Package => Some(VisitPackage)
    case Import => Some(VisitImport)
    case PrimaryConstructor => Some(VisitPrimaryConstructor)
    case Constructor => Some(VisitConstructor)
    case DelegationCall => Some(VisitConstructorDelegationCall)
    case EnumEntry => Some(VisitEnumEntry)
    case Getter => Some(VisitPropertyGetter)
    case Setter => Some(VisitPropertySetter)
    case TypeConstraint => Some(VisitTypeConstraint)
    case SimpleType => Some(VisitSimpleType)
    case SimpleTypePiece => Some(VisitSimpleTypePiece)
    case NullableType => Some(VisitNullableType)
    case DynamicType => Some(VisitDynamicType)
    case Type => Some(VisitType)
    case Catch => Some(VisitCatch)
    case WhenEntry => Some(VisitWhenEntry)
    case TrailingLambda => Some(VisitTrailingLambda)
    case PropertyExpression => Some(VisitPropertyExpression)
    case Block => Some(VisitBlock)
    case Annotation => Some(VisitAnnotation)
    case _ => None
  }

  /** The method `accept` calls, for the classes whose `accept` calls a name visitor.kt does not declare. */
  function UndeclaredName(k: Kind): string
    requires AcceptHook(k).None?
  {
    match k
    case ClassDeclaration => "visitClass"
    case SuperClassConstructorCall => "visitClassParentConstructorCall"
    case InterfaceType => "visitClassParentInterfaceType"
    case InitBlock => "visitInitDecl"
    case FunctionDeclaration => "visitFunc"
    case ValueParameter => "visitFunctionParam"
    case BlockBody => "visitFunctionBlockBody"
    case ExpressionBody => "visitFunctionExprBody"
    case PropertyDeclaration => "visitProperty"
    case DestructuringEntry => "visitPropertyVar"
    case TypeAliasDeclaration => "visitTypeAlias"
    case TypeParameter => "visitTypeParam"
    case FunctionalType => "visitFuncType"
    case FunctionalTypeParam => "visitFuncTypeParam"
    case TypeWithModifiers => "visitParenType"
    case ValueArgument => "visitValueArg"
    case IfExpression => "visitIfExpr"
    case TryExpression => "visitTryExpr"
    case ForLoop => "visitForStmt"
    case WhileLoop => "visitWhileStmt"
    case DoWhileLoop => "visitDoWhileStmt"
    case BinaryExpression => "visitBinaryOp"
    case InfixFunctionName => "visitInfixBinaryOpOper"
    case BinaryOperator => "visitTokenBinaryOpOper"
    case UnaryExpression => "visitUnaryOp"
    case UnaryOperator => "visitUnaryOpOper"
    case TypeExpression => "visitTypeOp"
    case TypeOperator => "visitTypeOpOper"
    case CallableReferenceExpression => "visitDoubleColonCallable"
    case ClassReferenceExpression => "visitDoubleColonClass"
    case ExpressionReceiver => "visitDoubleColonExprRecv"
    case TypeReceiver => "visitDoubleColonTypeRecv"
    case ConstantExpression => "visitConst"
    case LambdaLiteral => "visitLambda"
    case LambdaParam => "visitLambdaParam"
    case ThisReference => "visitThis"
    case SuperReference => "visitSuper"
    case WhenExpression => "visitWhen"
    case ExpressionCondition => "visitWhenExprCond"
    case InCondition => "visitWhenInCond"
    case IsCondition => "visitWhenIsCond"
    case ObjectDeclaration => "visitObjectExpr"
    case ThrowStatement => "visitThrowExpr"
    case ReturnStatement => "visitReturnExpr"
    case ContinueStatement => "visitContinueExpr"
    case BreakStatement => "visitBreakExpr"
    case CollectionLiteral => "visitCollectionLiteralExpr"
    case Identifier => "visitNameExpr"
    case LabelledExpression => "visitLabelledExpr"
    case AnnotatedExpression => "visitAnnotatedExpr"
    case CallExpression => "visitCallExpr"
    case ArrayAccessExpression => "visitArrayAccess"
    case AnonymousFunctionExpression => "visitAnonymousFunction"
    case Modifier => "visitIdentifierLikeModifier"
    case _ => assert false; ""
  }

  /** The hook named after each sealed class of ast.kt. */
  function SuperclassHook(s: Superclass): Hook
  {
    match s
    case ElementClass => VisitElement
    case Declaration => VisitDeclaration
    case ClassParent => VisitClassParent
    case FunctionBody => VisitFunctionBody
    case TypeRef => VisitTypeRef
    case Expression => VisitExpression
    case ReferenceExpression => VisitReferenceExpression
    case BinaryOperatorOrInfixCall => VisitBinaryOperatorOrInfixCall
    case ReferenceReceiver => VisitReferenceReceiver
    case WhenCondition => VisitWhenCondition
    case ModifierOrAnnotation => VisitModifierOrAnnotation
  }

  /** The classes whose `accept` calls a hook visitor.kt declares: the names the two files share. */
  predicate SharedName(k: Kind)
  {
    match k
    case File | Script | Package | Import | PrimaryConstructor | Constructor | DelegationCall |
      EnumEntry | Getter | Setter | TypeConstraint | SimpleType | SimpleTypePiece | NullableType |
      DynamicType | Type | Catch | WhenEntry | TrailingLambda | PropertyExpression | Block |
      Annotation => true
    case _ => false
  }

  /** `SharedName` picks out exactly the classes whose target is declared. */
  lemma DeclaredKinds(k: Kind)
    ensures AcceptTarget(k).Declared? <==> SharedName(k)
  {
  }

  // ---------------------------------------------------------------------
  // The two files agree on the families

  /**
   * Where a class's `accept` calls a declared hook, that hook falls back to
   * the hook of the class's superclass. The one exception is `Type`: it
   * extends `Element`, but `visitType` falls back to `visitTypeOrWildcard`.
   */
  lemma DeclaredHookFallsToSuperclass(k: Kind)
    requires AcceptTarget(k).Declared?
    ensures k != Kind.Type ==> Fallback(AcceptTarget(k).hook) == Some(SuperclassHook(SuperclassOf(k)))
    ensures k == Kind.Type ==>
      SuperclassOf(k) == ElementClass && Fallback(AcceptTarget(k).hook) == Some(VisitTypeOrWildcard)
  {
    DeclaredSuperclasses(k);
    if k != Kind.Type {
      match SuperclassOf(k)
      case ElementClass => ElementClassAgrees(k);
      case Declaration => DeclarationAgrees(k);
      case TypeRef => TypeRefAgrees(k);
      case Expression => ExpressionAgrees(k);
      case ModifierOrAnnotation => ModifierOrAnnotationAgrees(k);
    }
  }

  /** Declared hooks are called only by classes of these five families. */
  lemma DeclaredSuperclasses(k: Kind)
    requires AcceptTarget(k).Declared?
    ensures SuperclassOf(k) in {ElementClass, Declaration, TypeRef, Expression, ModifierOrAnnotation}
  {
  }

  // One lemma per family keeps each check small.

  lemma ElementClassAgrees(k: Kind)
    requires SuperclassOf(k) == ElementClass && AcceptTarget(k).Declared? && k != Kind.Type
    ensures Fallback(AcceptTarget(k).hook) == Some(VisitElement)
  {
    if k.File? || k.Script? || k.Package? || k.Import? || k.PrimaryConstructor? || k.DelegationCall? || k.Getter? {
      ElementClassAgreesFirst(k);
    } else {
      ElementClassAgreesSecond(k);
    }
  }

  lemma ElementClassAgreesFirst(k: Kind)
    requires k.File? || k.Script? || k.Package? || k.Import? || k.PrimaryConstructor? || k.DelegationCall? || k.Getter?
    ensures Fallback(AcceptTarget(k).hook) == Some(VisitElement)
  {
  }

  lemma ElementClassAgreesSecond(k: Kind)
    requires SuperclassOf(k) == ElementClass && AcceptTarget(k).Declared? && k != Kind.Type
    requires !(k.File? || k.Script? || k.Package? || k.Import? || k.PrimaryConstructor? || k.DelegationCall? || k.Getter?)
    ensures Fallback(AcceptTarget(k).hook) == Some(VisitElement)
  {
  }

  lemma DeclarationAgrees(k: Kind)
    requires SuperclassOf(k) == Declaration && AcceptTarget(k).Declared? && k != Kind.Type
    ensures Fallback(AcceptTarget(k).hook) == Some(VisitDeclaration)
  {
  }

  lemma TypeRefAgrees(k: Kind)
    requires SuperclassOf(k) == TypeRef && AcceptTarget(k).Declared? && k != Kind.Type
    ensures Fallback(AcceptTarget(k).hook) == Some(VisitTypeRef)
  {
  }

  lemma ExpressionAgrees(k: Kind)
    requires SuperclassOf(k) == Expression && AcceptTarget(k).Declared? && k != Kind.Type
    ensures Fallback(AcceptTarget(k).hook) == Some(VisitExpression)
  {
  }

  lemma ModifierOrAnnotationAgrees(k: Kind)
    requires SuperclassOf(k) == ModifierOrAnnotation && AcceptTarget(k).Declared? && k != Kind.Type
    ensures Fallback(AcceptTarget(k).hook) == Some(VisitModifierOrAnnotation)
  {
  }

  // ---------------------------------------------------------------------
  // Names visitor.kt does not declare

  /** `ClassDeclaration.accept` calls `visitClass`, which is not a hook of visitor.kt. */
  lemma ClassDeclarationTargetUndeclared()
    ensures AcceptTarget(ClassDeclaration) == Undeclared("visitClass")
    ensures forall h :: HookName(h) != TargetName(AcceptTarget(ClassDeclaration))
  {
  }

  /** `FunctionDeclaration.accept` calls `visitFunc`, which is not a hook of visitor.kt. */
  lemma FunctionDeclarationTargetUndeclared()
    ensures AcceptTarget(FunctionDeclaration) == Undeclared("visitFunc")
    ensures forall h :: HookName(h) != TargetName(AcceptTarget(FunctionDeclaration))
  {
  }

  /** `TypeWithModifiers.accept` calls `visitParenType`, which is not a hook of visitor.kt. */
  lemma TypeWithModifiersTargetUndeclared()
    ensures AcceptTarget(TypeWithModifiers) == Undeclared("visitParenType")
    ensures forall h :: HookName(h) != TargetName(AcceptTarget(TypeWithModifiers))
  {
  }

  /** `Modifier.accept` calls `visitIdentifierLikeModifier`, which is not a hook of visitor.kt. */
  lemma ModifierTargetUndeclared()
    ensures AcceptTarget(Modifier) == Undeclared("visitIdentifierLikeModifier")
    ensures forall h :: HookName(h) != TargetName(AcceptTarget(Modifier))
  {
  }

  // ---------------------------------------------------------------------
  // Which body runs

  /**
   * The overriding body that runs when `accept` is called on `n`, on a
   * visitor overriding `overrides`; `None` when `accept` calls a method
   * visitor.kt does not declare.
   */
  function NodeHandler(n: Ast.Node, overrides: set<Hook>): (r: Option<Hook>)
    requires VisitElement in overrides
    ensures r.Some? <==> AcceptTarget(Ast.KindOf(n)).Declared?
    ensures r.Some? ==> r.value in overrides && r.value in Chain(AcceptTarget(Ast.KindOf(n)).hook)
  {
    match AcceptTarget(Ast.KindOf(n))
    case Declared(h) => Some(Handler(h, overrides))
    case Undeclared(_) => None
  }

  /**
   * A visitor that overrides the hook of a family (and the mandatory
   * `visitElement`) handles every class of that family whose `accept` calls
   * a declared hook, `Type` aside.
   */
  lemma FamilyVisitorCatchesFamily(n: Ast.Node)
    requires AcceptTarget(Ast.KindOf(n)).Declared? && Ast.KindOf(n) != Kind.Type
    ensures NodeHandler(n, {SuperclassHook(Ast.SuperclassOfNode(n)), VisitElement}) ==
      Some(SuperclassHook(Ast.SuperclassOfNode(n)))
  {
    var k := Ast.KindOf(n);
    DeclaredHookFallsToSuperclass(k);
    FallbackTargetHandles(AcceptTarget(k).hook, SuperclassHook(SuperclassOf(k)));
  }
}

/**
 * The syntax tree of ast.kt: one `Node` constructor per concrete Kotlin data
 * class, its class and sealed-class family, the child enumeration of every
 * `acceptChildren`, the derived `locus` of wrapper nodes and
 * `WithModifiers.anns`.
 *
 * Field types: a Kotlin element field is a `Node`, a nullable one an
 * `Option<Node>`, a list a `seq<Node>` and a list with nullable entries a
 * `seq<Option<Node>>`. Field names follow the source except where Dafny needs
 * otherwise (`type` is `typ`; a nullable single field is `opt...`).
 */
module Ast {
  import opened Wrappers
  import opened FqNames
  import opened Tokens
  import opened Subsequences
  import Classes

  /** A file name and an offset range; ast.kt does not validate it. */
  datatype Locus = Locus(fileName: string, startOffset: int, endOffset: int)

  datatype ClassKind = Class | EnumClass | Interface | Object | CompanionObject

  datatype DelegationTarget = This | Super

  datatype ConstantForm = StringForm | BooleanForm | CharForm | IntForm | FloatForm | NullForm

  datatype AnnotationTarget = Field | FileTarget | Property | Get | Set | Receiver | Param | SetParam | Delegate

  datatype Keyword =
    | Abstract | Final | Open | AnnotationKw | Sealed | Data | Override | Lateinit | Inner
    | Private | Protected | Public | Internal
    | InKw | Out | Noinline | Crossinline | Vararg | Reified
    | Tailrec | Operator | Infix | Inline | External | Suspend | Const
    | Actual | Expect

  datatype Node =
    // Top-level units, package and import
    | File(locus: Locus, anns: seq<Node>, pkg: Option<Node>, imports: seq<Node>, declarations: seq<Node>)
    | Script(locus: Locus, anns: seq<Node>, pkg: Option<Node>, imports: seq<Node>, exprs: seq<Node>)
    | Package(locus: Locus, fqName: FqName)
    | Import(locus: Locus, fqName: FqName, wildcard: bool, alias: Option<string>)
    // Class declarations and their parts
    | ClassDeclaration(locus: Locus, mods: seq<Node>, kind: ClassKind, name: string,
                       typeParameters: seq<Node>, primaryConstructor: Option<Node>,
                       parentAnns: seq<Node>, parents: seq<Node>, typeConstraints: seq<Node>,
                       members: seq<Node>)
    | SuperClassConstructorCall(locus: Locus, typ: Node, typeArgs: seq<Node>, arguments: seq<Node>,
                                lambda: Option<Node>)
    | InterfaceType(locus: Locus, typ: Node, delegated: Option<Node>)
    | PrimaryConstructor(locus: Locus, mods: seq<Node>, params: seq<Node>)
    | InitBlock(locus: Locus, block: Node)
    | Constructor(locus: Locus, mods: seq<Node>, params: seq<Node>, delegationCall: Option<Node>,
                  optBlock: Option<Node>)
    | DelegationCall(locus: Locus, delegationTarget: DelegationTarget, arguments: seq<Node>)
    | EnumEntry(locus: Locus, mods: seq<Node>, name: string, arguments: seq<Node>, members: seq<Node>)
    // Functions, parameters, bodies
    | FunctionDeclaration(locus: Locus, mods: seq<Node>, typeParameters: seq<Node>,
                          receiverType: Option<Node>, optName: Option<string>, params: seq<Node>,
                          optType: Option<Node>, typeConstraints: seq<Node>, optBody: Option<Node>)
    | ValueParameter(locus: Locus, mods: seq<Node>, isVal: Option<bool>, name: string,
                     optType: Option<Node>, defaultValue: Option<Node>)
    | BlockBody(block: Node)
    | ExpressionBody(expr: Node)
    // Properties
    | PropertyDeclaration(locus: Locus, mods: seq<Node>, readOnly: bool, typeParameters: seq<Node>,
                          receiverType: Option<Node>, vars: seq<Option<Node>>,
                          typeConstraints: seq<Node>, isDelegated: bool, optExpr: Option<Node>,
                          getter: Option<Node>, setter: Option<Node>)
    | DestructuringEntry(locus: Locus, name: string, optType: Option<Node>)
    | Getter(locus: Locus, mods: seq<Node>, optType: Option<Node>, optBody: Option<Node>)
    | Setter(locus: Locus, mods: seq<Node>, paramMods: seq<Node>, paramName: Option<string>,
             paramType: Option<Node>, optBody: Option<Node>)
    | TypeAliasDeclaration(locus: Locus, mods: seq<Node>, name: string, typeParameters: seq<Node>,
                           typ: Node)
    | TypeParameter(locus: Locus, mods: seq<Node>, name: string, optType: Option<Node>)
    | TypeConstraint(locus: Locus, anns: seq<Node>, name: string, typ: Node)
    // Types
    | FunctionalType(locus: Locus, receiverType: Option<Node>, params: seq<Node>, typ: Node)
    | FunctionalTypeParam(locus: Locus, optName: Option<string>, typ: Node)
    | SimpleType(locus: Locus, pieces: seq<Node>)
    | SimpleTypePiece(locus: Locus, name: string, typeParams: seq<Option<Node>>)
    | NullableType(locus: Locus, typ: Node)
    | DynamicType(locus: Locus)
    | TypeWithModifiers(locus: Locus, mods: seq<Node>, typ: Node)
    | Type(locus: Locus, mods: seq<Node>, ref: Node)
    | ValueArgument(locus: Locus, optName: Option<string>, asterisk: bool, expr: Node)
    // Expressions
    | IfExpression(locus: Locus, condition: Node, thenBody: Node, elseBody: Option<Node>)
    | TryExpression(locus: Locus, block: Node, catches: seq<Node>, finallyBlock: Option<Node>)
    | Catch(locus: Locus, anns: seq<Node>, varName: string, varType: Node, block: Node)
    | ForLoop(locus: Locus, anns: seq<Node>, vars: seq<Option<Node>>, inExpr: Node, body: Node)
    | WhileLoop(locus: Locus, condition: Node, body: Node)
    | DoWhileLoop(locus: Locus, body: Node, condition: Node)
    | BinaryExpression(locus: Locus, lhs: Node, oper: Node, rhs: Node)
    | InfixFunctionName(locus: Locus, str: string)
    | BinaryOperator(locus: Locus, binaryToken: BinaryToken)
    | UnaryExpression(locus: Locus, expr: Node, oper: Node, isPrefix: bool)
    | UnaryOperator(locus: Locus, unaryToken: UnaryToken)
    | TypeExpression(locus: Locus, lhs: Node, oper: Node, rhs: Node)
    | TypeOperator(locus: Locus, typeToken: TypeToken)
    | CallableReferenceExpression(locus: Locus, recv: Option<Node>, name: string)
    | ClassReferenceExpression(locus: Locus, recv: Option<Node>)
    | ExpressionReceiver(expr: Node)
    | TypeReceiver(typ: Node, questionMark: bool)
    | ConstantExpression(locus: Locus, value: string, form: ConstantForm)
    | LambdaLiteral(locus: Locus, params: seq<Node>, optBlock: Option<Node>)
    | LambdaParam(locus: Locus, vars: seq<Option<Node>>, destructType: Option<Node>)
    | ThisReference(locus: Locus, optLabel: Option<string>)
    | SuperReference(locus: Locus, typeArg: Option<Node>, optLabel: Option<string>)
    | WhenExpression(locus: Locus, subject: Option<Node>, entries: seq<Node>)
    | WhenEntry(locus: Locus, conds: seq<Node>, body: Node)
    | ExpressionCondition(expr: Node)
    | InCondition(locus: Locus, expr: Node, negated: bool)
    | IsCondition(locus: Locus, typ: Node, negated: bool)
    | ObjectDeclaration(locus: Locus, parents: seq<Node>, members: seq<Node>)
    | ThrowStatement(locus: Locus, expr: Node)
    | ReturnStatement(locus: Locus, optLabel: Option<string>, optExpr: Option<Node>)
    | ContinueStatement(locus: Locus, optLabel: Option<string>)
    | BreakStatement(locus: Locus, optLabel: Option<string>)
    | CollectionLiteral(locus: Locus, exprs: seq<Node>)
    | Identifier(locus: Locus, name: string)
    | LabelledExpression(locus: Locus, labelName: string, expr: Node)
    | AnnotatedExpression(locus: Locus, anns: seq<Node>, expr: Node)
    | CallExpression(locus: Locus, expr: Node, typeArgSlots: seq<Option<Node>>, arguments: seq<Node>,
                     lambda: Option<Node>)
    | TrailingLambda(locus: Locus, anns: seq<Node>, optLabel: Option<string>, func: Node)
    | ArrayAccessExpression(locus: Locus, expr: Node, indices: seq<Node>)
    | AnonymousFunctionExpression(locus: Locus, funDecl: Node)
    | PropertyExpression(declaration: Node)
    // Blocks, modifiers and annotations
    | Block(locus: Locus, stmts: seq<Node>)
    | Annotation(locus: Locus, fqName: FqName, annTarget: Option<AnnotationTarget>,
                 typeArgs: seq<Node>, arguments: seq<Node>)
    | Modifier(locus: Locus, keyword: Keyword)

  // ---------------------------------------------------------------------
  // Classes and sealed-class families

  /** The concrete class of a node, the one `accept` dispatches on. */
  function KindOf(n: Node): Classes.Kind
  {
    match n
    case File(_, _, _, _, _) => Classes.Kind.File
    case Script(_, _, _, _, _) => Classes.Kind.Script
    case Package(_, _) => Classes.Kind.Package
    case Import(_, _, _, _) => Classes.Kind.Import
    case ClassDeclaration(_, _, _, _, _, _, _, _, _, _) => Classes.Kind.ClassDeclaration
    case SuperClassConstructorCall(_, _, _, _, _) => Classes.Kind.SuperClassConstructorCall
    case InterfaceType(_, _, _) => Classes.Kind.InterfaceType
    case PrimaryConstructor(_, _, _) => Classes.Kind.PrimaryConstructor
    case InitBlock(_, _) => Classes.Kind.InitBlock
    case Constructor(_, _, _, _, _) => Classes.Kind.Constructor
    case DelegationCall(_, _, _) => Classes.Kind.DelegationCall
    case EnumEntry(_, _, _, _, _) => Classes.Kind.EnumEntry
    case FunctionDeclaration(_, _, _, _, _, _, _, _, _) => Classes.Kind.FunctionDeclaration
    case ValueParameter(_, _, _, _, _, _) => Classes.Kind.ValueParameter
    case BlockBody(_) => Classes.Kind.BlockBody
    case ExpressionBody(_) => Classes.Kind.ExpressionBody
    case PropertyDeclaration(_, _, _, _, _, _, _, _, _, _, _) => Classes.Kind.PropertyDeclaration
    case DestructuringEntry(_, _, _) => Classes.Kind.DestructuringEntry
    case Getter(_, _, _, _) => Classes.Kind.Getter
    case Setter(_, _, _, _, _, _) => Classes.Kind.Setter
    case TypeAliasDeclaration(_, _, _, _, _) => Classes.Kind.TypeAliasDeclaration
    case TypeParameter(_, _, _, _) => Classes.Kind.TypeParameter
    case TypeConstraint(_, _, _, _) => Classes.Kind.TypeConstraint
    case FunctionalType(_, _, _, _) => Classes.Kind.FunctionalType
    case FunctionalTypeParam(_, _, _) => Classes.Kind.FunctionalTypeParam
    case SimpleType(_, _) => Classes.Kind.SimpleType
    case SimpleTypePiece(_, _, _) => Classes.Kind.SimpleTypePiece
    case NullableType(_, _) => Classes.Kind.NullableType
    case DynamicType(_) => Classes.Kind.DynamicType
    case TypeWithModifiers(_, _, _) => Classes.Kind.TypeWithModifiers
    case Type(_, _, _) => Classes.Kind.Type
    case ValueArgument(_, _, _, _) => Classes.Kind.ValueArgument
    case IfExpression(_, _, _, _) => Classes.Kind.IfExpression
    case TryExpression(_, _, _, _) => Classes.Kind.TryExpression
    case Catch(_, _, _, _, _) => Classes.Kind.Catch
    case ForLoop(_, _, _, _, _) => Classes.Kind.ForLoop
    case WhileLoop(_, _, _) => Classes.Kind.WhileLoop
    case DoWhileLoop(_, _, _) => Classes.Kind.DoWhileLoop
    case BinaryExpression(_, _, _, _) => Classes.Kind.BinaryExpression
    case InfixFunctionName(_, _) => Classes.Kind.InfixFunctionName
    case BinaryOperator(_, _) => Classes.Kind.BinaryOperator
    case UnaryExpression(_, _, _, _) => Classes.Kind.UnaryExpression
    case UnaryOperator(_, _) => Classes.Kind.UnaryOperator
    case TypeExpression(_, _, _, _) => Classes.Kind.TypeExpression
    case TypeOperator(_, _) => Classes.Kind.TypeOperator
    case CallableReferenceExpression(_, _, _) => Classes.Kind.CallableReferenceExpression
    case ClassReferenceExpression(_, _) => Classes.Kind.ClassReferenceExpression
    case ExpressionReceiver(_) => Classes.Kind.ExpressionReceiver
    case TypeReceiver(_, _) => Classes.Kind.TypeReceiver
    case ConstantExpression(_, _, _) => Classes.Kind.ConstantExpression
    case LambdaLiteral(_, _, _) => Classes.Kind.LambdaLiteral
    case LambdaParam(_, _, _) => Classes.Kind.LambdaParam
    case ThisReference(_, _) => Classes.Kind.ThisReference
    case SuperReference(_, _, _) => Classes.Kind.SuperReference
    case WhenExpression(_, _, _) => Classes.Kind.WhenExpression
    case WhenEntry(_, _, _) => Classes.Kind.WhenEntry
    case ExpressionCondition(_) => Classes.Kind.ExpressionCondition
    case InCondition(_, _, _) => Classes.Kind.InCondition
    case IsCondition(_, _, _) => Classes.Kind.IsCondition
    case ObjectDeclaration(_, _, _) => Classes.Kind.ObjectDeclaration
    case ThrowStatement(_, _) => Classes.Kind.ThrowStatement
    case ReturnStatement(_, _, _) => Classes.Kind.ReturnStatement
    case ContinueStatement(_, _) => Classes.Kind.ContinueStatement
    case BreakStatement(_, _) => Classes.Kind.BreakStatement
    case CollectionLiteral(_, _) => Classes.Kind.CollectionLiteral
    case Identifier(_, _) => Classes.Kind.Identifier
    case LabelledExpression(_, _, _) => Classes.Kind.LabelledExpression
    case AnnotatedExpression(_, _, _) => Classes.Kind.AnnotatedExpression
    case CallExpression(_, _, _, _, _) => Classes.Kind.CallExpression
    case TrailingLambda(_, _, _, _) => Classes.Kind.TrailingLambda
    case ArrayAccessExpression(_, _, _) => Classes.Kind.ArrayAccessExpression
    case AnonymousFunctionExpression(_, _) => Classes.Kind.AnonymousFunctionExpression
    case PropertyExpression(_) => Classes.Kind.PropertyExpression
    case Block(_, _) => Classes.Kind.Block
    case Annotation(_, _, _, _, _) => Classes.Kind.Annotation
    case Modifier(_, _) => Classes.Kind.Modifier
  }

  /** The sealed class a node's class directly extends. */
  function SuperclassOfNode(n: Node): Classes.Superclass
  {
    Classes.SuperclassOf(KindOf(n))
  }

  /** `sealed class Declaration`. */
  predicate IsDeclaration(n: Node) { SuperclassOfNode(n) == Classes.Declaration }

  /** `sealed class ClassDeclaration.Parent`. */
  predicate IsClassParent(n: Node) { SuperclassOfNode(n) == Classes.ClassParent }

  /** `sealed class FunctionBody`. */
  predicate IsFunctionBody(n: Node) { SuperclassOfNode(n) == Classes.FunctionBody }

  /** `sealed class TypeRef`. */
  predicate IsTypeRef(n: Node) { SuperclassOfNode(n) == Classes.TypeRef }

  /** `sealed class ReferenceExpression`. */
  predicate IsReferenceExpression(n: Node) { SuperclassOfNode(n) == Classes.ReferenceExpression }

  /**
   * `sealed class Expression`, including the reference expressions.
   * `LambdaLiteral.Param` extends `Expression` in the source, so
   * `LambdaParam` belongs here.
   */
  predicate IsExpression(n: Node) { Classes.IsExpressionKind(KindOf(n)) }

  /** `sealed class BinaryOperatorOrInfixCall`. */
  predicate IsBinaryOperatorOrInfixCall(n: Node) { SuperclassOfNode(n) == Classes.BinaryOperatorOrInfixCall }

  /** `sealed class ReferenceReceiver`. */
  predicate IsReferenceReceiver(n: Node) { SuperclassOfNode(n) == Classes.ReferenceReceiver }

  /** `sealed class WhenExpression.Condition`. */
  predicate IsWhenCondition(n: Node) { SuperclassOfNode(n) == Classes.WhenCondition }

  /** `sealed class ModifierOrAnnotation`. */
  predicate IsModifierOrAnnotation(n: Node) { SuperclassOfNode(n) == Classes.ModifierOrAnnotation }

  /** The classes implementing `Element.WithModifiers`. */
  predicate WithModifiers(n: Node)
  {
    || n.ClassDeclaration? || n.PrimaryConstructor? || n.Constructor? || n.EnumEntry?
    || n.FunctionDeclaration? || n.ValueParameter? || n.PropertyDeclaration?
    || n.Getter? || n.Setter? || n.TypeAliasDeclaration? || n.TypeParameter?
    || n.TypeWithModifiers? || n.Type?
  }

  /**
   * The classes implementing `Element.WithAnnotations`: the `WithModifiers`
   * ones and five that store `anns` directly. `File` and `Script` have an
   * `anns` field but do not implement the interface.
   */
  predicate WithAnnotations(n: Node)
  {
    || WithModifiers(n)
    || n.TypeConstraint? || n.Catch? || n.ForLoop? || n.AnnotatedExpression? || n.TrailingLambda?
  }

  /** The classes whose `locus` is derived from the one child they wrap. */
  predicate IsWrapper(n: Node)
  {
    || n.BlockBody? || n.ExpressionBody? || n.ExpressionReceiver? || n.TypeReceiver?
    || n.ExpressionCondition? || n.PropertyExpression?
  }

  // ---------------------------------------------------------------------
  // Field typing: what the Kotlin declared types of the fields guarantee

  predicate AllSatisfy(s: seq<Node>, p: Node -> bool)
  {
    forall i :: 0 <= i < |s| ==> p(s[i])
  }

  predicate OptSatisfies(o: Option<Node>, p: Node -> bool)
  {
    o.Some? ==> p(o.value)
  }

  predicate SlotsSatisfy(s: seq<Option<Node>>, p: Node -> bool)
  {
    forall i :: 0 <= i < |s| ==> OptSatisfies(s[i], p)
  }

  predicate IsAnnotation(n: Node) { n.Annotation? }
  predicate IsBlock(n: Node) { n.Block? }
  predicate IsType(n: Node) { n.Type? }
  predicate IsSimpleType(n: Node) { n.SimpleType? }
  predicate IsValueArgument(n: Node) { n.ValueArgument? }
  predicate IsValueParameter(n: Node) { n.ValueParameter? }
  predicate IsTypeParameter(n: Node) { n.TypeParameter? }
  predicate IsTypeConstraint(n: Node) { n.TypeConstraint? }
  predicate IsDestructuringEntry(n: Node) { n.DestructuringEntry? }

  /**
   * Every field of `n` holds a node of the family its Kotlin type names.
   * The Kotlin compiler guarantees this; `Anns` relies on it for the
   * classes that store `anns`, as the hypothesis of that postcondition.
   */
  predicate Typed(n: Node)
  {
    match n
    case File(_, anns, pkg, imports, decls) =>
      AllSatisfy(anns, IsAnnotation) && OptSatisfies(pkg, (x: Node) => x.Package?)
      && AllSatisfy(imports, (x: Node) => x.Import?) && AllSatisfy(decls, IsDeclaration)
    case Script(_, anns, pkg, imports, exprs) =>
      AllSatisfy(anns, IsAnnotation) && OptSatisfies(pkg, (x: Node) => x.Package?)
      && AllSatisfy(imports, (x: Node) => x.Import?) && AllSatisfy(exprs, IsExpression)
    case Package(_, _) => true
    case Import(_, _, _, _) => true
    case ClassDeclaration(_, mods, _, _, tps, pc, parentAnns, parents, tcs, members) =>
      AllSatisfy(mods, IsModifierOrAnnotation) && AllSatisfy(tps, IsTypeParameter)
      && OptSatisfies(pc, (x: Node) => x.PrimaryConstructor?) && AllSatisfy(parentAnns, IsAnnotation)
      && AllSatisfy(parents, IsClassParent) && AllSatisfy(tcs, IsTypeConstraint)
      && AllSatisfy(members, IsDeclaration)
    case SuperClassConstructorCall(_, typ, typeArgs, args, lambda) =>
      IsSimpleType(typ) && AllSatisfy(typeArgs, IsType) && AllSatisfy(args, IsValueArgument)
      && OptSatisfies(lambda, (x: Node) => x.TrailingLambda?)
    case InterfaceType(_, typ, delegated) =>
      IsSimpleType(typ) && OptSatisfies(delegated, IsExpression)
    case PrimaryConstructor(_, mods, params) =>
      AllSatisfy(mods, IsModifierOrAnnotation) && AllSatisfy(params, IsValueParameter)
    case InitBlock(_, block) => IsBlock(block)
    case Constructor(_, mods, params, call, block) =>
      AllSatisfy(mods, IsModifierOrAnnotation) && AllSatisfy(params, IsValueParameter)
      && OptSatisfies(call, (x: Node) => x.DelegationCall?) && OptSatisfies(block, IsBlock)
    case DelegationCall(_, _, args) => AllSatisfy(args, IsValueArgument)
    case EnumEntry(_, mods, _, args, members) =>
      AllSatisfy(mods, IsModifierOrAnnotation) && AllSatisfy(args, IsValueArgument)
      && AllSatisfy(members, IsDeclaration)
    case FunctionDeclaration(_, mods, tps, recv, _, params, typ, tcs, body) =>
      AllSatisfy(mods, IsModifierOrAnnotation) && AllSatisfy(tps, IsTypeParameter)
      && OptSatisfies(recv, IsType) && AllSatisfy(params, IsValueParameter)
      && OptSatisfies(typ, IsType) && AllSatisfy(tcs, IsTypeConstraint)
      && OptSatisfies(body, IsFunctionBody)
    case ValueParameter(_, mods, _, _, typ, dflt) =>
      AllSatisfy(mods, IsModifierOrAnnotation) && OptSatisfies(typ, IsType)
      && OptSatisfies(dflt, IsExpression)
    case BlockBody(block) => IsBlock(block)
    case ExpressionBody(expr) => IsExpression(expr)
    case PropertyDeclaration(_, mods, _, tps, recv, vars, tcs, _, expr, getter, setter) =>
      AllSatisfy(mods, IsModifierOrAnnotation) && AllSatisfy(tps, IsTypeParameter)
      && OptSatisfies(recv, IsType) && SlotsSatisfy(vars, IsDestructuringEntry)
      && AllSatisfy(tcs, IsTypeConstraint) && OptSatisfies(expr, IsExpression)
      && OptSatisfies(getter, (x: Node) => x.Getter?) && OptSatisfies(setter, (x: Node) => x.Setter?)
    case DestructuringEntry(_, _, typ) => OptSatisfies(typ, IsType)
    case Getter(_, mods, typ, body) =>
      AllSatisfy(mods, IsModifierOrAnnotation) && OptSatisfies(typ, IsType)
      && OptSatisfies(body, IsFunctionBody)
    case Setter(_, mods, paramMods, _, paramType, body) =>
      AllSatisfy(mods, IsModifierOrAnnotation) && AllSatisfy(paramMods, IsModifierOrAnnotation)
      && OptSatisfies(paramType, IsType) && OptSatisfies(body, IsFunctionBody)
    case TypeAliasDeclaration(_, mods, _, tps, typ) =>
      AllSatisfy(mods, IsModifierOrAnnotation) && AllSatisfy(tps, IsTypeParameter) && IsType(typ)
    case TypeParameter(_, mods, _, typ) =>
      AllSatisfy(mods, IsModifierOrAnnotation) && OptSatisfies(typ, IsTypeRef)
    case TypeConstraint(_, anns, _, typ) => AllSatisfy(anns, IsAnnotation) && IsType(typ)
    case FunctionalType(_, recv, params, typ) =>
      OptSatisfies(recv, IsType) && AllSatisfy(params, (x: Node) => x.FunctionalTypeParam?)
      && IsType(typ)
    case FunctionalTypeParam(_, _, typ) => IsType(typ)
    case SimpleType(_, pieces) => AllSatisfy(pieces, (x: Node) => x.SimpleTypePiece?)
    case SimpleTypePiece(_, _, typeParams) => SlotsSatisfy(typeParams, IsType)
    case NullableType(_, typ) => IsTypeRef(typ)
    case DynamicType(_) => true
    case TypeWithModifiers(_, mods, typ) => AllSatisfy(mods, IsModifierOrAnnotation) && IsTypeRef(typ)
    case Type(_, mods, ref) => AllSatisfy(mods, IsModifierOrAnnotation) && IsTypeRef(ref)
    case ValueArgument(_, _, _, expr) => IsExpression(expr)
    case IfExpression(_, c, t, e) => IsExpression(c) && IsExpression(t) && OptSatisfies(e, IsExpression)
    case TryExpression(_, block, catches, fin) =>
      IsBlock(block) && AllSatisfy(catches, (x: Node) => x.Catch?) && OptSatisfies(fin, IsBlock)
    case Catch(_, anns, _, varType, block) =>
      AllSatisfy(anns, IsAnnotation) && IsSimpleType(varType) && IsBlock(block)
    case ForLoop(_, anns, vars, inExpr, body) =>
      AllSatisfy(anns, IsAnnotation) && SlotsSatisfy(vars, IsDestructuringEntry)
      && IsExpression(inExpr) && IsExpression(body)
    case WhileLoop(_, c, b) => IsExpression(c) && IsExpression(b)
    case DoWhileLoop(_, b, c) => IsExpression(b) && IsExpression(c)
    case BinaryExpression(_, lhs, oper, rhs) =>
      IsExpression(lhs) && IsBinaryOperatorOrInfixCall(oper) && IsExpression(rhs)
    case InfixFunctionName(_, _) => true
    case BinaryOperator(_, _) => true
    case UnaryExpression(_, expr, oper, _) => IsExpression(expr) && oper.UnaryOperator?
    case UnaryOperator(_, _) => true
    case TypeExpression(_, lhs, oper, rhs) => IsExpression(lhs) && oper.TypeOperator? && IsType(rhs)
    case TypeOperator(_, _) => true
    case CallableReferenceExpression(_, recv, _) => OptSatisfies(recv, IsReferenceReceiver)
    case ClassReferenceExpression(_, recv) => OptSatisfies(recv, IsReferenceReceiver)
    case ExpressionReceiver(expr) => IsExpression(expr)
    case TypeReceiver(typ, _) => IsSimpleType(typ)
    case ConstantExpression(_, _, _) => true
    case LambdaLiteral(_, params, block) =>
      AllSatisfy(params, (x: Node) => x.LambdaParam?) && OptSatisfies(block, IsBlock)
    case LambdaParam(_, vars, destructType) =>
      SlotsSatisfy(vars, IsDestructuringEntry) && OptSatisfies(destructType, IsType)
    case ThisReference(_, _) => true
    case SuperReference(_, typeArg, _) => OptSatisfies(typeArg, IsType)
    case WhenExpression(_, subject, entries) =>
      OptSatisfies(subject, IsExpression) && AllSatisfy(entries, (x: Node) => x.WhenEntry?)
    case WhenEntry(_, conds, body) => AllSatisfy(conds, IsWhenCondition) && IsExpression(body)
    case ExpressionCondition(expr) => IsExpression(expr)
    case InCondition(_, expr, _) => IsExpression(expr)
    case IsCondition(_, typ, _) => IsType(typ)
    case ObjectDeclaration(_, parents, members) =>
      AllSatisfy(parents, IsClassParent) && AllSatisfy(members, IsDeclaration)
    case ThrowStatement(_, expr) => IsExpression(expr)
    case ReturnStatement(_, _, expr) => OptSatisfies(expr, IsExpression)
    case ContinueStatement(_, _) => true
    case BreakStatement(_, _) => true
    case CollectionLiteral(_, exprs) => AllSatisfy(exprs, IsExpression)
    case Identifier(_, _) => true
    case LabelledExpression(_, _, expr) => IsExpression(expr)
    case AnnotatedExpression(_, anns, expr) => AllSatisfy(anns, IsAnnotation) && IsExpression(expr)
    case CallExpression(_, expr, typeArgs, args, lambda) =>
      IsExpression(expr) && SlotsSatisfy(typeArgs, IsType) && AllSatisfy(args, IsValueArgument)
      && OptSatisfies(lambda, (x: Node) => x.TrailingLambda?)
    case TrailingLambda(_, anns, _, func) => AllSatisfy(anns, IsAnnotation) && func.LambdaLiteral?
    case ArrayAccessExpression(_, expr, indices) => IsExpression(expr) && AllSatisfy(indices, IsExpression)
    case AnonymousFunctionExpression(_, funDecl) => funDecl.FunctionDeclaration?
    case PropertyExpression(decl) => decl.PropertyDeclaration?
    case Block(_, stmts) => AllSatisfy(stmts, IsExpression)
    case Annotation(_, _, _, typeArgs, args) => AllSatisfy(typeArgs, IsType) && AllSatisfy(args, IsValueArgument)
    case Modifier(_, _) => true
  }

  // ---------------------------------------------------------------------
  // Child enumeration

  /** `o?.accept(v)`: the child if present, nothing otherwise. */
  function Opt(o: Option<Node>): (r: seq<Node>)
    ensures |r| <= 1
    ensures forall c :: c in r <==> o == Some(c)
  {
    match o
    case None => []
    case Some(x) => [x]
  }

  /**
   * `for (x in xs) x?.accept(v)`: the present entries of a list with null
   * entries, in list order; the null entries are skipped.
   */
  function Present(s: seq<Option<Node>>): (r: seq<Node>)
    ensures |r| <= |s|
    ensures forall c :: c in r <==> Some(c) in s
  {
    if |s| == 0 then []
    else
      assert forall x :: x in s[1..] ==> x in s;
      assert forall x :: x in s ==> x == s[0] || x in s[1..];
      Opt(s[0]) + Present(s[1..])
  }

  /**
   * The nodes `acceptChildren` calls `accept` on, in call order. Every
   * child is a proper part of `n`: the tree has no back references.
   * `ClassDeclaration.parents`, `CallExpression.expr` and
   * `ArrayAccessExpression.expr` are never visited.
   */
  function Children(n: Node): (r: seq<Node>)
    ensures forall c :: c in r ==> c < n
  {
    if n.File? || n.Script? || n.Package? || n.Import? || n.ClassDeclaration? || n.SuperClassConstructorCall? then ChildrenOfUnits(n)
    else if n.InterfaceType? || n.PrimaryConstructor? || n.InitBlock? || n.Constructor? || n.DelegationCall? || n.EnumEntry? then ChildrenOfClassParts(n)
    else if n.FunctionDeclaration? || n.ValueParameter? || n.BlockBody? || n.ExpressionBody? then ChildrenOfFunctions(n)
    else if n.PropertyDeclaration? || n.DestructuringEntry? || n.Getter? || n.Setter? then ChildrenOfProperties(n)
    else if n.TypeAliasDeclaration? || n.TypeParameter? || n.TypeConstraint? || n.FunctionalType? || n.FunctionalTypeParam? then ChildrenOfTypeDecls(n)
    else if n.SimpleType? || n.SimpleTypePiece? || n.NullableType? || n.DynamicType? || n.TypeWithModifiers? || n.Type? then ChildrenOfTypes(n)
    else if n.ValueArgument? || n.IfExpression? || n.TryExpression? || n.Catch? || n.ForLoop? then ChildrenOfControl(n)
    else if n.WhileLoop? || n.DoWhileLoop? || n.BinaryExpression? || n.InfixFunctionName? || n.BinaryOperator? then ChildrenOfLoops(n)
    else if n.UnaryExpression? || n.UnaryOperator? || n.TypeExpression? || n.TypeOperator? || n.CallableReferenceExpression? then ChildrenOfOperators(n)
    else if n.ClassReferenceExpression? || n.ExpressionReceiver? || n.TypeReceiver? || n.ConstantExpression? || n.LambdaLiteral? then ChildrenOfReferences(n)
    else if n.LambdaParam? || n.ThisReference? || n.SuperReference? || n.WhenExpression? then ChildrenOfLambdas(n)
    else if n.WhenEntry? || n.ExpressionCondition? || n.InCondition? || n.IsCondition? || n.ObjectDeclaration? then ChildrenOfWhen(n)
    else if n.ThrowStatement? || n.ReturnStatement? || n.ContinueStatement? || n.BreakStatement? || n.CollectionLiteral? then ChildrenOfJumps(n)
    else if n.Identifier? || n.LabelledExpression? || n.AnnotatedExpression? || n.CallExpression? then ChildrenOfCalls(n)
    else if n.TrailingLambda? || n.ArrayAccessExpression? || n.AnonymousFunctionExpression? || n.PropertyExpression? then ChildrenOfWrappers(n)
    else ChildrenOfLeaves(n)
  }

  // The child lists of runs of classes, in source order. Splitting the
  // table keeps each proof that the children are proper parts small.

  function ChildrenOfUnits(n: Node): (r: seq<Node>)
    requires n.File? || n.Script? || n.Package? || n.Import? || n.ClassDeclaration? || n.SuperClassConstructorCall?
    ensures forall c :: c in r ==> c < n
  {
    match n
    case File(_, anns, pkg, imports, decls) => anns + Opt(pkg) + imports + decls
    case Script(_, anns, pkg, imports, exprs) => anns + Opt(pkg) + imports + exprs
    case Package(_, _) => []
    case Import(_, _, _, _) => []
    case ClassDeclaration(_, mods, _, _, tps, pc, parentAnns, _, tcs, members) =>
      mods + tps + Opt(pc) + parentAnns + tcs + members
    case SuperClassConstructorCall(_, typ, typeArgs, args, lambda) =>
      [typ] + typeArgs + args + Opt(lambda)
    case _ => assert false; []
  }

  function ChildrenOfClassParts(n: Node): (r: seq<Node>)
    requires n.InterfaceType? || n.PrimaryConstructor? || n.InitBlock? || n.Constructor? || n.DelegationCall? || n.EnumEntry?
    ensures forall c :: c in r ==> c < n
  {
    match n
    case InterfaceType(_, typ, delegated) => [typ] + Opt(delegated)
    case PrimaryConstructor(_, mods, params) => mods + params
    case InitBlock(_, block) => [block]
    case Constructor(_, mods, params, call, block) => mods + params + Opt(call) + Opt(block)
    case DelegationCall(_, _, args) => args
    case EnumEntry(_, mods, _, args, members) => mods + args + members
    case _ => assert false; []
  }

  function ChildrenOfFunctions(n: Node): (r: seq<Node>)
    requires n.FunctionDeclaration? || n.ValueParameter? || n.BlockBody? || n.ExpressionBody?
    ensures forall c :: c in r ==> c < n
  {
    match n
    case FunctionDeclaration(_, mods, tps, recv, _, params, typ, tcs, body) =>
      mods + tps + Opt(recv) + params + Opt(typ) + tcs + Opt(body)
    case ValueParameter(_, mods, _, _, typ, dflt) => mods + Opt(typ) + Opt(dflt)
    case BlockBody(block) => [block]
    case ExpressionBody(expr) => [expr]
    case _ => assert false; []
  }

  function ChildrenOfProperties(n: Node): (r: seq<Node>)
    requires n.PropertyDeclaration? || n.DestructuringEntry? || n.Getter? || n.Setter?
    ensures forall c :: c in r ==> c < n
  {
    match n
    case PropertyDeclaration(_, mods, _, tps, recv, vars, tcs, _, expr, getter, setter) =>
      mods + tps + Opt(recv) + Present(vars) + tcs + Opt(expr) + Opt(getter) + Opt(setter)
    case DestructuringEntry(_, _, typ) => Opt(typ)
    case Getter(_, mods, typ, body) => mods + Opt(typ) + Opt(body)
    case Setter(_, mods, paramMods, _, paramType, body) => mods + paramMods + Opt(paramType) + Opt(body)
    case _ => assert false; []
  }

  function ChildrenOfTypeDecls(n: Node): (r: seq<Node>)
    requires n.TypeAliasDeclaration? || n.TypeParameter? || n.TypeConstraint? || n.FunctionalType? || n.FunctionalTypeParam?
    ensures forall c :: c in r ==> c < n
  {
    match n
    case TypeAliasDeclaration(_, mods, _, tps, typ) => mods + tps + [typ]
    case TypeParameter(_, mods, _, typ) => mods + Opt(typ)
    case TypeConstraint(_, anns, _, typ) => anns + [typ]
    case FunctionalType(_, recv, params, typ) => Opt(recv) + params + [typ]
    case FunctionalTypeParam(_, _, typ) => [typ]
    case _ => assert false; []
  }

  function ChildrenOfTypes(n: Node): (r: seq<Node>)
    requires n.SimpleType? || n.SimpleTypePiece? || n.NullableType? || n.DynamicType? || n.TypeWithModifiers? || n.Type?
    ensures forall c :: c in r ==> c < n
  {
    match n
    case SimpleType(_, pieces) => pieces
    case SimpleTypePiece(_, _, typeParams) => Present(typeParams)
    case NullableType(_, typ) => [typ]
    case DynamicType(_) => []
    case TypeWithModifiers(_, mods, typ) => mods + [typ]
    case Type(_, mods, ref) => mods + [ref]
    case _ => assert false; []
  }

  function ChildrenOfControl(n: Node): (r: seq<Node>)
    requires n.ValueArgument? || n.IfExpression? || n.TryExpression? || n.Catch? || n.ForLoop?
    ensures forall c :: c in r ==> c < n
  {
    match n
    case ValueArgument(_, _, _, expr) => [expr]
    case IfExpression(_, c, t, e) => [c, t] + Opt(e)
    case TryExpression(_, block, catches, fin) => [block] + catches + Opt(fin)
    case Catch(_, anns, _, varType, block) => anns + [varType, block]
    case ForLoop(_, anns, vars, inExpr, body) => anns + Present(vars) + [inExpr, body]
    case _ => assert false; []
  }

  function ChildrenOfLoops(n: Node): (r: seq<Node>)
    requires n.WhileLoop? || n.DoWhileLoop? || n.BinaryExpression? || n.InfixFunctionName? || n.BinaryOperator?
    ensures forall c :: c in r ==> c < n
  {
    match n
    case WhileLoop(_, c, b) => [c, b]
    case DoWhileLoop(_, b, c) => [b, c]
    case BinaryExpression(_, lhs, oper, rhs) => [lhs, oper, rhs]
    case InfixFunctionName(_, _) => []
    case BinaryOperator(_, _) => []
    case _ => assert false; []
  }

  function ChildrenOfOperators(n: Node): (r: seq<Node>)
    requires n.UnaryExpression? || n.UnaryOperator? || n.TypeExpression? || n.TypeOperator? || n.CallableReferenceExpression?
    ensures forall c :: c in r ==> c < n
  {
    match n
    case UnaryExpression(_, expr, oper, _) => [expr, oper]
    case UnaryOperator(_, _) => []
    case TypeExpression(_, lhs, oper, rhs) => [lhs, oper, rhs]
    case TypeOperator(_, _) => []
    case CallableReferenceExpression(_, recv, _) => Opt(recv)
    case _ => assert false; []
  }

  function ChildrenOfReferences(n: Node): (r: seq<Node>)
    requires n.ClassReferenceExpression? || n.ExpressionReceiver? || n.TypeReceiver? || n.ConstantExpression? || n.LambdaLiteral?
    ensures forall c :: c in r ==> c < n
  {
    match n
    case ClassReferenceExpression(_, recv) => Opt(recv)
    case ExpressionReceiver(expr) => [expr]
    case TypeReceiver(typ, _) => [typ]
    case ConstantExpression(_, _, _) => []
    case LambdaLiteral(_, params, block) => params + Opt(block)
    case _ => assert false; []
  }

  function ChildrenOfLambdas(n: Node): (r: seq<Node>)
    requires n.LambdaParam? || n.ThisReference? || n.SuperReference? || n.WhenExpression?
    ensures forall c :: c in r ==> c < n
  {
    match n
    case LambdaParam(_, vars, destructType) => Present(vars) + Opt(destructType)
    case ThisReference(_, _) => []
    case SuperReference(_, typeArg, _) => Opt(typeArg)
    case WhenExpression(_, subject, entries) => Opt(subject) + entries
    case _ => assert false; []
  }

  function ChildrenOfWhen(n: Node): (r: seq<Node>)
    requires n.WhenEntry? || n.ExpressionCondition? || n.InCondition? || n.IsCondition? || n.ObjectDeclaration?
    ensures forall c :: c in r ==> c < n
  {
    match n
    case WhenEntry(_, conds, body) => conds + [body]
    case ExpressionCondition(expr) => [expr]
    case InCondition(_, expr, _) => [expr]
    case IsCondition(_, typ, _) => [typ]
    case ObjectDeclaration(_, parents, members) => parents + members
    case _ => assert false; []
  }

  function ChildrenOfJumps(n: Node): (r: seq<Node>)
    requires n.ThrowStatement? || n.ReturnStatement? || n.ContinueStatement? || n.BreakStatement? || n.CollectionLiteral?
    ensures forall c :: c in r ==> c < n
  {
    match n
    case ThrowStatement(_, expr) => [expr]
    case ReturnStatement(_, _, expr) => Opt(expr)
    case ContinueStatement(_, _) => []
    case BreakStatement(_, _) => []
    case CollectionLiteral(_, exprs) => exprs
    case _ => assert false; []
  }

  function ChildrenOfCalls(n: Node): (r: seq<Node>)
    requires n.Identifier? || n.LabelledExpression? || n.AnnotatedExpression? || n.CallExpression?
    ensures forall c :: c in r ==> c < n
  {
    match n
    case Identifier(_, _) => []
    case LabelledExpression(_, _, expr) => [expr]
    case AnnotatedExpression(_, anns, expr) => anns + [expr]
    case CallExpression(_, _, typeArgs, args, lambda) => Present(typeArgs) + args + Opt(lambda)
    case _ => assert false; []
  }

  function ChildrenOfWrappers(n: Node): (r: seq<Node>)
    requires n.TrailingLambda? || n.ArrayAccessExpression? || n.AnonymousFunctionExpression? || n.PropertyExpression?
    ensures forall c :: c in r ==> c < n
  {
    match n
    case TrailingLambda(_, anns, _, func) => anns + [func]
    case ArrayAccessExpression(_, _, indices) => indices
    case AnonymousFunctionExpression(_, funDecl) => [funDecl]
    case PropertyExpression(decl) => [decl]
    case _ => assert false; []
  }

  function ChildrenOfLeaves(n: Node): (r: seq<Node>)
    requires n.Block? || n.Annotation? || n.Modifier?
    ensures forall c :: c in r ==> c < n
  {
    match n
    case Block(_, stmts) => stmts
    case Annotation(_, _, _, typeArgs, args) => typeArgs + args
    case Modifier(_, _) => []
    case _ => assert false; []
  }

  // ---------------------------------------------------------------------
  // Derived locus and annotations

  /**
   * The `locus` of a node: stored for every kind except the six wrappers,
   * which report the locus of the node they wrap. However deeply wrappers
   * nest, it is the locus stored by the innermost node that is not one.
   */
  function LocusOf(n: Node): (r: Locus)
    ensures r == LocusSource(n).locus
    decreases n
  {
    if IsWrapper(n) then LocusOf(WrappedNode(n)) else n.locus
  }

  /** The one node a wrapper wraps, the one its `locus` getter reads. */
  function WrappedNode(n: Node): (inner: Node)
    requires IsWrapper(n)
    ensures inner < n
  {
    if n.BlockBody? then n.block
    else if n.ExpressionBody? || n.ExpressionReceiver? || n.ExpressionCondition? then n.expr
    else if n.TypeReceiver? then n.typ
    else n.declaration
  }

  /** The node whose stored locus `n` reports: `n` itself, or the innermost node its wrappers wrap. */
  function LocusSource(n: Node): (s: Node)
    ensures !IsWrapper(s)
    ensures s == n || s < n
    decreases n
  {
    if IsWrapper(n) then LocusSource(WrappedNode(n)) else n
  }

  /**
   * `mods.mapNotNull { it as? Annotation }`: the annotations among a
   * modifier list, in list order.
   */
  function Annotations(mods: seq<Node>): (r: seq<Node>)
    ensures |r| <= |mods|
    ensures forall a :: a in r <==> a in mods && a.Annotation?
  {
    if |mods| == 0 then []
    else
      assert forall x :: x in mods[1..] ==> x in mods;
      assert forall x :: x in mods ==> x == mods[0] || x in mods[1..];
      (if mods[0].Annotation? then [mods[0]] else []) + Annotations(mods[1..])
  }

  /** The annotations keep their relative order from the modifier list. */
  lemma {:induction false} AnnotationsInOrder(mods: seq<Node>)
    ensures IsSubsequence(Annotations(mods), mods)
    decreases |mods|
  {
    if |mods| > 0 {
      AnnotationsInOrder(mods[1..]);
      if mods[0].Annotation? {
        assert Annotations(mods)[1..] == Annotations(mods[1..]);
      } else {
        assert Annotations(mods) == Annotations(mods[1..]);
      }
    }
  }

  /**
   * `anns` of an `Element.WithAnnotations`: for the `WithModifiers` classes,
   * the annotations among `mods`, all of them and in their order; for the
   * other five, the stored list, whose Kotlin type `List<Annotation>` makes
   * every entry an annotation.
   */
  function Anns(n: Node): (r: seq<Node>)
    requires WithAnnotations(n)
    ensures WithModifiers(n) ==> IsSubsequence(r, n.mods)
    ensures WithModifiers(n) ==> forall a :: a in n.mods && a.Annotation? ==> a in r
    ensures WithModifiers(n) || Typed(n) ==> forall a :: a in r ==> a.Annotation?
  {
    if WithModifiers(n) then
      AnnotationsInOrder(n.mods);
      Annotations(n.mods)
    else
      n.anns
  }

  /** The decrease of `Children`, by position: the `k`-th child is a proper part of the node. */
  lemma ChildrenBelow(n: Node)
    ensures forall k :: 0 <= k < |Children(n)| ==> Children(n)[k] < n
  {
    var s := Children(n);
    forall k | 0 <= k < |s|
      ensures s[k] < n
    {
      assert s[k] in s;
    }
  }
}

/**
 * The classes of ast.kt by name, without their fields: the runtime class a
 * virtual call such as `accept` dispatches on, and the sealed class each
 * concrete class directly extends.
 */
module Classes {
  /** One value per concrete class of ast.kt, in source order, named as the constructors of `Ast.Node`. */
  datatype Kind =
    | File
    | Script
    | Package
    | Import
    | ClassDeclaration
    | SuperClassConstructorCall
    | InterfaceType
    | PrimaryConstructor
    | InitBlock
    | Constructor
    | DelegationCall
    | EnumEntry
    | FunctionDeclaration
    | ValueParameter
    | BlockBody
    | ExpressionBody
    | PropertyDeclaration
    | DestructuringEntry
    | Getter
    | Setter
    | TypeAliasDeclaration
    | TypeParameter
    | TypeConstraint
    | FunctionalType
    | FunctionalTypeParam
    | SimpleType
    | SimpleTypePiece
    | NullableType
    | DynamicType
    | TypeWithModifiers
    | Type
    | ValueArgument
    | IfExpression
    | TryExpression
    | Catch
    | ForLoop
    | WhileLoop
    | DoWhileLoop
    | BinaryExpression
    | InfixFunctionName
    | BinaryOperator
    | UnaryExpression
    | UnaryOperator
    | TypeExpression
    | TypeOperator
    | CallableReferenceExpression
    | ClassReferenceExpression
    | ExpressionReceiver
    | TypeReceiver
    | ConstantExpression
    | LambdaLiteral
    | LambdaParam
    | ThisReference
    | SuperReference
    | WhenExpression
    | WhenEntry
    | ExpressionCondition
    | InCondition
    | IsCondition
    | ObjectDeclaration
    | ThrowStatement
    | ReturnStatement
    | ContinueStatement
    | BreakStatement
    | CollectionLiteral
    | Identifier
    | LabelledExpression
    | AnnotatedExpression
    | CallExpression
    | TrailingLambda
    | ArrayAccessExpression
    | AnonymousFunctionExpression
    | PropertyExpression
    | Block
    | Annotation
    | Modifier

  /**
   * The abstract classes of ast.kt that concrete classes extend. The
   * classes that extend `Element` directly get `ElementClass`;
   * `ReferenceExpression` itself extends `Expression`.
   */
  datatype Superclass =
    | ElementClass
    | Declaration
    | ClassParent
    | FunctionBody
    | TypeRef
    | Expression
    | ReferenceExpression
    | BinaryOperatorOrInfixCall
    | ReferenceReceiver
    | WhenCondition
    | ModifierOrAnnotation

  /** The class each concrete class of ast.kt names after its colon. */
  function SuperclassOf(k: Kind): Superclass
  {
    match k
    case File | Script | Package | Import | PrimaryConstructor | DelegationCall |
      ValueParameter | DestructuringEntry | Getter | Setter | TypeParameter | TypeConstraint |
      FunctionalTypeParam | SimpleTypePiece | Type | ValueArgument | Catch | UnaryOperator |
      TypeOperator | WhenEntry | TrailingLambda | Block => ElementClass
    case ClassDeclaration | InitBlock | Constructor | EnumEntry | FunctionDeclaration |
      PropertyDeclaration | TypeAliasDeclaration => Declaration
    case SuperClassConstructorCall | InterfaceType => ClassParent
    case BlockBody | ExpressionBody => FunctionBody
    case FunctionalType | SimpleType | NullableType | DynamicType |
      TypeWithModifiers => TypeRef
    case IfExpression | TryExpression | ForLoop | WhileLoop | DoWhileLoop | BinaryExpression |
      UnaryExpression | TypeExpression | ConstantExpression | LambdaLiteral | LambdaParam |
      ThisReference | SuperReference | WhenExpression | ObjectDeclaration | ThrowStatement |
      ReturnStatement | ContinueStatement | BreakStatement | CollectionLiteral | Identifier |
      LabelledExpression | AnnotatedExpression | CallExpression | ArrayAccessExpression |
      AnonymousFunctionExpression | PropertyExpression => Expression
    case CallableReferenceExpression | ClassReferenceExpression => ReferenceExpression
    case InfixFunctionName | BinaryOperator => BinaryOperatorOrInfixCall
    case ExpressionReceiver | TypeReceiver => ReferenceReceiver
    case ExpressionCondition | InCondition | IsCondition => WhenCondition
    case Annotation | Modifier => ModifierOrAnnotation
  }

  /** Whether instances of `k` are instances of `Expression`, directly or through `ReferenceExpression`. */
  predicate IsExpressionKind(k: Kind)
  {
    SuperclassOf(k) == Expression || SuperclassOf(k) == ReferenceExpression
  }
}

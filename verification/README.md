# kometa Kotlin syntax tree and visitor, in Dafny

This project models the core of kometa's Kotlin syntax tree: `ast.kt` and `visitor.kt`.

- **The node hierarchy.** Every concrete data class of `ast.kt` is one constructor of `Ast.Node`. Nested classes are renamed after their enclosing class: `FunctionalType.Param` becomes `FunctionalTypeParam`, `WhenExpression.Entry` becomes `WhenEntry`, and `ReferenceReceiver.Type` becomes `TypeReceiver`.
- **Class names.** `Classes.Kind` names each class without its fields. `Classes.SuperclassOf` gives the sealed class it extends.
- **Child enumeration.** `Ast.Children(n)` transcribes `acceptChildren`: the children it calls `accept` on, in call order.
  - An absent optional child is skipped (`Opt`).
  - A null entry in a list of optional children is skipped, and the list order is kept (`Present`).
- **Helpers.**
  - `FqName.toString` joins the segments with `.` (`FqNames.Join`).
  - `WithModifiers.anns` filters the annotations out of `mods` (`Ast.Annotations`, `Ast.Anns`).
  - Six wrapper classes derive their `locus` from the node they wrap (`Ast.LocusOf`).
  - The operator token tables (`Tokens`).
- **The visitor.** `Visitor.Hook` has one value per method of `visitor.kt`.
  - `Visitor.Fallback` is the one hook each default body calls.
  - `Visitor.Chain` is the sequence of hooks a call passes through.
  - A user's visitor is modelled by the set of hooks it overrides. `Visitor.Handler` is the overriding body that runs.
- **Dispatch.**
  - `Dispatch.AcceptTarget` is the one method each class's `accept` calls. It is either a hook `visitor.kt` declares, or a name it does not declare: only 22 of the names coincide.
  - `Dispatch.NodeHandler` follows a node's `accept` to the body that runs.
- **Traversal.** `Walk.Visit(n, descend)` is the sequence of nodes handed to a hook when `accept` is called on `n`, for visitors whose hooks call `acceptChildren` at most once and visit nothing else. `descend(x)` says whether the hook handling `x` calls `acceptChildren`; it is a rule on the node alone.
  - `Walk.Walk` is the pre-order walk `[n]` + the walks of the children.

The two files disagree on names, and the model keeps both tables as written:
- The `accept` table follows `ast.kt`.
- The fallback table follows `visitor.kt`, including its hooks for types `ast.kt` does not have (`visitTypeOrWildcard`, `visitWildcard`, `visitSuperInterfaceType`, `visitAnonymousObjectExpression`).

`visitType` falls back to `visitTypeOrWildcard`, not to the hook of `Type`'s own superclass `Element`. `Dispatch.DeclaredHookFallsToSuperclass` states this exception; every other declared target falls back to the hook of its class's superclass.

## Model

| member | source | states |
|---|---|---|
| FqNames.Join | src/main/kotlin/kotlin/ast.kt:5-7 | an empty name prints as ""; otherwise the length is the segment lengths plus one separator between each pair, and the text starts with the first segment |
| FqNames.ToString | src/main/kotlin/kotlin/ast.kt:6 | an empty name prints as ""; a non-empty name without `.` in its segments reads back from its print |
| FqNames.SplitJoin | src/main/kotlin/kotlin/ast.kt:5-7 | splitting the printed name at `.` gives back the segments, when no segment contains `.` |
| FqNames.JoinSplit | src/main/kotlin/kotlin/ast.kt:5-7 | every string is the print of the segments it splits into |
| FqNames.JoinInjective | src/main/kotlin/kotlin/ast.kt:5-7 | two non-empty names without `.` in their segments print the same exactly when they are equal |
| Tokens.BinarySpelling | src/main/kotlin/kotlin/ast.kt:820-828 | every binary token is spelled with one to three characters |
| Tokens.ParseBinary | src/main/kotlin/kotlin/ast.kt:820-828 | reading a spelling back gives a binary token with that spelling, or nothing |
| Tokens.ParseBinarySpelling | src/main/kotlin/kotlin/ast.kt:820-828 | every binary token's spelling reads back as that token |
| Tokens.BinarySpellingInjective | src/main/kotlin/kotlin/ast.kt:820-828 | no two binary tokens share a spelling |
| Tokens.UnarySpelling | src/main/kotlin/kotlin/ast.kt:860-862 | every unary token is spelled with one or two characters |
| Tokens.ParseUnary | src/main/kotlin/kotlin/ast.kt:860-862 | reading a spelling back gives a unary token with that spelling, or nothing |
| Tokens.ParseUnarySpelling | src/main/kotlin/kotlin/ast.kt:860-862 | every unary token's spelling reads back as that token |
| Tokens.UnarySpellingInjective | src/main/kotlin/kotlin/ast.kt:860-862 | no two unary tokens share a spelling |
| Tokens.TypeSpelling | src/main/kotlin/kotlin/ast.kt:894-896 | every type-operator token is spelled with one to three characters |
| Tokens.ParseType | src/main/kotlin/kotlin/ast.kt:894-896 | reading a spelling back gives a type-operator token with that spelling, or nothing |
| Tokens.ParseTypeSpelling | src/main/kotlin/kotlin/ast.kt:894-896 | every type-operator token's spelling reads back as that token |
| Tokens.TypeSpellingInjective | src/main/kotlin/kotlin/ast.kt:894-896 | no two type-operator tokens share a spelling |
| Tokens.UnaryBinaryOverlap | src/main/kotlin/kotlin/ast.kt:860-862 | of the unary spellings exactly `-` and `+` are also binary spellings |
| Ast.Opt | src/main/kotlin/kotlin/ast.kt:49 | `x?.accept(v)` visits at most one node, and exactly the present one |
| Ast.Present | src/main/kotlin/kotlin/ast.kt:580-584 | a list with null entries visits no more nodes than it has entries, and exactly its non-null ones |
| Ast.Annotations | src/main/kotlin/kotlin/ast.kt:23-27 | the filtered list is no longer than `mods` and holds exactly the annotations among them |
| Ast.Anns | src/main/kotlin/kotlin/ast.kt:19-27 | for the `WithModifiers` classes, `anns` holds every annotation among `mods`, in their order; for every class it holds only annotations, given the Kotlin field types |
| Ast.AnnotationsInOrder | src/main/kotlin/kotlin/ast.kt:23-27 | `anns` is an order-preserving subsequence of `mods` |
| Ast.Children | src/main/kotlin/kotlin/ast.kt:45-56 | every node `acceptChildren` visits is a proper part of the node: the tree has no back references, so traversal terminates |
| Ast.ChildrenBelow | src/main/kotlin/kotlin/ast.kt:29-31 | the same, by position in the child list |
| Ast.LocusOf | src/main/kotlin/kotlin/ast.kt:352-354 | the locus a node reports is the one stored by its locus source, however deeply wrappers nest |
| Ast.LocusSource | src/main/kotlin/kotlin/ast.kt:936-957 | the locus source is not a wrapper, and is the node itself or a proper part of it |
| Ast.WrappedNode | src/main/kotlin/kotlin/ast.kt:1325-1329 | the node a wrapper's `locus` getter reads is a proper part of the wrapper |
| AstFacts.PresentAppend | src/main/kotlin/kotlin/ast.kt:580-584 | visiting a list with null entries in two parts visits the same nodes in the same order as visiting it whole |
| AstFacts.PresentNoNulls | src/main/kotlin/kotlin/ast.kt:580-584 | without null entries every entry is visited, at its own position |
| AstFacts.PresentAllNulls | src/main/kotlin/kotlin/ast.kt:580-584 | a list of null entries only visits nothing |
| AstFacts.PresentSingle | src/main/kotlin/kotlin/ast.kt:580-584 | one entry is visited exactly when present |
| AstFacts.NullSlotSkipped | src/main/kotlin/kotlin/ast.kt:573-584 | deleting a null (wildcard or underscore) entry changes nothing visited |
| AstFacts.PresentSlotInPlace | src/main/kotlin/kotlin/ast.kt:573-584 | a present entry is visited after the entries before it and before those after it |
| AstFacts.SimpleTypePieceChildren | src/main/kotlin/kotlin/ast.kt:580-584 | a type piece visits its non-wildcard type arguments |
| AstFacts.CallExpressionTypeArgsFirst | src/main/kotlin/kotlin/ast.kt:1284-1287 | a call visits its non-wildcard type arguments first |
| AstFacts.PropertyDeclarationSlots | src/main/kotlin/kotlin/ast.kt:453-469 | a property visits its non-underscore destructuring entries as one block after modifiers, type parameters and receiver |
| AstFacts.ForLoopSlots | src/main/kotlin/kotlin/ast.kt:742-750 | a `for` loop visits its non-underscore variables right after its annotations |
| AstFacts.LambdaParamSlots | src/main/kotlin/kotlin/ast.kt:1001-1006 | a lambda parameter visits its non-underscore destructuring entries first |
| AstFacts.AnnotationsAppend | src/main/kotlin/kotlin/ast.kt:23-27 | the annotations of a split modifier list are those of its parts, in order |
| AstFacts.AnnotationsOfAnnotations | src/main/kotlin/kotlin/ast.kt:23-27 | a list of annotations is its own annotation list |
| AstFacts.AnnotationsIdempotent | src/main/kotlin/kotlin/ast.kt:23-27 | filtering twice is filtering once |
| AstFacts.AnnotationsNone | src/main/kotlin/kotlin/ast.kt:23-27 | modifiers without annotations give no `anns` |
| AstFacts.BinaryExpressionChildren | src/main/kotlin/kotlin/ast.kt:794-798 | a binary expression visits exactly lhs, operator, rhs |
| AstFacts.TypeExpressionChildren | src/main/kotlin/kotlin/ast.kt:883-887 | a type expression visits exactly lhs, operator, rhs |
| AstFacts.ClassDeclarationSkipsParents | src/main/kotlin/kotlin/ast.kt:207-224 | what a class declaration visits does not depend on its `parents` |
| AstFacts.ClassDeclarationEnds | src/main/kotlin/kotlin/ast.kt:207-224 | a class declaration visits its modifiers first and its members last |
| AstFacts.CallExpressionChildren | src/main/kotlin/kotlin/ast.kt:1284-1292 | a call visits its non-wildcard type arguments, then its value arguments, then its trailing lambda when present |
| AstFacts.CallExpressionSkipsCallee | src/main/kotlin/kotlin/ast.kt:1284-1292 | what a call visits does not depend on its callee `expr` |
| AstFacts.CallExpressionArgumentsOnly | src/main/kotlin/kotlin/ast.kt:1284-1292 | a call with only wildcard type arguments and no trailing lambda visits exactly its value arguments |
| AstFacts.ArrayAccessChildren | src/main/kotlin/kotlin/ast.kt:1304-1308 | an indexing expression visits its indices and nothing else |
| AstFacts.WhenEntryChildren | src/main/kotlin/kotlin/ast.kt:1062-1067 | a `when` entry visits its conditions in order, then its body; an `else` entry visits only the body |
| AstFacts.WhenExpressionChildren | src/main/kotlin/kotlin/ast.kt:1116-1121 | a `when` expression visits its subject, when present, then its entries |
| AstFacts.WrapperLocus | src/main/kotlin/kotlin/ast.kt:352-362 | a wrapper visits exactly one node and reports that node's locus |
| AstFacts.StoredLocus | src/main/kotlin/kotlin/ast.kt:15-16 | a node that is not a wrapper reports the locus it stores |
| Visitor.Fallback | src/main/kotlin/kotlin/visitor.kt:7-107 | every hook but the abstract `visitElement` has a default body calling one hook |
| Visitor.OnlyElementIsAbstract | src/main/kotlin/kotlin/visitor.kt:7-8 | `visitElement` is the only hook without a default body |
| Visitor.Depth | src/main/kotlin/kotlin/visitor.kt:7-107 | no hook is more than three fallbacks from `visitElement` |
| Visitor.FallbackTargets | src/main/kotlin/kotlin/visitor.kt:7-107 | default bodies call one of twelve general hooks |
| Visitor.FallbackLowersDepth | src/main/kotlin/kotlin/visitor.kt:7-107 | each fallback moves one step closer to `visitElement`, which has none |
| Visitor.Chain | src/main/kotlin/kotlin/visitor.kt:7-107 | the chain of a hook starts at it, ends at `visitElement`, and has one entry per hop plus one |
| Visitor.ChainStep | src/main/kotlin/kotlin/visitor.kt:7-107 | the chain of a hook is the hook followed by the chain of its fallback |
| Visitor.ChainLinks | src/main/kotlin/kotlin/visitor.kt:7-107 | each chain entry's default body calls the next entry |
| Visitor.ReachLowersDepth | src/main/kotlin/kotlin/visitor.kt:7-107 | `k` fallbacks from a hook land `k` steps closer to `visitElement` |
| Visitor.Acyclic | src/main/kotlin/kotlin/visitor.kt:7-107 | following one or more fallbacks never returns to the starting hook |
| Visitor.ReachAlongChain | src/main/kotlin/kotlin/visitor.kt:7-107 | `k` fallbacks land on the `k`-th entry of the chain |
| Visitor.ReachesElement | src/main/kotlin/kotlin/visitor.kt:7-107 | every hook reaches `visitElement` within three fallbacks, and the calls stop there |
| Visitor.ChainDistinct | src/main/kotlin/kotlin/visitor.kt:7-107 | each chain entry is one step closer to `visitElement` than the one before, so no hook appears twice in a chain |
| Visitor.Resolution | src/main/kotlin/kotlin/visitor.kt:7-107 | a call runs default bodies along the chain until the first overridden hook |
| Visitor.Handler | src/main/kotlin/kotlin/visitor.kt:7-107 | the body that runs is overridden and lies on the chain |
| Visitor.ElementOnlyVisitor | src/main/kotlin/kotlin/visitor.kt:7-107 | a visitor overriding only `visitElement` runs every default body of the chain, then `visitElement` once |
| Visitor.ResolutionStopsAt | src/main/kotlin/kotlin/visitor.kt:7-107 | the search stops no later than the first overridden entry |
| Visitor.FirstOverrideRuns | src/main/kotlin/kotlin/visitor.kt:7-107 | the first overridden entry of the chain is the body that runs |
| Visitor.OverrideOnChain | src/main/kotlin/kotlin/visitor.kt:7-107 | overriding any hook of a chain, with `visitElement`, catches every call into that chain |
| Visitor.FallbackTargetHandles | src/main/kotlin/kotlin/visitor.kt:7-107 | overriding a fallback target catches the calls to the hooks that fall back to it |
| Visitor.DeclarationHooks | src/main/kotlin/kotlin/visitor.kt:13-38 | exactly the seven declaration hooks fall back to `visitDeclaration`, which falls back to `visitElement` |
| Visitor.TypeRefHooks | src/main/kotlin/kotlin/visitor.kt:43-49 | exactly the four type-reference hooks fall back to `visitTypeRef` |
| Visitor.ExpressionHooks | src/main/kotlin/kotlin/visitor.kt:57-102 | exactly the 28 expression hooks, `visitLambdaParameter` among them, fall back to `visitExpression` |
| Visitor.AuxiliaryHooks | src/main/kotlin/kotlin/visitor.kt:60-104 | the catch, when-entry, trailing-lambda and block hooks go straight to `visitElement` |
| Visitor.TypeChain | src/main/kotlin/kotlin/visitor.kt:51-52 | `visitType` reaches `visitElement` through `visitTypeOrWildcard` |
| Visitor.DeepestHooks | src/main/kotlin/kotlin/visitor.kt:72-74 | exactly the two reference-expression hooks are three fallbacks deep |
| Visitor.ReferenceHookChain | src/main/kotlin/kotlin/visitor.kt:72-74 | a reference-expression hook passes through `visitReferenceExpression` and `visitExpression` |
| Visitor.ReferenceChain | src/main/kotlin/kotlin/visitor.kt:57-72 | `visitReferenceExpression` falls back through `visitExpression` |
| Dispatch.AcceptTarget | src/main/kotlin/kotlin/ast.kt:41-43 | no `accept` calls the abstract `visitElement` directly: every declared target has a default body |
| Dispatch.AcceptHook | src/main/kotlin/kotlin/ast.kt:41-43 | the hook an `accept` calls is never `visitElement` |
| Dispatch.DeclaredKinds | src/main/kotlin/kotlin/ast.kt:41-43 | exactly the 22 classes whose `accept` names a declared hook call one |
| Dispatch.DeclaredHookFallsToSuperclass | src/main/kotlin/kotlin/visitor.kt:7-107 | a declared target falls back to the hook of the class's superclass; `Type`'s falls back to `visitTypeOrWildcard` |
| Dispatch.DeclaredSuperclasses | src/main/kotlin/kotlin/ast.kt:41-43 | declared targets are called only by classes of five families |
| Dispatch.ClassDeclarationTargetUndeclared | src/main/kotlin/kotlin/ast.kt:203-205 | `ClassDeclaration.accept` calls `visitClass`, which matches no hook name |
| Dispatch.FunctionDeclarationTargetUndeclared | src/main/kotlin/kotlin/ast.kt:305-307 | `FunctionDeclaration.accept` calls `visitFunc`, which matches no hook name |
| Dispatch.TypeWithModifiersTargetUndeclared | src/main/kotlin/kotlin/ast.kt:628-630 | `TypeWithModifiers.accept` calls `visitParenType`, which matches no hook name |
| Dispatch.ModifierTargetUndeclared | src/main/kotlin/kotlin/ast.kt:1393-1395 | `Modifier.accept` calls `visitIdentifierLikeModifier`, which matches no hook name |
| Dispatch.NodeHandler | src/main/kotlin/kotlin/ast.kt:41-43 | `accept` reaches an overridden body on its target's chain exactly when its target is declared |
| Dispatch.FamilyVisitorCatchesFamily | src/main/kotlin/kotlin/visitor.kt:13-107 | overriding a family's hook catches `accept` on every class of that family with a declared target, `Type` aside |
| Walk.Walk | src/main/kotlin/kotlin/ast.kt:45-56 | the pre-order walk starts at the node and continues only into its proper parts |
| Walk.Visit | src/main/kotlin/kotlin/ast.kt:41-56 | a traversal whose hooks call `acceptChildren` at most once, by a rule on the node, starts at the node and continues only into its proper parts |
| Walk.AcceptCallsOneHook | src/main/kotlin/kotlin/ast.kt:41-43 | `accept` alone hands exactly its own node to a hook and does not recurse |
| Walk.FullDescentIsWalk | src/main/kotlin/kotlin/ast.kt:45-56 | when every hook calls `acceptChildren`, the traversal is the pre-order walk |
| Walk.VisitIsPrunedWalk | src/main/kotlin/kotlin/ast.kt:45-56 | a traversal whose hooks call `acceptChildren` at most once, by a rule on the node, is the pre-order walk with some subtrees cut: an order-preserving subsequence of it |
| Walk.VisitStaysInWalk | src/main/kotlin/kotlin/ast.kt:45-56 | such a traversal only visits the node and its descendants |
| Walk.VisitAllAppend | src/main/kotlin/kotlin/ast.kt:45-56 | traversing children in two runs is traversing them in one |
| Walk.VisitAllSplit | src/main/kotlin/kotlin/ast.kt:45-56 | each child's traversal is one contiguous block, between those of the children before and after it |
| Walk.WalkRootOnce | src/main/kotlin/kotlin/ast.kt:45-56 | the node itself occurs only at the front of its walk |

## Left out

- The mutable `tag` slot of `Element`: untyped metadata with no behaviour, not part of equality.
- Kotlin-generated `equals`, `hashCode` and `copy`: Dafny datatype equality stands in for them.
- Validation of `Locus` offsets: `ast.kt` performs none, so the model does not assume start ≤ end.
- The value of `ConstantExpression` stays a raw string; it is not interpreted.
- Construction and parsing of trees: `ast.kt` and `visitor.kt` contain none.
- Field types are not enforced by `Node`. The predicate `Ast.Typed` states what the Kotlin declared types guarantee. No operation requires it; `Ast.Anns` uses it as the hypothesis of its promise that a stored `anns` holds only annotations.
- Walk.Visit: models only hooks that call `acceptChildren` at most once and call `accept` on nothing else, deciding by a rule on the node value. A Kotlin hook may call `acceptChildren` twice, call `accept` on chosen fields in its own order, or decide from mutable visitor state; those traversals are not modelled, and `Walk.VisitIsPrunedWalk` does not speak about them.
- Kotlin virtual dispatch and subclassing of `Visitor`: a user visitor is the set of hooks it overrides. What an overriding body does besides calling `acceptChildren` is user code; it is a parameter of `Walk.Visit`.
- The methods `ast.kt` calls but `visitor.kt` does not declare stay names (`Dispatch.Target.Undeclared`). They are not mapped onto hooks, and the types only `visitor.kt` mentions are not invented.
- Dispatch.ClassDeclarationTargetUndeclared: a string-level proof that the undeclared name differs from every hook name is given only for `visitClass`, `visitFunc`, `visitParenType` and `visitIdentifierLikeModifier`. The other undeclared names are kept apart by the `Target` datatype.
- Tokens.BinarySpelling: the spelling functions state only a length bound as their own contract; that the tables are one-to-one is stated by the injectivity and round-trip lemmas.
- Tokens.ParseBinary: the token reader is a model-side inverse of the spelling tables, which `ast.kt` does not have. Its completeness is stated by the round-trip lemmas, not by its own contract.

/**
 * The operator token tables of ast.kt: each token of `BinaryOperator.Token`,
 * `UnaryOperator.Token` and `TypeOperator.Token` carries its source spelling.
 * The parse functions are the reference inverses showing that the tables
 * are one-to-one.
 */
module Tokens {
  import opened Wrappers

  datatype BinaryToken =
    | Mul | Div | Mod | Add | Sub
    | In | NotIn
    | Gt | Gte | Lt | Lte
    | Eq | Neq
    | Assn | MulAssn | DivAssn | ModAssn | AddAssn | SubAssn
    | Or | And | Elvis | Range
    | Dot | DotSafe

  datatype UnaryToken = Neg | Pos | Inc | Dec | Not | NullDeref

  datatype TypeToken = As | AsSafe | Col | Is | NotIs

  /** `BinaryOperator.Token.str`. */
  function BinarySpelling(t: BinaryToken): (r: string)
    ensures 1 <= |r| <= 3
  {
    match t
    case Mul => "*"
    case Div => "/"
    case Mod => "%"
    case Add => "+"
    case Sub => "-"
    case In => "in"
    case NotIn => "!in"
    case Gt => ">"
    case Gte => ">="
    case Lt => "<"
    case Lte => "<="
    case Eq => "=="
    case Neq => "!="
    case Assn => "="
    case MulAssn => "*="
    case DivAssn => "/="
    case ModAssn => "%="
    case AddAssn => "+="
    case SubAssn => "-="
    case Or => "||"
    case And => "&&"
    case Elvis => "?:"
    case Range => ".."
    case Dot => "."
    case DotSafe => "?."
  }

  /** The binary token spelled `s`, if any; the only one. */
  function ParseBinary(s: string): (r: Option<BinaryToken>)
    ensures r.Some? ==> BinarySpelling(r.value) == s
  {
    match s
    case "*" => Some(Mul)
    case "/" => Some(Div)
    case "%" => Some(Mod)
    case "+" => Some(Add)
    case "-" => Some(Sub)
    case "in" => Some(In)
    case "!in" => Some(NotIn)
    case ">" => Some(Gt)
    case ">=" => Some(Gte)
    case "<" => Some(Lt)
    case "<=" => Some(Lte)
    case "==" => Some(Eq)
    case "!=" => Some(Neq)
    case "=" => Some(Assn)
    case "*=" => Some(MulAssn)
    case "/=" => Some(DivAssn)
    case "%=" => Some(ModAssn)
    case "+=" => Some(AddAssn)
    case "-=" => Some(SubAssn)
    case "||" => Some(Or)
    case "&&" => Some(And)
    case "?:" => Some(Elvis)
    case ".." => Some(Range)
    case "." => Some(Dot)
    case "?." => Some(DotSafe)
    case _ => None
  }
  /** Parsing a token's spelling gives the token back. */
  lemma ParseBinarySpelling(t: BinaryToken)
    ensures ParseBinary(BinarySpelling(t)) == Some(t)
  {
  }


  /** `UnaryOperator.Token.str`. */
  function UnarySpelling(t: UnaryToken): (r: string)
    ensures 1 <= |r| <= 2
  {
    match t
    case Neg => "-"
    case Pos => "+"
    case Inc => "++"
    case Dec => "--"
    case Not => "!"
    case NullDeref => "!!"
  }

  /** The unary token spelled `s`, if any; the only one. */
  function ParseUnary(s: string): (r: Option<UnaryToken>)
    ensures r.Some? ==> UnarySpelling(r.value) == s
  {
    match s
    case "-" => Some(Neg)
    case "+" => Some(Pos)
    case "++" => Some(Inc)
    case "--" => Some(Dec)
    case "!" => Some(Not)
    case "!!" => Some(NullDeref)
    case _ => None
  }
  /** Parsing a token's spelling gives the token back. */
  lemma ParseUnarySpelling(t: UnaryToken)
    ensures ParseUnary(UnarySpelling(t)) == Some(t)
  {
  }


  /** `TypeOperator.Token.str`. */
  function TypeSpelling(t: TypeToken): (r: string)
    ensures 1 <= |r| <= 3
  {
    match t
    case As => "as"
    case AsSafe => "as?"
    case Col => ":"
    case Is => "is"
    case NotIs => "!is"
  }

  /** The type-operator token spelled `s`, if any; the only one. */
  function ParseType(s: string): (r: Option<TypeToken>)
    ensures r.Some? ==> TypeSpelling(r.value) == s
  {
    match s
    case "as" => Some(As)
    case "as?" => Some(AsSafe)
    case ":" => Some(Col)
    case "is" => Some(Is)
    case "!is" => Some(NotIs)
    case _ => None
  }
  /** Parsing a token's spelling gives the token back. */
  lemma ParseTypeSpelling(t: TypeToken)
    ensures ParseType(TypeSpelling(t)) == Some(t)
  {
  }


  /** No two binary tokens share a spelling. */
  lemma BinarySpellingInjective(a: BinaryToken, b: BinaryToken)
    ensures BinarySpelling(a) == BinarySpelling(b) ==> a == b
  {
    ParseBinarySpelling(a);
  }

  /** No two unary tokens share a spelling. */
  lemma UnarySpellingInjective(a: UnaryToken, b: UnaryToken)
    ensures UnarySpelling(a) == UnarySpelling(b) ==> a == b
  {
    ParseUnarySpelling(a);
  }

  /** No two type-operator tokens share a spelling. */
  lemma TypeSpellingInjective(a: TypeToken, b: TypeToken)
    ensures TypeSpelling(a) == TypeSpelling(b) ==> a == b
  {
    ParseTypeSpelling(a);
  }

  /**
   * The unary and binary tables overlap only in "+" and "-": a prefix or
   * postfix operator spelling is never a binary one otherwise.
   */
  lemma UnaryBinaryOverlap(u: UnaryToken)
    ensures ParseBinary(UnarySpelling(u)).Some? <==> u == Neg || u == Pos
  {
  }
}

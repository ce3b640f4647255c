/** The lexical vocabulary of the Monkey language (lib/lexer/token.rs:4-43).

    Every lexical unit is one variant of the closed sum type `Token`: two
    sentinels, four payload-carrying variants and the payload-free operators,
    keywords and punctuation. The source derives `PartialEq` for it; the
    derived comparison is modelled by `DerivedEq` and shown to coincide with
    Dafny's structural equality. */
module TokenCatalog {

  /** Rust's `i64`, the payload of an integer literal. */
  newtype i64 = x: int | -0x8000_0000_0000_0000 <= x < 0x8000_0000_0000_0000

  datatype Token =
    | Illegal
    | EOF
      // identifier and literals
    | Ident(name: string)
    | StringLiteral(text: string)
    | IntLiteral(number: i64)
    | BoolLiteral(truth: bool)
      // statements
    | Assign
    | If
    | Else
      // operators
    | Plus
    | Minus
    | Divide
    | Multiply
    | Equal
    | NotEqual
    | GreaterThanEqual
    | LessThanEqual
    | GreaterThan
    | LessThan
    | Not
      // reserved words
    | Function
    | Let
    | Return
      // punctuation
    | Comma
    | Colon
    | SemiColon
    | LParen
    | RParen
    | LBrace
    | RBrace
    | LBracket
    | RBracket

  /** The payload of a token, or `NoPayload` for a payload-free variant. */
  datatype Payload = NoPayload | Text(s: string) | Integer(i: i64) | Boolean(b: bool)

  /** Number of variants of `Token`. */
  const VariantCount: nat := 32

  /** The enum discriminant: the variant's position in declaration order. */
  function Discriminant(t: Token): (d: nat)
    ensures d < VariantCount
  {
    match t
    case Illegal => 0
    case EOF => 1
    case Ident(_) => 2
    case StringLiteral(_) => 3
    case IntLiteral(_) => 4
    case BoolLiteral(_) => 5
    case Assign => 6
    case If => 7
    case Else => 8
    case Plus => 9
    case Minus => 10
    case Divide => 11
    case Multiply => 12
    case Equal => 13
    case NotEqual => 14
    case GreaterThanEqual => 15
    case LessThanEqual => 16
    case GreaterThan => 17
    case LessThan => 18
    case Not => 19
    case Function => 20
    case Let => 21
    case Return => 22
    case Comma => 23
    case Colon => 24
    case SemiColon => 25
    case LParen => 26
    case RParen => 27
    case LBrace => 28
    case RBrace => 29
    case LBracket => 30
    case RBracket => 31
  }

  /** The fields a token carries. */
  function PayloadOf(t: Token): Payload
  {
    match t
    case Ident(s) => Text(s)
    case StringLiteral(s) => Text(s)
    case IntLiteral(i) => Integer(i)
    case BoolLiteral(b) => Boolean(b)
    case _ => NoPayload
  }

  /** The variant alone: `t` with any payload replaced by a fixed default. */
  function Strip(t: Token): Token
  {
    match t
    case Ident(_) => Ident("")
    case StringLiteral(_) => StringLiteral("")
    case IntLiteral(_) => IntLiteral(0)
    case BoolLiteral(_) => BoolLiteral(false)
    case _ => t
  }

  /** Reference for "same variant", independent of any numbering: the two
      tokens are built by the same constructor, whatever their payloads. */
  predicate SameVariant(a: Token, b: Token)
  {
    Strip(a) == Strip(b)
  }

  /** The payload-free token of variant number `d`. */
  function VariantWith(d: nat): Token
    requires d < VariantCount
  {
    match d
    case 0 => Illegal
    case 1 => EOF
    case 2 => Ident("")
    case 3 => StringLiteral("")
    case 4 => IntLiteral(0)
    case 5 => BoolLiteral(false)
    case 6 => Assign
    case 7 => If
    case 8 => Else
    case 9 => Plus
    case 10 => Minus
    case 11 => Divide
    case 12 => Multiply
    case 13 => Equal
    case 14 => NotEqual
    case 15 => GreaterThanEqual
    case 16 => LessThanEqual
    case 17 => GreaterThan
    case 18 => LessThan
    case 19 => Not
    case 20 => Function
    case 21 => Let
    case 22 => Return
    case 23 => Comma
    case 24 => Colon
    case 25 => SemiColon
    case 26 => LParen
    case 27 => RParen
    case 28 => LBrace
    case 29 => RBrace
    case 30 => LBracket
    case _ => RBracket
  }

  /** `s` with its payload set to `p`, when `p` fits the variant. */
  function WithPayload(s: Token, p: Payload): Token
  {
    match (s, p)
    case (Ident(_), Text(x)) => Ident(x)
    case (StringLiteral(_), Text(x)) => StringLiteral(x)
    case (IntLiteral(_), Integer(i)) => IntLiteral(i)
    case (BoolLiteral(_), Boolean(b)) => BoolLiteral(b)
    case _ => s
  }

  /** The discriminant names the variant: numbering a token and turning the
      number back into a token gives the token with its payload erased. */
  lemma DiscriminantRoundTrip(t: Token)
    ensures VariantWith(Discriminant(t)) == Strip(t)
  {
  }

  /** Erasing the payload keeps the variant, hence the discriminant. */
  lemma StripKeepsDiscriminant(t: Token)
    ensures Discriminant(Strip(t)) == Discriminant(t)
  {
  }

  /** A token is rebuilt from its variant and its payload. */
  lemma PayloadRoundTrip(t: Token)
    ensures WithPayload(Strip(t), PayloadOf(t)) == t
  {
  }

  /** Distinct variants have distinct discriminants, and equal variants
      equal ones: the discriminant identifies the constructor. */
  lemma DiscriminantIdentifiesVariant(a: Token, b: Token)
    ensures Discriminant(a) == Discriminant(b) <==> SameVariant(a, b)
  {
    DiscriminantRoundTrip(a);
    DiscriminantRoundTrip(b);
    StripKeepsDiscriminant(a);
    StripKeepsDiscriminant(b);
  }

  /** `#[derive(PartialEq)]` on an enum: equal discriminants, then equal
      fields. It holds exactly when the tokens are of the same variant and
      carry the same payload. */
  predicate DerivedEq(a: Token, b: Token): (r: bool)
    ensures r <==> SameVariant(a, b) && PayloadOf(a) == PayloadOf(b)
  {
    DiscriminantIdentifiesVariant(a, b);
    Discriminant(a) == Discriminant(b) && PayloadOf(a) == PayloadOf(b)
  }

  /** The derived comparison is exactly structural equality: same variant
      and, for a payload variant, equal payload. */
  lemma DerivedEqIsEquality(a: Token, b: Token)
    ensures DerivedEq(a, b) <==> a == b
  {
    PayloadRoundTrip(a);
    PayloadRoundTrip(b);
  }

  /** A payload-carrying variant is distinguished by its payload, and tokens
      of different variants differ even when their payloads look alike. */
  lemma PayloadDistinguishes(x: string, y: string, n: i64, v: bool)
    ensures DerivedEq(Ident(x), Ident(y)) <==> x == y
    ensures !DerivedEq(Ident(x), StringLiteral(x))
    ensures !DerivedEq(IntLiteral(n), BoolLiteral(v))
  {
  }
}

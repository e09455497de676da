/**
 * The token data of the scanner in src/lexing.rs: token kinds, source
 * locations, literal values and the fixed character and keyword tables.
 */
module Lexing {
  import opened Wrappers

  datatype TokenKind =
    // single-character tokens
    | Comma | Dot | LeftBrace | LeftParen | Minus | Plus | RightBrace | RightParen
    | Semicolon | Slash | Star
    // operators
    | Bang | BangEqual | Equal | EqualEqual | Greater | GreaterEqual | Less | LessEqual
    // literals
    | Identifier | Number | String
    // keywords
    | And | Class | Else | False | For | Fun | If | Nil | Or | Print | Return | Super
    | This | True | Var | While
    // kinds the scanner drops, and the end marker
    | Comment | Eof | NewLine | Whitespace

  /** A span of source lines; the two ends differ only for a string literal spanning lines. */
  datatype Loc = Loc(lineBegin: nat, lineEnd: nat) {
    predicate IsSingle() {
      lineBegin == lineEnd
    }

    /** `line_end - line_begin`; the subtraction on `usize` needs the end not to precede the begin. */
    function Offset(): nat
      requires lineBegin <= lineEnd
    {
      lineEnd - lineBegin
    }

    static function Single(number: nat): Loc {
      Loc(number, number)
    }
  }

  lemma SingleHasNoOffset(number: nat)
    ensures Loc.Single(number).IsSingle()
    ensures Loc.Single(number).lineBegin == number && Loc.Single(number).Offset() == 0
  {
  }

  lemma SingleIffNoOffset(loc: Loc)
    requires loc.lineBegin <= loc.lineEnd
    ensures loc.IsSingle() <==> loc.Offset() == 0
    ensures loc.lineBegin + loc.Offset() == loc.lineEnd
  {
  }

  /**
   * A 64-bit float, kept opaque: the model makes no claim about floating-point
   * arithmetic, so every operation on numbers is a parameter.
   */
  datatype Num = F64(bits: bv64)

  /** Nil is not a case here: it is the absence of a value, `Option<LiteralValue>.None`. */
  datatype LiteralValue = Bool(b: bool) | Number(n: Num) | String(s: string)

  datatype Token = Token(kind: TokenKind, lexeme: string, literal: Option<LiteralValue>, loc: Loc)

  /** The three ways scanning fails (each a `panic!` in the Rust code). */
  datatype LexError =
    | AdditionalPoint(line: nat)
    | UnterminatedString(line: nat)
    | UnknownToken(lexeme: string, line: nat)

  /** The 16 reserved words. */
  const ReservedWords: set<string> :=
    {"and", "class", "else", "false", "for", "fun", "if", "nil",
     "or", "print", "return", "super", "this", "true", "var", "while"}

  function KeywordKind(word: string): Option<TokenKind>
  {
    match word
    case "and" => Some(And)
    case "class" => Some(Class)
    case "else" => Some(Else)
    case "false" => Some(False)
    case "for" => Some(For)
    case "fun" => Some(Fun)
    case "if" => Some(If)
    case "nil" => Some(Nil)
    case "or" => Some(Or)
    case "print" => Some(Print)
    case "return" => Some(Return)
    case "super" => Some(Super)
    case "this" => Some(This)
    case "true" => Some(True)
    case "var" => Some(Var)
    case "while" => Some(While)
    case _ => None
  }

  predicate IsKeyword(kind: TokenKind) {
    kind in {And, Class, Else, False, For, Fun, If, Nil, Or, Print, Return, Super, This, True, Var, While}
  }

  /** The spelling of a keyword kind: the inverse of the keyword table. */
  function KeywordLexeme(kind: TokenKind): string
    requires IsKeyword(kind)
  {
    match kind
    case And => "and"
    case Class => "class"
    case Else => "else"
    case False => "false"
    case For => "for"
    case Fun => "fun"
    case If => "if"
    case Nil => "nil"
    case Or => "or"
    case Print => "print"
    case Return => "return"
    case Super => "super"
    case This => "this"
    case True => "true"
    case Var => "var"
    case While => "while"
  }

  /** The keyword table recognises exactly the reserved words, each as the kind it spells. */
  lemma KeywordTable(word: string)
    ensures KeywordKind(word).Some? <==> word in ReservedWords
    ensures KeywordKind(word).Some? ==>
              IsKeyword(KeywordKind(word).value) && KeywordLexeme(KeywordKind(word).value) == word
  {
    match word
    case "and" =>
    case "class" =>
    case "else" =>
    case "false" =>
    case "for" =>
    case "fun" =>
    case "if" =>
    case "nil" =>
    case "or" =>
    case "print" =>
    case "return" =>
    case "super" =>
    case "this" =>
    case "true" =>
    case "var" =>
    case "while" =>
    case _ =>
      assert KeywordKind(word).None?;
      assert word !in ReservedWords;
  }

  lemma KeywordLexemeRoundTrip(kind: TokenKind)
    requires IsKeyword(kind)
    ensures KeywordKind(KeywordLexeme(kind)) == Some(kind)
    ensures KeywordLexeme(kind) in ReservedWords
  {
  }

  /** The kind of an identifier-shaped lexeme: its keyword kind, else `Identifier`. */
  function IdentifierKind(word: string): TokenKind
  {
    match KeywordKind(word)
    case Some(kind) => kind
    case None => Identifier
  }

  lemma IdentifierKindCases(word: string)
    ensures IdentifierKind(word) == Identifier || IsKeyword(IdentifierKind(word))
    ensures KeywordKind(word).None? <==> IdentifierKind(word) == Identifier
  {
    KeywordTable(word);
  }

  predicate IsDigit(g: string) {
    |g| == 1 && '0' <= g[0] <= '9'
  }

  predicate IsIdentStart(g: string) {
    |g| == 1 && (g[0] == '_' || 'A' <= g[0] <= 'Z' || 'a' <= g[0] <= 'z')
  }

  predicate IsIdentTrailing(g: string) {
    IsDigit(g) || IsIdentStart(g)
  }
}

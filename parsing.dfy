/**
 * The recursive-descent parser of src/parsing.rs. The shared
 * `Peekable<Iter<Token>>` becomes a position in the token sequence: each
 * method receives the position of the next unread token and returns the
 * position after the last token it consumed. Each method is proved equal to
 * a function below; the properties of those functions are in ParsingProofs.
 */
module Parsing {
  import opened Wrappers
  import opened Lexing
  import opened Ast

  /** Which of the four syntax errors; the Rust value carries it as a message. */
  datatype ParseErrorKind =
    | ExpectedSemicolon     // "expected ';'"
    | ExpectedClosingParen  // "expected ')'"
    | UnexpectedEof         // "expected primary expression, got EOF"
    | UnexpectedToken       // "unexpected token"

  /** `ParsingError`: the error and the token it was found at. */
  datatype ParsingError = ParsingError(kind: ParseErrorKind, token: Token)

  /** A parsed value and the position of the first token not consumed. */
  datatype Parsed<T> = Parsed(value: T, next: nat)

  /**
   * The parser's input must end with an Eof token: every `next()` past the
   * end is a panic the Rust code marks as a bug.
   */
  predicate EofTerminated(toks: seq<Token>)
  {
    |toks| > 0 && toks[|toks| - 1].kind == Eof
  }

  predicate Valid(toks: seq<Token>, pos: nat)
  {
    EofTerminated(toks) && pos < |toks|
  }

  /** The operator kinds of the binary levels: equality, comparison, term and factor. */
  function Operators(level: nat): set<TokenKind>
  {
    if level == 0 then {BangEqual, EqualEqual}
    else if level == 1 then {Greater, GreaterEqual, Less, LessEqual}
    else if level == 2 then {Minus, Plus}
    else if level == 3 then {Slash, Star}
    else {}
  }

  predicate IsLiteralKind(kind: TokenKind)
  {
    kind in {False, True, Nil, TokenKind.Number, TokenKind.String}
  }

  /*** The grammar as functions ***/

  /**
   * Binary level `level` (0 equality, 1 comparison, 2 term, 3 factor) at
   * `pos`: one operand of the next level, then the loop.
   */
  function ParseLevel(toks: seq<Token>, pos: nat, level: nat): (r: Result<Parsed<Expr>, ParsingError>)
    requires Valid(toks, pos) && level <= 3
    ensures r.Ok? ==> pos < r.value.next < |toks|
    decreases |toks| - pos, 10 - 2 * level
  {
    var first :- ParseOperand(toks, pos, level);
    ParseRest(toks, first.next, level, first.value)
  }

  /** An operand of binary level `level`: the next level up, or `unary` above factor. */
  function ParseOperand(toks: seq<Token>, pos: nat, level: nat): (r: Result<Parsed<Expr>, ParsingError>)
    requires Valid(toks, pos) && level <= 3
    ensures r.Ok? ==> pos < r.value.next < |toks|
    decreases |toks| - pos, 9 - 2 * level
  {
    if level < 3 then ParseLevel(toks, pos, level + 1) else ParseUnary(toks, pos)
  }

  /** The `while let` loop of level `level`, standing at `pos` with `left` parsed so far. */
  function ParseRest(toks: seq<Token>, pos: nat, level: nat, left: Expr): (r: Result<Parsed<Expr>, ParsingError>)
    requires Valid(toks, pos) && level <= 3
    ensures r.Ok? ==> pos <= r.value.next < |toks|
    decreases |toks| - pos, 0
  {
    if toks[pos].kind in Operators(level) then
      var right :- ParseOperand(toks, pos + 1, level);
      ParseRest(toks, right.next, level, Expr.Binary(left, toks[pos], right.value))
    else
      Ok(Parsed(left, pos))
  }

  function ParseUnary(toks: seq<Token>, pos: nat): (r: Result<Parsed<Expr>, ParsingError>)
    requires Valid(toks, pos)
    ensures r.Ok? ==> pos < r.value.next < |toks|
    decreases |toks| - pos, 2
  {
    if toks[pos].kind in {Bang, Minus} then
      var right :- ParseUnary(toks, pos + 1);
      Ok(Parsed(Expr.Unary(toks[pos], right.value), right.next))
    else
      ParsePrimary(toks, pos)
  }

  function ParsePrimary(toks: seq<Token>, pos: nat): (r: Result<Parsed<Expr>, ParsingError>)
    requires Valid(toks, pos)
    ensures r.Ok? ==> pos < r.value.next < |toks|
    decreases |toks| - pos, 1
  {
    var tok := toks[pos];
    if IsLiteralKind(tok.kind) then
      Ok(Parsed(Expr.Literal(tok.literal), pos + 1))
    else if tok.kind == LeftParen then
      var inner :- ParseLevel(toks, pos + 1, 0);
      var close :- ExpectKind(toks, inner.next, RightParen, ExpectedClosingParen);
      Ok(Parsed(Expr.Grouping(inner.value), close))
    else if tok.kind == Eof then
      Err(ParsingError(UnexpectedEof, tok))
    else
      Err(ParsingError(UnexpectedToken, tok))
  }

  /** `expect_closing_paren` and `expect_semicolon`: consume one token, which must be of `kind`. */
  function ExpectKind(toks: seq<Token>, pos: nat, kind: TokenKind, error: ParseErrorKind): (r: Result<nat, ParsingError>)
    requires Valid(toks, pos)
    ensures r.Ok? <==> toks[pos].kind == kind
    ensures r.Ok? ==> r.value == pos + 1
    ensures r.Err? ==> r.error == ParsingError(error, toks[pos])
  {
    if toks[pos].kind == kind then Ok(pos + 1) else Err(ParsingError(error, toks[pos]))
  }

  /** A statement whose leading `print`, if any, is already consumed: an expression and its `;`. */
  function ParseStatementBody(toks: seq<Token>, pos: nat, isPrint: bool): (r: Result<Parsed<Stmt>, ParsingError>)
    requires Valid(toks, pos)
    ensures r.Ok? ==> pos < r.value.next < |toks|
  {
    var e :- ParseLevel(toks, pos, 0);
    var next :- ExpectKind(toks, e.next, Semicolon, ExpectedSemicolon);
    Ok(Parsed(if isPrint then Stmt.Print(e.value) else Stmt.Expr(e.value), next))
  }

  /** The statement at `pos`, which is not Eof. */
  function ParseStatement(toks: seq<Token>, pos: nat): (r: Result<Parsed<Stmt>, ParsingError>)
    requires Valid(toks, pos)
    ensures r.Ok? ==> pos < r.value.next < |toks|
  {
    if toks[pos].kind == TokenKind.Print then
      ParseStatementBody(toks, pos + 1, true)
    else
      ParseStatementBody(toks, pos, false)
  }

  /** The loop of `parse` standing at `pos`, with the statements `done` pushed so far. */
  function ParseProgramFrom(toks: seq<Token>, pos: nat, done: seq<Stmt>): Result<seq<Stmt>, ParsingError>
    requires Valid(toks, pos)
    decreases |toks| - pos
  {
    if toks[pos].kind == Eof then
      Ok(done)
    else
      var s :- ParseStatement(toks, pos);
      ParseProgramFrom(toks, s.next, done + [s.value])
  }

  function ParseProgram(toks: seq<Token>): Result<seq<Stmt>, ParsingError>
    requires EofTerminated(toks)
  {
    ParseProgramFrom(toks, 0, [])
  }

  /*** The parser ***/

  method Parse(toks: seq<Token>) returns (r: Result<seq<Stmt>, ParsingError>)
    requires EofTerminated(toks)
    ensures r == ParseProgram(toks)
  {
    var p := 0;
    var statements: seq<Stmt> := [];
    while true
      invariant p < |toks|
      invariant ParseProgramFrom(toks, p, statements) == ParseProgram(toks)
      decreases |toks| - p
    {
      var stmt: Result<Parsed<Stmt>, ParsingError>;
      if toks[p].kind == Eof {
        break;
      } else if toks[p].kind == TokenKind.Print {
        // consume the peeked print token
        stmt := PrintStatement(toks, p + 1);
      } else {
        stmt := ExpressionStatement(toks, p);
      }
      var s :- stmt;
      statements := statements + [s.value];
      p := s.next;
    }
    r := Ok(statements);
  }

  method ExpressionStatement(toks: seq<Token>, pos: nat) returns (r: Result<Parsed<Stmt>, ParsingError>)
    requires Valid(toks, pos)
    ensures r == ParseStatementBody(toks, pos, false)
  {
    var e :- Expression(toks, pos);
    var next :- ExpectSemicolon(toks, e.next);
    r := Ok(Parsed(Stmt.Expr(e.value), next));
  }

  method PrintStatement(toks: seq<Token>, pos: nat) returns (r: Result<Parsed<Stmt>, ParsingError>)
    requires Valid(toks, pos)
    ensures r == ParseStatementBody(toks, pos, true)
  {
    var e :- Expression(toks, pos);
    var next :- ExpectSemicolon(toks, e.next);
    r := Ok(Parsed(Stmt.Print(e.value), next));
  }

  method Expression(toks: seq<Token>, pos: nat) returns (r: Result<Parsed<Expr>, ParsingError>)
    requires Valid(toks, pos)
    ensures r == ParseLevel(toks, pos, 0)
    decreases |toks| - pos, 11
  {
    r := Equality(toks, pos);
  }

  method Equality(toks: seq<Token>, pos: nat) returns (r: Result<Parsed<Expr>, ParsingError>)
    requires Valid(toks, pos)
    ensures r == ParseLevel(toks, pos, 0)
    decreases |toks| - pos, 10
  {
    var first :- Comparison(toks, pos);
    var left, p := first.value, first.next;
    while toks[p].kind == BangEqual || toks[p].kind == EqualEqual
      invariant pos < p < |toks|
      invariant ParseLevel(toks, pos, 0) == ParseRest(toks, p, 0, left)
      decreases |toks| - p
    {
      var op := toks[p];
      var right :- Comparison(toks, p + 1);
      left := Expr.Binary(left, op, right.value);
      p := right.next;
    }
    r := Ok(Parsed(left, p));
  }

  method Comparison(toks: seq<Token>, pos: nat) returns (r: Result<Parsed<Expr>, ParsingError>)
    requires Valid(toks, pos)
    ensures r == ParseLevel(toks, pos, 1)
    decreases |toks| - pos, 8
  {
    var first :- Term(toks, pos);
    var left, p := first.value, first.next;
    while toks[p].kind == Greater || toks[p].kind == GreaterEqual || toks[p].kind == Less || toks[p].kind == LessEqual
      invariant pos < p < |toks|
      invariant ParseLevel(toks, pos, 1) == ParseRest(toks, p, 1, left)
      decreases |toks| - p
    {
      var op := toks[p];
      var right :- Term(toks, p + 1);
      left := Expr.Binary(left, op, right.value);
      p := right.next;
    }
    r := Ok(Parsed(left, p));
  }

  method Term(toks: seq<Token>, pos: nat) returns (r: Result<Parsed<Expr>, ParsingError>)
    requires Valid(toks, pos)
    ensures r == ParseLevel(toks, pos, 2)
    decreases |toks| - pos, 6
  {
    var first :- Factor(toks, pos);
    var left, p := first.value, first.next;
    while toks[p].kind == Minus || toks[p].kind == Plus
      invariant pos < p < |toks|
      invariant ParseLevel(toks, pos, 2) == ParseRest(toks, p, 2, left)
      decreases |toks| - p
    {
      var op := toks[p];
      var right :- Factor(toks, p + 1);
      left := Expr.Binary(left, op, right.value);
      p := right.next;
    }
    r := Ok(Parsed(left, p));
  }

  method Factor(toks: seq<Token>, pos: nat) returns (r: Result<Parsed<Expr>, ParsingError>)
    requires Valid(toks, pos)
    ensures r == ParseLevel(toks, pos, 3)
    decreases |toks| - pos, 4
  {
    var first :- Unary(toks, pos);
    var left, p := first.value, first.next;
    while toks[p].kind == Slash || toks[p].kind == Star
      invariant pos < p < |toks|
      invariant ParseLevel(toks, pos, 3) == ParseRest(toks, p, 3, left)
      decreases |toks| - p
    {
      var op := toks[p];
      var right :- Unary(toks, p + 1);
      left := Expr.Binary(left, op, right.value);
      p := right.next;
    }
    r := Ok(Parsed(left, p));
  }

  method Unary(toks: seq<Token>, pos: nat) returns (r: Result<Parsed<Expr>, ParsingError>)
    requires Valid(toks, pos)
    ensures r == ParseUnary(toks, pos)
    decreases |toks| - pos, 2
  {
    if toks[pos].kind == Bang || toks[pos].kind == Minus {
      var op := toks[pos];
      var right :- Unary(toks, pos + 1);
      r := Ok(Parsed(Expr.Unary(op, right.value), right.next));
    } else {
      r := Primary(toks, pos);
    }
  }

  method Primary(toks: seq<Token>, pos: nat) returns (r: Result<Parsed<Expr>, ParsingError>)
    requires Valid(toks, pos)
    ensures r == ParsePrimary(toks, pos)
    decreases |toks| - pos, 1
  {
    var tok := toks[pos];
    if tok.kind == False || tok.kind == True || tok.kind == Nil || tok.kind == TokenKind.Number || tok.kind == TokenKind.String {
      r := Ok(Parsed(Expr.Literal(tok.literal), pos + 1));
    } else if tok.kind == LeftParen {
      var inner :- Expression(toks, pos + 1);
      var close :- ExpectClosingParen(toks, inner.next);
      r := Ok(Parsed(Expr.Grouping(inner.value), close));
    } else if tok.kind == Eof {
      r := Err(ParsingError(UnexpectedEof, tok));
    } else {
      r := Err(ParsingError(UnexpectedToken, tok));
    }
  }

  method ExpectClosingParen(toks: seq<Token>, pos: nat) returns (r: Result<nat, ParsingError>)
    requires Valid(toks, pos)
    ensures r == ExpectKind(toks, pos, RightParen, ExpectedClosingParen)
  {
    if toks[pos].kind == RightParen {
      r := Ok(pos + 1);
    } else {
      r := Err(ParsingError(ExpectedClosingParen, toks[pos]));
    }
  }

  method ExpectSemicolon(toks: seq<Token>, pos: nat) returns (r: Result<nat, ParsingError>)
    requires Valid(toks, pos)
    ensures r == ExpectKind(toks, pos, Semicolon, ExpectedSemicolon)
  {
    if toks[pos].kind == Semicolon {
      r := Ok(pos + 1);
    } else {
      r := Err(ParsingError(ExpectedSemicolon, toks[pos]));
    }
  }
}

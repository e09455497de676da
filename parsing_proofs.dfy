/**
 * What the parser of src/parsing.rs promises, proved about the grammar
 * functions of module Parsing (and so, through their `ensures`, about the
 * parser methods).
 *
 * `Shaped(e, level)` describes the trees that binary level `level` builds:
 * left-associative chains of its own operators over operands of the next
 * level. `Unparse` writes a tree back as tokens. The parser's results are
 * always Shaped, and parsing the unparsed form of a Shaped tree gives the
 * tree back, so the Shaped trees are exactly what the parser produces.
 */
module ParsingProofs {
  import opened Wrappers
  import opened Lexing
  import opened Ast
  import opened Parsing

  /** The binary level an operator kind belongs to; 4 for kinds that are no binary operator. */
  function LevelOf(kind: TokenKind): nat
  {
    if kind in Operators(0) then 0
    else if kind in Operators(1) then 1
    else if kind in Operators(2) then 2
    else if kind in Operators(3) then 3
    else 4
  }

  /** A token of kind `kind` that stops every binary level from `level` on. */
  predicate Ends(kind: TokenKind, level: nat)
  {
    LevelOf(kind) < level || LevelOf(kind) == 4
  }

  /** The tokens that can begin an expression: a unary operator, `(` or a literal. */
  predicate IsExpressionStart(kind: TokenKind)
  {
    kind in {Bang, Minus, LeftParen} || IsLiteralKind(kind)
  }

  /**
   * The trees binary level `level` (0..3) produces; level 4 is `unary`. A
   * Binary node's operator is of some level at or above `level`, its left
   * operand is of that same level and its right operand one level up.
   */
  predicate Shaped(e: Expr, level: nat)
  {
    match e
    case Binary(l, op, r) =>
      level <= LevelOf(op.kind) <= 3 && Shaped(l, LevelOf(op.kind)) && Shaped(r, LevelOf(op.kind) + 1)
    case Unary(op, r) => op.kind in {Bang, Minus} && Shaped(r, 4)
    case Grouping(g) => Shaped(g, 0)
    case Literal(_) => true
  }

  predicate ShapedStmt(s: Stmt)
  {
    Shaped(s.expr, 0)
  }

  predicate AllShaped(ss: seq<Stmt>)
  {
    forall i :: 0 <= i < |ss| ==> ShapedStmt(ss[i])
  }

  const LeftParenToken: Token := Token(LeftParen, "(", None, Loc.Single(1))
  const RightParenToken: Token := Token(RightParen, ")", None, Loc.Single(1))
  const SemicolonToken: Token := Token(Semicolon, ";", None, Loc.Single(1))
  const PrintToken: Token := Token(TokenKind.Print, "print", None, Loc.Single(1))

  /** A token carrying `value`, of the kind `primary` accepts for it. */
  function LiteralToken(value: Option<LiteralValue>): Token
  {
    var kind :=
      if value.None? then Nil
      else if value.value.Bool? then (if value.value.b then True else False)
      else if value.value.Number? then TokenKind.Number
      else TokenKind.String;
    Token(kind, "", value, Loc.Single(1))
  }

  /** The tokens of a tree, operators in place, groupings in parentheses. */
  function Unparse(e: Expr): seq<Token>
  {
    match e
    case Binary(l, op, r) => Unparse(l) + [op] + Unparse(r)
    case Unary(op, r) => [op] + Unparse(r)
    case Grouping(g) => [LeftParenToken] + Unparse(g) + [RightParenToken]
    case Literal(v) => [LiteralToken(v)]
  }

  function UnparseStmt(s: Stmt): seq<Token>
  {
    match s
    case Expr(e) => Unparse(e) + [SemicolonToken]
    case Print(e) => [PrintToken] + Unparse(e) + [SemicolonToken]
  }

  function UnparseProgram(ss: seq<Stmt>): seq<Token>
  {
    if ss == [] then [] else UnparseStmt(ss[0]) + UnparseProgram(ss[1..])
  }

  /*** Levels and operators ***/

  /** The four operator sets are disjoint, and LevelOf names the one a kind is in. */
  lemma LevelOfOperators(kind: TokenKind, level: nat)
    ensures kind in Operators(level) <==> level <= 3 && LevelOf(kind) == level
  {
  }

  /** A tree of one level is also a tree of every lower level. */
  lemma ShapedLower(e: Expr, level: nat, lower: nat)
    requires Shaped(e, level) && lower <= level
    ensures Shaped(e, lower)
  {
  }

  /*** The parser builds Shaped trees ***/

  lemma {:induction false} LevelShaped(toks: seq<Token>, pos: nat, level: nat)
    requires Valid(toks, pos) && level <= 3
    ensures var r := ParseLevel(toks, pos, level); r.Ok? ==> Shaped(r.value.value, level)
    decreases |toks| - pos, 20 - 4 * level
  {
    OperandShaped(toks, pos, level);
    var first := ParseOperand(toks, pos, level);
    if first.Ok? {
      ShapedLower(first.value.value, level + 1, level);
      RestShaped(toks, first.value.next, level, first.value.value);
    }
  }

  lemma {:induction false} OperandShaped(toks: seq<Token>, pos: nat, level: nat)
    requires Valid(toks, pos) && level <= 3
    ensures var r := ParseOperand(toks, pos, level); r.Ok? ==> Shaped(r.value.value, level + 1)
    decreases |toks| - pos, 18 - 4 * level
  {
    if level < 3 {
      LevelShaped(toks, pos, level + 1);
    } else {
      UnaryShaped(toks, pos);
    }
  }

  /** The while loop keeps `left` Shaped: each new node's operator is of the loop's level. */
  lemma {:induction false} RestShaped(toks: seq<Token>, pos: nat, level: nat, left: Expr)
    requires Valid(toks, pos) && level <= 3 && Shaped(left, level)
    ensures var r := ParseRest(toks, pos, level, left); r.Ok? ==> Shaped(r.value.value, level)
    decreases |toks| - pos, 0
  {
    if toks[pos].kind in Operators(level) {
      LevelOfOperators(toks[pos].kind, level);
      OperandShaped(toks, pos + 1, level);
      var right := ParseOperand(toks, pos + 1, level);
      if right.Ok? {
        RestShaped(toks, right.value.next, level, Expr.Binary(left, toks[pos], right.value.value));
      }
    }
  }

  lemma {:induction false} UnaryShaped(toks: seq<Token>, pos: nat)
    requires Valid(toks, pos)
    ensures var r := ParseUnary(toks, pos); r.Ok? ==> Shaped(r.value.value, 4)
    decreases |toks| - pos, 2
  {
    if toks[pos].kind in {Bang, Minus} {
      UnaryShaped(toks, pos + 1);
    } else {
      PrimaryShaped(toks, pos);
    }
  }

  lemma {:induction false} PrimaryShaped(toks: seq<Token>, pos: nat)
    requires Valid(toks, pos)
    ensures var r := ParsePrimary(toks, pos); r.Ok? ==> Shaped(r.value.value, 4)
    decreases |toks| - pos, 1
  {
    if !IsLiteralKind(toks[pos].kind) && toks[pos].kind == LeftParen {
      LevelShaped(toks, pos + 1, 0);
    }
  }

  /*** Token layout ***/

  /** The number of tokens of `Unparse(e)`. */
  function Width(e: Expr): nat
  {
    match e
    case Binary(l, _, r) => Width(l) + 1 + Width(r)
    case Unary(_, r) => 1 + Width(r)
    case Grouping(g) => Width(g) + 2
    case Literal(_) => 1
  }

  /** `toks` holds the tokens of `Unparse(e)` from `pos` on, stated token by token. */
  predicate Laid(toks: seq<Token>, pos: nat, e: Expr)
    decreases e
  {
    match e
    case Binary(l, op, r) =>
      Laid(toks, pos, l) && pos + Width(l) < |toks| && toks[pos + Width(l)] == op && Laid(toks, pos + Width(l) + 1, r)
    case Unary(op, r) => pos < |toks| && toks[pos] == op && Laid(toks, pos + 1, r)
    case Grouping(g) =>
      pos < |toks| && toks[pos] == LeftParenToken && Laid(toks, pos + 1, g)
      && pos + 1 + Width(g) < |toks| && toks[pos + 1 + Width(g)] == RightParenToken
    case Literal(v) => pos < |toks| && toks[pos] == LiteralToken(v)
  }

  /** The tokens of `e` stand at `pos`, and some token follows them. */
  predicate At(toks: seq<Token>, pos: nat, e: Expr)
  {
    pos + Width(e) < |toks| && Laid(toks, pos, e)
  }

  /** The tokens of a statement: an optional `print`, the expression, `;`. */
  function StmtWidth(s: Stmt): nat
  {
    Width(s.expr) + (if s.Print? then 2 else 1)
  }

  predicate LaidStmt(toks: seq<Token>, pos: nat, s: Stmt)
  {
    var start := if s.Print? then pos + 1 else pos;
    (s.Print? ==> pos < |toks| && toks[pos] == PrintToken)
    && At(toks, start, s.expr) && toks[start + Width(s.expr)] == SemicolonToken
  }

  function ProgramWidth(ss: seq<Stmt>): nat
  {
    if ss == [] then 0 else StmtWidth(ss[0]) + ProgramWidth(ss[1..])
  }

  predicate LaidProgram(toks: seq<Token>, pos: nat, ss: seq<Stmt>)
    decreases ss
  {
    ss == [] || (LaidStmt(toks, pos, ss[0]) && LaidProgram(toks, pos + StmtWidth(ss[0]), ss[1..]))
  }

  /** The tokens `u` stand in `toks` from `pos` on, one by one. */
  predicate Placed(toks: seq<Token>, pos: nat, u: seq<Token>)
    decreases |u|
  {
    pos + |u| <= |toks| && (u != [] ==> toks[pos] == u[0] && Placed(toks, pos + 1, u[1..]))
  }

  /** Splitting a placed sequence into two placed parts. */
  lemma {:induction false} PlacedSplit(toks: seq<Token>, pos: nat, a: seq<Token>, b: seq<Token>)
    requires Placed(toks, pos, a + b)
    ensures Placed(toks, pos, a) && Placed(toks, pos + |a|, b)
    decreases |a|
  {
    if a == [] {
      assert a + b == b;
    } else {
      assert (a + b)[0] == a[0] && (a + b)[1..] == a[1..] + b;
      PlacedSplit(toks, pos + 1, a[1..], b);
    }
  }

  lemma PlacedHead(toks: seq<Token>, pos: nat, t: Token)
    requires Placed(toks, pos, [t])
    ensures toks[pos] == t
  {
  }

  /** Every suffix of `toks` stands in it where it starts. */
  lemma {:induction false} PlacedSuffix(toks: seq<Token>, pos: nat)
    requires pos <= |toks|
    ensures Placed(toks, pos, toks[pos..])
    decreases |toks| - pos
  {
    if pos < |toks| {
      assert toks[pos..][1..] == toks[pos + 1..];
      PlacedSuffix(toks, pos + 1);
    }
  }

  /** Wherever `Unparse(e)` is placed, its `Width` tokens are laid out as `Laid` says. */
  lemma {:induction false} PlacedLaid(toks: seq<Token>, pos: nat, e: Expr)
    requires Placed(toks, pos, Unparse(e))
    ensures Width(e) == |Unparse(e)| && Laid(toks, pos, e)
    decreases e, 1
  {
    if e.Binary? {
      PlacedLaidBinary(toks, pos, e);
    } else if e.Unary? {
      PlacedLaidUnary(toks, pos, e);
    } else if e.Grouping? {
      PlacedLaidGrouping(toks, pos, e);
    } else {
      PlacedHead(toks, pos, LiteralToken(e.value));
    }
  }

  lemma {:induction false} PlacedLaidBinary(toks: seq<Token>, pos: nat, e: Expr)
    requires e.Binary? && Placed(toks, pos, Unparse(e))
    ensures Width(e) == |Unparse(e)| && Laid(toks, pos, e)
    decreases e, 0
  {
    var l, op, r := e.left, e.op, e.right;
    var mid := pos + |Unparse(l)|;
    assert Placed(toks, pos, Unparse(l)) && Placed(toks, mid + 1, Unparse(r)) && toks[mid] == op by {
      assert Unparse(e) == Unparse(l) + ([op] + Unparse(r));
      PlacedSplit(toks, pos, Unparse(l), [op] + Unparse(r));
      PlacedSplit(toks, mid, [op], Unparse(r));
      PlacedHead(toks, mid, op);
    }
    PlacedLaid(toks, pos, l);
    PlacedLaid(toks, mid + 1, r);
  }

  lemma {:induction false} PlacedLaidUnary(toks: seq<Token>, pos: nat, e: Expr)
    requires e.Unary? && Placed(toks, pos, Unparse(e))
    ensures Width(e) == |Unparse(e)| && Laid(toks, pos, e)
    decreases e, 0
  {
    assert Placed(toks, pos + 1, Unparse(e.right)) && toks[pos] == e.op by {
      PlacedSplit(toks, pos, [e.op], Unparse(e.right));
      PlacedHead(toks, pos, e.op);
    }
    PlacedLaid(toks, pos + 1, e.right);
  }

  lemma {:induction false} PlacedLaidGrouping(toks: seq<Token>, pos: nat, e: Expr)
    requires e.Grouping? && Placed(toks, pos, Unparse(e))
    ensures Width(e) == |Unparse(e)| && Laid(toks, pos, e)
    decreases e, 0
  {
    var g := e.expr;
    assert Placed(toks, pos + 1, Unparse(g)) && toks[pos] == LeftParenToken
      && toks[pos + 1 + |Unparse(g)|] == RightParenToken by {
      assert Unparse(e) == [LeftParenToken] + (Unparse(g) + [RightParenToken]);
      PlacedSplit(toks, pos, [LeftParenToken], Unparse(g) + [RightParenToken]);
      PlacedSplit(toks, pos + 1, Unparse(g), [RightParenToken]);
      PlacedHead(toks, pos, LeftParenToken);
      PlacedHead(toks, pos + 1 + |Unparse(g)|, RightParenToken);
    }
    PlacedLaid(toks, pos + 1, g);
  }

  lemma PlacedLaidStmt(toks: seq<Token>, pos: nat, s: Stmt)
    requires Placed(toks, pos, UnparseStmt(s)) && pos + |UnparseStmt(s)| < |toks|
    ensures StmtWidth(s) == |UnparseStmt(s)| && LaidStmt(toks, pos, s)
  {
    var e := s.expr;
    var start := if s.Print? then pos + 1 else pos;
    if s.Print? {
      assert UnparseStmt(s) == [PrintToken] + (Unparse(e) + [SemicolonToken]);
      PlacedSplit(toks, pos, [PrintToken], Unparse(e) + [SemicolonToken]);
      PlacedHead(toks, pos, PrintToken);
    }
    PlacedSplit(toks, start, Unparse(e), [SemicolonToken]);
    PlacedHead(toks, start + |Unparse(e)|, SemicolonToken);
    PlacedLaid(toks, start, e);
  }

  lemma {:induction false} PlacedLaidProgram(toks: seq<Token>, pos: nat, ss: seq<Stmt>)
    requires Placed(toks, pos, UnparseProgram(ss)) && pos + |UnparseProgram(ss)| < |toks|
    ensures ProgramWidth(ss) == |UnparseProgram(ss)| && LaidProgram(toks, pos, ss)
    decreases ss, 1
  {
    if ss != [] {
      var first, others := UnparseStmt(ss[0]), UnparseProgram(ss[1..]);
      assert UnparseProgram(ss) == first + others;
      PlacedSplit(toks, pos, first, others);
      PlacedLaidCons(toks, pos, ss);
    }
  }

  lemma {:induction false} PlacedLaidCons(toks: seq<Token>, pos: nat, ss: seq<Stmt>)
    requires ss != [] && Placed(toks, pos, UnparseStmt(ss[0]))
    requires Placed(toks, pos + |UnparseStmt(ss[0])|, UnparseProgram(ss[1..]))
    requires pos + |UnparseStmt(ss[0])| + |UnparseProgram(ss[1..])| < |toks|
    ensures ProgramWidth(ss[1..]) == |UnparseProgram(ss[1..])| && StmtWidth(ss[0]) == |UnparseStmt(ss[0])|
    ensures LaidStmt(toks, pos, ss[0]) && LaidProgram(toks, pos + StmtWidth(ss[0]), ss[1..])
    decreases ss, 0
  {
    PlacedLaidStmt(toks, pos, ss[0]);
    PlacedLaidProgram(toks, pos + |UnparseStmt(ss[0])|, ss[1..]);
  }

  /** An expression's tokens begin with a unary operator, `(` or a literal. */
  lemma LaidStart(toks: seq<Token>, pos: nat, e: Expr, level: nat)
    requires At(toks, pos, e) && Shaped(e, level)
    ensures IsExpressionStart(toks[pos].kind)
    decreases e
  {
    if e.Binary? {
      LaidStart(toks, pos, e.left, LevelOf(e.op.kind));
    }
  }

  /*** Parsing a laid-out Shaped tree gives it back ***/

  lemma AtBinary(toks: seq<Token>, pos: nat, e: Expr)
    requires e.Binary? && At(toks, pos, e)
    ensures At(toks, pos, e.left) && toks[pos + Width(e.left)] == e.op
    ensures At(toks, pos + Width(e.left) + 1, e.right)
  {
  }

  /**
   * A Shaped tree of level `level`, followed by a token that ends that
   * level, parses back to itself and consumes exactly its own tokens.
   */
  lemma {:induction false} LevelUnparse(toks: seq<Token>, pos: nat, e: Expr, level: nat)
    requires EofTerminated(toks) && At(toks, pos, e)
    requires level <= 3 && Shaped(e, level) && Ends(toks[pos + Width(e)].kind, level)
    ensures ParseLevel(toks, pos, level) == Ok(Parsed(e, pos + Width(e)))
    decreases e, 20 - 4 * level
  {
    Spine(toks, pos, e, level);
    LevelOfOperators(toks[pos + Width(e)].kind, level);
  }

  /**
   * Within level `level`, the operand loop consumes the whole chain: after
   * the first operand, the loop stands at the end of the tree's tokens with
   * the tree itself as `left`.
   */
  lemma {:induction false} Spine(toks: seq<Token>, pos: nat, e: Expr, level: nat)
    requires EofTerminated(toks) && At(toks, pos, e)
    requires level <= 3 && Shaped(e, level) && Ends(toks[pos + Width(e)].kind, level + 1)
    ensures ParseLevel(toks, pos, level) == ParseRest(toks, pos + Width(e), level, e)
    decreases e, 19 - 4 * level
  {
    if e.Binary? && LevelOf(e.op.kind) == level {
      ChainUnparse(toks, pos, e, level);
    } else {
      OperandUnparse(toks, pos, e, level);
    }
  }

  /** One more round of the loop: the chain of `e.left`, then the operator and an operand. */
  lemma {:induction false} ChainUnparse(toks: seq<Token>, pos: nat, e: Expr, level: nat)
    requires EofTerminated(toks) && At(toks, pos, e)
    requires level <= 3 && e.Binary? && LevelOf(e.op.kind) == level && Shaped(e, level)
    requires Ends(toks[pos + Width(e)].kind, level + 1)
    ensures ParseLevel(toks, pos, level) == ParseRest(toks, pos + Width(e), level, e)
    decreases e, 18 - 4 * level
  {
    AtBinary(toks, pos, e);
    Spine(toks, pos, e.left, level);
    OperandStep(toks, pos + Width(e.left), e.left, e.right, level);
  }

  /** One round of the while loop of level `level`, over an operator and the tokens of `right`. */
  lemma {:induction false} OperandStep(toks: seq<Token>, pos: nat, left: Expr, right: Expr, level: nat)
    requires EofTerminated(toks) && At(toks, pos + 1, right)
    requires level <= 3 && LevelOf(toks[pos].kind) == level && Shaped(right, level + 1)
    requires Ends(toks[pos + 1 + Width(right)].kind, level + 1)
    ensures ParseRest(toks, pos, level, left)
         == ParseRest(toks, pos + 1 + Width(right), level, Expr.Binary(left, toks[pos], right))
    decreases right, 18 - 4 * level
  {
    LevelOfOperators(toks[pos].kind, level);
    OperandUnparse(toks, pos + 1, right, level);
  }

  lemma {:induction false} OperandUnparse(toks: seq<Token>, pos: nat, e: Expr, level: nat)
    requires EofTerminated(toks) && At(toks, pos, e)
    requires level <= 3 && Shaped(e, level + 1) && Ends(toks[pos + Width(e)].kind, level + 1)
    ensures ParseOperand(toks, pos, level) == Ok(Parsed(e, pos + Width(e)))
    decreases e, 17 - 4 * level
  {
    if level < 3 {
      LevelUnparse(toks, pos, e, level + 1);
    } else {
      UnaryUnparse(toks, pos, e);
    }
  }

  /** At the unary level nothing after the tree is looked at. */
  lemma {:induction false} UnaryUnparse(toks: seq<Token>, pos: nat, e: Expr)
    requires EofTerminated(toks) && At(toks, pos, e) && Shaped(e, 4)
    ensures ParseUnary(toks, pos) == Ok(Parsed(e, pos + Width(e)))
    decreases e, 1
  {
    if e.Unary? {
      PrefixUnparse(toks, pos, e);
    } else if e.Grouping? {
      GroupingUnparse(toks, pos, e);
    } else {
      assert e.Literal?;
    }
  }

  lemma {:induction false} PrefixUnparse(toks: seq<Token>, pos: nat, e: Expr)
    requires EofTerminated(toks) && At(toks, pos, e) && e.Unary? && Shaped(e, 4)
    ensures ParseUnary(toks, pos) == Ok(Parsed(e, pos + Width(e)))
    decreases e, 0
  {
    UnaryUnparse(toks, pos + 1, e.right);
  }

  lemma {:induction false} GroupingUnparse(toks: seq<Token>, pos: nat, e: Expr)
    requires EofTerminated(toks) && At(toks, pos, e) && e.Grouping? && Shaped(e, 4)
    ensures ParseUnary(toks, pos) == Ok(Parsed(e, pos + Width(e)))
    decreases e, 0
  {
    LevelUnparse(toks, pos + 1, e.expr, 0);
  }

  /*** Statements and programs ***/

  /**
   * A laid-out statement parses to itself: a leading `print` gives a Print
   * statement, anything else an expression statement.
   */
  lemma StatementUnparse(toks: seq<Token>, pos: nat, s: Stmt)
    requires EofTerminated(toks) && ShapedStmt(s) && LaidStmt(toks, pos, s)
    ensures Valid(toks, pos) && toks[pos].kind != Eof
    ensures ParseStatement(toks, pos) == Ok(Parsed(s, pos + StmtWidth(s)))
  {
    var e, start := s.expr, if s.Print? then pos + 1 else pos;
    assert At(toks, start, e) && toks[start + Width(e)] == SemicolonToken;
    assert toks[pos].kind != Eof && (toks[pos].kind == TokenKind.Print <==> s.Print?) by {
      if !s.Print? {
        LaidStart(toks, pos, e, 0);
      }
    }
    assert ParseStatement(toks, pos) == ParseStatementBody(toks, start, s.Print?);
    BodyUnparse(toks, start, e, s.Print?);
  }

  /** An expression and its `;`, as the body of a statement. */
  lemma BodyUnparse(toks: seq<Token>, pos: nat, e: Expr, isPrint: bool)
    requires EofTerminated(toks) && Shaped(e, 0) && At(toks, pos, e)
    requires toks[pos + Width(e)] == SemicolonToken
    ensures ParseStatementBody(toks, pos, isPrint)
         == Ok(Parsed(if isPrint then Stmt.Print(e) else Stmt.Expr(e), pos + Width(e) + 1))
  {
    assert Ends(toks[pos + Width(e)].kind, 0) by {
      assert LevelOf(Semicolon) == 4;
    }
    LevelUnparse(toks, pos, e, 0);
    BodyOf(toks, pos, isPrint, e, pos + Width(e));
  }

  lemma BodyOf(toks: seq<Token>, pos: nat, isPrint: bool, e: Expr, next: nat)
    requires Valid(toks, pos) && next + 1 < |toks| && toks[next] == SemicolonToken
    requires ParseLevel(toks, pos, 0) == Ok(Parsed(e, next))
    ensures ParseStatementBody(toks, pos, isPrint)
         == Ok(Parsed(if isPrint then Stmt.Print(e) else Stmt.Expr(e), next + 1))
  {
  }

  /**
   * From `pos`, the statements `ss` parse one after the other, the last
   * ending at `end`; no statement starts at an Eof.
   */
  predicate ParsesAs(toks: seq<Token>, pos: nat, ss: seq<Stmt>, end: nat)
    decreases ss
  {
    Valid(toks, pos) &&
    if ss == [] then end == pos
    else
      toks[pos].kind != Eof && ParseStatement(toks, pos).Ok? && ParseStatement(toks, pos).value.value == ss[0]
      && ParsesAs(toks, ParseStatement(toks, pos).value.next, ss[1..], end)
  }

  /** The loop of `parse` pushes those statements one by one. */
  lemma {:induction false} ProgramRuns(toks: seq<Token>, pos: nat, ss: seq<Stmt>, end: nat, done: seq<Stmt>)
    requires ParsesAs(toks, pos, ss, end)
    ensures Valid(toks, end)
    ensures ParseProgramFrom(toks, pos, done) == ParseProgramFrom(toks, end, done + ss)
    decreases ss
  {
    if ss == [] {
      assert done + ss == done;
    } else {
      var next := ParseStatement(toks, pos).value.next;
      ProgramRuns(toks, next, ss[1..], end, done + [ss[0]]);
      assert done + [ss[0]] + ss[1..] == done + ss;
    }
  }

  /** Laid-out statements parse one after the other, the loop of `parse` pushing each. */
  lemma {:induction false} UnparseRuns(toks: seq<Token>, pos: nat, ss: seq<Stmt>, done: seq<Stmt>)
    requires EofTerminated(toks) && LaidProgram(toks, pos, ss) && pos + ProgramWidth(ss) < |toks|
    requires AllShaped(ss)
    ensures ParseProgramFrom(toks, pos, done) == ParseProgramFrom(toks, pos + ProgramWidth(ss), done + ss)
    decreases |ss|, 1
  {
    if ss == [] {
      assert done + ss == done;
    } else {
      assert ShapedStmt(ss[0]) && AllShaped(ss[1..]) by {
        AllShapedTail(ss);
      }
      assert done + ss == done + [ss[0]] + ss[1..];
      UnparseRunsCons(toks, pos, ss[0], ss[1..], done, pos + ProgramWidth(ss), done + ss);
    }
  }

  lemma {:induction false} UnparseRunsCons(toks: seq<Token>, pos: nat, s: Stmt, rest: seq<Stmt>, done: seq<Stmt>,
                                           end: nat, out: seq<Stmt>)
    requires EofTerminated(toks) && LaidStmt(toks, pos, s) && LaidProgram(toks, pos + StmtWidth(s), rest)
    requires end == pos + StmtWidth(s) + ProgramWidth(rest) < |toks|
    requires ShapedStmt(s) && AllShaped(rest) && out == done + [s] + rest
    ensures ParseProgramFrom(toks, pos, done) == ParseProgramFrom(toks, end, out)
    decreases |rest| + 1, 0
  {
    assert Valid(toks, pos + StmtWidth(s))
        && ParseProgramFrom(toks, pos, done) == ParseProgramFrom(toks, pos + StmtWidth(s), done + [s]) by {
      StatementStep(toks, pos, s, done);
    }
    UnparseRuns(toks, pos + StmtWidth(s), rest, done + [s]);
  }

  /** The loop of `parse` pushes a laid-out statement and goes on after its `;`. */
  lemma StatementStep(toks: seq<Token>, pos: nat, s: Stmt, done: seq<Stmt>)
    requires EofTerminated(toks) && ShapedStmt(s) && LaidStmt(toks, pos, s)
    ensures Valid(toks, pos + StmtWidth(s))
    ensures ParseProgramFrom(toks, pos, done) == ParseProgramFrom(toks, pos + StmtWidth(s), done + [s])
  {
    StatementUnparse(toks, pos, s);
    ProgramStep(toks, pos, done, s, pos + StmtWidth(s));
  }

  lemma AllShapedTail(ss: seq<Stmt>)
    requires ss != [] && AllShaped(ss)
    ensures ShapedStmt(ss[0]) && AllShaped(ss[1..])
  {
    assert forall i :: 0 <= i < |ss[1..]| ==> ss[1..][i] == ss[i + 1];
  }

  /** One turn of the loop of `parse`. */
  lemma ProgramStep(toks: seq<Token>, pos: nat, done: seq<Stmt>, s: Stmt, next: nat)
    requires Valid(toks, pos) && toks[pos].kind != Eof && ParseStatement(toks, pos) == Ok(Parsed(s, next))
    ensures Valid(toks, next) && ParseProgramFrom(toks, pos, done) == ParseProgramFrom(toks, next, done + [s])
  {
  }

  /** Round trip: an expression written back as tokens, then Eof, parses to itself. */
  lemma ExprRoundTrip(e: Expr, eof: Token)
    requires eof.kind == Eof && Shaped(e, 0)
    ensures var toks := Unparse(e) + [eof];
      EofTerminated(toks) && ParseLevel(toks, 0, 0) == Ok(Parsed(e, |Unparse(e)|))
  {
    var toks := Unparse(e) + [eof];
    assert Placed(toks, 0, Unparse(e)) by {
      PlacedSuffix(toks, 0);
      assert toks[0..] == Unparse(e) + [eof];
      PlacedSplit(toks, 0, Unparse(e), [eof]);
    }
    PlacedLaid(toks, 0, e);
    LaidExprRoundTrip(toks, e);
  }

  lemma LaidExprRoundTrip(toks: seq<Token>, e: Expr)
    requires EofTerminated(toks) && Laid(toks, 0, e) && Width(e) == |toks| - 1 && Shaped(e, 0)
    ensures ParseLevel(toks, 0, 0) == Ok(Parsed(e, Width(e)))
  {
    LevelUnparse(toks, 0, e, 0);
  }

  /** Round trip: statements written back as tokens, then Eof, parse to themselves. */
  lemma ProgramRoundTrip(ss: seq<Stmt>, eof: Token)
    requires eof.kind == Eof && AllShaped(ss)
    ensures ParseProgram(UnparseProgram(ss) + [eof]) == Ok(ss)
  {
    var toks := UnparseProgram(ss) + [eof];
    assert Placed(toks, 0, UnparseProgram(ss)) by {
      PlacedSuffix(toks, 0);
      assert toks[0..] == UnparseProgram(ss) + [eof];
      PlacedSplit(toks, 0, UnparseProgram(ss), [eof]);
    }
    PlacedLaidProgram(toks, 0, ss);
    LaidRoundTrip(toks, ss);
  }

  /** Laid-out statements ending just before the final Eof are the parse. */
  lemma LaidRoundTrip(toks: seq<Token>, ss: seq<Stmt>)
    requires EofTerminated(toks) && LaidProgram(toks, 0, ss) && ProgramWidth(ss) == |toks| - 1
    requires AllShaped(ss)
    ensures ParseProgram(toks) == Ok(ss)
  {
    UnparseRuns(toks, 0, ss, []);
    assert [] + ss == ss;
  }

  /**
   * Parsing stops at the first Eof at a statement start: the statements
   * before it are the result and nothing after that Eof is read.
   */
  lemma StopsAtEof(toks: seq<Token>, ss: seq<Stmt>, end: nat)
    requires ParsesAs(toks, 0, ss, end) && end < |toks| && toks[end].kind == Eof
    ensures ParseProgram(toks) == Ok(ss)
  {
    ProgramRuns(toks, 0, ss, end, []);
    assert [] + ss == ss;
  }

  /** The first statement that fails decides the result: its error, and no statements. */
  lemma FirstErrorAborts(toks: seq<Token>, ss: seq<Stmt>, end: nat)
    requires ParsesAs(toks, 0, ss, end) && end < |toks| && toks[end].kind != Eof
    requires ParseStatement(toks, end).Err?
    ensures ParseProgram(toks) == Err(ParseStatement(toks, end).error)
  {
    ProgramRuns(toks, 0, ss, end, []);
  }

  /** The parsed statements are all Shaped. */
  lemma {:induction false} ProgramShaped(toks: seq<Token>, pos: nat, done: seq<Stmt>)
    requires Valid(toks, pos) && AllShaped(done)
    ensures var r := ParseProgramFrom(toks, pos, done); r.Ok? ==> AllShaped(r.value)
    decreases |toks| - pos
  {
    if toks[pos].kind != Eof {
      var s := ParseStatement(toks, pos);
      if s.Ok? {
        StatementShaped(toks, pos);
        var done' := done + [s.value.value];
        assert AllShaped(done');
        ProgramShaped(toks, s.value.next, done');
        assert ParseProgramFrom(toks, pos, done) == ParseProgramFrom(toks, s.value.next, done');
      } else {
        assert ParseProgramFrom(toks, pos, done) == Err(s.error);
      }
    }
  }

  lemma StatementShaped(toks: seq<Token>, pos: nat)
    requires Valid(toks, pos)
    ensures var r := ParseStatement(toks, pos); r.Ok? ==> ShapedStmt(r.value.value)
  {
    var isPrint := toks[pos].kind == TokenKind.Print;
    var start := if isPrint then pos + 1 else pos;
    assert ParseStatement(toks, pos) == ParseStatementBody(toks, start, isPrint);
    LevelShaped(toks, start, 0);
  }

  /** A statement is a Print statement exactly when it starts with `print`. */
  lemma StatementKind(toks: seq<Token>, pos: nat)
    requires Valid(toks, pos) && ParseStatement(toks, pos).Ok?
    ensures ParseStatement(toks, pos).value.value.Print? <==> toks[pos].kind == TokenKind.Print
  {
  }

  /*** Errors ***/

  /**
   * A statement fails with ExpectedSemicolon exactly when its expression
   * (after the `print`, if any) parses and is followed by something other
   * than `;`; the error carries that token.
   */
  lemma MissingSemicolon(toks: seq<Token>, pos: nat)
    requires Valid(toks, pos)
    ensures var start := if toks[pos].kind == TokenKind.Print then pos + 1 else pos;
      var e, r := ParseLevel(toks, start, 0), ParseStatement(toks, pos);
      && (e.Ok? && toks[e.value.next].kind != Semicolon ==> r == Err(ParsingError(ExpectedSemicolon, toks[e.value.next])))
      && (r.Err? && r.error.kind == ExpectedSemicolon ==> e.Ok? && toks[e.value.next].kind != Semicolon)
  {
    var start := if toks[pos].kind == TokenKind.Print then pos + 1 else pos;
    LevelErrors(toks, start, 0);
  }

  /**
   * `(` and an expression that parses, followed by something other than `)`,
   * fails with ExpectedClosingParen carrying that token; followed by `)` it is
   * a Grouping; an error inside the parentheses is the error of the whole.
   */
  lemma MissingClosingParen(toks: seq<Token>, pos: nat)
    requires Valid(toks, pos) && toks[pos].kind == LeftParen
    ensures var inner, r := ParseLevel(toks, pos + 1, 0), ParsePrimary(toks, pos);
      && (inner.Ok? && toks[inner.value.next].kind != RightParen ==>
            r == Err(ParsingError(ExpectedClosingParen, toks[inner.value.next])))
      && (inner.Ok? && toks[inner.value.next].kind == RightParen ==>
            r == Ok(Parsed(Expr.Grouping(inner.value.value), inner.value.next + 1)))
      && (inner.Err? ==> r == Err(inner.error))
  {
  }

  /** No error of the expression levels is ExpectedSemicolon: that one only comes after a statement's expression. */
  lemma {:induction false} LevelErrors(toks: seq<Token>, pos: nat, level: nat)
    requires Valid(toks, pos) && level <= 3
    ensures var r := ParseLevel(toks, pos, level); r.Err? ==> r.error.kind != ExpectedSemicolon
    decreases |toks| - pos, 20 - 4 * level
  {
    OperandErrors(toks, pos, level);
    var first := ParseOperand(toks, pos, level);
    if first.Ok? {
      RestErrors(toks, first.value.next, level, first.value.value);
    }
  }

  lemma {:induction false} OperandErrors(toks: seq<Token>, pos: nat, level: nat)
    requires Valid(toks, pos) && level <= 3
    ensures var r := ParseOperand(toks, pos, level); r.Err? ==> r.error.kind != ExpectedSemicolon
    decreases |toks| - pos, 18 - 4 * level
  {
    if level < 3 {
      LevelErrors(toks, pos, level + 1);
    } else {
      UnaryErrors(toks, pos);
    }
  }

  lemma {:induction false} RestErrors(toks: seq<Token>, pos: nat, level: nat, left: Expr)
    requires Valid(toks, pos) && level <= 3
    ensures var r := ParseRest(toks, pos, level, left); r.Err? ==> r.error.kind != ExpectedSemicolon
    decreases |toks| - pos, 0
  {
    if toks[pos].kind in Operators(level) {
      OperandErrors(toks, pos + 1, level);
      var right := ParseOperand(toks, pos + 1, level);
      if right.Ok? {
        RestErrors(toks, right.value.next, level, Expr.Binary(left, toks[pos], right.value.value));
      }
    }
  }

  lemma {:induction false} UnaryErrors(toks: seq<Token>, pos: nat)
    requires Valid(toks, pos)
    ensures var r := ParseUnary(toks, pos); r.Err? ==> r.error.kind != ExpectedSemicolon
    decreases |toks| - pos, 2
  {
    if toks[pos].kind in {Bang, Minus} {
      UnaryErrors(toks, pos + 1);
    } else {
      PrimaryErrors(toks, pos);
    }
  }

  lemma {:induction false} PrimaryErrors(toks: seq<Token>, pos: nat)
    requires Valid(toks, pos)
    ensures var r := ParsePrimary(toks, pos); r.Err? ==> r.error.kind != ExpectedSemicolon
    decreases |toks| - pos, 1
  {
    if !IsLiteralKind(toks[pos].kind) && toks[pos].kind == LeftParen {
      LevelErrors(toks, pos + 1, 0);
    }
  }

  /**
   * An expression at any level cannot start with a token other than a
   * unary operator, `(` or a literal: at Eof it fails with UnexpectedEof,
   * else with UnexpectedToken, carrying that token.
   */
  lemma {:induction false} StartErrors(toks: seq<Token>, pos: nat, level: nat)
    requires Valid(toks, pos) && level <= 3 && !IsExpressionStart(toks[pos].kind)
    ensures ParseLevel(toks, pos, level)
         == Err(ParsingError(if toks[pos].kind == Eof then UnexpectedEof else UnexpectedToken, toks[pos]))
    decreases 3 - level
  {
    if level < 3 {
      StartErrors(toks, pos, level + 1);
      assert ParseOperand(toks, pos, level) == ParseLevel(toks, pos, level + 1);
    } else {
      assert ParseUnary(toks, pos) == ParsePrimary(toks, pos);
      assert ParseOperand(toks, pos, level) == ParseUnary(toks, pos);
    }
  }

  /**
   * A literal token followed by a token that ends level `level` is parsed
   * at that level as a Literal with the token's own literal value.
   */
  lemma {:induction false} LiteralLevel(toks: seq<Token>, pos: nat, level: nat)
    requires Valid(toks, pos) && level <= 3 && IsLiteralKind(toks[pos].kind)
    requires pos + 1 < |toks| && Ends(toks[pos + 1].kind, level)
    ensures ParseLevel(toks, pos, level) == Ok(Parsed(Expr.Literal(toks[pos].literal), pos + 1))
    decreases 3 - level
  {
    LevelOfOperators(toks[pos + 1].kind, level);
    if level < 3 {
      LiteralLevel(toks, pos, level + 1);
      assert ParseOperand(toks, pos, level) == ParseLevel(toks, pos, level + 1);
    } else {
      assert ParseUnary(toks, pos) == ParsePrimary(toks, pos);
      assert ParseOperand(toks, pos, level) == ParseUnary(toks, pos);
    }
  }

  /*** Examples ***/

  /** Precedence: `1 + 2 * 3` groups as `1 + (2 * 3)`. */
  lemma TermOverFactor(a: Option<LiteralValue>, b: Option<LiteralValue>, c: Option<LiteralValue>, plus: Token, star: Token, eof: Token)
    requires plus.kind == Plus && star.kind == Star && eof.kind == Eof
    ensures var toks := [LiteralToken(a), plus, LiteralToken(b), star, LiteralToken(c), eof];
      ParseLevel(toks, 0, 0)
      == Ok(Parsed(Expr.Binary(Expr.Literal(a), plus, Expr.Binary(Expr.Literal(b), star, Expr.Literal(c))), 5))
  {
    var toks := [LiteralToken(a), plus, LiteralToken(b), star, LiteralToken(c), eof];
    var bc := Expr.Binary(Expr.Literal(b), star, Expr.Literal(c));
    assert Laid(toks, 2, Expr.Literal(b)) && Laid(toks, 4, Expr.Literal(c));
    assert Laid(toks, 2, bc) && Width(bc) == 3;
    var e := Expr.Binary(Expr.Literal(a), plus, bc);
    assert LevelOf(plus.kind) == 2 && LevelOf(star.kind) == 3 && LevelOf(eof.kind) == 4;
    assert Shaped(Expr.Literal(a), 2) && Shaped(Expr.Literal(b), 3) && Shaped(Expr.Literal(c), 4);
    assert Shaped(bc, 3) && Shaped(e, 0);
    assert At(toks, 0, e) && Width(e) == 5;
    LevelUnparse(toks, 0, e, 0);
  }

  /** Left associativity: `1 - 2 - 3` groups as `(1 - 2) - 3`. */
  lemma LeftAssociative(a: Option<LiteralValue>, b: Option<LiteralValue>, c: Option<LiteralValue>, minus1: Token, minus2: Token, eof: Token)
    requires minus1.kind == Minus && minus2.kind == Minus && eof.kind == Eof
    ensures var toks := [LiteralToken(a), minus1, LiteralToken(b), minus2, LiteralToken(c), eof];
      ParseLevel(toks, 0, 0)
      == Ok(Parsed(Expr.Binary(Expr.Binary(Expr.Literal(a), minus1, Expr.Literal(b)), minus2, Expr.Literal(c)), 5))
  {
    var toks := [LiteralToken(a), minus1, LiteralToken(b), minus2, LiteralToken(c), eof];
    var ab := Expr.Binary(Expr.Literal(a), minus1, Expr.Literal(b));
    assert Laid(toks, 0, Expr.Literal(a)) && Laid(toks, 2, Expr.Literal(b)) && Laid(toks, 4, Expr.Literal(c));
    assert Laid(toks, 0, ab) && Width(ab) == 3;
    var e := Expr.Binary(ab, minus2, Expr.Literal(c));
    assert LevelOf(minus1.kind) == 2 && LevelOf(minus2.kind) == 2 && LevelOf(eof.kind) == 4;
    assert Shaped(Expr.Literal(b), 3) && Shaped(Expr.Literal(c), 3) && Shaped(ab, 2) && Shaped(e, 0);
    assert At(toks, 0, e) && Width(e) == 5;
    LevelUnparse(toks, 0, e, 0);
  }

  /** Unary operators nest to the right: `!!x` is `!(!x)`. */
  lemma UnaryNests(x: Option<LiteralValue>, bang1: Token, bang2: Token, eof: Token)
    requires bang1.kind == Bang && bang2.kind == Bang && eof.kind == Eof
    ensures var toks := [bang1, bang2, LiteralToken(x), eof];
      ParseLevel(toks, 0, 0) == Ok(Parsed(Expr.Unary(bang1, Expr.Unary(bang2, Expr.Literal(x))), 3))
  {
    var toks := [bang1, bang2, LiteralToken(x), eof];
    var inner := Expr.Unary(bang2, Expr.Literal(x));
    assert Laid(toks, 2, Expr.Literal(x));
    assert Laid(toks, 1, inner) && Width(inner) == 2;
    var e := Expr.Unary(bang1, inner);
    assert LevelOf(eof.kind) == 4;
    assert Shaped(inner, 4) && Shaped(e, 0);
    assert At(toks, 0, e) && Width(e) == 3;
    LevelUnparse(toks, 0, e, 0);
  }
}

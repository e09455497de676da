/**
 * Facts that cross the stages: what the parser builds is something the
 * evaluator never rejects as malformed, and what the keywords `true` and
 * `false` carry from the scanner through to evaluation.
 */
module Pipeline {
  import opened Wrappers
  import opened Lexing
  import opened Scanner
  import opened Ast
  import opened Parsing
  import opened ParsingProofs
  import opened Interpreter

  /** An evaluation error other than the two "invalid operator" ones. */
  predicate TypeError(r: Result<Value, RuntimeError>) {
    r.Err? ==> r.error.kind !in {InvalidBinaryOperator, InvalidUnaryOperator}
  }

  /**
   * A tree of the parser's shape only fails on operand types: its operators
   * are all ones `execute` knows.
   */
  lemma {:induction false} ShapedEvaluates(e: Expr, level: nat, ops: FloatOps)
    requires Shaped(e, level)
    ensures TypeError(Execute(e, ops))
    decreases e
  {
    match e
    case Binary(left, op, right) =>
      ShapedEvaluates(left, LevelOf(op.kind), ops);
      ShapedEvaluates(right, LevelOf(op.kind) + 1, ops);
      LevelOfOperators(op.kind, LevelOf(op.kind));
      assert op.kind in BinaryOperators;
    case Grouping(inner) =>
      ShapedEvaluates(inner, 0, ops);
    case Literal(_) =>
    case Unary(op, right) =>
      ShapedEvaluates(right, 4, ops);
  }

  /** Every statement `parse` returns evaluates without an "invalid operator" error. */
  lemma ParsedEvaluates(toks: seq<Token>, ops: FloatOps)
    requires EofTerminated(toks) && ParseProgram(toks).Ok?
    ensures forall s :: s in ParseProgram(toks).value ==> TypeError(Execute(s.expr, ops))
  {
    ProgramShaped(toks, 0, []);
    var ss := ParseProgram(toks).value;
    forall s | s in ss
      ensures TypeError(Execute(s.expr, ops))
    {
      var i :| 0 <= i < |ss| && ss[i] == s;
      assert ShapedStmt(ss[i]);
      ShapedEvaluates(s.expr, 0, ops);
    }
  }

  /** Scanning a whole word that is a keyword: one token of the keyword's kind, with no literal. */
  lemma ScanKeyword(word: seq<string>, line: nat, parse: string -> Num)
    requires word == ["t", "r", "u", "e"] || word == ["f", "a", "l", "s", "e"]
    ensures var r := TokenAt(word, 0, line, parse);
      && r.Ok? && r.value.next == |word| && r.value.token.literal == None
      && r.value.token.kind == (if word[0] == "t" then True else False)
  {
    assert TokenAt(word, 0, line, parse) == Ok(IdentifierToken(word, 0, line)) by {
      DispatchDisjoint(word[0]);
    }
    assert IdentifierEnd(word, 1) == |word| by {
      WholeWord(word);
    }
    assert word[0..|word|] == word;
    if word[0] == "t" {
      SpellTrue();
      assert IdentifierKind("true") == True;
    } else {
      SpellFalse();
      assert IdentifierKind("false") == False;
    }
  }

  lemma WholeWord(word: seq<string>)
    requires word == ["t", "r", "u", "e"] || word == ["f", "a", "l", "s", "e"]
    ensures IdentifierEnd(word, 1) == |word|
  {
    assert IdentifierEnd(word, |word|) == |word|;
    assert IdentifierEnd(word, 4) == |word|;
    assert IdentifierEnd(word, 3) == |word|;
    assert IdentifierEnd(word, 2) == |word|;
  }

  lemma SpellTrue()
    ensures Text.Concat(["t", "r", "u", "e"]) == "true"
  {
    Text.ConcatPush([], "t");
    assert [] + ["t"] == ["t"] && ["t"] + ["r"] == ["t", "r"];
    assert ["t", "r"] + ["u"] == ["t", "r", "u"] && ["t", "r", "u"] + ["e"] == ["t", "r", "u", "e"];
    Text.ConcatPush(["t"], "r");
    Text.ConcatPush(["t", "r"], "u");
    Text.ConcatPush(["t", "r", "u"], "e");
  }

  lemma SpellFalse()
    ensures Text.Concat(["f", "a", "l", "s", "e"]) == "false"
  {
    Text.ConcatPush([], "f");
    assert [] + ["f"] == ["f"] && ["f"] + ["a"] == ["f", "a"] && ["f", "a"] + ["l"] == ["f", "a", "l"];
    assert ["f", "a", "l"] + ["s"] == ["f", "a", "l", "s"] && ["f", "a", "l", "s"] + ["e"] == ["f", "a", "l", "s", "e"];
    Text.ConcatPush(["f"], "a");
    Text.ConcatPush(["f", "a"], "l");
    Text.ConcatPush(["f", "a", "l"], "s");
    Text.ConcatPush(["f", "a", "l", "s"], "e");
  }

  /**
   * The keywords `true` and `false` are scanned with no literal (only their
   * kind tells them apart), so the parser makes each a nil Literal, which
   * evaluates, and prints, as nil.
   */
  lemma KeywordsEvaluateToNil(word: seq<string>, line: nat, parse: string -> Num, eof: Token, ops: FloatOps, showNumber: Num -> string)
    requires word == ["t", "r", "u", "e"] || word == ["f", "a", "l", "s", "e"]
    requires eof.kind == Eof
    ensures var r := TokenAt(word, 0, line, parse);
      && r.Ok? && r.value.token.kind in {True, False}
      && ParseLevel([r.value.token, eof], 0, 0) == Ok(Parsed(Expr.Literal(None), 1))
      && Execute(Expr.Literal(None), ops) == Ok(None)
      && Stringify(None, showNumber) == "nil"
  {
    ScanKeyword(word, line, parse);
    var tok := TokenAt(word, 0, line, parse).value.token;
    LevelOfOperators(eof.kind, 0);
    LiteralLevel([tok, eof], 0, 0);
  }
}

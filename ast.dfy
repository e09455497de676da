/**
 * The syntax tree of src/expr.rs and its display: `Display::fmt` renders a
 * tree in parenthesised prefix form, through the buffer loop `parenthesize`.
 */
module Ast {
  import opened Wrappers
  import opened Text
  import opened Lexing

  datatype Expr =
    | Binary(left: Expr, op: Token, right: Expr)
    | Grouping(expr: Expr)
    | Literal(value: Option<LiteralValue>)
    | Unary(op: Token, right: Expr)

  /** The two statements the parser produces. */
  datatype Stmt = Expr(expr: Expr) | Print(expr: Expr)

  /** Each shown operand after a space, in order. */
  function Spaced(shown: seq<string>): string
  {
    if shown == [] then "" else Spaced(shown[..|shown| - 1]) + " " + shown[|shown| - 1]
  }

  /** What `parenthesize` returns for `name` and operands already shown. */
  function Parenthesized(name: string, shown: seq<string>): string
  {
    "(" + name + Spaced(shown) + ")"
  }

  /** `Display::fmt`; `showNumber` stands for `f64::to_string`. */
  function Show(e: Expr, showNumber: Num -> string): string
  {
    match e
    case Binary(left, op, right) => Parenthesized(op.lexeme, [Show(left, showNumber), Show(right, showNumber)])
    case Grouping(inner) => Parenthesized("group", [Show(inner, showNumber)])
    case Literal(None) => "nil"
    case Literal(Some(Bool(b))) => if b then "true" else "false"
    case Literal(Some(Number(n))) => showNumber(n)
    case Literal(Some(String(s))) => s
    case Unary(op, right) => Parenthesized(op.lexeme, [Show(right, showNumber)])
  }

  function ShowEach(exprs: seq<Expr>, showNumber: Num -> string): (shown: seq<string>)
    ensures |shown| == |exprs|
    ensures forall k :: 0 <= k < |exprs| ==> shown[k] == Show(exprs[k], showNumber)
  {
    if exprs == [] then [] else ShowEach(exprs[..|exprs| - 1], showNumber) + [Show(exprs[|exprs| - 1], showNumber)]
  }

  lemma ShowEachSnoc(exprs: seq<Expr>, k: nat, showNumber: Num -> string)
    requires k < |exprs|
    ensures ShowEach(exprs[..k + 1], showNumber) == ShowEach(exprs[..k], showNumber) + [Show(exprs[k], showNumber)]
  {
    assert exprs[..k + 1][..k] == exprs[..k];
  }

  lemma SpacedSnoc(shown: seq<string>, last: string)
    ensures Spaced(shown + [last]) == Spaced(shown) + " " + last
  {
    assert (shown + [last])[..|shown|] == shown;
  }

  /** `parenthesize`: the buffer `(`, name, then a space and each operand, then `)`, concatenated. */
  method Parenthesize(name: string, exprs: seq<Expr>, showNumber: Num -> string) returns (s: string)
    ensures s == Parenthesized(name, ShowEach(exprs, showNumber))
  {
    var buf := ["(", name];
    ConcatPush([], "(");
    ConcatPush(["("], name);
    assert [] + ["("] == ["("] && ["("] + [name] == buf;
    ghost var prefix := "(" + name;
    for k := 0 to |exprs|
      invariant Concat(buf) == prefix + Spaced(ShowEach(exprs[..k], showNumber))
    {
      ghost var done := Spaced(ShowEach(exprs[..k], showNumber));
      var shown := Show(exprs[k], showNumber);
      ConcatPush(buf, " ");
      ConcatPush(buf + [" "], shown);
      ShowEachSnoc(exprs, k, showNumber);
      SpacedSnoc(ShowEach(exprs[..k], showNumber), shown);
      assert (prefix + done) + " " + shown == prefix + ((done + " ") + shown);
      buf := buf + [" "] + [shown];
    }
    assert exprs[..|exprs|] == exprs;
    ConcatPush(buf, ")");
    buf := buf + [")"];
    s := Concat(buf);
  }

  lemma ShowBinary(left: Expr, op: Token, right: Expr, showNumber: Num -> string)
    ensures Show(Binary(left, op, right), showNumber)
            == "(" + op.lexeme + " " + Show(left, showNumber) + " " + Show(right, showNumber) + ")"
  {
    var l, r := Show(left, showNumber), Show(right, showNumber);
    var a := "(" + op.lexeme;
    SpacedSnoc([], l);
    SpacedSnoc([l], r);
    assert [] + [l] == [l] && [l] + [r] == [l, r] && "" + " " == " ";
    assert a + (((" " + l) + " ") + r) == (a + ((" " + l) + " ")) + r;
    assert a + ((" " + l) + " ") == (a + (" " + l)) + " ";
    assert a + (" " + l) == (a + " ") + l;
  }

  lemma ShowUnary(op: Token, right: Expr, showNumber: Num -> string)
    ensures Show(Unary(op, right), showNumber) == "(" + op.lexeme + " " + Show(right, showNumber) + ")"
  {
    var r := Show(right, showNumber);
    SpacedSnoc([], r);
    assert [] + [r] == [r];
    assert Spaced([r]) == " " + r;
  }

  lemma ShowGrouping(inner: Expr, showNumber: Num -> string)
    ensures Show(Grouping(inner), showNumber) == "(group " + Show(inner, showNumber) + ")"
  {
    var g := Show(inner, showNumber);
    SpacedSnoc([], g);
    assert [] + [g] == [g];
    assert Spaced([g]) == " " + g;
  }

  lemma ShowLiteral(value: Option<LiteralValue>, showNumber: Num -> string)
    ensures value == None ==> Show(Literal(value), showNumber) == "nil"
    ensures value == Some(Bool(true)) ==> Show(Literal(value), showNumber) == "true"
    ensures value == Some(Bool(false)) ==> Show(Literal(value), showNumber) == "false"
    ensures value.Some? && value.value.Number? ==> Show(Literal(value), showNumber) == showNumber(value.value.n)
    ensures value.Some? && value.value.String? ==> Show(Literal(value), showNumber) == value.value.s
  {
  }
}

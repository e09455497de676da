/**
 * The evaluator of src/interpreter.rs: `execute` walks a tree bottom-up,
 * left operand first, under the dynamic typing rules of `+`, the numeric
 * operators, equality and truthiness; `stringify` formats a value.
 */
module Interpreter {
  import opened Wrappers
  import opened Lexing
  import opened Ast

  /** A value at run time; `None` is nil. */
  type Value = Option<LiteralValue>

  /**
   * The `f64` operations `execute` applies, kept opaque: the model makes no
   * claim about floating-point arithmetic, so they are parameters.
   */
  datatype FloatOps = FloatOps(
    add: (Num, Num) -> Num,
    sub: (Num, Num) -> Num,
    mul: (Num, Num) -> Num,
    div: (Num, Num) -> Num,
    neg: Num -> Num,
    gt: (Num, Num) -> bool,
    ge: (Num, Num) -> bool,
    lt: (Num, Num) -> bool,
    le: (Num, Num) -> bool,
    eq: (Num, Num) -> bool)

  /** Which rule failed; the message text of each is not modelled. */
  datatype RuntimeErrorKind =
    | OperandsNotAddable     // `+` on anything but two numbers or two strings
    | OperandsNotNumbers     // a numeric binary operator on a non-number
    | OperandNotNumber       // unary `-` on a non-number
    | InvalidBinaryOperator
    | InvalidUnaryOperator

  /** A failure, carrying the loc of the operator token that raised it. */
  datatype RuntimeError = RuntimeError(kind: RuntimeErrorKind, loc: Loc)

  /** The numeric binary operators: they need two numbers. */
  const NumericOperators: set<TokenKind> := {Greater, GreaterEqual, Less, LessEqual, Minus, Slash, Star}

  /** Every kind `execute` accepts as a binary operator. */
  const BinaryOperators: set<TokenKind> := NumericOperators + {BangEqual, EqualEqual, Plus}

  predicate IsNumber(v: Value) {
    v.Some? && v.value.Number?
  }

  /** `is_truthy`: nil and `false` are falsy, everything else is truthy. */
  function IsTruthy(v: Value): (b: bool)
    ensures !b <==> v == None || v == Some(Bool(false))
  {
    match v
    case Some(Bool(boolean)) => boolean
    case None => false
    case _ => true
  }

  /**
   * The derived equality of `LiteralValue`: same variant and equal payload,
   * numbers compared with the `f64` equality `eq`.
   */
  function SameLiteral(a: LiteralValue, b: LiteralValue, ops: FloatOps): bool
  {
    match (a, b)
    case (Bool(x), Bool(y)) => x == y
    case (Number(x), Number(y)) => ops.eq(x, y)
    case (String(x), String(y)) => x == y
    case _ => false
  }

  /** `is_equal`: nil equals only nil; two present values compare as literals. */
  function IsEqual(lhs: Value, rhs: Value, ops: FloatOps): (b: bool)
    ensures lhs == None && rhs == None ==> b
    ensures (lhs == None) != (rhs == None) ==> !b
    ensures lhs.Some? && rhs.Some? ==> (b <==> SameLiteral(lhs.value, rhs.value, ops))
  {
    match (lhs, rhs)
    case (None, None) => true
    case (None, _) => false
    case (_, None) => false
    case (Some(a), Some(b)) => SameLiteral(a, b, ops)
  }

  /** `expect_number`: the number inside a Number, else the unary operator's error. */
  function ExpectNumber(op: Token, rhs: Value): (r: Result<Num, RuntimeError>)
    ensures r.Ok? <==> IsNumber(rhs)
    ensures r.Ok? ==> rhs == Some(LiteralValue.Number(r.value))
    ensures r.Err? ==> r.error == RuntimeError(OperandNotNumber, op.loc)
  {
    match rhs
    case Some(Number(n)) => Ok(n)
    case _ => Err(RuntimeError(OperandNotNumber, op.loc))
  }

  /** `expect_numbers`: both numbers, else the binary operator's error. */
  function ExpectNumbers(lhs: Value, op: Token, rhs: Value): (r: Result<(Num, Num), RuntimeError>)
    ensures r.Ok? <==> IsNumber(lhs) && IsNumber(rhs)
    ensures r.Ok? ==> lhs == Some(LiteralValue.Number(r.value.0)) && rhs == Some(LiteralValue.Number(r.value.1))
    ensures r.Err? ==> r.error == RuntimeError(OperandsNotNumbers, op.loc)
  {
    match (lhs, rhs)
    case (Some(Number(a)), Some(Number(b))) => Ok((a, b))
    case _ => Err(RuntimeError(OperandsNotNumbers, op.loc))
  }

  /** The `match op.kind` of the Binary arm, on operands already evaluated. */
  function ApplyBinary(op: Token, left: Value, right: Value, ops: FloatOps): (r: Result<Value, RuntimeError>)
    ensures r.Ok? ==> r.value.Some?
    ensures r.Err? ==> r.error.loc == op.loc
  {
    if op.kind == BangEqual then Ok(Some(Bool(!IsEqual(left, right, ops))))
    else if op.kind == EqualEqual then Ok(Some(Bool(IsEqual(left, right, ops))))
    else if op.kind == Plus then
      match (left, right)
      case (Some(Number(a)), Some(Number(b))) => Ok(Some(LiteralValue.Number(ops.add(a, b))))
      case (Some(String(a)), Some(String(b))) => Ok(Some(LiteralValue.String(a + b)))
      case _ => Err(RuntimeError(OperandsNotAddable, op.loc))
    else if op.kind in NumericOperators then
      var n :- ExpectNumbers(left, op, right);
      var a, b := n.0, n.1;
      if op.kind == Greater then Ok(Some(Bool(ops.gt(a, b))))
      else if op.kind == GreaterEqual then Ok(Some(Bool(ops.ge(a, b))))
      else if op.kind == Less then Ok(Some(Bool(ops.lt(a, b))))
      else if op.kind == LessEqual then Ok(Some(Bool(ops.le(a, b))))
      else if op.kind == Minus then Ok(Some(LiteralValue.Number(ops.sub(a, b))))
      else if op.kind == Slash then Ok(Some(LiteralValue.Number(ops.div(a, b))))
      else Ok(Some(LiteralValue.Number(ops.mul(a, b))))
    else
      Err(RuntimeError(InvalidBinaryOperator, op.loc))
  }

  /** The `match op` of the Unary arm, on the operand already evaluated. */
  function ApplyUnary(op: Token, right: Value, ops: FloatOps): (r: Result<Value, RuntimeError>)
    ensures r.Ok? ==> r.value.Some?
    ensures r.Err? ==> r.error.loc == op.loc
  {
    if op.kind == Minus then
      var n :- ExpectNumber(op, right);
      Ok(Some(LiteralValue.Number(ops.neg(n))))
    else if op.kind == Bang then
      Ok(Some(Bool(!IsTruthy(right))))
    else
      Err(RuntimeError(InvalidUnaryOperator, op.loc))
  }

  /** `execute`: operands left to right, the first error returned unchanged. */
  function Execute(e: Expr, ops: FloatOps): (r: Result<Value, RuntimeError>)
    ensures r.Ok? && (e.Binary? || e.Unary?) ==> r.value.Some?
  {
    match e
    case Binary(left, op, right) =>
      var lv :- Execute(left, ops);
      var rv :- Execute(right, ops);
      ApplyBinary(op, lv, rv, ops)
    case Grouping(inner) => Execute(inner, ops)
    case Literal(value) => Ok(value)
    case Unary(op, right) =>
      var rv :- Execute(right, ops);
      ApplyUnary(op, rv, ops)
  }

  /** `stringify`; `showNumber` stands for `f64::to_string`. */
  function Stringify(v: Value, showNumber: Num -> string): (s: string)
    ensures v == None ==> s == "nil"
    ensures v.Some? && v.value.String? ==> s == v.value.s
    ensures v.Some? && v.value.Bool? ==> s == if v.value.b then "true" else "false"
  {
    match v
    case None => "nil"
    case Some(Bool(b)) => if b then "true" else "false"
    case Some(Number(n)) => showNumber(n)
    case Some(String(s)) => s
  }

  /*** Properties ***/

  /** A Literal evaluates to its value unchanged; a Grouping to what its inner tree gives. */
  lemma LiteralAndGrouping(value: Value, inner: Expr, ops: FloatOps)
    ensures Execute(Literal(value), ops) == Ok(value)
    ensures Execute(Grouping(inner), ops) == Execute(inner, ops)
  {
  }

  /**
   * The left operand is evaluated first: its error wins whatever the right
   * one does; an error of the right operand is returned unchanged too.
   */
  lemma ErrorsPropagate(left: Expr, op: Token, right: Expr, ops: FloatOps)
    ensures Execute(left, ops).Err? ==>
      Execute(Binary(left, op, right), ops) == Err(Execute(left, ops).error)
    ensures Execute(left, ops).Ok? && Execute(right, ops).Err? ==>
      Execute(Binary(left, op, right), ops) == Err(Execute(right, ops).error)
    ensures Execute(right, ops).Err? ==>
      Execute(Unary(op, right), ops) == Err(Execute(right, ops).error)
  {
  }

  /** Once both operands evaluate, `==` and `!=` succeed and `!=` is the negation of `==`. */
  lemma EqualityNeverFails(left: Expr, equal: Token, notEqual: Token, right: Expr, ops: FloatOps)
    requires equal.kind == EqualEqual && notEqual.kind == BangEqual
    requires Execute(left, ops).Ok? && Execute(right, ops).Ok?
    ensures var lv, rv := Execute(left, ops).value, Execute(right, ops).value;
      && Execute(Binary(left, equal, right), ops) == Ok(Some(Bool(IsEqual(lv, rv, ops))))
      && Execute(Binary(left, notEqual, right), ops) == Ok(Some(Bool(!IsEqual(lv, rv, ops))))
  {
  }

  /** `!` never fails on an evaluated operand and gives the negated truthiness. */
  lemma NotNegatesTruthiness(op: Token, right: Expr, ops: FloatOps)
    requires op.kind == Bang && Execute(right, ops).Ok?
    ensures var rv := Execute(right, ops).value;
      Execute(Unary(op, right), ops) == Ok(Some(Bool(!IsTruthy(rv))))
  {
  }

  /** Unary `-` negates a number and fails at the operator on anything else. */
  lemma NegationNeedsNumber(op: Token, right: Expr, ops: FloatOps)
    requires op.kind == Minus && Execute(right, ops).Ok?
    ensures var rv, r := Execute(right, ops).value, Execute(Unary(op, right), ops);
      && (IsNumber(rv) ==> r == Ok(Some(LiteralValue.Number(ops.neg(rv.value.n)))))
      && (!IsNumber(rv) ==> r == Err(RuntimeError(OperandNotNumber, op.loc)))
  {
  }

  /**
   * The numeric operators succeed exactly when both operands are numbers;
   * comparisons then give a boolean, arithmetic a number; otherwise they fail
   * at the operator.
   */
  lemma NumericNeedsNumbers(left: Expr, op: Token, right: Expr, ops: FloatOps)
    requires op.kind in NumericOperators
    requires Execute(left, ops).Ok? && Execute(right, ops).Ok?
    ensures var lv, rv, r := Execute(left, ops).value, Execute(right, ops).value, Execute(Binary(left, op, right), ops);
      && (r.Ok? <==> IsNumber(lv) && IsNumber(rv))
      && (r.Err? ==> r.error == RuntimeError(OperandsNotNumbers, op.loc))
      && (r.Ok? && op.kind in {Greater, GreaterEqual, Less, LessEqual} ==> r.value.value.Bool?)
      && (r.Ok? && op.kind in {Minus, Slash, Star} ==> r.value.value.Number?)
  {
    var lv, rv := Execute(left, ops).value, Execute(right, ops).value;
    assert Execute(Binary(left, op, right), ops) == ApplyBinary(op, lv, rv, ops);
  }

  /** `+` adds two numbers, concatenates two strings, and fails at the operator on any other pair. */
  lemma PlusCases(left: Expr, op: Token, right: Expr, ops: FloatOps)
    requires op.kind == Plus
    requires Execute(left, ops).Ok? && Execute(right, ops).Ok?
    ensures var lv, rv, r := Execute(left, ops).value, Execute(right, ops).value, Execute(Binary(left, op, right), ops);
      && (IsNumber(lv) && IsNumber(rv) ==> r == Ok(Some(LiteralValue.Number(ops.add(lv.value.n, rv.value.n)))))
      && (lv.Some? && lv.value.String? && rv.Some? && rv.value.String? ==> r == Ok(Some(LiteralValue.String(lv.value.s + rv.value.s))))
      && (r.Ok? ==> (IsNumber(lv) && IsNumber(rv)) || (lv.Some? && lv.value.String? && rv.Some? && rv.value.String?))
      && (r.Err? ==> r.error == RuntimeError(OperandsNotAddable, op.loc))
  {
  }

  /** Nil is neither a number nor a string, so `+` with a nil operand fails. */
  lemma PlusRejectsNil(left: Expr, op: Token, right: Expr, ops: FloatOps)
    requires op.kind == Plus
    requires Execute(left, ops).Ok? && Execute(right, ops).Ok?
    requires Execute(left, ops).value == None || Execute(right, ops).value == None
    ensures Execute(Binary(left, op, right), ops) == Err(RuntimeError(OperandsNotAddable, op.loc))
  {
    var lv, rv := Execute(left, ops).value, Execute(right, ops).value;
    assert Execute(Binary(left, op, right), ops) == ApplyBinary(op, lv, rv, ops);
  }

  /** An operator kind outside the tables fails at that operator once the operands evaluate. */
  lemma InvalidOperators(left: Expr, op: Token, right: Expr, ops: FloatOps)
    requires Execute(left, ops).Ok? && Execute(right, ops).Ok?
    ensures op.kind !in BinaryOperators ==>
      Execute(Binary(left, op, right), ops) == Err(RuntimeError(InvalidBinaryOperator, op.loc))
    ensures op.kind !in {Minus, Bang} ==>
      Execute(Unary(op, right), ops) == Err(RuntimeError(InvalidUnaryOperator, op.loc))
  {
  }

  /** A present value prints as the tree display of the same literal does. */
  lemma StringifyShowsLiteral(v: Value, showNumber: Num -> string)
    ensures Stringify(v, showNumber) == Show(Literal(v), showNumber)
  {
  }
}

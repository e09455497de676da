/**
 * The scanner of src/lexing.rs (`Scanner::scan` and the `parse_*` helpers).
 *
 * The source text is taken already split into graphemes, `src: seq<string>`.
 * Rust's shared `Peekable<Graphemes>` iterator becomes an index into `src`:
 * every helper receives the index where the iterator stands and returns the
 * index where it leaves it. The predicates below say, case by case, exactly
 * which token a helper produces and how far it moves the iterator.
 */
module Scanner {
  import opened Wrappers
  import opened Text
  import opened Lexing

  /** A token and the index of the first grapheme the scanner has not consumed. */
  datatype Scanned = Scanned(token: Token, next: nat)

  /** The number of `"\n"` graphemes. */
  function Newlines(gs: seq<string>): nat
  {
    if gs == [] then 0 else Newlines(gs[..|gs| - 1]) + (if gs[|gs| - 1] == "\n" then 1 else 0)
  }

  lemma {:induction false} NewlinesAppend(a: seq<string>, b: seq<string>)
    ensures Newlines(a + b) == Newlines(a) + Newlines(b)
    decreases |b|
  {
    if b == [] {
      assert a + b == a;
    } else {
      assert (a + b)[..|a + b| - 1] == a + b[..|b| - 1];
      NewlinesAppend(a, b[..|b| - 1]);
    }
  }

  lemma NewlinesSnoc(src: seq<string>, i: nat, j: nat)
    requires i <= j < |src|
    ensures Newlines(src[i..j + 1]) == Newlines(src[i..j]) + (if src[j] == "\n" then 1 else 0)
  {
    assert src[i..j + 1][..j - i] == src[i..j];
  }

  lemma NewlinesSplit(src: seq<string>, i: nat, j: nat, k: nat)
    requires i <= j <= k <= |src|
    ensures Newlines(src[i..k]) == Newlines(src[i..j]) + Newlines(src[j..k])
  {
    assert src[i..k] == src[i..j] + src[j..k];
    NewlinesAppend(src[i..j], src[j..k]);
  }

  /*** The dispatch table of `parse_token` ***/

  /** The token one grapheme makes whatever follows it (punctuation, whitespace, newline). */
  function SimpleKind(g: string): Option<TokenKind>
  {
    match g
    case "(" => Some(LeftParen)
    case ")" => Some(RightParen)
    case "{" => Some(LeftBrace)
    case "}" => Some(RightBrace)
    case "," => Some(Comma)
    case "-" => Some(Minus)
    case "+" => Some(Plus)
    case ";" => Some(Semicolon)
    case "*" => Some(Star)
    case " " => Some(Whitespace)
    case "\r" => Some(Whitespace)
    case "\t" => Some(Whitespace)
    case "\n" => Some(NewLine)
    case _ => None
  }

  /** A grapheme that is one operator alone and another one when `second` follows it. */
  datatype OperatorEntry = OperatorEntry(single: TokenKind, double: TokenKind, second: string)

  function OperatorKinds(g: string): Option<OperatorEntry>
  {
    match g
    case "!" => Some(OperatorEntry(Bang, BangEqual, "="))
    case "=" => Some(OperatorEntry(Equal, EqualEqual, "="))
    case "<" => Some(OperatorEntry(Less, LessEqual, "="))
    case ">" => Some(OperatorEntry(Greater, GreaterEqual, "="))
    case "/" => Some(OperatorEntry(Slash, Comment, "/"))
    case _ => None
  }

  /** The operator starting at `i`: two graphemes when the second one follows, else one. */
  function OperatorToken(src: seq<string>, i: nat, line: nat): Scanned
    requires i < |src| && OperatorKinds(src[i]).Some?
  {
    var entry := OperatorKinds(src[i]).value;
    if i + 1 < |src| && src[i + 1] == entry.second then
      Scanned(Token(entry.double, src[i] + entry.second, None, Loc.Single(line)), i + 2)
    else
      Scanned(Token(entry.single, src[i], None, Loc.Single(line)), i + 1)
  }

  /**
   * The two-grapheme operators: `!`, `=`, `<` and `>` followed by `=`, and
   * `/` followed by `/`, make the double kind with both graphemes as lexeme
   * and consume two graphemes; otherwise the single kind, one grapheme.
   */
  lemma OperatorTokenCases(src: seq<string>, i: nat, line: nat)
    requires i < |src| && src[i] in {"!", "=", "<", ">", "/"}
    ensures var s := OperatorToken(src, i, line);
      var second := if src[i] == "/" then "/" else "=";
      var double := i + 1 < |src| && src[i + 1] == second;
      && s.next == (if double then i + 2 else i + 1)
      && s.token.lexeme == (if double then src[i] + second else src[i])
      && s.token.literal == None && s.token.loc == Loc.Single(line)
      && (src[i] == "!" ==> s.token.kind == if double then BangEqual else Bang)
      && (src[i] == "=" ==> s.token.kind == if double then EqualEqual else Equal)
      && (src[i] == "<" ==> s.token.kind == if double then LessEqual else Less)
      && (src[i] == ">" ==> s.token.kind == if double then GreaterEqual else Greater)
      && (src[i] == "/" ==> s.token.kind == if double then Comment else Slash)
  {
  }

  /** A grapheme some arm of the dispatch table accepts. */
  predicate Dispatched(g: string) {
    g == "\"" || g == "." || IsDigit(g) || IsIdentStart(g) || SimpleKind(g).Some? || OperatorKinds(g).Some?
  }

  /** The kinds that reach the token list. */
  predicate Emitted(kind: TokenKind) {
    kind !in {Whitespace, Comment, NewLine, Eof}
  }

  /*** Identifiers ***/

  /**
   * `parse_identifier` from `start`: the first grapheme, then every
   * ident-trailing grapheme up to the first one that is not, which stays
   * unconsumed; the kind is the keyword kind of the lexeme, or Identifier.
   */
  ghost predicate IdentifierAt(src: seq<string>, start: nat, line: nat, s: Scanned)
  {
    && start < s.next <= |src|
    && (forall k :: start < k < s.next ==> IsIdentTrailing(src[k]))
    && (s.next == |src| || !IsIdentTrailing(src[s.next]))
    && s.token == Token(IdentifierKind(Concat(src[start..s.next])), Concat(src[start..s.next]), None, Loc.Single(line))
  }

  /*** Numbers ***/

  /** Where `parse_token` starts a number: a digit, or a point with a digit after it. */
  predicate NumberStart(src: seq<string>, start: nat) {
    start < |src| && (IsDigit(src[start]) || (src[start] == "." && start + 1 < |src| && IsDigit(src[start + 1])))
  }

  /** `src[start..end]` is made of digits and points, with at most one point. */
  ghost predicate NumberRun(src: seq<string>, start: nat, end: nat)
    requires start <= end <= |src|
  {
    && (forall k :: start <= k < end ==> IsDigit(src[k]) || src[k] == ".")
    && (forall p, q :: start <= p < q < end ==> !(src[p] == "." && src[q] == "."))
  }

  /** The number loop stops before `end`: a non-digit that is not a point following a digit. */
  ghost predicate StopsNumber(src: seq<string>, end: nat)
    requires 0 < end <= |src|
  {
    end == |src| || (!IsDigit(src[end]) && (src[end] == "." ==> src[end - 1] == "."))
  }

  /** The loop reaches a second point at `j`, an earlier one standing at `q`. */
  ghost predicate SecondPoint(src: seq<string>, start: nat, q: nat, j: nat)
  {
    && start <= q < j < |src|
    && src[q] == "." && src[j] == "." && IsDigit(src[j - 1])
    && NumberRun(src, start, j)
  }

  /**
   * The first grapheme after the number's first digit is neither a digit nor
   * a point: the loop's first `next()` consumes it and then breaks, so it is lost.
   */
  predicate LostNext(src: seq<string>, start: nat) {
    start + 1 < |src| && !IsDigit(src[start + 1]) && src[start + 1] != "."
  }

  function NumberToken(lexeme: string, line: nat, parse: string -> Num): Token
  {
    Token(TokenKind.Number, lexeme, Some(LiteralValue.Number(parse(lexeme))), Loc.Single(line))
  }

  /** `parse_number_literal` from `start`. */
  ghost predicate NumberAt(src: seq<string>, start: nat, line: nat, parse: string -> Num, r: Result<Scanned, LexError>)
    requires start < |src|
  {
    && (LostNext(src, start) ==> r == Ok(Scanned(NumberToken(src[start], line, parse), start + 2)))
    && (!LostNext(src, start) ==>
          && (r.Err? <==> exists q, j :: SecondPoint(src, start, q, j))
          && (r.Err? ==> r.error == AdditionalPoint(line))
          && (r.Ok? ==>
                && start < r.value.next <= |src|
                && NumberRun(src, start, r.value.next)
                && StopsNumber(src, r.value.next)
                && r.value.token == NumberToken(Concat(src[start..r.value.next]), line, parse)))
  }

  /*** Strings ***/

  /** A quote at `k` closes a string whose content starts at `i`: it is not escaped by a backslash. */
  ghost predicate ClosesAt(src: seq<string>, i: nat, k: nat)
    requires i <= k < |src|
  {
    src[k] == "\"" && (k == i || src[k - 1] != "\\")
  }

  function StringToken(content: string, lineBegin: nat, lineEnd: nat): Token
  {
    Token(TokenKind.String, "\"" + content + "\"", Some(LiteralValue.String(content)), Loc(lineBegin, lineEnd))
  }

  /**
   * `parse_str_literal` with the content starting at `i`: the content runs,
   * verbatim, up to the first closing quote; the token spans one line more
   * per newline in it; no closing quote at all is a failure.
   */
  ghost predicate StringAt(src: seq<string>, i: nat, line: nat, r: Result<Scanned, LexError>)
    requires i <= |src|
  {
    && (r.Ok? <==> exists k :: i <= k < |src| && ClosesAt(src, i, k))
    && (r.Err? ==> r.error == UnterminatedString(line + Newlines(src[i..])))
    && (r.Ok? ==>
          && i < r.value.next <= |src|
          && ClosesAt(src, i, r.value.next - 1)
          && (forall k :: i <= k < r.value.next - 1 ==> !ClosesAt(src, i, k))
          && r.value.token == StringToken(Concat(src[i..r.value.next - 1]), line, line + Newlines(src[i..r.value.next - 1])))
  }

  /** Tokens keep line order: no token ends after a later one begins. */
  ghost predicate LinesOrdered(tokens: seq<Token>)
  {
    forall a, b :: 0 <= a < b < |tokens| ==> tokens[a].loc.lineEnd <= tokens[b].loc.lineBegin
  }

  /*** The loops of the helpers, as functions of where they stand ***/

  /** Where the identifier loop stops: the first grapheme from `k` on that is not ident-trailing. */
  function IdentifierEnd(src: seq<string>, k: nat): (e: nat)
    requires k <= |src|
    ensures k <= e <= |src|
    decreases |src| - k
  {
    if k < |src| && IsIdentTrailing(src[k]) then IdentifierEnd(src, k + 1) else k
  }

  function IdentifierToken(src: seq<string>, start: nat, line: nat): Scanned
    requires start < |src|
  {
    var e := IdentifierEnd(src, start + 1);
    var lexeme := Concat(src[start..e]);
    Scanned(Token(IdentifierKind(lexeme), lexeme, None, Loc.Single(line)), e)
  }

  lemma {:induction false} IdentifierEndStops(src: seq<string>, k: nat)
    requires k <= |src|
    ensures forall m :: k <= m < IdentifierEnd(src, k) ==> IsIdentTrailing(src[m])
    ensures IdentifierEnd(src, k) == |src| || !IsIdentTrailing(src[IdentifierEnd(src, k)])
    decreases |src| - k
  {
    if k < |src| && IsIdentTrailing(src[k]) {
      IdentifierEndStops(src, k + 1);
    }
  }

  lemma IdentifierTokenAt(src: seq<string>, start: nat, line: nat)
    requires start < |src|
    ensures IdentifierAt(src, start, line, IdentifierToken(src, start, line))
  {
    IdentifierEndStops(src, start + 1);
  }

  /**
   * The loop of `parse_number_literal` with `src[i]` the grapheme its next
   * `next()` returns, `parts` the pieces pushed so far.
   */
  function NumberLoop(src: seq<string>, i: nat, parts: seq<string>, hasPoint: bool, line: nat, parse: string -> Num)
    : Result<Scanned, LexError>
    requires i <= |src|
    decreases |src| - i
  {
    if i == |src| then
      Ok(Scanned(NumberToken(Concat(parts), line, parse), i))
    else if IsDigit(src[i]) then
      if i + 1 == |src| || (!IsDigit(src[i + 1]) && src[i + 1] != ".") then
        Ok(Scanned(NumberToken(Concat(parts + [src[i]]), line, parse), i + 1))
      else
        NumberLoop(src, i + 1, parts + [src[i]], hasPoint, line, parse)
    else if src[i] == "." then
      if hasPoint then
        Err(AdditionalPoint(line))
      else if i + 1 == |src| || !IsDigit(src[i + 1]) then
        Ok(Scanned(NumberToken(Concat(parts + [src[i]]), line, parse), i + 1))
      else
        NumberLoop(src, i + 1, parts + [src[i]], true, line, parse)
    else
      // the `_ => break` arm: `next()` has already consumed `src[i]`
      Ok(Scanned(NumberToken(Concat(parts), line, parse), i + 1))
  }

  function NumberLiteral(src: seq<string>, start: nat, line: nat, parse: string -> Num): Result<Scanned, LexError>
    requires start < |src|
  {
    NumberLoop(src, start + 1, [src[start]], src[start] == ".", line, parse)
  }

  /** What the number loop knows when it stands at `i`. */
  ghost predicate NumberState(src: seq<string>, start: nat, i: nat, parts: seq<string>, hasPoint: bool)
  {
    && NumberStart(src, start)
    && start < i <= |src|
    && parts == src[start..i]
    && NumberRun(src, start, i)
    && (hasPoint <==> exists q :: start <= q < i && src[q] == ".")
    && (i > start + 1 ==> !LostNext(src, start))
    && (i > start + 1 ==> i < |src| && (IsDigit(src[i]) || (src[i] == "." && IsDigit(src[i - 1]))))
  }

  /** A run the loop stops after holds no second point. */
  lemma NoSecondPoint(src: seq<string>, start: nat, end: nat)
    requires start < end <= |src|
    requires NumberRun(src, start, end) && StopsNumber(src, end)
    ensures forall q, j :: !SecondPoint(src, start, q, j)
  {
  }

  lemma NumberStops(src: seq<string>, start: nat, end: nat, line: nat, parse: string -> Num)
    requires start < end <= |src| && NumberRun(src, start, end) && StopsNumber(src, end)
    requires !LostNext(src, start)
    ensures NumberAt(src, start, line, parse, Ok(Scanned(NumberToken(Concat(src[start..end]), line, parse), end)))
  {
    NoSecondPoint(src, start, end);
  }

  /** A digit, or a first point, joins the run. */
  lemma NumberExtend(src: seq<string>, start: nat, i: nat, parts: seq<string>, hasPoint: bool)
    requires NumberState(src, start, i, parts, hasPoint) && i < |src|
    requires IsDigit(src[i]) || (src[i] == "." && !hasPoint)
    ensures parts + [src[i]] == src[start..i + 1]
    ensures NumberRun(src, start, i + 1)
    ensures hasPoint || src[i] == "." <==> exists q :: start <= q < i + 1 && src[q] == "."
    ensures !LostNext(src, start)
  {
    if src[i] == "." {
      assert src[i] == "." && start <= i < i + 1;
    }
  }

  /** The loop goes round once more after the digit or first point at `i`. */
  lemma NumberGoesOn(src: seq<string>, start: nat, i: nat, parts: seq<string>, hasPoint: bool,
                     line: nat, parse: string -> Num)
    requires NumberState(src, start, i, parts, hasPoint) && i + 1 < |src|
    requires IsDigit(src[i]) ==> IsDigit(src[i + 1]) || src[i + 1] == "."
    requires !IsDigit(src[i]) ==> src[i] == "." && !hasPoint && IsDigit(src[i + 1])
    ensures NumberLoop(src, i, parts, hasPoint, line, parse)
            == NumberLoop(src, i + 1, parts + [src[i]], hasPoint || src[i] == ".", line, parse)
    ensures NumberState(src, start, i + 1, parts + [src[i]], hasPoint || src[i] == ".")
  {
    NumberExtend(src, start, i, parts, hasPoint);
  }

  /** The loop stops after the digit or point at `i`. */
  lemma NumberStopsAfter(src: seq<string>, start: nat, i: nat, parts: seq<string>, hasPoint: bool,
                         line: nat, parse: string -> Num)
    requires NumberState(src, start, i, parts, hasPoint) && i < |src|
    requires IsDigit(src[i]) || (src[i] == "." && !hasPoint)
    requires IsDigit(src[i]) ==> i + 1 == |src| || (!IsDigit(src[i + 1]) && src[i + 1] != ".")
    requires !IsDigit(src[i]) ==> i + 1 == |src| || !IsDigit(src[i + 1])
    ensures NumberAt(src, start, line, parse, NumberLoop(src, i, parts, hasPoint, line, parse))
  {
    assert NumberLoop(src, i, parts, hasPoint, line, parse)
           == Ok(Scanned(NumberToken(Concat(parts + [src[i]]), line, parse), i + 1));
    NumberExtend(src, start, i, parts, hasPoint);
    NumberStops(src, start, i + 1, line, parse);
  }

  /** A point after a point already seen. */
  lemma NumberSecondPoint(src: seq<string>, start: nat, i: nat, parts: seq<string>, line: nat, parse: string -> Num)
    requires NumberState(src, start, i, parts, true) && i < |src| && src[i] == "."
    ensures NumberAt(src, start, line, parse, NumberLoop(src, i, parts, true, line, parse))
  {
    assert NumberLoop(src, i, parts, true, line, parse) == Err(AdditionalPoint(line));
    var q :| start <= q < i && src[q] == ".";
    assert SecondPoint(src, start, q, i);
  }

  /** The `_ => break` arm on a grapheme: only the one right after the first digit. */
  lemma NumberLost(src: seq<string>, start: nat, i: nat, parts: seq<string>, hasPoint: bool, line: nat, parse: string -> Num)
    requires NumberState(src, start, i, parts, hasPoint) && i < |src| && !IsDigit(src[i]) && src[i] != "."
    ensures NumberAt(src, start, line, parse, NumberLoop(src, i, parts, hasPoint, line, parse))
  {
    assert NumberLoop(src, i, parts, hasPoint, line, parse) == Ok(Scanned(NumberToken(Concat(parts), line, parse), i + 1));
    assert i == start + 1 && LostNext(src, start);
    assert parts == [src[start]] == [] + [src[start]];
    ConcatPush([], src[start]);
    assert Concat(parts) == src[start];
  }

  /** The `_ => break` arm on the end of the source. */
  lemma NumberEnds(src: seq<string>, start: nat, parts: seq<string>, hasPoint: bool, line: nat, parse: string -> Num)
    requires NumberState(src, start, |src|, parts, hasPoint)
    ensures NumberAt(src, start, line, parse, NumberLoop(src, |src|, parts, hasPoint, line, parse))
  {
    NumberStops(src, start, |src|, line, parse);
  }

  lemma {:induction false} NumberLoopAt(src: seq<string>, start: nat, i: nat, parts: seq<string>, hasPoint: bool,
                                        line: nat, parse: string -> Num)
    requires NumberState(src, start, i, parts, hasPoint)
    ensures NumberAt(src, start, line, parse, NumberLoop(src, i, parts, hasPoint, line, parse))
    decreases |src| - i
  {
    if i == |src| {
      NumberEnds(src, start, parts, hasPoint, line, parse);
    } else if src[i] == "." && hasPoint {
      NumberSecondPoint(src, start, i, parts, line, parse);
    } else if !IsDigit(src[i]) && src[i] != "." {
      NumberLost(src, start, i, parts, hasPoint, line, parse);
    } else if IsDigit(src[i]) && (i + 1 == |src| || (!IsDigit(src[i + 1]) && src[i + 1] != ".")) {
      NumberStopsAfter(src, start, i, parts, hasPoint, line, parse);
    } else if !IsDigit(src[i]) && (i + 1 == |src| || !IsDigit(src[i + 1])) {
      NumberStopsAfter(src, start, i, parts, hasPoint, line, parse);
    } else {
      NumberGoesOn(src, start, i, parts, hasPoint, line, parse);
      NumberLoopAt(src, start, i + 1, parts + [src[i]], hasPoint || src[i] == ".", line, parse);
    }
  }

  lemma NumberLiteralAt(src: seq<string>, start: nat, line: nat, parse: string -> Num)
    requires NumberStart(src, start)
    ensures NumberAt(src, start, line, parse, NumberLiteral(src, start, line, parse))
  {
    NumberLoopAt(src, start, start + 1, [src[start]], src[start] == ".", line, parse);
  }

  /** The loop of `parse_str_literal` standing at `p`, with the pieces pushed so far and the current line. */
  function StringLoop(src: seq<string>, p: nat, parts: seq<string>, lineBegin: nat, lineCurrent: nat)
    : Result<Scanned, LexError>
    requires p <= |src|
    decreases |src| - p
  {
    if p == |src| then
      Err(UnterminatedString(lineCurrent))
    else if src[p] == "\\" && p + 1 < |src| && src[p + 1] == "\"" then
      StringLoop(src, p + 2, parts + ["\\\""], lineBegin, lineCurrent)
    else if src[p] == "\"" then
      Ok(Scanned(StringToken(Concat(parts), lineBegin, lineCurrent), p + 1))
    else
      StringLoop(src, p + 1, parts + [src[p]], lineBegin, if src[p] == "\n" then lineCurrent + 1 else lineCurrent)
  }

  function StringLiteral(src: seq<string>, i: nat, line: nat): Result<Scanned, LexError>
    requires i <= |src|
  {
    StringLoop(src, i, [], line, line)
  }

  /** No quote in `src[i..p]` closes the string. */
  ghost predicate Open(src: seq<string>, i: nat, p: nat)
    requires i <= p <= |src|
  {
    forall k :: i <= k < p ==> !ClosesAt(src, i, k)
  }

  /** What the string loop knows when it stands at `p`. */
  ghost predicate StringState(src: seq<string>, i: nat, p: nat, parts: seq<string>, lineBegin: nat, lineCurrent: nat)
  {
    && i <= p <= |src|
    && Open(src, i, p)
    && Concat(parts) == Concat(src[i..p])
    && lineCurrent == lineBegin + Newlines(src[i..p])
    && (i < p < |src| && src[p - 1] == "\\" ==> src[p] != "\"")
  }

  /** One more grapheme, not a closing quote, joins the content. */
  lemma Extend(src: seq<string>, i: nat, p: nat, parts: seq<string>)
    requires i <= p < |src| && Open(src, i, p) && !ClosesAt(src, i, p)
    requires Concat(parts) == Concat(src[i..p])
    ensures Open(src, i, p + 1)
    ensures Concat(parts + [src[p]]) == Concat(src[i..p + 1])
    ensures Newlines(src[i..p + 1]) == Newlines(src[i..p]) + (if src[p] == "\n" then 1 else 0)
  {
    ConcatSnoc(src, i, p);
    ConcatPush(parts, src[p]);
    NewlinesSnoc(src, i, p);
  }

  /** A grapheme other than a quote or an escaping backslash joins the content. */
  lemma ContentStep(src: seq<string>, i: nat, p: nat, parts: seq<string>, lineBegin: nat, lineCurrent: nat)
    requires StringState(src, i, p, parts, lineBegin, lineCurrent) && p < |src| && src[p] != "\""
    requires !(src[p] == "\\" && p + 1 < |src| && src[p + 1] == "\"")
    ensures StringState(src, i, p + 1, parts + [src[p]], lineBegin, if src[p] == "\n" then lineCurrent + 1 else lineCurrent)
  {
    Extend(src, i, p, parts);
  }

  /** A backslash and the quote after it join the content as one piece. */
  lemma EscapeStep(src: seq<string>, i: nat, p: nat, parts: seq<string>, lineBegin: nat, lineCurrent: nat)
    requires StringState(src, i, p, parts, lineBegin, lineCurrent)
    requires p + 1 < |src| && src[p] == "\\" && src[p + 1] == "\""
    ensures StringState(src, i, p + 2, parts + ["\\\""], lineBegin, lineCurrent)
  {
    Extend(src, i, p, parts);
    Extend(src, i, p + 1, parts + [src[p]]);
    ConcatPush(parts + [src[p]], src[p + 1]);
    ConcatPush(parts, src[p]);
    ConcatPush(parts, "\\\"");
  }

  /** The loop stops at a closing quote at `p`. */
  lemma StringClosed(src: seq<string>, i: nat, p: nat, parts: seq<string>, lineBegin: nat, lineCurrent: nat)
    requires StringState(src, i, p, parts, lineBegin, lineCurrent) && p < |src| && src[p] == "\""
    ensures StringAt(src, i, lineBegin, Ok(Scanned(StringToken(Concat(parts), lineBegin, lineCurrent), p + 1)))
  {
    assert ClosesAt(src, i, p);
  }

  /** The loop runs out of graphemes, none of them a closing quote. */
  lemma StringUnclosed(src: seq<string>, i: nat, parts: seq<string>, lineBegin: nat, lineCurrent: nat)
    requires StringState(src, i, |src|, parts, lineBegin, lineCurrent)
    ensures StringAt(src, i, lineBegin, Err(UnterminatedString(lineCurrent)))
  {
    assert src[i..|src|] == src[i..];
  }

  lemma {:induction false} StringLoopAt(src: seq<string>, i: nat, p: nat, parts: seq<string>, lineBegin: nat, lineCurrent: nat)
    requires StringState(src, i, p, parts, lineBegin, lineCurrent)
    ensures StringAt(src, i, lineBegin, StringLoop(src, p, parts, lineBegin, lineCurrent))
    decreases |src| - p
  {
    if p == |src| {
      StringUnclosed(src, i, parts, lineBegin, lineCurrent);
    } else if src[p] == "\\" && p + 1 < |src| && src[p + 1] == "\"" {
      EscapeStep(src, i, p, parts, lineBegin, lineCurrent);
      StringLoopAt(src, i, p + 2, parts + ["\\\""], lineBegin, lineCurrent);
    } else if src[p] == "\"" {
      StringClosed(src, i, p, parts, lineBegin, lineCurrent);
    } else {
      ContentStep(src, i, p, parts, lineBegin, lineCurrent);
      StringLoopAt(src, i, p + 1, parts + [src[p]], lineBegin, if src[p] == "\n" then lineCurrent + 1 else lineCurrent);
    }
  }

  lemma StringLiteralAt(src: seq<string>, i: nat, line: nat)
    requires i <= |src|
    ensures StringAt(src, i, line, StringLiteral(src, i, line))
  {
    assert src[i..i] == [];
    StringLoopAt(src, i, i, [], line, line);
  }

  /*** The dispatch of `parse_token` ***/

  function TokenAt(src: seq<string>, i: nat, line: nat, parse: string -> Num): Result<Scanned, LexError>
  {
    if i >= |src| then
      Ok(Scanned(Token(Eof, "\0", None, Loc.Single(line)), i))
    else if src[i] == "\"" then
      StringLiteral(src, i + 1, line)
    else if IsDigit(src[i]) then
      NumberLiteral(src, i, line, parse)
    else if src[i] == "." then
      if i + 1 < |src| && IsDigit(src[i + 1]) then
        NumberLiteral(src, i, line, parse)
      else
        Ok(Scanned(Token(Dot, ".", None, Loc.Single(line)), i + 1))
    else if IsIdentStart(src[i]) then
      Ok(IdentifierToken(src, i, line))
    else if SimpleKind(src[i]).Some? then
      // the arms for whitespace, punctuation and the newline
      Ok(Scanned(Token(SimpleKind(src[i]).value, src[i], None, Loc.Single(line)), i + 1))
    else if OperatorKinds(src[i]).Some? then
      // the arms for `!`, `=`, `<`, `>` and `/`
      Ok(OperatorToken(src, i, line))
    else
      Err(UnknownToken(src[i], line))
  }

  /** The arms of the dispatch table do not overlap. */
  lemma DispatchDisjoint(g: string)
    ensures IsDigit(g) ==> g != "\"" && g != "."
    ensures IsIdentStart(g) ==> g != "\"" && g != "." && !IsDigit(g)
    ensures SimpleKind(g).Some? ==> g != "\"" && g != "." && !IsDigit(g) && !IsIdentStart(g)
    ensures OperatorKinds(g).Some? ==> g != "\"" && g != "." && !IsDigit(g) && !IsIdentStart(g) && SimpleKind(g).None?
  {
  }

  /** The tokens `parse_token` reads itself: the end marker, a lone point, identifiers, strings and numbers. */
  lemma TokenAtLiterals(src: seq<string>, i: nat, line: nat, parse: string -> Num)
    ensures var r := TokenAt(src, i, line, parse);
      && (i >= |src| ==> r == Ok(Scanned(Token(Eof, "\0", None, Loc.Single(line)), i)))
      && (i < |src| && src[i] == "\"" ==> StringAt(src, i + 1, line, r))
      && (NumberStart(src, i) ==> NumberAt(src, i, line, parse, r))
      && (i < |src| && src[i] == "." && !NumberStart(src, i) ==>
            r == Ok(Scanned(Token(Dot, ".", None, Loc.Single(line)), i + 1)))
      && (i < |src| && IsIdentStart(src[i]) ==> r.Ok? && IdentifierAt(src, i, line, r.value))
  {
    if i < |src| {
      DispatchDisjoint(src[i]);
      if src[i] == "\"" {
        StringLiteralAt(src, i + 1, line);
      } else if NumberStart(src, i) {
        NumberLiteralAt(src, i, line, parse);
      } else if IsIdentStart(src[i]) {
        IdentifierTokenAt(src, i, line);
      }
    }
  }

  /** The tokens of the fixed table: punctuation, whitespace, newline and operators; anything else fails. */
  lemma TokenAtTables(src: seq<string>, i: nat, line: nat, parse: string -> Num)
    requires i < |src|
    ensures var r := TokenAt(src, i, line, parse);
      && (SimpleKind(src[i]).Some? ==>
            r == Ok(Scanned(Token(SimpleKind(src[i]).value, src[i], None, Loc.Single(line)), i + 1)))
      && (OperatorKinds(src[i]).Some? ==> r == Ok(OperatorToken(src, i, line)))
      && (!Dispatched(src[i]) ==> r == Err(UnknownToken(src[i], line)))
  {
    DispatchDisjoint(src[i]);
  }

  /**
   * What the main loop of `scan` relies on: a token begins on the current
   * line, only a string spans lines, and the lines it spans (plus one for a
   * newline token) are newlines among the graphemes consumed.
   */
  ghost predicate LinesFit(src: seq<string>, i: nat, line: nat, r: Result<Scanned, LexError>)
    requires i < |src|
  {
    r.Ok? ==>
      && i < r.value.next <= |src|
      && r.value.token.kind != Eof
      && r.value.token.loc.lineBegin == line <= r.value.token.loc.lineEnd
      && (r.value.token.kind != TokenKind.String ==> r.value.token.loc.IsSingle())
      && r.value.token.loc.lineEnd + (if r.value.token.kind == NewLine then 1 else 0)
         <= line + Newlines(src[i..r.value.next])
  }

  lemma StringLines(src: seq<string>, i: nat, line: nat)
    requires i < |src| && src[i] == "\""
    ensures LinesFit(src, i, line, StringLiteral(src, i + 1, line))
  {
    StringLiteralAt(src, i + 1, line);
    StringFits(src, i, line, StringLiteral(src, i + 1, line));
  }

  lemma StringFits(src: seq<string>, i: nat, line: nat, r: Result<Scanned, LexError>)
    requires i < |src| && StringAt(src, i + 1, line, r)
    ensures LinesFit(src, i, line, r)
  {
    if r.Ok? {
      var next := r.value.next;
      var content := src[i + 1..next - 1];
      assert Newlines(content) <= Newlines(src[i..next]) by {
        NewlinesSplit(src, i, i + 1, next - 1);
        NewlinesSplit(src, i, next - 1, next);
      }
    }
  }

  lemma NumberLines(src: seq<string>, i: nat, line: nat, parse: string -> Num)
    requires NumberStart(src, i)
    ensures LinesFit(src, i, line, NumberLiteral(src, i, line, parse))
  {
    NumberLiteralAt(src, i, line, parse);
  }

  lemma IdentifierLines(src: seq<string>, i: nat, line: nat)
    requires i < |src|
    ensures LinesFit(src, i, line, Ok(IdentifierToken(src, i, line)))
  {
    IdentifierKindCases(Concat(src[i..IdentifierToken(src, i, line).next]));
  }

  lemma TableLines(src: seq<string>, i: nat, line: nat)
    requires i < |src|
    ensures SimpleKind(src[i]).Some? ==>
              LinesFit(src, i, line, Ok(Scanned(Token(SimpleKind(src[i]).value, src[i], None, Loc.Single(line)), i + 1)))
    ensures OperatorKinds(src[i]).Some? ==> LinesFit(src, i, line, Ok(OperatorToken(src, i, line)))
  {
    if src[i] == "\n" {
      assert src[i..i + 1] == [src[i]];
    }
  }

  lemma TokenAtLines(src: seq<string>, i: nat, line: nat, parse: string -> Num)
    requires i < |src|
    ensures LinesFit(src, i, line, TokenAt(src, i, line, parse))
  {
    var g := src[i];
    DispatchDisjoint(g);
    if g == "\"" {
      StringLines(src, i, line);
    } else if NumberStart(src, i) {
      NumberLines(src, i, line, parse);
    } else if IsIdentStart(g) {
      IdentifierLines(src, i, line);
    } else {
      TableLines(src, i, line);
    }
  }

  /*** Re-scanning a token ***/

  /**
   * The number loop only looks at graphemes it consumes, and at the one
   * right after one it consumes: run on the graphemes up to where it stops,
   * it stops at the same place with the same token.
   */
  lemma {:induction false} NumberLoopSlice(src: seq<string>, lo: nat, i: nat, parts: seq<string>, hasPoint: bool,
                                           line: nat, parse: string -> Num)
    requires lo <= i <= |src|
    ensures var r := NumberLoop(src, i, parts, hasPoint, line, parse);
      r.Ok? ==>
        && i <= r.value.next <= |src| && (i < |src| ==> i < r.value.next)
        && NumberLoop(src[lo..r.value.next], i - lo, parts, hasPoint, line, parse)
           == Ok(Scanned(r.value.token, r.value.next - lo))
    decreases |src| - i
  {
    if i < |src| && (IsDigit(src[i]) || src[i] == ".") {
      var r := NumberLoop(src, i, parts, hasPoint, line, parse);
      if r.Ok? {
        var goesOn := if IsDigit(src[i]) then i + 1 < |src| && (IsDigit(src[i + 1]) || src[i + 1] == ".")
                      else !hasPoint && i + 1 < |src| && IsDigit(src[i + 1]);
        if goesOn {
          NumberLoopSlice(src, lo, i + 1, parts + [src[i]], hasPoint || src[i] == ".", line, parse);
          var s := src[lo..r.value.next];
          assert s[i - lo] == src[i] && s[i + 1 - lo] == src[i + 1];
        } else {
          assert r.value.next == i + 1;
          var s := src[lo..r.value.next];
          assert s[i - lo] == src[i] && |s| == i + 1 - lo;
        }
      }
    }
  }

  /** The string loop likewise: its token is found again in the graphemes it consumed. */
  lemma {:induction false} StringLoopSlice(src: seq<string>, lo: nat, p: nat, parts: seq<string>, lineBegin: nat,
                                           lineCurrent: nat)
    requires lo <= p <= |src|
    ensures var r := StringLoop(src, p, parts, lineBegin, lineCurrent);
      r.Ok? ==>
        && p < r.value.next <= |src|
        && StringLoop(src[lo..r.value.next], p - lo, parts, lineBegin, lineCurrent)
           == Ok(Scanned(r.value.token, r.value.next - lo))
    decreases |src| - p
  {
    var r := StringLoop(src, p, parts, lineBegin, lineCurrent);
    if r.Ok? {
      if src[p] == "\\" && p + 1 < |src| && src[p + 1] == "\"" {
        StringLoopSlice(src, lo, p + 2, parts + ["\\\""], lineBegin, lineCurrent);
        var s := src[lo..r.value.next];
        assert s[p - lo] == src[p] && s[p + 1 - lo] == src[p + 1];
      } else if src[p] == "\"" {
        assert r.value.next == p + 1;
        var s := src[lo..r.value.next];
        assert s[p - lo] == src[p] && |s| == p + 1 - lo;
      } else {
        StringLoopSlice(src, lo, p + 1, parts + [src[p]], lineBegin,
                        if src[p] == "\n" then lineCurrent + 1 else lineCurrent);
        var s := src[lo..r.value.next];
        assert s[p - lo] == src[p] && s[p + 1 - lo] == src[p + 1];
      }
    }
  }

  lemma {:induction false} IdentifierEndSlice(src: seq<string>, lo: nat, k: nat)
    requires lo <= k <= |src|
    ensures IdentifierEnd(src[lo..IdentifierEnd(src, k)], k - lo) == IdentifierEnd(src, k) - lo
    decreases |src| - k
  {
    var s := src[lo..IdentifierEnd(src, k)];
    if k < |src| && IsIdentTrailing(src[k]) {
      IdentifierEndSlice(src, lo, k + 1);
      assert s[k - lo] == src[k];
    } else {
      assert |s| == k - lo;
    }
  }

  lemma RescanNumber(src: seq<string>, i: nat, line: nat, parse: string -> Num)
    requires NumberStart(src, i)
    ensures var r := NumberLiteral(src, i, line, parse);
      r.Ok? ==> i < r.value.next <= |src| && TokenAt(src[i..r.value.next], 0, line, parse) == Ok(Scanned(r.value.token, r.value.next - i))
    ensures var r := NumberLiteral(src, i, line, parse);
      LostNext(src, i) ==> TokenAt(src[i..i + 1], 0, line, parse) == Ok(Scanned(r.value.token, 1))
  {
    var r := NumberLiteral(src, i, line, parse);
    NumberLoopSlice(src, i, i + 1, [src[i]], src[i] == ".", line, parse);
    DispatchDisjoint(src[i]);
    if r.Ok? {
      var s := src[i..r.value.next];
      assert s[0] == src[i];
      assert src[i] == "." ==> s[1] == src[i + 1];
    }
    assert src[i..i + 1] == [src[i]];
  }

  lemma RescanString(src: seq<string>, i: nat, line: nat, parse: string -> Num)
    requires i < |src| && src[i] == "\""
    ensures var r := StringLiteral(src, i + 1, line);
      r.Ok? ==> i < r.value.next <= |src| && TokenAt(src[i..r.value.next], 0, line, parse) == Ok(Scanned(r.value.token, r.value.next - i))
  {
    var r := StringLiteral(src, i + 1, line);
    StringLoopSlice(src, i, i + 1, [], line, line);
    if r.Ok? {
      assert src[i..r.value.next][0] == src[i];
    }
  }

  lemma RescanIdentifier(src: seq<string>, i: nat, line: nat, parse: string -> Num)
    requires i < |src| && IsIdentStart(src[i])
    ensures var t := IdentifierToken(src, i, line);
      i < t.next <= |src| && TokenAt(src[i..t.next], 0, line, parse) == Ok(Scanned(t.token, t.next - i))
  {
    var e := IdentifierEnd(src, i + 1);
    var s := src[i..e];
    IdentifierEndSlice(src, i, i + 1);
    DispatchDisjoint(src[i]);
    assert s[0] == src[i] && s[0..e - i] == s;
  }

  /** The tokens of the fixed tables and a lone point: the next grapheme, if it was consumed, is the same. */
  lemma RescanTable(src: seq<string>, i: nat, line: nat, parse: string -> Num)
    requires i < |src| && src[i] != "\"" && !NumberStart(src, i) && !IsIdentStart(src[i])
    ensures var r := TokenAt(src, i, line, parse);
      r.Ok? ==> i < r.value.next <= |src| && TokenAt(src[i..r.value.next], 0, line, parse) == Ok(Scanned(r.value.token, r.value.next - i))
  {
    var r := TokenAt(src, i, line, parse);
    DispatchDisjoint(src[i]);
    TokenAtTables(src, i, line, parse);
    if r.Ok? {
      var s := src[i..r.value.next];
      assert s[0] == src[i];
      if OperatorKinds(src[i]).Some? && r.value.next == i + 2 {
        assert s[1] == src[i + 1];
      }
    }
  }

  /**
   * Scanning again exactly the graphemes a token was read from gives the
   * same token (kind, lexeme, literal and lines) and consumes them all. When
   * a number lost the grapheme after its first digit, that digit alone
   * scans to the same token.
   */
  lemma RescanToken(src: seq<string>, i: nat, line: nat, parse: string -> Num)
    requires i < |src|
    ensures var r := TokenAt(src, i, line, parse);
      r.Ok? ==> i < r.value.next <= |src| && TokenAt(src[i..r.value.next], 0, line, parse) == Ok(Scanned(r.value.token, r.value.next - i))
    ensures var r := TokenAt(src, i, line, parse);
      NumberStart(src, i) && LostNext(src, i) ==> TokenAt(src[i..i + 1], 0, line, parse) == Ok(Scanned(r.value.token, 1))
  {
    DispatchDisjoint(src[i]);
    if src[i] == "\"" {
      RescanString(src, i, line, parse);
    } else if NumberStart(src, i) {
      RescanNumber(src, i, line, parse);
    } else if IsIdentStart(src[i]) {
      RescanIdentifier(src, i, line, parse);
    } else {
      RescanTable(src, i, line, parse);
    }
  }

  /*** The scanner ***/

  /** Emitted tokens, each within lines 1 to `line`, in line order. */
  ghost predicate Stamped(tokens: seq<Token>, line: nat)
  {
    && (forall t :: t in tokens ==> Emitted(t.kind) && 1 <= t.loc.lineBegin <= t.loc.lineEnd <= line)
    && LinesOrdered(tokens)
  }

  /** Pushing a token that begins on the current line keeps the order; the line moves to its end. */
  lemma StampedPush(tokens: seq<Token>, tok: Token, line: nat)
    requires Stamped(tokens, line) && 1 <= line
    requires Emitted(tok.kind) && tok.loc.lineBegin == line <= tok.loc.lineEnd
    ensures Stamped(tokens + [tok], tok.loc.lineEnd)
  {
    forall a, b | 0 <= a < b < |tokens + [tok]|
      ensures (tokens + [tok])[a].loc.lineEnd <= (tokens + [tok])[b].loc.lineBegin
    {
      if b < |tokens| {
        assert (tokens + [tok])[a] == tokens[a] && (tokens + [tok])[b] == tokens[b];
      } else {
        assert tokens[a] in tokens;
      }
    }
  }

  /**
   * Where `consume_line` leaves the iterator standing at `i`: one grapheme
   * consumed when one is left, then up to the next newline, which stays.
   */
  function LineEnd(src: seq<string>, i: nat): (j: nat)
    requires i <= |src|
    ensures i < |src| ==> i < j <= |src|
    ensures i == |src| ==> j == i
    ensures j == |src| || src[j] == "\n"
    ensures forall k :: i < k < j ==> src[k] != "\n"
  {
    if i == |src| then i else NewlineFrom(src, i + 1)
  }

  /** The first newline at or after `k`, or the end. */
  function NewlineFrom(src: seq<string>, k: nat): (j: nat)
    requires k <= |src|
    ensures k <= j <= |src|
    ensures j == |src| || src[j] == "\n"
    ensures forall m :: k <= m < j ==> src[m] != "\n"
    decreases |src| - k
  {
    if k == |src| || src[k] == "\n" then k else NewlineFrom(src, k + 1)
  }

  /**
   * The loop of `scan` standing at `i` on line `line`, with `tokens` pushed
   * so far: the next token, then the `match` on it.
   */
  function ScanLoop(src: seq<string>, i: nat, line: nat, tokens: seq<Token>, parse: string -> Num)
    : Result<seq<Token>, LexError>
    requires i <= |src|
    decreases |src| - i
  {
    if i == |src| then
      Ok(tokens)
    else
      var scanned :- TokenAt(src, i, line, parse);
      TokenAtLines(src, i, line, parse);
      var tok := scanned.token;
      ScanLoop(src, PosAfter(src, scanned.next, tok), LineAfter(line, tok), TokensAfter(tokens, tok), parse)
  }

  /** The kinds the `match` of `scan` drops instead of pushing. */
  predicate Dropped(kind: TokenKind) {
    kind == Whitespace || kind == Comment || kind == NewLine
  }

  /**
   * Where the `match` of `scan` leaves the scanner after `tok`, read up to
   * `next`: a comment also drops the rest of its line.
   */
  function PosAfter(src: seq<string>, next: nat, tok: Token): (j: nat)
    requires next <= |src|
    ensures next <= j <= |src|
    ensures tok.kind != Comment ==> j == next
  {
    if tok.kind == Comment then LineEnd(src, next) else next
  }

  /**
   * The line the `match` of `scan` moves to after `tok`: the next one after a
   * newline, and after a pushed token spanning several lines its last one.
   */
  function LineAfter(line: nat, tok: Token): nat
    requires tok.loc.lineBegin <= tok.loc.lineEnd
  {
    if tok.kind == NewLine then line + 1
    else if Dropped(tok.kind) || tok.loc.IsSingle() then line
    else line + tok.loc.Offset()
  }

  /** The tokens after the `match` of `scan` on `tok`: pushed unless dropped. */
  function TokensAfter(tokens: seq<Token>, tok: Token): seq<Token>
  {
    if Dropped(tok.kind) then tokens else tokens + [tok]
  }

  /** What `scan` returns: the loop from the first grapheme, on line 1, with no tokens. */
  function ScanTokens(src: seq<string>, parse: string -> Num): Result<seq<Token>, LexError>
  {
    ScanLoop(src, 0, 1, [], parse)
  }

  /**
   * The loop keeps its tokens emitted, in line order, and within the lines
   * seen so far; the line never passes one plus the newlines consumed.
   */
  lemma {:induction false} ScanStamped(src: seq<string>, i: nat, line: nat, tokens: seq<Token>, parse: string -> Num)
    requires i <= |src| && 1 <= line <= 1 + Newlines(src[..i]) && Stamped(tokens, line)
    ensures var r := ScanLoop(src, i, line, tokens, parse); r.Ok? ==> Stamped(r.value, 1 + Newlines(src))
    decreases |src| - i
  {
    if i == |src| {
      assert src[..i] == src;
    } else {
      var r := TokenAt(src, i, line, parse);
      if r.Ok? {
        var tok, next := r.value.token, r.value.next;
        assert tok.loc.lineBegin == line <= tok.loc.lineEnd && tok.kind != Eof && i < next <= |src|
          && tok.loc.lineEnd + (if tok.kind == NewLine then 1 else 0) <= 1 + Newlines(src[..next]) by {
          TokenAtLines(src, i, line, parse);
          NewlinesSplit(src, 0, i, next);
          assert src[..next] == src[0..next] && src[..i] == src[0..i];
        }
        AfterStamped(src, next, line, tokens, tok);
        ScanStamped(src, PosAfter(src, next, tok), LineAfter(line, tok), TokensAfter(tokens, tok), parse);
      }
    }
  }

  /** One step of the loop keeps the tokens stamped within the lines consumed. */
  lemma AfterStamped(src: seq<string>, next: nat, line: nat, tokens: seq<Token>, tok: Token)
    requires next <= |src| && 1 <= line && Stamped(tokens, line)
    requires tok.loc.lineBegin == line <= tok.loc.lineEnd && tok.kind != Eof
    requires tok.loc.lineEnd + (if tok.kind == NewLine then 1 else 0) <= 1 + Newlines(src[..next])
    ensures 1 <= LineAfter(line, tok) <= 1 + Newlines(src[..PosAfter(src, next, tok)])
    ensures Stamped(TokensAfter(tokens, tok), LineAfter(line, tok))
  {
    if tok.kind == Comment {
      var j := LineEnd(src, next);
      NewlinesSplit(src, 0, next, j);
      assert src[..j] == src[0..j] && src[..next] == src[0..next];
    } else if !Dropped(tok.kind) {
      StampedPush(tokens, tok, line);
    }
  }

  /**
   * `consume_line` takes a grapheme before it looks for a newline, so when a
   * comment's `//` ends its line the newline after it is consumed, uncounted,
   * and the whole next line goes with it: here `x` is dropped and `y`, with
   * two newlines before it, is stamped with line 2.
   */
  lemma EmptyCommentSwallowsNextLine(parse: string -> Num)
    ensures var src := ["/", "/", "\n", "x", "\n", "y"];
      && Newlines(src[..5]) == 2
      && ScanTokens(src, parse) == Ok([Token(Identifier, "y", None, Loc.Single(2))])
  {
    var src := ["/", "/", "\n", "x", "\n", "y"];
    SwallowCount(src);
    SwallowComment(src, parse);
    SwallowNewline(src, parse);
    SwallowWord(src, parse);
  }

  lemma SwallowComment(src: seq<string>, parse: string -> Num)
    requires src == ["/", "/", "\n", "x", "\n", "y"]
    ensures ScanLoop(src, 0, 1, [], parse) == ScanLoop(src, 4, 1, [], parse)
  {
    var tok := Token(Comment, "//", None, Loc.Single(1));
    assert TokenAt(src, 0, 1, parse) == Ok(Scanned(tok, 2)) by {
      TokenAtTables(src, 0, 1, parse);
      assert OperatorKinds("/") == Some(OperatorEntry(Slash, Comment, "/"));
      assert "/" + "/" == "//";
    }
    assert PosAfter(src, 2, tok) == 4 by {
      assert NewlineFrom(src, 4) == 4;
      assert NewlineFrom(src, 3) == 4;
    }
  }

  lemma SwallowNewline(src: seq<string>, parse: string -> Num)
    requires src == ["/", "/", "\n", "x", "\n", "y"]
    ensures ScanLoop(src, 4, 1, [], parse) == ScanLoop(src, 5, 2, [], parse)
  {
    assert TokenAt(src, 4, 1, parse) == Ok(Scanned(Token(NewLine, "\n", None, Loc.Single(1)), 5));
  }

  lemma SwallowWord(src: seq<string>, parse: string -> Num)
    requires src == ["/", "/", "\n", "x", "\n", "y"]
    ensures ScanLoop(src, 5, 2, [], parse) == Ok([Token(Identifier, "y", None, Loc.Single(2))])
  {
    var tok := Token(Identifier, "y", None, Loc.Single(2));
    SwallowWordToken(src, parse);
    assert PosAfter(src, 6, tok) == 6 && LineAfter(2, tok) == 2 && TokensAfter([], tok) == [tok];
    assert ScanLoop(src, 6, 2, [tok], parse) == Ok([tok]);
  }

  lemma SwallowWordToken(src: seq<string>, parse: string -> Num)
    requires src == ["/", "/", "\n", "x", "\n", "y"]
    ensures TokenAt(src, 5, 2, parse) == Ok(Scanned(Token(Identifier, "y", None, Loc.Single(2)), 6))
  {
    assert TokenAt(src, 5, 2, parse) == Ok(IdentifierToken(src, 5, 2)) by {
      DispatchDisjoint(src[5]);
    }
    assert IdentifierEnd(src, 6) == 6;
    assert src[5..6] == ["y"] && ["y"][..0] == [];
    assert Concat(["y"]) == "y";
    assert KeywordKind("y") == None;
  }

  lemma SwallowCount(src: seq<string>)
    requires src == ["/", "/", "\n", "x", "\n", "y"]
    ensures Newlines(src[..5]) == 2
  {
    assert src[..1] == ["/"] && src[..1][..0] == [];
    assert src[..2][..1] == src[..1] && src[..3][..2] == src[..2];
    assert src[..4][..3] == src[..3] && src[..5][..4] == src[..4];
    assert Newlines(src[..1]) == 0;
    assert Newlines(src[..2]) == 0;
    assert Newlines(src[..3]) == 1;
    assert Newlines(src[..4]) == 1;
  }

  method Scan(src: seq<string>, parse: string -> Num) returns (r: Result<seq<Token>, LexError>)
    ensures r == ScanTokens(src, parse)
    ensures r.Ok? ==> forall t :: t in r.value ==> Emitted(t.kind)
    ensures r.Ok? ==> LinesOrdered(r.value)
    ensures r.Ok? ==> forall t :: t in r.value ==> 1 <= t.loc.lineBegin <= t.loc.lineEnd <= 1 + Newlines(src)
  {
    assert src[..0] == [];
    ScanStamped(src, 0, 1, [], parse);
    var currentLine: nat := 1;
    var i := 0;
    var tokens: seq<Token> := [];
    while i < |src|
      invariant i <= |src|
      invariant ScanLoop(src, i, currentLine, tokens, parse) == ScanTokens(src, parse)
      decreases |src| - i
    {
      ghost var line0, tokens0 := currentLine, tokens;
      var scanned :- ParseToken(src, i, currentLine, parse);
      TokenAtLines(src, i, currentLine, parse);
      var tok := scanned.token;
      i := scanned.next;
      if tok.kind == Whitespace {
      } else if tok.kind == Comment {
        i := ConsumeLine(src, i);
      } else if tok.kind == NewLine {
        currentLine := currentLine + 1;
      } else {
        if !tok.loc.IsSingle() {
          currentLine := currentLine + tok.loc.Offset();
        }
        tokens := tokens + [tok];
      }
      assert i == PosAfter(src, scanned.next, tok) && currentLine == LineAfter(line0, tok)
        && tokens == TokensAfter(tokens0, tok);
    }
    return Ok(tokens);
  }

  method ParseToken(src: seq<string>, i: nat, line: nat, parse: string -> Num) returns (r: Result<Scanned, LexError>)
    ensures r == TokenAt(src, i, line, parse)
  {
    if i >= |src| {
      return Ok(Scanned(Token(Eof, "\0", None, Loc.Single(line)), i));
    }
    var g := src[i];
    if g == "\"" {
      r := ParseStrLiteral(src, i + 1, line);
    } else if IsDigit(g) {
      r := ParseNumberLiteral(src, i, line, parse);
    } else if g == "." {
      if i + 1 < |src| && IsDigit(src[i + 1]) {
        r := ParseNumberLiteral(src, i, line, parse);
      } else {
        r := Ok(Scanned(Token(Dot, g, None, Loc.Single(line)), i + 1));
      }
    } else if IsIdentStart(g) {
      var s := ParseIdentifier(src, i, line);
      r := Ok(s);
    } else if SimpleKind(g).Some? {
      r := Ok(Scanned(Token(SimpleKind(g).value, g, None, Loc.Single(line)), i + 1));
    } else if OperatorKinds(g).Some? {
      r := Ok(OperatorToken(src, i, line));
    } else {
      r := Err(UnknownToken(g, line));
    }
  }

  method ParseIdentifier(src: seq<string>, start: nat, line: nat) returns (s: Scanned)
    requires start < |src|
    ensures s == IdentifierToken(src, start, line)
    ensures IdentifierAt(src, start, line, s)
  {
    var parts := [src[start]];
    var i := start + 1;
    while i < |src| && IsIdentTrailing(src[i])
      invariant start < i <= |src|
      invariant parts == src[start..i]
      invariant IdentifierEnd(src, i) == IdentifierEnd(src, start + 1)
    {
      parts := parts + [src[i]];
      i := i + 1;
    }
    var lexeme := Concat(parts);
    s := Scanned(Token(IdentifierKind(lexeme), lexeme, None, Loc.Single(line)), i);
    IdentifierTokenAt(src, start, line);
  }

  method ParseNumberLiteral(src: seq<string>, start: nat, line: nat, parse: string -> Num)
    returns (r: Result<Scanned, LexError>)
    requires NumberStart(src, start)
    ensures r == NumberLiteral(src, start, line, parse)
    ensures NumberAt(src, start, line, parse, r)
  {
    NumberLiteralAt(src, start, line, parse);
    var parts := [src[start]];
    var hasPoint := src[start] == ".";
    var i := start + 1;
    while true
      invariant start < i <= |src|
      invariant NumberLoop(src, i, parts, hasPoint, line, parse) == NumberLiteral(src, start, line, parse)
      decreases |src| - i
    {
      if i == |src| {
        // `next()` returns None: the `_ => break` arm
        return Ok(Scanned(NumberToken(Concat(parts), line, parse), i));
      }
      var g1 := src[i];
      if IsDigit(g1) {
        parts := parts + [g1];
        i := i + 1;
        if i == |src| || (!IsDigit(src[i]) && src[i] != ".") {
          return Ok(Scanned(NumberToken(Concat(parts), line, parse), i));
        }
      } else if g1 == "." {
        if hasPoint {
          return Err(AdditionalPoint(line));
        }
        hasPoint := true;
        parts := parts + [g1];
        i := i + 1;
        if i == |src| || !IsDigit(src[i]) {
          return Ok(Scanned(NumberToken(Concat(parts), line, parse), i));
        }
      } else {
        // the `_ => break` arm: `next()` has already consumed g1
        return Ok(Scanned(NumberToken(Concat(parts), line, parse), i + 1));
      }
    }
  }

  method ParseStrLiteral(src: seq<string>, i: nat, lineBegin: nat) returns (r: Result<Scanned, LexError>)
    requires i <= |src|
    ensures r == StringLiteral(src, i, lineBegin)
    ensures StringAt(src, i, lineBegin, r)
  {
    StringLiteralAt(src, i, lineBegin);
    var lineCurrent := lineBegin;
    var parts: seq<string> := [];
    var p := i;
    while true
      invariant i <= p <= |src|
      invariant StringLoop(src, p, parts, lineBegin, lineCurrent) == StringLiteral(src, i, lineBegin)
      decreases |src| - p
    {
      if p == |src| {
        return Err(UnterminatedString(lineCurrent));
      }
      if src[p] == "\\" && p + 1 < |src| && src[p + 1] == "\"" {
        // an escaped quote stays in the content as backslash-quote
        parts := parts + ["\\\""];
        p := p + 2;
      } else if src[p] == "\n" {
        lineCurrent := lineCurrent + 1;
        parts := parts + [src[p]];
        p := p + 1;
      } else if src[p] == "\"" {
        break;
      } else {
        parts := parts + [src[p]];
        p := p + 1;
      }
    }
    r := Ok(Scanned(StringToken(Concat(parts), lineBegin, lineCurrent), p + 1));
  }

  /** The scanner drops the rest of a comment's line; the newline ending it stays unconsumed. */
  method ConsumeLine(src: seq<string>, i: nat) returns (j: nat)
    requires i <= |src|
    ensures j == LineEnd(src, i)
  {
    j := i;
    while j < |src|
      invariant i <= j <= |src|
      invariant i < j ==> NewlineFrom(src, j) == LineEnd(src, i)
      invariant i < j < |src| ==> src[j] != "\n"
      decreases |src| - j
    {
      j := j + 1;
      if j < |src| && src[j] == "\n" {
        break;
      }
    }
  }
}

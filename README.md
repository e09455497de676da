# rlox front end, modelled in Dafny

This project models the three stages of the rlox interpreter front end
(ggabriel96/rlox, written in Rust) and proves what each stage promises.

- **Scanner** (`Scanner` in src/lexing.rs). It walks a source that is
  already split into graphemes (`seq<string>`) and turns it into tokens. It
  drops whitespace, comments and newlines, and stamps each token with its
  lines.
- **Parser** (src/parsing.rs). A recursive-descent, precedence-climbing
  parser. It turns an Eof-terminated token sequence into `print` statements
  and expression statements, or into the first syntax error.
- **Evaluator** (src/interpreter.rs). `execute` evaluates a tree under the
  dynamic typing rules of `+`, the numeric operators, equality and
  truthiness. `stringify` formats a value.
- **Printer** (src/expr.rs). Renders a tree in parenthesised prefix form.

Modules and files:

| file | module | models |
|---|---|---|
| wrappers.dfy | Wrappers | `Option` and `Result`, with `:-` propagation standing for Rust's `?` |
| text.dfy | Text | `Vec<String>::concat` |
| lexing.dfy | Lexing | `TokenKind`, `Loc`, `Token`, `LiteralValue`, the keyword table and the grapheme classes |
| scanner.dfy | Scanner | `Scanner::scan` and its `parse_*` helpers and `consume_line` |
| ast.dfy | Ast | `Expr`, `Stmt`, `Display::fmt` and `parenthesize` |
| parsing.dfy | Parsing | the parser: one method per Rust function, each proved equal to a grammar function |
| parsing_proofs.dfy | ParsingProofs | the parser's properties: tree shape, round trip, error cases, examples |
| interpreter.dfy | Interpreter | `execute`, `stringify` and their helpers, with their typing rules |
| pipeline.dfy | Pipeline | facts that cross stages |

How the Rust code is represented:

- **Iterators become positions.** Rust shares one `Peekable` iterator
  between a caller and its helpers. Each Dafny method instead takes the
  position where the iterator stands and returns the position where it
  leaves it. This holds for both the scanner (`Scanned(token, next)`) and
  the parser (`Parsed(value, next)`).
- **Loops are methods.** The loops of `scan`, the `parse_*` helpers,
  `consume_line`, `parse` and the four binary levels are methods with
  `while` loops; the loop of `parenthesize` is a `for` loop. Each is proved
  equal to a function: `ScanTokens` (`scan`), `IdentifierToken`,
  `NumberLiteral` and `StringLiteral` (the `parse_*` helpers), `LineEnd`
  (`consume_line`), `ParseProgramFrom` (`parse`), `ParseLevel` and
  `ParseRest` (the levels) and `Parenthesized` (`parenthesize`). The
  dispatch `parse_token` is proved equal to `TokenAt`. The properties are
  proved about those functions.
- **Shaped trees.** Binary level `level` builds a left-associative chain of
  its own operators over operands of the next level; `Shaped(e, level)`
  describes those trees. Every tree the parser returns is Shaped. Writing a
  Shaped tree back as tokens (`Unparse`) and parsing those tokens returns
  the same tree. So the Shaped trees are exactly the parser's outputs.
- **Floating point is a parameter.** The number payload `Num` is opaque
  (`F64(bits: bv64)`). Four things are parameters: `str::parse::<f64>`
  (`parse`), `f64::to_string` (`showNumber`), the arithmetic and the
  comparisons (the `FloatOps` record).

Where the code and its description differ, the model follows the code:

- `scan` emits no Eof token, because its loop stops when the graphemes run
  out (src/lexing.rs:105). The parser needs an Eof-terminated input, and
  `EofTerminated` is its precondition.
- The `true` and `false` keywords come out of the identifier path with no
  literal (src/lexing.rs:146-151). `primary` copies that absent literal, so
  both keywords parse to a nil Literal and evaluate to nil.
  `Pipeline.KeywordsEvaluateToNil` states this end to end.
- An escaped quote stays in a string's content as backslash-quote; it is
  not translated into a quote (src/lexing.rs:211-214).
- When a number's first digit is followed by something that is neither a
  digit nor a point, that grapheme is consumed and lost
  (src/lexing.rs:163, 180). `1+2` scans as the two numbers `1` and `2`.
  `NumberAt` states this case (`LostNext`). The lost grapheme may be a
  newline, which is then not counted, so a token's line can be lower than
  the number of newlines before it suggests; `Scanner.Scan` bounds the
  lines from above for that reason.
- A comment is meant to discard the rest of its line, but a comment whose
  `//` ends its line discards the next line too. The `/` arm consumes both
  graphemes of `//` (src/lexing.rs:405-413), and `consume_line` takes one
  grapheme before it looks for a newline (src/lexing.rs:427-429). That
  grapheme is then the newline itself, which is neither kept nor counted, so
  every later line number is one too low.
  `Scanner.EmptyCommentSwallowsNextLine` shows this on `//`, newline, `x`,
  newline, `y`: `x` is dropped and `y` is stamped with line 2.
- Scanning failures are `panic!`s in the code. Here they are the error
  results `AdditionalPoint`, `UnterminatedString` and `UnknownToken`.

## Model

| member | source | states |
|---|---|---|
| Lexing.SingleHasNoOffset | src/lexing.rs:67-80 | `Loc::single(n)` is single, begins at line n and has offset 0 |
| Lexing.SingleIffNoOffset | src/lexing.rs:67-73 | a loc is single exactly when its offset is 0; begin plus offset is the end |
| Lexing.KeywordTable | src/lexing.rs:431-451 | `get_keyword_kind` finds a kind exactly for the 16 reserved words, and that kind's spelling is the word |
| Lexing.KeywordLexemeRoundTrip | src/lexing.rs:431-451 | every keyword kind is found again from its spelling, which is a reserved word |
| Lexing.IdentifierKindCases | src/lexing.rs:144-145 | an identifier's kind is Identifier exactly when its text is no keyword; otherwise it is a keyword kind |
| Scanner.DispatchDisjoint | src/lexing.rs:241-422 | the arms of `parse_token` (quote, digit, point, ident start, fixed table, operators) do not overlap |
| Scanner.OperatorTokenCases | src/lexing.rs:333-422 | `!`, `=`, `<`, `>` followed by `=`, and `/` followed by `/`, make the two-grapheme kind and consume both; otherwise the one-grapheme kind, consuming one |
| Scanner.TokenAtLiterals | src/lexing.rs:238-266 | at the end, the Eof token; a quote starts a string as `StringAt` says; a number start gives what `NumberAt` says; a point with no digit after it is a Dot; an ident start gives what `IdentifierAt` says |
| Scanner.TokenAtTables | src/lexing.rs:267-423 | the fixed one-grapheme table, the operator table, and `UnknownToken` for any grapheme no arm accepts |
| Scanner.IdentifierTokenAt | src/lexing.rs:130-152 | the lexeme is the first grapheme plus every following ident-trailing grapheme; the first other grapheme is not consumed; the kind is the keyword kind of the lexeme or Identifier; no literal |
| Scanner.NumberLiteralAt | src/lexing.rs:154-194 | a number is a run of digits and points with at most one point, ending where the loop breaks; a second point in the run is the `AdditionalPoint` failure; a first digit followed by a grapheme that is neither a digit nor a point loses that grapheme |
| Scanner.StringLiteralAt | src/lexing.rs:196-236 | the content runs verbatim to the first quote not preceded by a backslash; lexeme is quote + content + quote; the literal is the content; the loc spans one line per newline in the content; no closing quote is `UnterminatedString` |
| Scanner.TokenAtLines | src/lexing.rs:231-247 | every token except a string is single-line; it begins on the current line; its line span is at most the newlines consumed |
| Scanner.StampedPush | src/lexing.rs:119-124 | pushing a token that begins on the current line keeps the emitted tokens in line order |
| Scanner.ScanStamped | src/lexing.rs:104-125 | from any point of the loop whose line is at most one plus the newlines consumed, the tokens it returns are emitted kinds, in line order, within one plus the newlines of the whole source |
| Scanner.AfterStamped | src/lexing.rs:105-124 | one `match` arm keeps the pushed tokens stamped and the line within one plus the newlines consumed, a comment's rest of line included |
| Scanner.Scan | src/lexing.rs:101-128 | equals `ScanTokens`, the loop that drops whitespace, drops a comment and what `consume_line` skips after it (the rest of its line, or, when the comment ends its line, that newline and the whole next line), counts newlines and pushes every other token, moving the line on by a multi-line token's offset; so the result has no Whitespace, Comment, NewLine or Eof token, its tokens are in line order and every line lies between 1 and one plus the number of newlines |
| Scanner.ParseToken | src/lexing.rs:238-425 | equals `TokenAt`, the dispatch whose cases the lemmas above state |
| Scanner.ParseIdentifier | src/lexing.rs:130-152 | the loop's token satisfies `IdentifierAt` |
| Scanner.ParseNumberLiteral | src/lexing.rs:154-194 | the loop's result satisfies `NumberAt` |
| Scanner.ParseStrLiteral | src/lexing.rs:196-236 | the loop's result satisfies `StringAt` |
| Scanner.LineEnd | src/lexing.rs:427-429 | where `consume_line` stops: it always consumes the first grapheme when one is left, even a newline, and then stops at the end or at the first newline after that grapheme, which is not consumed |
| Scanner.EmptyCommentSwallowsNextLine | src/lexing.rs:405-429 | a `//` directly followed by a newline drops that newline uncounted and the whole next line with it, so the next token's line is one too low |
| Scanner.NumberLoopSlice | src/lexing.rs:162-186 | the number loop, run on exactly the graphemes it consumed, ends at the same place with the same token |
| Scanner.StringLoopSlice | src/lexing.rs:203-225 | the string loop, run on exactly the graphemes it consumed, ends at the same place with the same token |
| Scanner.IdentifierEndSlice | src/lexing.rs:137-142 | the identifier loop, run on exactly the graphemes it consumed, stops at the same place |
| Scanner.RescanToken | src/lexing.rs:238-425 | scanning again exactly the graphemes a token was read from gives the same token (kind, lexeme, literal, lines) and consumes them all; a number that lost the grapheme after its first digit is found again from that digit alone |
| Scanner.NewlineFrom | src/lexing.rs:428 | the first newline at or after a position, or the end |
| Scanner.ConsumeLine | src/lexing.rs:427-429 | the loop stops where `LineEnd` says |
| Ast.Parenthesize | src/expr.rs:43-51 | the buffer loop gives "(" + name, then " " + show(e) for each operand in order, then ")" |
| Ast.ShowBinary | src/expr.rs:25 | a Binary node shows as "(" + op lexeme + " " + left + " " + right + ")" |
| Ast.ShowUnary | src/expr.rs:37 | a Unary node shows as "(" + op lexeme + " " + right + ")" |
| Ast.ShowGrouping | src/expr.rs:26 | a Grouping shows as "(group " + inner + ")" |
| Ast.ShowLiteral | src/expr.rs:27-36 | nil shows as "nil", booleans as "true"/"false", numbers through `showNumber`, strings as their raw content |
| Parsing.ParseLevel | src/parsing.rs:52-122 | a binary level that succeeds consumes at least one token and stops before the end |
| Parsing.ParseStatement | src/parsing.rs:16-30 | a statement that succeeds consumes at least one token, so the loop of `parse` terminates |
| Parsing.ExpectKind | src/parsing.rs:174-200 | succeeds exactly on a token of the expected kind, consuming it; otherwise fails with the given error at that token |
| Parsing.Parse | src/parsing.rs:13-34 | the statement loop's result equals `ParseProgram` |
| Parsing.ExpressionStatement | src/parsing.rs:36-40 | an expression and its `;` as an expression statement, equal to `ParseStatementBody` |
| Parsing.PrintStatement | src/parsing.rs:42-46 | the same as a print statement |
| Parsing.Expression | src/parsing.rs:48-50 | equals level 0 of `ParseLevel` |
| Parsing.Equality | src/parsing.rs:52-68 | the `while` loop over `!=` and `==` equals level 0 of `ParseLevel` |
| Parsing.Comparison | src/parsing.rs:70-86 | the loop over `>`, `>=`, `<`, `<=` equals level 1 |
| Parsing.Term | src/parsing.rs:88-104 | the loop over `-` and `+` equals level 2 |
| Parsing.Factor | src/parsing.rs:106-122 | the loop over `/` and `*` equals level 3 |
| Parsing.Unary | src/parsing.rs:124-139 | the right recursion over `!` and `-` equals `ParseUnary` |
| Parsing.Primary | src/parsing.rs:141-172 | literal, grouping and the two start errors, equal to `ParsePrimary` |
| Parsing.ExpectClosingParen | src/parsing.rs:174-186 | equals `ExpectKind` for `)` and ExpectedClosingParen |
| Parsing.ExpectSemicolon | src/parsing.rs:188-200 | equals `ExpectKind` for `;` and ExpectedSemicolon |
| ParsingProofs.LevelOfOperators | src/parsing.rs:54-111 | the four levels' operator sets are disjoint, and `LevelOf` names the level an operator belongs to |
| ParsingProofs.LevelShaped | src/parsing.rs:52-122 | every tree a binary level returns is Shaped: left-associative over its own operators, operands from the next level |
| ParsingProofs.RestShaped | src/parsing.rs:54-66 | each round of a level's loop keeps `left` Shaped, the new node's operator being of that level |
| ParsingProofs.UnaryShaped | src/parsing.rs:124-139 | `unary` returns prefix operators `!`/`-` over a primary |
| ParsingProofs.PrimaryShaped | src/parsing.rs:141-161 | `primary` returns a literal or a grouping of a Shaped expression |
| ParsingProofs.ShapedLower | src/parsing.rs:48-122 | a tree of a higher level is also a tree of every lower level |
| ParsingProofs.LevelUnparse | src/parsing.rs:52-122 | a Shaped tree followed by a token that ends its level parses back to itself, consuming exactly its tokens |
| ParsingProofs.ExprRoundTrip | src/parsing.rs:48-172 | round trip: a Shaped tree's tokens followed by Eof parse back to the tree |
| ParsingProofs.ProgramRoundTrip | src/parsing.rs:13-46 | round trip: Shaped statements' tokens followed by Eof parse back to the statements |
| ParsingProofs.StatementUnparse | src/parsing.rs:16-46 | a laid-out statement parses to itself: a leading `print` gives a Print statement, anything else an expression statement |
| ParsingProofs.UnparseRuns | src/parsing.rs:16-32 | laid-out statements are pushed one by one by the loop of `parse` |
| ParsingProofs.ProgramRuns | src/parsing.rs:16-32 | the loop of `parse` pushes the statements that parse one after another, in order |
| ParsingProofs.StopsAtEof | src/parsing.rs:16-21 | parsing stops at the first Eof at a statement start; the statements before it are the result |
| ParsingProofs.FirstErrorAborts | src/parsing.rs:31 | the first statement that fails decides the result: its error and no statements |
| ParsingProofs.ProgramShaped | src/parsing.rs:13-34 | every statement `parse` returns holds a Shaped expression |
| ParsingProofs.StatementShaped | src/parsing.rs:22-46 | a parsed statement holds a Shaped expression |
| ParsingProofs.StatementKind | src/parsing.rs:22-29 | a statement is a Print statement exactly when it starts with `print` |
| ParsingProofs.MissingSemicolon | src/parsing.rs:36-46 | for any tokens, a statement fails with ExpectedSemicolon exactly when its expression parses and is followed by a token other than `;`, and the error carries that token |
| ParsingProofs.MissingClosingParen | src/parsing.rs:155-186 | for any tokens, `(` and an expression that parses fail with ExpectedClosingParen at the next token unless it is `)`, which makes a Grouping; an error inside the parentheses is the result |
| ParsingProofs.LevelErrors | src/parsing.rs:48-172 | no error of an expression level is ExpectedSemicolon |
| ParsingProofs.StartErrors | src/parsing.rs:162-169 | an expression cannot start with a token other than `!`, `-`, `(` or a literal: Eof gives UnexpectedEof, anything else UnexpectedToken, carrying the token |
| ParsingProofs.LiteralLevel | src/parsing.rs:143-154 | a literal token parses at any level to a Literal with that token's literal value |
| ParsingProofs.TermOverFactor | src/parsing.rs:88-122 | precedence: `1 + 2 * 3` parses as `1 + (2 * 3)` |
| ParsingProofs.LeftAssociative | src/parsing.rs:88-104 | left associativity: `a - b - c` parses as `(a - b) - c` |
| ParsingProofs.UnaryNests | src/parsing.rs:124-139 | right recursion: `!!x` parses as `!(!x)` |
| Interpreter.IsTruthy | src/interpreter.rs:133-139 | false exactly for nil and `Bool(false)` |
| Interpreter.IsEqual | src/interpreter.rs:125-131 | nil equals nil, nil never equals a present value, and present values compare as literals |
| Interpreter.ExpectNumber | src/interpreter.rs:101-109 | succeeds exactly on a Number, giving its payload; otherwise OperandNotNumber at the operator's loc |
| Interpreter.ExpectNumbers | src/interpreter.rs:111-123 | succeeds exactly on two Numbers, giving both payloads; otherwise OperandsNotNumbers at the operator's loc |
| Interpreter.ApplyBinary | src/interpreter.rs:15-65 | a binary operator on evaluated operands gives a present value or an error at the operator's loc |
| Interpreter.ApplyUnary | src/interpreter.rs:71-87 | a unary operator on an evaluated operand gives a present value or an error at the operator's loc |
| Interpreter.Execute | src/interpreter.rs:10-90 | a Binary or Unary node that evaluates gives a present value, never nil |
| Interpreter.Stringify | src/interpreter.rs:92-99 | nil prints as "nil", a string as its content, a boolean as "true"/"false" |
| Interpreter.LiteralAndGrouping | src/interpreter.rs:67-68 | a Literal evaluates to its value unchanged; a Grouping to what its inner tree gives |
| Interpreter.ErrorsPropagate | src/interpreter.rs:12-14 | the left operand is evaluated first and its error wins; the right operand's error is returned unchanged, for Binary and Unary nodes |
| Interpreter.EqualityNeverFails | src/interpreter.rs:16-17 | once both operands evaluate, `==` and `!=` succeed, and `!=` is the negation of `==` |
| Interpreter.NotNegatesTruthiness | src/interpreter.rs:79-82 | `!` never fails on an evaluated operand and gives `Bool(!is_truthy(v))` |
| Interpreter.NegationNeedsNumber | src/interpreter.rs:72-78 | unary `-` negates a Number and fails with OperandNotNumber at the operator on anything else |
| Interpreter.NumericNeedsNumbers | src/interpreter.rs:18-37 | the numeric operators succeed exactly on two Numbers, comparisons giving a Bool and arithmetic a Number; otherwise OperandsNotNumbers at the operator |
| Interpreter.PlusCases | src/interpreter.rs:38-52 | `+` adds two Numbers, concatenates two Strings, and fails with OperandsNotAddable at the operator on any other pair |
| Interpreter.PlusRejectsNil | src/interpreter.rs:38-52 | `+` with a nil operand fails |
| Interpreter.InvalidOperators | src/interpreter.rs:61-87 | a binary or unary operator kind outside the tables fails at that operator |
| Interpreter.StringifyShowsLiteral | src/interpreter.rs:92-99 | `stringify` prints a value as the tree display prints the literal holding it |
| Pipeline.ShapedEvaluates | src/interpreter.rs:15-65 | a tree of the parser's shape never fails with an "invalid operator" error |
| Pipeline.ParsedEvaluates | src/parsing.rs:13-34 | every statement `parse` returns evaluates without an "invalid operator" error |
| Pipeline.ScanKeyword | src/lexing.rs:144-151 | the words `true` and `false` scan to one token of kind True or False with no literal |
| Pipeline.KeywordsEvaluateToNil | src/lexing.rs:146-151 | `true` and `false` scan with no literal, parse to a nil Literal, evaluate to nil and print as "nil" |

## Left out

- Grapheme segmentation by `unicode_segmentation` (src/lexing.rs:103): the source is taken already split into graphemes.
- Floating point: `str::parse::<f64>`, the arithmetic and comparisons of `execute`, and `f64::to_string` are parameters. No claim is made about their results, NaN or division by zero.
- The derived equality of `LiteralValue` compares numbers with the `eq` parameter, as `f64` equality is not modelled.
- `Box<dyn Any>` literals and their downcasting: a literal is an `Option<LiteralValue>`.
- The text of `panic!`, `format!` and `ParsingError` messages: errors are distinguished by kind and carry the token or loc.
- The parser's panics on a token stream with no Eof (src/parsing.rs:170, 184, 198): `EofTerminated` is a precondition instead.
- `usize` overflow of the line counter: lines are unbounded naturals.
- Token cloning: tokens are values.
- The `Scanner` struct, which only holds the source: its methods take the grapheme sequence as a parameter.
- src/main.rs: command-line parsing and printing.
- Interpreter.Execute: its own contract states only that Binary and Unary nodes give a present value; the other rules are the lemmas after it.

# useless-statements, modelled in Dafny

useless-statements is a small language: a program is a list of statements,
each either the empty statement `;` or an arithmetic expression over decimal
literals with `+ - * / %` and parentheses. The repository holds a scanner and
several parsers for it, written as experiments in parser design. This project
models their core and proves what each promises.

- **Tokens and the lexers.** `Lexing` is the scanner of `src/Lexing/Lexer.cs`.
  Its token rules are pure functions of the input. The class `Lexing.Lexer`
  keeps the source's cursor fields and error queue, and its `Lex` loop is
  proved to produce exactly what those functions describe. `LexingProperties`
  proves what the output means: tokens spell the input, their extents come in
  order without overlap, one `Eof` ends the output, and every queued error
  explains a rejected character. `LegacyLexing` is the older scanner of
  `src/csharp/Lexing/Lexer.cs`, with the same token rules, messages in place
  of indexed errors and a different final `Eof`.
- **The predictive combinator engine** (`src/Parsing/DataOriented/`). A
  grammar is a table of steps (`Terminal`, `Altern`, `Concat` with two or
  three parts, `Repeat`) referring to each other by index, in construction
  order. The one exception is the middle of a three-part concatenation, bound
  later by `SetStep2`, which may close a cycle. `Steps.Parse` is the meaning
  of running a step. Every result reads fewer tokens than the span holds,
  reads something when the step is productive, and reports only accurate
  errors. `StepRunner` runs the steps with the source's loops and local
  accumulators, and proves that this equals `Steps.Parse`. `GrammarBuilding`
  is the table under construction, with each constructor's `Debug.Assert`s as
  preconditions. `Results` and `Errors` model `Result.cs` and
  `ParserError.cs`.
- **The arithmetic grammar** (`src/Parsing/DataOrientedParser.cs`).
  `DataOrientedGrammar` is the table the constructor builds.
  `DataOrientedParsing.DataOrientedParser` builds it step by step through the
  builder, binds the braced group's middle and reports the program's errors in
  order. `DataOrientedRuns` proves that the program step always succeeds, and
  proves the result on "(5 4)" with its two errors.
- **The cursor parsers.**
  - `Descent` states once the recursive-descent ladder shared by the helpful
    and primitive parsers: statement, sum, product, primary. A `Dialect` names
    where they differ, namely what a group does when `)` is missing and whether
    `Eof` ends the input.
  - A class per parser keeps the source's cursor and report fields, and its
    methods are proved against `Descent`:
    - `HelpfulParsing` and `PrimitiveParsing` model `src/Parsing/`;
    - `LegacyHelpfulParsing` and `LegacyPrimitiveParsing` model
      `src/csharp/Parsing/`.
  - `DescentPrinting` proves a round trip: a printed expression parses back
    to itself.
  - `DescentOrder` proves that failure points come in token order.
  - `Rails` and `RailsProperties` model the railway grammar. It has no
    operators: its expressions are numbers in matching parentheses.
  - `RailwayParsing` models `src/Parsing/RailwayParser.cs`, and
    `LegacyDataOriented` models `src/csharp/Parsing/DataOrientedParser.cs`.
    Both implement the railway grammar.
  - `ParserExamples` proves the test inputs: `1 +`, `1 + ;`, `(1 + 2`,
    `123 45.67`, precedence and associativity.

Decimal literals are `real`. `int` counters are unbounded, since no input a
C# list can hold makes them wrap. Callbacks (`Action<ParserError>`, the
`ErrorReporter` delegate, `Program.Error`) are modelled as a sequence field
that each report appends to.

## Model

| member | source | states |
|---|---|---|
| Results.SuppliedErrors | src/Parsing/DataOriented/Result.cs:20 | a result built without an error list has no errors; with one, exactly those |
| Results.Fail | src/Parsing/DataOriented/Result.cs:9-10 | `Result.Fail` has no value, the given read count and the supplied errors |
| Results.Ok | src/Parsing/DataOriented/Result.cs:12-13 | `Result.Ok` holds the given value, read count and supplied errors |
| Results.BubbleAt | src/Parsing/DataOriented/Result.cs:23 | bubbling keeps each error's subject and expected set and adds `i` to its index, in the same order |
| Results.Bubble | src/Parsing/DataOriented/Result.cs:23 | `BubbleErrors` gives one error for each error it is handed, in order |
| Results.BubbleZero | src/Parsing/DataOriented/Result.cs:23 | bubbling by 0 changes nothing |
| Results.BubbleCompose | src/Parsing/DataOriented/Result.cs:23 | bubbling by `a` then by `b` is bubbling by `a + b` |
| Results.BubbleAppend | src/Parsing/DataOriented/Result.cs:23 | bubbling distributes over concatenation of error lists |
| Errors.ErrorEqualsIsStructural | src/ParserError.cs:5-8 | the custom `Equals` (same index, same subject, `SetEquals` on expected) holds exactly when the two errors are equal |
| Errors.ErrorEqualsEquivalence | src/ParserError.cs:7 | the custom `Equals` is reflexive, symmetric and transitive |
| Errors.ErrorEqualsIgnoresSetConstruction | src/ParserError.cs:7 | errors whose expected sets are built differently but hold the same types are equal |
| Errors.LexerErrorEquality | src/ParserError.cs:11 | two lexer errors are equal exactly when index and message are |
| Extensions.AllTokenTypesComplete | src/Extensions.cs:11 | every token type is in `allTokenTypes` |
| Extensions.AllTokenTypesCount | src/Extensions.cs:11 | there are exactly ten token types |
| Extensions.Complement | src/Extensions.cs:13 | a type is in the complement exactly when it is not in the set |
| Extensions.ComplementPartitions | src/Extensions.cs:13 | a set and its complement are disjoint and together hold every token type |
| Extensions.ComplementOfNothingAndEverything | src/Extensions.cs:13 | the complement of the empty set is every type, and of every type is empty |
| Extensions.ComplementInvolutive | src/Extensions.cs:13 | the complement of the complement is the set itself |
| Extensions.NotNull | src/Extensions.cs:15-19 | may only be called on a present value and returns that value |
| FixedRanges.FixedRange.Length | src/FixedRange.cs:19 | start plus length is end, and the length of a well-formed range is not negative |
| FixedRanges.Make | src/FixedRange.cs:7-11 | the checked constructor requires start <= end and keeps both bounds |
| FixedRanges.Of | src/FixedRange.cs:13 | `Of(start, length)` starts at `start` and has length `length` |
| FixedRanges.ToRange | src/FixedRange.cs:15 | the conversion to `Range` keeps both bounds |
| Lexing.Punctuation | src/Lexing/Lexer.cs:22-29 | the eight one-character tokens of the `switch`; none is `Eof` or a literal |
| Lexing.DigitsEnd | src/Lexing/Lexer.cs:71-76 | `while (MatchDigit()) { }` stops at the first non-digit or at the end, and every character it passed is a digit |
| Lexing.DotIndex | src/Lexing/Lexer.cs:80 | the first `.` of a lexeme, or its length when there is none |
| Lexing.ScanDigits | src/Lexing/Lexer.cs:35-47 | the digit branch consumes the digit it started at and stays within the input |
| Lexing.ScanAt | src/Lexing/Lexer.cs:19-52 | one turn of the loop consumes at least one character and stays within the input |
| Lexing.ErrorsOf | src/Lexing/Lexer.cs:62 | one queued error per fault, in the same order |
| Lexing.TokensFrom | src/Lexing/Lexer.cs:18-53 | the tokens the loop yields before `Eof` are at most as many as the characters left to scan |
| Lexing.FaultsFrom | src/Lexing/Lexer.cs:18-53 | the loop meets at most one fault per character left to scan |
| Lexing.Lexed | src/Lexing/Lexer.cs:16-56 | the whole output ends with the `Eof` over [len, len) and holds at most one token per character besides it |
| Lexing.LexErrors | src/Lexing/Lexer.cs:42-62 | the queued errors are at most one per input character |
| Lexing.Lexer.constructor | src/Lexing/Lexer.cs:7-11 | a new lexer is at offset 0 with an empty error queue |
| Lexing.Lexer.TryGetError | src/Lexing/Lexer.cs:58 | dequeues the oldest error, and returns false with the queue unchanged when it is empty |
| Lexing.Lexer.Advance | src/Lexing/Lexer.cs:60 | returns the character at the cursor and moves past it |
| Lexing.Lexer.Error | src/Lexing/Lexer.cs:62 | queues an error at the character just consumed |
| Lexing.Lexer.Match | src/Lexing/Lexer.cs:64-69 | consumes the expected character when it is next, and reports whether it did |
| Lexing.Lexer.MatchDigit | src/Lexing/Lexer.cs:71-76 | consumes an ASCII digit when one is next, and reports whether it did |
| Lexing.Lexer.SkipDigits | src/Lexing/Lexer.cs:36 | the empty loop over `MatchDigit` stops where `DigitsEnd` says |
| Lexing.Lexer.LexDigits | src/Lexing/Lexer.cs:35-47 | the digit branch yields the token and queues the error that `ScanDigits` gives |
| Lexing.Lexer.LexOne | src/Lexing/Lexer.cs:19-52 | one turn of the loop yields the token and queues the error that `ScanAt` gives |
| Lexing.Lexer.Lex | src/Lexing/Lexer.cs:16-56 | the tokens are those `TokensFrom` gives, then `Eof` over [length, length); the queued errors are those of `FaultsFrom`, in order |
| Lexing.Unfold | src/Lexing/Lexer.cs:18-53 | the output from `i` on is the output of one turn followed by the output from where it stopped |
| LexingProperties.DotIndexAt | src/Lexing/Lexer.cs:80 | `DotIndex` finds the first `.` |
| LexingProperties.ScanToken | src/Lexing/Lexer.cs:19-52 | a token of one turn covers exactly the characters the turn consumed, is not `Eof`, and spells them |
| LexingProperties.ScanDigitsToken | src/Lexing/Lexer.cs:35-47 | a literal from the digit branch covers exactly what it consumed and spells a number lexeme with its exact value |
| LexingProperties.ScanFault | src/Lexing/Lexer.cs:42-49 | an error of one turn is at the last character it consumed, which no rule accepts |
| LexingProperties.TokensFromFacts | src/Lexing/Lexer.cs:18-53 | every token spells the input, none is `Eof`, and their extents follow each other without overlap |
| LexingProperties.FaultsFromFacts | src/Lexing/Lexer.cs:18-53 | every error names a rejected character, at strictly increasing indices |
| LexingProperties.EndsWithSingleEof | src/Lexing/Lexer.cs:54-55 | the output ends with one `Eof` over [length, length), and no other token is `Eof` |
| LexingProperties.ExtentsIncrease | src/Lexing/Lexer.cs:16-56 | all extents lie within the input, all tokens but `Eof` are non-empty, extents do not overlap and come in order, and every literal carries its value |
| LexingProperties.OutputSpellsInput | src/Lexing/Lexer.cs:16-62 | every token but `Eof` spells its characters; every queued error explains a rejected character, at increasing indices |
| LexingProperties.WhiteSpaceIsInert | src/Lexing/Lexer.cs:48 | no rule but the whitespace one applies to a whitespace character |
| LexingProperties.WhiteSpaceFrom | src/Lexing/Lexer.cs:48 | whitespace yields neither a token nor an error |
| LexingProperties.WhiteSpaceOnly | tests/LexerTests.cs:73-83 | whitespace-only input lexes to `Eof` alone, with no error |
| LexingProperties.SinglePunctuation | tests/LexerTests.cs:33-51 | each punctuation character alone gives its token over [0, 1), then `Eof` over [1, 1), with no error |
| LexingProperties.SingleStray | tests/LexerTests.cs:123-132 | any other non-digit, non-space character gives only `Eof` and the error "stray `c`" at 0 |
| LexingProperties.StrayAmpersand | tests/LexerTests.cs:124-130 | `&` gives only `Eof` and the error "stray `&`" at 0 |
| LexingProperties.LeadingZerosValue | tests/LexerTests.cs:56 | `00123.45` has value 123.45 |
| LexingProperties.FractionValue | tests/LexerTests.cs:61 | `.45` has value 0.45 |
| LexingProperties.LeadingZerosDecimal | tests/LexerTests.cs:53-70 | `00123.45` is one literal of value 123.45 over [0, 8), then `Eof` |
| LexingProperties.FractionOnly | tests/LexerTests.cs:53-70 | `.45` is one literal of value 0.45 over [0, 3), then `Eof` |
| LexingProperties.DoubleDot | tests/LexerTests.cs:110-121 | `123..45` gives the literal 0.45 over [4, 7), then `Eof`, and the single error "expected digit" at 3 |
| LegacyLexing.MessagesOf | src/csharp/Lexing/Lexer.cs:37-44 | one reported message per fault, in the same order |
| LegacyLexing.LastStart | src/csharp/Lexing/Lexer.cs:13-14 | `_start` after the loop: where the last turn began, or unchanged when no turn ran |
| LegacyLexing.LegacyLexer.constructor | src/csharp/Lexing/Lexer.cs:5-9 | a new lexer is at offset 0 |
| LegacyLexing.LegacyLexer.Advance | src/csharp/Lexing/Lexer.cs:58 | returns the character at the cursor and moves past it |
| LegacyLexing.LegacyLexer.MatchDigit | src/csharp/Lexing/Lexer.cs:60-65 | consumes an ASCII digit when one is next, and reports whether it did |
| LegacyLexing.LegacyLexer.Match | src/csharp/Lexing/Lexer.cs:67-72 | consumes the expected character when it is next, and reports whether it did |
| LegacyLexing.LegacyLexer.ReportError | src/csharp/Lexing/Lexer.cs:37-44 | `Program.Error` appends its message to what was reported |
| LegacyLexing.LegacyLexer.SkipDigits | src/csharp/Lexing/Lexer.cs:31 | the empty loop over `MatchDigit` stops where `DigitsEnd` says |
| LegacyLexing.LegacyLexer.LexDigits | src/csharp/Lexing/Lexer.cs:30-42 | the digit branch yields the same token as the newer scanner and reports the message for its fault |
| LegacyLexing.LegacyLexer.LexOne | src/csharp/Lexing/Lexer.cs:14-46 | one turn of the loop yields the token `ScanAt` gives and reports the message for its fault |
| LegacyLexing.LegacyLexer.Lex | src/csharp/Lexing/Lexer.cs:11-51 | the tokens are those of `TokensFrom`, then an `Eof` from the last turn's start to the end; the messages are those of `FaultsFrom`, in order |
| LegacyLexing.SameTokensButEof | src/csharp/Lexing/Lexer.cs:11-51 | both scanners give the same tokens before `Eof`, and both `Eof`s end at the end of the input |
| LegacyLexing.LegacyEofStartsInside | src/csharp/Lexing/Lexer.cs:50 | on non-empty input the older `Eof` starts before the end, so it covers the last lexeme |
| LegacyLexing.LegacyEofOverlapsLiteral | src/csharp/Lexing/Lexer.cs:50 | on `1` the older `Eof` covers [0, 1), the same characters as the literal; the newer one is empty at [1, 1) |
| Descent.Primary | src/Parsing/HelpfulParser.cs:39-60 | `ExprPrimary` moves the cursor forward within the tokens, and past at least one token when it gives an expression |
| Descent.Operand | src/Parsing/HelpfulParser.cs:35-37 | the operand delegate of a level moves forward, past at least one token when it gives an expression |
| Descent.Chained | src/Parsing/HelpfulParser.cs:62-72 | `ParseExprBinaryLeftAssociative` moves forward, past at least one token when it gives an expression |
| Descent.Chain | src/Parsing/HelpfulParser.cs:66-70 | the operator loop never moves the cursor back or past the tokens |
| Descent.Statement | src/Parsing/HelpfulParser.cs:33 | `Stmt` moves forward, past at least one token when it gives a statement |
| Descent.Synchronized | src/Parsing/HelpfulParser.cs:17-31 | the program loop ends at end of input, having only moved forward |
| Descent.Resync | src/Parsing/HelpfulParser.cs:21-28 | the guard of the statement loop: a statement that failed without reading moves the cursor on by one token |
| Descent.SynchronizedTurn | src/Parsing/HelpfulParser.cs:20-29 | one turn of the program loop: the statement if any, then the rest from the resynchronized cursor, failure points in order |
| Descent.ChainTurn | src/Parsing/HelpfulParser.cs:66-70 | one turn of the operator loop: a missing right operand ends the loop with no value; otherwise the loop goes on from a left-grouped binary node |
| Descent.ChainedTurn | src/Parsing/HelpfulParser.cs:64-65 | a missing first operand gives no value; otherwise the operator loop runs on it |
| DescentPrinting.Print | src/Parsing/HelpfulParser.cs:33-72 | every printed expression starts with a number or `(`, the tokens that may start a primary |
| DescentPrinting.Spine | src/Parsing/HelpfulParser.cs:62-72 | a printed expression is its first operand followed by operator and operand pairs, and folding them to the left rebuilds it |
| DescentPrinting.PrimaryReads | src/Parsing/HelpfulParser.cs:39-55 | a printed primary parses back to itself, past all its tokens, with no failure point |
| DescentPrinting.OperandReads | src/Parsing/HelpfulParser.cs:35-37 | a printed operand parses back to itself, past all its tokens, with no failure point |
| DescentPrinting.ChainedReads | src/Parsing/HelpfulParser.cs:62-72 | a printed expression of a level, not followed by an operator that binds at that level, parses back to itself with no failure point |
| DescentPrinting.ChainReads | src/Parsing/HelpfulParser.cs:66-70 | the operator loop over printed pairs builds their left fold, past all their tokens |
| DescentPrinting.ChainLinkReads | src/Parsing/HelpfulParser.cs:66-69 | one printed operator and operand make one turn of the loop, which goes on from a binary node right after them |
| DescentPrinting.RoundTrip | src/Parsing/HelpfulParser.cs:17-72 | a printed expression followed by end of input parses to a program of exactly that expression statement, with no error, in every dialect that has groups |
| DescentOrder.InOrderAppend | src/Parsing/HelpfulParser.cs:17-31 | failure points in order in [lo, mid] then in [mid, hi] are in order in [lo, hi] |
| DescentOrder.PrimaryInOrder | src/Parsing/HelpfulParser.cs:39-60 | the failure points of `ExprPrimary` are in cursor order, between its start and end |
| DescentOrder.OperandInOrder | src/Parsing/HelpfulParser.cs:35-37 | the same for the operand of a level |
| DescentOrder.ChainedInOrder | src/Parsing/HelpfulParser.cs:62-72 | the same for `ParseExprBinaryLeftAssociative` |
| DescentOrder.ChainInOrder | src/Parsing/HelpfulParser.cs:66-70 | the same for the operator loop |
| DescentOrder.StatementInOrder | src/Parsing/HelpfulParser.cs:33 | the same for `Stmt` |
| DescentOrder.SynchronizedInOrder | src/Parsing/HelpfulParser.cs:17-31 | the same for the program loop |
| DescentOrder.HelpfulErrorsInOrder | src/Parsing/HelpfulParser.cs:17-60 | the helpful parser reports errors in nondecreasing token order, at indices of the token list |
| DescentOrder.ReportsAbove | src/csharp/Parsing/HelpfulParser.cs:100-107 | after dropping repeats, ordered failure points above the last reported index give strictly increasing reports above it |
| DescentOrder.ReportsIncrease | src/csharp/Parsing/HelpfulParser.cs:100-107 | ordered failure points give strictly increasing reports, whatever index was reported last |
| DescentOrder.LegacyReportsIncrease | src/csharp/Parsing/HelpfulParser.cs:20-107 | within one parse the older helpful parser reports strictly increasing token indices, all within the token list |
| HelpfulParsing.ErrorsFor | src/Parsing/HelpfulParser.cs:53-57 | one reported error per failure point |
| HelpfulParsing.ErrorsForAt | src/Parsing/HelpfulParser.cs:53-57 | the k-th error is the error for the k-th failure point: "expression" expecting a number or `(`, or "braced group" expecting `)` |
| HelpfulParsing.ErrorsForAppend | src/Parsing/HelpfulParser.cs:53-57 | the errors of two runs of failure points are the errors of each, in order |
| HelpfulParsing.HelpfulParser.constructor | src/Parsing/HelpfulParser.cs:15 | a new parser has no tokens and has reported nothing |
| HelpfulParsing.HelpfulParser.Parse | src/Parsing/Parser.cs:10-15 | stores the tokens, rewinds to 0 and returns the program `Synchronized` gives, reporting the errors of its failure points in order |
| HelpfulParsing.HelpfulParser.Error | src/Parsing/HelpfulParser.cs:53-57 | reports one error at the cursor, nothing else changes |
| HelpfulParsing.HelpfulParser.Match | src/Parsing/HelpfulParser.cs:94-101 | consumes the token when it has the expected type and the parser is not at end |
| HelpfulParsing.HelpfulParser.MatchValue | src/Parsing/HelpfulParser.cs:74-82 | the same, also handing out the consumed token's value, or none |
| HelpfulParsing.HelpfulParser.MatchAny | src/Parsing/HelpfulParser.cs:84-92 | consumes a token of any expected type and hands out its type, or the default type |
| HelpfulParsing.HelpfulParser.Prog | src/Parsing/HelpfulParser.cs:17-31 | the program loop gives the statements of `Synchronized`, ends where it does and reports its failure points |
| HelpfulParsing.HelpfulParser.Stmt | src/Parsing/HelpfulParser.cs:33 | gives what `Statement` gives, ends where it does and reports its failure points |
| HelpfulParsing.HelpfulParser.Expr | src/Parsing/HelpfulParser.cs:35 | a sum as `Chained` at the sum level gives it |
| HelpfulParsing.HelpfulParser.ExprMult | src/Parsing/HelpfulParser.cs:37 | a product as `Chained` at the product level gives it |
| HelpfulParsing.HelpfulParser.ExprPrimary | src/Parsing/HelpfulParser.cs:39-60 | a primary as `Primary` gives it; a missing `)` after a good inner expression reports "braced group" and keeps the inner expression |
| HelpfulParsing.HelpfulParser.BinaryLeftAssociative | src/Parsing/HelpfulParser.cs:62-72 | the operator loop gives what `Chained` gives, ends where it does and reports its failure points |
| HelpfulParsing.HelpfulParser.Operand | src/Parsing/HelpfulParser.cs:35-37 | the operand delegate gives what `Descent.Operand` gives |
| LegacyHelpfulParsing.ReportsAppend | src/csharp/Parsing/HelpfulParser.cs:100-107 | the reports of two runs of failure points are those of the first, then those of the second seen from the index the first reported last |
| LegacyHelpfulParsing.LastAfterAppend | src/csharp/Parsing/HelpfulParser.cs:100-107 | `_iLastError` after two runs is `_iLastError` after the second one, started from where the first one left it |
| LegacyHelpfulParsing.Reports | src/csharp/Parsing/HelpfulParser.cs:100-107 | what `Error` passes on: at most one report per failure point, and never a first report at the `_iLastError` it starts from |
| LegacyHelpfulParsing.LastAfter | src/csharp/Parsing/HelpfulParser.cs:104 | `_iLastError` after a run of failure points: the index of the last one, or the value before when there is none |
| LegacyHelpfulParsing.LegacyHelpfulParser.constructor | src/csharp/Parsing/HelpfulParser.cs:100 | a new parser has no tokens, `_iLastError == -1` and has reported nothing |
| LegacyHelpfulParsing.LegacyHelpfulParser.Parse | src/Parsing/Parser.cs:10-15 | stores the tokens and rewinds the cursor but not `_iLastError`; returns the program `Synchronized` gives; reports its failure points except a repeat of the index reported last, starting from the old `_iLastError` |
| LegacyHelpfulParsing.LegacyHelpfulParser.ParseAnew | src/Parsing/Parser.cs:10-15 | the same with `_iLastError` reset to -1, so every parse reports as a fresh parser does |
| LegacyHelpfulParsing.LegacyHelpfulParser.Error | src/csharp/Parsing/HelpfulParser.cs:100-107 | reports at the cursor unless the last report was there, and records the cursor as the last error index |
| LegacyHelpfulParsing.LegacyHelpfulParser.Match | src/csharp/Parsing/HelpfulParser.cs:89-96 | consumes the token when it has the expected type and the parser is not at end (past the tokens or on `Eof`) |
| LegacyHelpfulParsing.LegacyHelpfulParser.MatchValue | src/csharp/Parsing/HelpfulParser.cs:69-77 | the same, also handing out the consumed token's value, or none |
| LegacyHelpfulParsing.LegacyHelpfulParser.MatchAny | src/csharp/Parsing/HelpfulParser.cs:79-87 | consumes a token of any expected type and hands out its type, or the default type |
| LegacyHelpfulParsing.LegacyHelpfulParser.Prog | src/csharp/Parsing/HelpfulParser.cs:20-36 | the program loop gives the statements of `Synchronized`, ends where it does and reports its failure points through `Error` |
| LegacyHelpfulParsing.LegacyHelpfulParser.Stmt | src/csharp/Parsing/HelpfulParser.cs:38 | gives what `Statement` gives and reports its failure points through `Error` |
| LegacyHelpfulParsing.LegacyHelpfulParser.Expr | src/csharp/Parsing/HelpfulParser.cs:40 | a sum as `Chained` at the sum level gives it |
| LegacyHelpfulParsing.LegacyHelpfulParser.ExprMult | src/csharp/Parsing/HelpfulParser.cs:42 | a product as `Chained` at the product level gives it |
| LegacyHelpfulParsing.LegacyHelpfulParser.ExprPrimary | src/csharp/Parsing/HelpfulParser.cs:44-57 | a primary as `Primary` gives it; a failed inner expression fails silently, and a missing `)` reports "Expected ')'" and fails |
| LegacyHelpfulParsing.LegacyHelpfulParser.BinaryLeftAssociative | src/csharp/Parsing/HelpfulParser.cs:59-67 | the operator loop gives what `Chained` gives and reports its failure points through `Error` |
| LegacyHelpfulParsing.LegacyHelpfulParser.Operand | src/csharp/Parsing/HelpfulParser.cs:40-42 | the operand delegate gives what `Descent.Operand` gives |
| PrimitiveParsing.StrayParenStalls | src/Parsing/PrimitiveParser.cs:12-20 | on `)` then `Eof` the statement fails without reading, so the unguarded loop never reaches the end |
| PrimitiveParsing.UnguardedHalts | src/Parsing/PrimitiveParser.cs:12-20 | the statement loop as written halts from a cursor: it reaches the end with every statement before it having read a token |
| PrimitiveParsing.Unguarded | src/Parsing/PrimitiveParser.cs:12-20 | the statements the loop as written collects where it halts, at most one per token |
| PrimitiveParsing.GuardAgreesWhenHalting | src/Parsing/PrimitiveParser.cs:12-20 | wherever the unguarded loop halts, the guarded loop collects the same statements |
| PrimitiveParsing.PrimitiveParser.constructor | src/Parsing/PrimitiveParser.cs:10 | a new parser has no tokens |
| PrimitiveParsing.PrimitiveParser.Parse | src/Parsing/Parser.cs:10-15 | stores the tokens, rewinds to 0 and returns the program `Synchronized` gives for the primitive dialect |
| PrimitiveParsing.PrimitiveParser.Match | src/Parsing/PrimitiveParser.cs:62-69 | consumes the token when it has the expected type and the parser is not at end |
| PrimitiveParsing.PrimitiveParser.MatchValue | src/Parsing/PrimitiveParser.cs:42-50 | the same, also handing out the consumed token's value, or none |
| PrimitiveParsing.PrimitiveParser.MatchAny | src/Parsing/PrimitiveParser.cs:52-60 | consumes a token of any expected type and hands out its type, or the default type |
| PrimitiveParsing.PrimitiveParser.Prog | src/Parsing/PrimitiveParser.cs:12-20 | the program loop, with a one-token skip after a statement that read nothing, gives the statements of `Synchronized` and stops at end of input |
| PrimitiveParsing.PrimitiveParser.Stmt | src/Parsing/PrimitiveParser.cs:81 | gives what `Statement` gives and ends where it does |
| PrimitiveParsing.PrimitiveParser.Expr | src/Parsing/PrimitiveParser.cs:22 | a sum as `Chained` at the sum level gives it |
| PrimitiveParsing.PrimitiveParser.ExprMult | src/Parsing/PrimitiveParser.cs:24 | a product as `Chained` at the product level gives it |
| PrimitiveParsing.PrimitiveParser.ExprPrimary | src/Parsing/PrimitiveParser.cs:26-40 | a primary as `Primary` gives it; a group without `)` fails, silently |
| PrimitiveParsing.PrimitiveParser.BinaryLeftAssociative | src/Parsing/PrimitiveParser.cs:71-79 | the operator loop gives what `Chained` gives and ends where it does |
| PrimitiveParsing.PrimitiveParser.Operand | src/Parsing/PrimitiveParser.cs:22-24 | the operand delegate gives what `Descent.Operand` gives |
| LegacyPrimitiveParsing.StopsAt | src/csharp/Parsing/PrimitiveParser.cs:10-18 | `Parse` leaves the cursor forward, within the tokens |
| LegacyPrimitiveParsing.UntilFailure | src/csharp/Parsing/PrimitiveParser.cs:12-17 | the statements `Parse` collects: until the end of the list, `Eof` included, or up to the first statement that fails, which is dropped |
| LegacyPrimitiveParsing.Parser.constructor | src/csharp/Parsing/PrimitiveParser.cs:6-9 | holds the given tokens, cursor at 0 |
| LegacyPrimitiveParsing.Parser.Parse | src/csharp/Parsing/PrimitiveParser.cs:10-18 | collects statements until the end or the first one that fails, and stops where `StopsAt` says |
| LegacyPrimitiveParsing.Parser.Stmt | src/csharp/Parsing/PrimitiveParser.cs:20 | gives what `Statement` gives for the older dialect |
| LegacyPrimitiveParsing.Parser.Expr | src/csharp/Parsing/PrimitiveParser.cs:22-30 | products joined by `+` and `-`, grouped to the left, as `Chained` gives them |
| LegacyPrimitiveParsing.Parser.ExprMult | src/csharp/Parsing/PrimitiveParser.cs:32-40 | primaries joined by `*`, `/` and `%`, grouped to the left, as `Chained` gives them |
| LegacyPrimitiveParsing.Parser.ExprPrimary | src/csharp/Parsing/PrimitiveParser.cs:42-46 | a number literal, and nothing else |
| LegacyPrimitiveParsing.Parser.MatchValue | src/csharp/Parsing/PrimitiveParser.cs:48-56 | consumes the token when the cursor is on a token (before the end of the list, `Eof` included) and it has the expected type, handing out its value |
| LegacyPrimitiveParsing.Parser.MatchAny | src/csharp/Parsing/PrimitiveParser.cs:58-66 | consumes a token of any expected type and hands out its type, or the default type |
| LegacyPrimitiveParsing.Parser.Match | src/csharp/Parsing/PrimitiveParser.cs:68-75 | consumes the token when it has the expected type; only the end of the list is the end, `Eof` is an ordinary token |
| Rails.NumberAt | src/Parsing/RailwayParser.cs:46-48 | `Number` never moves the cursor back or past the tokens, and reads a token exactly when it yields a number |
| Rails.GroupingAt | src/Parsing/RailwayParser.cs:39-44 | `Grouping` stays within the tokens and a grouping that yields an expression has read at least `(` |
| Rails.RunAt | src/Parsing/RailwayParser.cs:35 | a production named in the list given to `First` stays within the tokens and reads something when it succeeds |
| Rails.FirstAt | src/Parsing/RailwayParser.cs:68-77 | `First` stays within the tokens and reads something when it yields a value |
| Rails.ExprAt | src/Parsing/RailwayParser.cs:35-37 | `Expr` stays within the tokens and reads something when it yields an expression |
| Rails.StatementAt | src/Parsing/RailwayParser.cs:33 | `Stmt` stays within the tokens and reads something when it yields a statement |
| Rails.StatementsEnd | src/Parsing/RailwayParser.cs:52-66 | the loop of `ZeroOrMore` ends within the tokens, at the end (`IsAtEnd`) |
| Rails.StatementsFrom | src/Parsing/RailwayParser.cs:52-66 | the statements `ZeroOrMore(Stmt)` collects, skipping a token after a failure that read nothing, at most one per token |
| RailsProperties.Nest | src/Parsing/RailwayParser.cs:39-48 | a number inside `depth` parentheses is `2 * depth + 1` tokens long |
| RailsProperties.NestReads | src/Parsing/RailwayParser.cs:35-48 | every number inside any depth of matching parentheses parses as that number, the cursor just after the last `)` |
| RailsProperties.ExprShape | src/Parsing/RailwayParser.cs:35-48 | conversely every expression `Expr` yields is a number, and the tokens it read are that number inside matching parentheses |
| RailsProperties.ExprChooses | src/Parsing/RailwayParser.cs:35-77 | `First([Number, Grouping])` is `Number` on a number literal and `Grouping` on anything else, since a failed `Number` reads nothing |
| RailsProperties.MultipleStatements | src/Parsing/RailwayParser.cs:27-66 | the tokens of "123 45.67" give two expression statements and the loop stops on `Eof` |
| RailsProperties.OperatorSkipped | src/Parsing/RailwayParser.cs:52-66 | the tokens of "1 + 2" give the two numbers as statements: the `+` fails without reading and `ZeroOrMore` steps over it without an error |
| RailwayParsing.RailwayParser.constructor | src/Parsing/RailwayParser.cs:25 | a new parser has no tokens and its cursor at 0 |
| RailwayParsing.RailwayParser.Parse | src/Parsing/Parser.cs:10-15 | `Parse` stores the tokens, rewinds the cursor and returns the statements of `ZeroOrMore(Stmt)` from 0, leaving the cursor where that loop ends |
| RailwayParsing.RailwayParser.Prog | src/Parsing/RailwayParser.cs:27-31 | `Prog` returns the statements collected from the cursor and moves it to where the loop ends |
| RailwayParsing.RailwayParser.ZeroOrMore | src/Parsing/RailwayParser.cs:52-66 | the loop always succeeds, with the statements collected from the cursor, and leaves the cursor at the end |
| RailwayParsing.RailwayParser.Stmt | src/Parsing/RailwayParser.cs:33 | `Stmt` yields and reads what `StatementAt` says from the cursor |
| RailwayParsing.RailwayParser.Expr | src/Parsing/RailwayParser.cs:35-37 | `Expr` yields and reads what `ExprAt` says from the cursor |
| RailwayParsing.RailwayParser.Grouping | src/Parsing/RailwayParser.cs:39-44 | `Grouping` yields and reads what `GroupingAt` says from the cursor, keeping the advance of a half-matched grouping |
| RailwayParsing.RailwayParser.Number | src/Parsing/RailwayParser.cs:46-48 | `Number` yields and reads what `NumberAt` says from the cursor |
| RailwayParsing.RailwayParser.First | src/Parsing/RailwayParser.cs:68-77 | `First` returns the value of the first production that gives one, tells whether there was one, and leaves the cursor where `FirstAt` says, failed attempts included |
| RailwayParsing.RailwayParser.Run | src/Parsing/RailwayParser.cs:35 | calling a production named in the list does what `RunAt` says |
| RailwayParsing.RailwayParser.OneOf | src/Parsing/RailwayParser.cs:79 | `One(parser, out result)` runs `Expr` and its flag says whether it yielded an expression |
| RailwayParsing.RailwayParser.OneValue | src/Parsing/RailwayParser.cs:81-91 | `One(expected, out value)` matches exactly when not at the end and the current token has the expected type, then advances by one and hands out that token's value; otherwise nothing changes |
| RailwayParsing.RailwayParser.OneAny | src/Parsing/RailwayParser.cs:93-101 | `One(expected, out choosen)` matches exactly when the current token's type is in the set, advancing by one and handing out the type; otherwise it hands out the default type and nothing changes |
| RailwayParsing.RailwayParser.One | src/Parsing/RailwayParser.cs:103-110 | `One(expected)` matches exactly when not at the end and the current token has the expected type, then advances by one; otherwise nothing changes |
| LegacyDataOriented.Success | src/csharp/Parsing/DataOrientedParser.cs:155 | `Ok` makes a result that has a value, the one given, and no expected tokens |
| LegacyDataOriented.Failure | src/csharp/Parsing/DataOrientedParser.cs:146-156 | `Fail` makes a result with no value whose expected tokens are the ones given |
| LegacyDataOriented.ResultOk | src/csharp/Parsing/DataOrientedParser.cs:199-219 | `ParseResult.Ok` has a value, the one given, and the count read given, with no failing production |
| LegacyDataOriented.ResultFail | src/csharp/Parsing/DataOrientedParser.cs:200-219 | `ParseResult.Fail` has no value and carries the count read, the production that failed and the token it failed at |
| LegacyDataOriented.RunProduction | src/csharp/Parsing/DataOrientedParser.cs:180-188 | on a head token of the production, the runner's result with one more token read; on any other token, a failure that read nothing, naming this production and that token |
| LegacyDataOriented.ProductionReadsHead | src/csharp/Parsing/DataOrientedParser.cs:180-188 | for a runner that reads a nonnegative count, `Parse` reads at least one token exactly when the head token's type is in the head set, and none exactly when it is not |
| LegacyDataOriented.RunnerNotCalledOffHead | src/csharp/Parsing/DataOrientedParser.cs:182-187 | off the head set the runner is never called: two productions with the same name and head set give the same result |
| LegacyDataOriented.ProductionKeepsShape | src/csharp/Parsing/DataOrientedParser.cs:180-218 | `Parse` keeps the nullability annotations of `ParseResult` that the runner's result has |
| LegacyDataOriented.DataOrientedParser.constructor | src/csharp/Parsing/DataOrientedParser.cs:19-22 | a new parser has no tokens, its cursor at 0, no error reported and `_iLastError` at -1 |
| LegacyDataOriented.DataOrientedParser.Parse | src/Parsing/Parser.cs:10-15 | parsing a token list gives the statements of the railway grammar from 0 and reports no error |
| LegacyDataOriented.DataOrientedParser.Resume | src/csharp/Parsing/DataOrientedParser.cs:24 | `Parse()` parses the stored tokens from the current cursor, reporting nothing |
| LegacyDataOriented.DataOrientedParser.Error | src/csharp/Parsing/DataOrientedParser.cs:137-144 | `Error` reports at the cursor unless the last report was at the same index, and records the cursor as the last error; the cursor and tokens stay |
| LegacyDataOriented.DataOrientedParser.Prog | src/csharp/Parsing/DataOrientedParser.cs:45-49 | `Prog` returns the statements collected from the cursor and moves it to where the loop ends, reporting nothing |
| LegacyDataOriented.DataOrientedParser.ZeroOrMore | src/csharp/Parsing/DataOrientedParser.cs:74-88 | the loop always succeeds, with the statements collected from the cursor, and leaves the cursor at the end |
| LegacyDataOriented.DataOrientedParser.Stmt | src/csharp/Parsing/DataOrientedParser.cs:51 | `Stmt` yields and reads what `StatementAt` says from the cursor |
| LegacyDataOriented.DataOrientedParser.Expr | src/csharp/Parsing/DataOrientedParser.cs:53-56 | `Expr` yields and reads what `ExprAt` says from the cursor |
| LegacyDataOriented.DataOrientedParser.Grouping | src/csharp/Parsing/DataOrientedParser.cs:58-63 | `Grouping` yields and reads what `GroupingAt` says from the cursor |
| LegacyDataOriented.DataOrientedParser.Number | src/csharp/Parsing/DataOrientedParser.cs:65-68 | `Number` yields and reads what `NumberAt` says from the cursor |
| LegacyDataOriented.DataOrientedParser.First | src/csharp/Parsing/DataOrientedParser.cs:90-99 | `First` returns the value of the first production that gives one, tells whether there was one, and leaves the cursor where `FirstAt` says |
| LegacyDataOriented.DataOrientedParser.Run | src/csharp/Parsing/DataOrientedParser.cs:54 | calling a production named in the list does what `RunAt` says |
| LegacyDataOriented.DataOrientedParser.OneOf | src/csharp/Parsing/DataOrientedParser.cs:101-102 | `One(parser, out result)` runs `Expr` and its flag says whether it yielded an expression |
| LegacyDataOriented.DataOrientedParser.OneValue | src/csharp/Parsing/DataOrientedParser.cs:104-114 | `One(expected, out value)` matches exactly when not at the end and the current token has the expected type, then advances by one and hands out its value; otherwise nothing changes |
| LegacyDataOriented.DataOrientedParser.OneAny | src/csharp/Parsing/DataOrientedParser.cs:116-124 | `One(expected[], out choosen)` matches exactly when not at the end and the current type is in the array, advancing by one and handing out the type; otherwise nothing changes |
| LegacyDataOriented.DataOrientedParser.One | src/csharp/Parsing/DataOrientedParser.cs:126-133 | `One(expected)` matches exactly when not at the end and the current token has the expected type, then advances by one; otherwise nothing changes |
| Steps.UnionOf | src/Parsing/DataOriented/Step.cs:65 | the union of a list of heads holds every head and nothing that is in none of them |
| Steps.CountingDetectsOverlap | src/Parsing/DataOriented/Step.cs:62-63 | the distinct count of the pooled heads never exceeds the sum of their sizes, and equals it exactly when the heads are pairwise disjoint |
| Steps.HeadsOf | src/Parsing/DataOriented/Step.cs:62-65 | the heads of the choices, one per choice, in order |
| Steps.CountingAssertionIsDisjointness | src/Parsing/DataOriented/Step.cs:61-63 | the constructor's counting assertion holds exactly when no token type starts two choices |
| Steps.AccurateBubble | src/Parsing/DataOriented/Result.cs:23 | errors that are accurate on a sub-span stay accurate on the whole span once `BubbleErrors` has shifted them by the sub-span's offset |
| Steps.TerminalParse | src/Parsing/DataOriented/Step.cs:176-187 | a terminal succeeds exactly when the span is not empty and starts with its type, reading one token and building from that token's value with no error; otherwise it reads nothing and reports one error at 0 naming the rule and its head |
| Steps.FirstChoice | src/Parsing/DataOriented/Step.cs:74-76 | the choice `Altern.Parse` runs is the first whose head holds the token type, and when there is none, no head holds it |
| Steps.Parse | src/Parsing/DataOriented/Step.cs:9-16 | on a span ending with the sentinel, every step reads fewer tokens than the span holds (so the token after it exists), reads at least one when it is productive and succeeds, and reports only errors within what it read whose token really is not among the expected ones |
| Steps.AlternParse | src/Parsing/DataOriented/Step.cs:72-78 | `Altern.Parse` keeps the result invariant |
| Steps.Concat2Parse | src/Parsing/DataOriented/Step.cs:91-108 | `Concat<T, T1, T2>.Parse` keeps the result invariant |
| Steps.Concat3Parse | src/Parsing/DataOriented/Step.cs:202-223 | `Concat<T, T1, T2, T3>.Parse` keeps the result invariant |
| Steps.Mandatory | src/Parsing/DataOriented/Step.cs:146-154 | the first loop of `Repeat.Parse` never moves back, stays before the sentinel and keeps errors accurate; unless it halts on a failure it ends with exactly `min` items, and it reads something when it had items to take from a productive step |
| Steps.Optional | src/Parsing/DataOriented/Step.cs:156-167 | the second loop only adds items, never beyond `max`, stays before the sentinel and keeps errors accurate; it ends halted, at `max` items, or on a tail token, and a productive step takes at most one item per token read |
| Steps.OptionalTakes | src/Parsing/DataOriented/Step.cs:157-163 | an attempt in the second loop that gives an item adds it and continues after what it read |
| Steps.OptionalHalts | src/Parsing/DataOriented/Step.cs:164-165 | an attempt in the second loop that fails without reading ends the repetition |
| Steps.RepeatOfOptional | src/Parsing/DataOriented/Step.cs:164-165 | with no minimum, a second loop that ends early makes `Repeat.Parse` succeed with the items collected so far |
| Steps.RepeatParse | src/Parsing/DataOriented/Step.cs:139-173 | `Repeat.Parse` keeps the result invariant |
| Steps.AlternHead | src/Parsing/DataOriented/Step.cs:65 | a type is in an alternation's head exactly when it is in one of its choices' heads |
| Steps.AlternHeadUnion | src/Parsing/DataOriented/Step.cs:65 | an alternation's head is the union of its choices' heads |
| Steps.AlternHeadOfTwo | src/Parsing/DataOriented/Step.cs:65 | the head of an alternation of two choices is the union of the two heads |
| Steps.AlternHeadOfThree | src/Parsing/DataOriented/Step.cs:65 | the same for three choices |
| Steps.AlternOfTwoOk | src/Parsing/DataOriented/Step.cs:61-63 | an alternation of two choices with disjoint heads passes its constructor's checks |
| Steps.AlternDelegates | src/Parsing/DataOriented/Step.cs:74-75 | when the next token starts a choice, the alternation is that choice, parsed under the alternation's name or else the parent's |
| Steps.AlternNoChoice | src/Parsing/DataOriented/Step.cs:77 | when no choice's head holds the next token, the alternation reads nothing and reports one error at 0 with its whole head |
| Steps.ConcatStopsAtFirstFailure | src/Parsing/DataOriented/Step.cs:96-99 | a concatenation whose first part fails fails with what that part read and its errors, without running the rest |
| Steps.Concat2Sequence | src/Parsing/DataOriented/Step.cs:93-107 | after a first part that succeeds, a two-part concatenation reads both parts in turn, gathers their errors shifted to where each began, and builds from the first value and the second result |
| Steps.ConcatHead | src/Parsing/DataOriented/Step.cs:89 | a concatenation's head is its first part's head |
| Steps.Concat2Of | src/Parsing/DataOriented/Step.cs:91-108 | the result of a two-part concatenation from given results of its parts |
| Steps.Concat3Sequence | src/Parsing/DataOriented/Step.cs:204-222 | after a first part that succeeds, a three-part concatenation runs the bound middle part and the last part in turn, whatever they give, reads all three, gathers their shifted errors and builds from the three results |
| Steps.RepeatOutcome | src/Parsing/DataOriented/Step.cs:139-173 | a repetition fails where the first loop halts; otherwise it reads what the second loop read, holds between `min` and `max` items, succeeds exactly when the second loop ended early or on a tail token (then with the collected items and the loops' errors), and fails only at `max` items, adding an error at that point naming the tail |
| Steps.RepeatAtTerminator | src/Parsing/DataOriented/Step.cs:157-170 | a repetition with no minimum that starts on a tail token succeeds at once with no items, reading nothing and reporting nothing |
| Steps.RepeatSucceeds | src/Parsing/DataOriented/Step.cs:156-172 | a repetition with no minimum of a productive step, on a span no longer than `max`, always succeeds with the items of its second loop |
| Steps.SkeletonKeepsHead | src/Parsing/DataOriented/Step.cs:198-225 | binding a late-bound middle step later changes no step's head and no step's productivity |
| Steps.SkeletonKeepsLocalOk | src/Parsing/DataOriented/Step.cs:198-225 | nor whether an earlier step passed its constructor's checks |
| StepRunner.Run | src/Parsing/DataOriented/Step.cs:15 | running any step on a span ending with the sentinel computes `Steps.Parse` |
| StepRunner.RunAltern | src/Parsing/DataOriented/Step.cs:72-78 | the `foreach` over the choices computes `Steps.AlternParse` |
| StepRunner.RunConcat2 | src/Parsing/DataOriented/Step.cs:91-108 | the cursor and error list of a two-part concatenation compute `Steps.Concat2Parse` |
| StepRunner.RunConcat3 | src/Parsing/DataOriented/Step.cs:202-223 | the same for three parts, computing `Steps.Concat3Parse` |
| StepRunner.RunRepeat | src/Parsing/DataOriented/Step.cs:139-173 | the two loops and the final tail check compute `Steps.RepeatParse` |
| StepRunner.ReadMandatory | src/Parsing/DataOriented/Step.cs:147-154 | the first `while` loop computes `Steps.Mandatory` from no items at 0 |
| StepRunner.ReadOptional | src/Parsing/DataOriented/Step.cs:157-167 | the second `while` loop computes `Steps.Optional` from where the first stopped |
| GrammarBuilding.GrammarBuilder.constructor | src/Parsing/DataOrientedParser.cs:18-21 | building starts from an empty table |
| GrammarBuilding.GrammarBuilder.AddTerminal | src/Parsing/DataOriented/Step.cs:176-178 | `Terminal.Of` appends a terminal whose head is its one type; it is productive and earlier heads stay |
| GrammarBuilding.GrammarBuilder.AddAltern | src/Parsing/DataOriented/Step.cs:59-68 | `Altern.Of` on at least one choice that passes the counting assertion appends an alternation whose head is the union of its choices' heads, keeping the table consistent |
| GrammarBuilding.GrammarBuilder.AddConcat2 | src/Parsing/DataOriented/Step.cs:25-30 | `Concat.Of` with two parts appends a concatenation whose head is the first part's |
| GrammarBuilding.GrammarBuilder.AddConcat3 | src/Parsing/DataOriented/Step.cs:32-38 | `Concat.Of` with three parts, the middle one possibly null, appends a concatenation whose head is the first part's |
| GrammarBuilding.GrammarBuilder.AddRepeat | src/Parsing/DataOriented/Step.cs:126-137 | `Repeat.Of` appends a repetition, its tail defaulting to the complement of the item's head, with the item's head as its own |
| GrammarBuilding.GrammarBuilder.SetStep2 | src/Parsing/DataOriented/Step.cs:225 | binding the middle step changes that slot only and no step's head |
| GrammarBuilding.GrammarBuilder.Append | src/Parsing/DataOriented/Step.cs:54-226 | adding a step that passed its checks keeps every earlier head and productivity |
| GrammarBuilding.AlternFits | src/Parsing/DataOriented/Step.cs:61-63 | an alternation whose choices pass the counting assertion may be appended to a consistent table |
| GrammarBuilding.OrderedAppend | src/Parsing/DataOriented/Step.cs:54-226 | a step built from existing steps keeps the table in construction order |
| GrammarBuilding.HeadsCarryOver | src/Parsing/DataOriented/Step.cs:62-63 | choices with disjoint heads keep them after later appends |
| GrammarBuilding.AlternHeadIsUnion | src/Parsing/DataOriented/Step.cs:65 | the alternation just appended has the union of its choices' heads |
| DataOrientedGrammar.BuildPair | src/Parsing/DataOrientedParser.cs:45 | `right.Map(r => (op, r))` gives a pair exactly when the operand parsed, holding the operator and that operand |
| DataOrientedGrammar.PairsIn | src/Parsing/DataOrientedParser.cs:36 | the pairs of a list of items, one per item, and none when the repetition gave nothing |
| DataOrientedGrammar.StmtsIn | src/Parsing/DataOrientedParser.cs:70 | the statements of the program's items, one per item |
| DataOrientedGrammar.OperandsOf | src/Parsing/DataOrientedParser.cs:42-48 | a list of pairs as the repetition collects them, item by item |
| DataOrientedGrammar.ChainIsFold | src/Parsing/DataOrientedParser.cs:34-40 | the build of a precedence level is the left fold of its pairs onto the first operand |
| DataOrientedGrammar.ChainOfNone | src/Parsing/DataOrientedParser.cs:36 | with no pairs (`ValueOr([])`), a level is its first operand |
| DataOrientedGrammar.ChainOfTwo | src/Parsing/DataOrientedParser.cs:36-37 | `a op1 b op2 c` groups as `(a op1 b) op2 c` |
| DataOrientedGrammar.FoldChain | src/Parsing/DataOrientedParser.cs:35-39 | the `foreach` loop of the build computes the left fold |
| DataOrientedGrammar.GrammarOrdered | src/Parsing/DataOrientedParser.cs:21-70 | the constructor's table has 21 steps, each built from earlier ones except the bound middle |
| DataOrientedGrammar.HeadPrimary | src/Parsing/DataOrientedParser.cs:32 | a primary expression starts with a number or `(` |
| DataOrientedGrammar.HeadMultOp | src/Parsing/DataOrientedParser.cs:46 | the multiplicative operator starts with `*`, `/` or `%` |
| DataOrientedGrammar.HeadAddOp | src/Parsing/DataOrientedParser.cs:63 | the additive operator starts with `+` or `-` |
| DataOrientedGrammar.HeadExpr | src/Parsing/DataOrientedParser.cs:50 | an expression starts with a number or `(` |
| DataOrientedGrammar.HeadStmt | src/Parsing/DataOrientedParser.cs:68 | a statement starts with `;`, a number or `(` |
| DataOrientedGrammar.GrammarHeads | src/Parsing/DataOrientedParser.cs:68 | the same heads in any table holding this grammar's steps |
| DataOrientedGrammar.GrammarWellFormed | src/Parsing/DataOrientedParser.cs:21-70 | every `Debug.Assert` of the constructors holds for this grammar, and the braced group's middle is bound |
| DataOrientedGrammar.OperandAlternsOk | src/Parsing/DataOrientedParser.cs:32 | the choices of a primary expression have disjoint heads |
| DataOrientedGrammar.OperatorAlternsOk | src/Parsing/DataOrientedParser.cs:46-63 | so do the operators of each level |
| DataOrientedGrammar.StmtAlternOk | src/Parsing/DataOrientedParser.cs:68 | and the empty statement and the expression |
| DataOrientedParsing.DataOrientedParser.constructor | src/Parsing/DataOrientedParser.cs:18-71 | the constructor builds exactly the grammar's table, in order, through the builders, and the table is well formed |
| DataOrientedParsing.DataOrientedParser.Prog | src/Parsing/DataOrientedParser.cs:74-82 | `Prog` returns the program the program step yields and hands each of its errors to the callback, in order |
| DataOrientedParsing.BuiltIsGrammar | src/Parsing/DataOrientedParser.cs:21-70 | after the last step is added, the built table is the grammar |
| DataOrientedParsing.AddBracedGroup | src/Parsing/DataOrientedParser.cs:31 | the braced group is built with its middle step unbound |
| DataOrientedParsing.BindGroup | src/Parsing/DataOrientedParser.cs:67 | `SetStep2(expr)` binds it to the additive expression, giving the grammar up to that point |
| DataOrientedParsing.PrimaryFits | src/Parsing/DataOrientedParser.cs:32 | the primary expression's choices pass the counting assertion where the constructor builds it |
| DataOrientedParsing.StatementFits | src/Parsing/DataOrientedParser.cs:68 | the statement's choices pass it too |
| DataOrientedRuns.StmtProductive | src/Parsing/DataOrientedParser.cs:68 | every statement that parses reads a token |
| DataOrientedRuns.ProgAlwaysSucceeds | src/Parsing/DataOrientedParser.cs:76-77 | the program step succeeds on every token stream that ends with `Eof`, so `Debug.Assert(r.HasValue)` holds |
| DataOrientedRuns.PrimaryNumber | src/Parsing/DataOrientedParser.cs:30-32 | a number literal is a primary expression of one token holding its value |
| DataOrientedRuns.PrimaryGroup | src/Parsing/DataOrientedParser.cs:31-32 | a `(` starts a braced group |
| DataOrientedRuns.MultRestEmpty | src/Parsing/DataOrientedParser.cs:42-48 | with no multiplicative operator next, the list of pairs is empty and reads nothing |
| DataOrientedRuns.AddRestEmpty | src/Parsing/DataOrientedParser.cs:59-65 | with no additive operator next, the list of pairs is empty and reads nothing |
| DataOrientedRuns.ExprOfPrimary | src/Parsing/DataOrientedParser.cs:33-66 | a primary expression followed by no operator is the whole expression |
| DataOrientedRuns.BracedGroup | src/Parsing/DataOrientedParser.cs:31 | a braced group is its inner expression; a missing `)` adds an error there naming the braced group, and the group still yields the inner value |
| DataOrientedRuns.StmtOfExpr | src/Parsing/DataOrientedParser.cs:68 | a statement that starts like an expression is that expression |
| DataOrientedRuns.StmtNone | src/Parsing/DataOrientedParser.cs:68 | on any other token a statement reads nothing and expects `;`, a number or `(` |
| DataOrientedRuns.MissingOperatorProgram | src/Parsing/DataOriented/Step.cs:156-170 | on "(5 4)", the program loop takes both numbers and ends early on the stray `)` |
| DataOrientedRuns.MissingOperatorGroup | src/Parsing/DataOrientedParser.cs:31 | the braced group of "(5 4)" is the 5, with an error at the 4 where `)` was expected |
| DataOrientedRuns.MissingOperator | tests/DataOrientedParserTests.cs:10-20 | "(5 4)" parses as the two statements 5 and 4, with the errors at 2 (braced group, expecting `)`) and at 3 (statement, expecting `(`, a number or `;`) |
| Ast.FoldLeftSnoc | src/Parsing/Node.cs:11-16 | extending a left-grouped chain by one operand puts the whole chain so far on the left of the new `Binary` |
| Ast.FoldLeft | src/csharp/Parsing/PrimitiveParser.cs:24-28 | the left fold the operator loops build: with any operand after the first, the last operator and operand are the root's |
| ParserExamples.EmptyProgram | tests/HelpfulParserTests.cs:20-25 | "" gives no statement and no error, in every parser whose loop ends on `Eof` |
| ParserExamples.MissingOperand | tests/HelpfulParserTests.cs:171-176 | "1 +" gives no statement and one failure at index 2, which the helpful parser reports as expecting a number or `(` in "expression" |
| ParserExamples.MissingOperandFollowedByNop | tests/HelpfulParserTests.cs:178-183 | "1 + ;" gives the same failure and then the empty statement |
| ParserExamples.OpenGroup | tests/HelpfulParserTests.cs:185-192 | in "(1 + 2" the group's inner sum is `1 + 2` and the input ends where `)` was expected |
| ParserExamples.MismatchedParenthesesHelpful | tests/HelpfulParserTests.cs:185-192 | the helpful parser keeps `1 + 2` as the statement of "(1 + 2" and reports one error at 4, expecting `)` in "braced group" |
| ParserExamples.MismatchedParenthesesPrimitive | tests/PrimitiveParserTests.cs:180-185 | the primitive parser gives no statement for "(1 + 2" and no error |
| ParserExamples.MismatchedParenthesesLegacy | src/csharp/Parsing/HelpfulParser.cs:44-57 | the older helpful parser gives no statement for "(1 + 2" and reports "Expected ')'" at 4 |
| ParserExamples.MultipleStatements | tests/HelpfulParserTests.cs:41-48 | "123 45.67" gives two expression statements and no error |
| ParserExamples.ProductBindsTighter | tests/HelpfulParserTests.cs:110-129 | `a + b * c` groups as `a + (b * c)` for any additive and multiplicative operators |
| ParserExamples.GroupOverridesPrecedence | tests/HelpfulParserTests.cs:131-148 | `(a + b) * c` groups as `(a + b) * c` |
| ParserExamples.LeftAssociative | tests/HelpfulParserTests.cs:150-169 | two operators of one level group to the left: `a op b op' c` is `(a op b) op' c` |
| ParserExamples.OlderPrecedence | src/csharp/Parsing/PrimitiveParser.cs:22-40 | the older primitive parser, for all operators and values: `a op b op' c` is `a op (b op' c)` exactly when `op` is additive and `op'` multiplicative, and `(a op b) op' c` otherwise; it stops after the fifth token whether the list ends there or with `Eof` |
| ParserExamples.HelpfulOnMissingOperand | tests/HelpfulParserTests.cs:171-176 | the helpful parser object on "1 +" returns an empty program and hands exactly one error, at 2, to the callback |
| ParserExamples.StrayPlusAttempts | src/csharp/Parsing/HelpfulParser.cs:44-57 | a lone `+` fails once, at 0, for want of an operand |
| ParserExamples.SecondRunDropsError | src/csharp/Parsing/HelpfulParser.cs:100-107 | parsing a lone `+` twice with one older helpful parser reports "Expected number or '('" the first time and nothing the second |
| ParserExamples.SecondRunAnewReportsError | src/csharp/Parsing/HelpfulParser.cs:100-107 | with `_iLastError` reset at each parse, the second parse reports the same error again |
| DataOrientedParsing.GrammarSteps | src/Parsing/DataOrientedParser.cs:31-70 | the non-terminal steps of the table are the ones the constructor builds, with their names, builds, parts, tails and bounds |
| DataOrientedParsing.AddTokens | src/Parsing/DataOrientedParser.cs:21-30 | the nine terminals are built first, in the constructor's order |
| DataOrientedParsing.AddPrimary | src/Parsing/DataOrientedParser.cs:32 | `exprPrimary` is built next, an alternation of the number and the braced group |
| DataOrientedParsing.AddMultOp | src/Parsing/DataOrientedParser.cs:46 | the multiplicative operator, an alternation of `*`, `/` and `%` |
| DataOrientedParsing.AddPair | src/Parsing/DataOrientedParser.cs:44-47 | the pair of an operator and the operand after it, for each level |
| DataOrientedParsing.AddRest | src/Parsing/DataOrientedParser.cs:42-48 | the repetition of pairs, with no name, tail or bounds given |
| DataOrientedParsing.AddChain | src/Parsing/DataOrientedParser.cs:33-49 | a precedence level: the first operand, then the repetition of pairs |
| DataOrientedParsing.AddAddOp | src/Parsing/DataOrientedParser.cs:63 | the additive operator, an alternation of `+` and `-` |
| DataOrientedParsing.AddStatement | src/Parsing/DataOrientedParser.cs:68 | `stmt`, built after the braced group is bound |
| DataOrientedParsing.AddProgram | src/Parsing/DataOrientedParser.cs:70 | `_prog`, a repetition of statements whose tail is `Eof` alone |
| DataOrientedGrammar.TerminalsOk | src/Parsing/DataOrientedParser.cs:21-30 | no terminal of the grammar matches `Eof` |
| DataOrientedRuns.MissingOperatorInner | tests/DataOrientedParserTests.cs:10-20 | inside the braces of "(5 4)" the expression is 5, one token, no error |
| DataOrientedRuns.MissingOperatorFirst | tests/DataOrientedParserTests.cs:10-20 | the first statement of "(5 4)" is 5, two tokens read, with the braced-group error at 2 |
| DataOrientedRuns.MissingOperatorSecond | tests/DataOrientedParserTests.cs:10-20 | the second statement is 4, one token read, no error |
| DataOrientedRuns.EofOnly | src/Parsing/DataOrientedParser.cs:70 | input of `Eof` alone gives an empty program and no error |
| Descent.GroupFailurePoints | src/Parsing/HelpfulParser.cs:44-54 | a braced group adds a missing-`)` failure point only after an inner expression that gave a value, and never in the dialect that drops the group; a failed inner expression adds nothing of its own |

## Left out

- Console I/O is not modelled: `src/Program.cs`, `src/csharp/Program.cs`, the AST printers and `Extensions.WriteLn`. It is outside the core.
- Callbacks are not called. `Action<ParserError>`, the `ErrorReporter` delegate and `Program.Error` become a `reported` sequence that each report appends to, in order.
- `Lex` is not lazy. Its `yield return` is modelled as the whole token list, which is how its callers consume it (`ToArray`).
- `decimal.Parse` is not modelled. A literal's value is the exact rational value of its digits, as a `real`, with no 28-digit limit and no culture settings.
- `int` overflow is not modelled. Cursors, read counts and indices are unbounded integers. A C# list cannot hold enough tokens to make them wrap.
- `ParserError.GetHashCode` and generic variance (`out T`) are not modelled. They do not affect what a parse returns.
- The base class that `src/Parsing/HelpfulParser.cs`, `src/Parsing/PrimitiveParser.cs` and `src/Parsing/RailwayParser.cs` extend (`Parser(reportError)`, the cursor `I`, `IsAtEnd`, `Error`) is not part of this model. It is taken to work like the older one:
  - `IsAtEnd` holds past the last token or on `Eof`, as in `src/csharp/Parsing/HelpfulParser.cs`;
  - `Error(subject, expected)` reports `ParserError(I, subject, expected)`;
  - `Parse` stores the tokens and rewinds the cursor, as in `src/Parsing/Parser.cs`.
- The `Scover.Option` library is not part of this model. It becomes the `Option` datatype of `Wrappers`.
- `char.IsWhiteSpace` is written out as the set of characters it accepts (`Lexing.WhiteSpace`).
- Both lexers index a `string` of Unicode scalar values; the source indexes UTF-16 code units. A character outside the Basic Multilingual Plane (U+1F600, say) is one character here and two surrogate code units there. The source reports two stray characters for it, at i and i + 1, where the model reports one. Every extent, error index and the final `Eof` after it then sit one lower in the model than in the source. Inputs of the Basic Multilingual Plane alone agree exactly.
- The `Runner` of `src/csharp/Parsing/DataOrientedParser.cs` is a function value. `ParseResult.FailedAt` is an `Option`, so the struct's default `Token` is `None`.
- Nothing in `src/csharp/Parsing/DataOrientedParser.cs` uses `Production`, `ParseResult` or `Result`, and nothing calls its `Error`. The model gives their semantics, and proves that its productions report nothing.
- Steps.Parse: requires a well-formed table and a span ending with `Eof`. The source relies on both without checking them. On a table that breaks them, the source throws on an index, or recurses for ever through an unproductive cycle. Those runs are not modelled.
- GrammarBuilding.GrammarBuilder.AddTerminal: requires the terminal not to match `Eof`. The source does not assert this, but the engine reads the token after every step and relies on `Eof` being left there.
- GrammarBuilding.GrammarBuilder.SetStep2: requires the bound step either to be built earlier, or to follow a productive first part. The source does not assert this either. Without it a cycle may not read a token before it comes back, and parsing would not terminate.
- DataOrientedParsing.DataOrientedParser.Prog: requires at most `int.MaxValue` tokens, the default maximum of the program's repetition. A C# list cannot hold more. It also requires every number literal to carry its value. The source asserts this with `NotNull` when it builds the number (src/Parsing/DataOrientedParser.cs:30) and throws when it fails; `BuildNumber`'s 0 stands in for that throw and is never reached.
- DescentPrinting.RoundTrip: is stated only for dialects that have groups. In the older primitive parser a printed expression may need parentheses, which that parser cannot read.
- PrimitiveParsing.PrimitiveParser.Prog: models the statement loop with the one-token skip of the other parsers. The loop as written does not terminate on a statement start that reads nothing (see Findings). Where the loop as written halts, the two give the same statements (`PrimitiveParsing.GuardAgreesWhenHalting`).

## Findings

| source | as written | input that shows it | evidently intended | confidence | as-written member | corrected member |
|---|---|---|---|---|---|---|
| src/csharp/Lexing/Lexer.cs:50 | the final `Eof` spans from `_start`, where the last lexeme began, to the end | `1`: the literal covers [0, 1), and so does `Eof` | `Eof` is empty at the end of the input, as the newer scanner makes it (src/Lexing/Lexer.cs:54-55) | high, not executed | LegacyLexing.LegacyEofOverlapsLiteral | Lexing.Lexer.Lex, LexingProperties.EndsWithSingleEof |
| src/csharp/Parsing/HelpfulParser.cs:100 | `_iLastError` is set once and never reset, and `Parse` (src/Parsing/Parser.cs:10-15) resets only the cursor | parsing a lone `+` twice with one parser: the first parse reports "Expected number or '('" at 0, the second reports nothing | each parse reports its own errors, as a new parser would | medium, not executed | LegacyHelpfulParsing.LegacyHelpfulParser.Parse, ParserExamples.SecondRunDropsError | LegacyHelpfulParsing.LegacyHelpfulParser.ParseAnew, ParserExamples.SecondRunAnewReportsError |
| src/Parsing/PrimitiveParser.cs:12-20 | the statement loop has no guard for a statement that fails without reading | `)` then `Eof`: the statement fails at 0 without reading, and the loop runs again at 0 for ever | skip one token after a statement that read nothing, as the helpful parser does (src/Parsing/HelpfulParser.cs:19-29) | high, not executed | PrimitiveParsing.StrayParenStalls | PrimitiveParsing.PrimitiveParser.Prog, PrimitiveParsing.GuardAgreesWhenHalting |

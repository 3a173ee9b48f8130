# luederlang evaluation core in Dafny

luederlang is a small interpreted language written in Go. This project models its core:
- the lexer, which turns source text into tokens;
- the token kinds and keyword table;
- the object model: integers, floats, booleans, NULL, return values, errors, function values and builtins;
- the environment, a mutable name-to-object store;
- the tree-walking evaluator with its prefix and infix operators;
- the `len` and `help` builtins.

The Dafny modules and what each models. `evaluator.go` is split between `Operators` (its pure helpers) and `Evaluator` (the walk itself), `Objects` covers both `object.go` and `environment.go`, and `Numbers` and `Ast` supply what the Go code takes from its language and parser:

| module | models |
|---|---|
| `Numbers` | 64-bit two's-complement wrap-around, Go's truncating division, decimal rendering (`%d`/`%v` of integers), and the float operations as a parameter |
| `Token` | `token.go`: token kinds, the keyword table, `LookupIdent`, `LookupNumber` |
| `Lexer` | `lexer.go`: a `Lexer` class with the same cursor fields (`input`, `position`, `readPosition`, `ch`), specified by a pure function `Scan` from (input, position) to (token, next position) |
| `Ast` | the syntax tree the evaluator walks (the parser is not modelled) |
| `Objects` | `object.go` and `environment.go`: the `Object` variants, their type tags and `Inspect` renderings, and the `Environment` class whose `store` map `Set` updates in place |
| `Operators` | the pure operator helpers of `evaluator.go`: `isError`, `isTruthy`, the bang and minus prefixes, the four arithmetic operators and the four comparisons, and the infix dispatch |
| `Evaluator` | `Eval`, `evalProgram`, `evalBlockStatement`, `evalExpressions`, `evalIdentifier` and `evalIfExpression`, each as an imperative method over a shared `Environment`, proved equal to a pure big-step function `Evaluate` over a store |
| `EvaluatorProperties` | what evaluation may change in the store, when it cannot panic, how errors and returns propagate |
| `EvaluatorExamples` | programs from the evaluator's test tables, evaluated in the model |
| `Builtins` | `builtins.go`: `len` and `help` |

Faithfulness to the Go code:
- **Panics.** Where Go would panic, the model returns `Outcome.Panic`. This covers calling `Type()` on the nil `Object` that an empty block or program yields, and integer division by zero.
- **Integer overflow.** Integer `+ - * /` wrap around exactly as Go's `int64` does, including `MinInt64 / -1`.
- **Nil.** `isTruthy(nil)` is true.
- **Declarations.** `let`, `int` and `float` statements evaluate to NULL after binding.
- **Calls.** A call never applies its callee. It evaluates the callee and the arguments, returns an error from them if there is one, and otherwise evaluates to NULL.
- **String literals.** A string literal has no case in `Eval`, so it evaluates to NULL.
- **Return values.** A program unwraps only the outermost `ReturnValue`.
- **Division by a float zero.** This follows IEEE 754 and does not panic.

A `float` declaration does not convert its value to a float, and a call does not run the function body. The model follows the code in both.

## Model

| member | source | states |
|---|---|---|
| `Numbers.Wrap` | src/luederlang/evaluator/evaluator.go:273-375 | the int64 wrap-around used by every integer operator: the result is an int64 congruent to the input modulo 2^64, and is the input itself when that is in range |
| `Numbers.TruncDivRemainder` | src/luederlang/evaluator/evaluator.go:351-375 | Go's `/` truncates toward zero: what is left over after the truncated quotient is smaller than the divisor in magnitude and is zero or has the dividend's sign |
| `Numbers.GoQuotientOverflow` | src/luederlang/evaluator/evaluator.go:351-375 | int64 division overflows only for MinInt64 / -1, which wraps to MinInt64 |
| `Numbers.GoQuotientExact` | src/luederlang/evaluator/evaluator.go:351-375 | every other int64 quotient is the exact truncated quotient, with no wrap-around |
| `Numbers.NatToDecimal` | src/luederlang/object/object.go:34 | `%d` rendering of a natural number: non-empty, only decimal digits, no leading zero except for 0 itself |
| `Numbers.IntToDecimal` | src/luederlang/object/object.go:34 | `%d` of a signed integer: it starts with `-` iff the integer is negative, and the rest is decimal digits |
| `Numbers.DecimalRoundTrip` | src/luederlang/object/object.go:34 | reading the decimal rendering back gives the number again |
| `Numbers.IntDecimalRoundTrip` | src/luederlang/object/object.go:34 | the same for signed integers with a leading `-` |
| `Token.LookupIdent` | src/luederlang/token/token.go:59-76 | each of the nine keywords gets exactly its own kind (`fun` FUNCTION, `let` LET, `int` INT, `float` FLOAT, `true` TRUE, `false` FALSE, `if` IF, `else` ELSE, `return` RETURN), and every other word is IDENT |
| `Token.CountDots` | src/luederlang/token/token.go:79 | `strings.Count(s, ".")`, counted character by character (a definition; see the next row) |
| `Token.CountDotsIsMultiplicity` | src/luederlang/token/token.go:79 | the dot count equals the multiplicity of `.` in the string's multiset of characters |
| `Token.KeywordKindsDistinct` | src/luederlang/token/token.go:59-69 | the keyword table is injective, and `bool` is not a keyword although BOOL is a token kind (token.go:46) |
| `Token.CountDotsAppend` | src/luederlang/token/token.go:79 | the dot count is additive over concatenation |
| `Token.CountDotsZero` | src/luederlang/token/token.go:79 | the dot count is zero iff no character is a dot |
| `Token.CountDotsOne` | src/luederlang/token/token.go:79 | the dot count is one iff exactly one position holds a dot |
| `Token.FirstDot` | src/luederlang/token/token.go:79 | the index of the first dot: it holds a dot and everything before it is dot-free |
| `Token.SplitAt` | src/luederlang/token/token.go:79 | the dot count splits at any index into the count before it, the character itself and the count after it |
| `Token.LookupNumber` | src/luederlang/token/token.go:78-90 | INT_LITERAL iff there is no dot, FLOAT_LITERAL iff there is exactly one, ILLEGAL iff there are two or more |
| `Lexer.IsLetter` | src/luederlang/lexer/lexer.go:184-186 | letters are a-z, A-Z and `_` (a definition, no contract) |
| `Lexer.IsDigit` | src/luederlang/lexer/lexer.go:188-190 | digits are 0-9 and also `.` (a definition, no contract) |
| `Lexer.SkipWhile` | src/luederlang/lexer/lexer.go:135-182 | the cursor loops stop at the end of a maximal run: every character passed satisfies the test, and the stopping character is past the input or fails it |
| `Lexer.Scan` | src/luederlang/lexer/lexer.go:20-133 | the token and next position that `NextToken` yields from a position; every token advances the position, so lexing always progresses |
| `Lexer.ScanSkipsWhitespace` | src/luederlang/lexer/lexer.go:21 | leading whitespace does not change the token produced |
| `Lexer.ScanAtEnd` | src/luederlang/lexer/lexer.go:112-116 | at or past the end of the input the token is EOF with an empty literal |
| `Lexer.RunInsideInput` | src/luederlang/lexer/lexer.go:135-182 | a run of characters that excludes NUL stays inside the input, so the read loops never run past the end |
| `Lexer.ScanIdentifier` | src/luederlang/lexer/lexer.go:118-121 | a word starting with a letter yields its maximal letter run, classified by `LookupIdent` |
| `Lexer.ScanNumber` | src/luederlang/lexer/lexer.go:122-125 | a token starting with a digit or a dot is the maximal run of digits and dots, classified by `LookupNumber` (so `.5` is a FLOAT_LITERAL) |
| `Lexer.ScanOperators` | src/luederlang/lexer/lexer.go:26-70 | `==`, `!=` and `&&` are two-character tokens, and `\|\|` is one too but of kind LAND (lexer.go:39); a lone `=` or `!`, even as the last byte, is ASSIGN or BANG; a lone `&` or `\|` consumes the byte and yields Go's zero-valued token (empty kind and literal) |
| `Lexer.ScanString` | src/luederlang/lexer/lexer.go:42-46 | a string token holds the characters between the quotes, contains no quote, and is closed by a quote or the end of the input |
| `Lexer.ScanIllegal` | src/luederlang/lexer/lexer.go:116-131 | any byte that is not NUL, whitespace, a letter, a digit or one the switch handles gives ILLEGAL with that one byte as literal, and the cursor moves one byte |
| `Lexer.ScanComment` | src/luederlang/lexer/lexer.go:72-78 | a `//` comment yields no token: scanning continues from the newline, carriage return, tab or NUL that ends it |
| `Lexer.Lexer.New` | src/luederlang/lexer/lexer.go:14-18 | a new lexer is positioned on the first character |
| `Lexer.Lexer.ReadChar` | src/luederlang/lexer/lexer.go:150-158 | advances one character; the current character is NUL past the end |
| `Lexer.Lexer.PeekChar` | src/luederlang/lexer/lexer.go:160-166 | returns the next character, or NUL past the end, and changes nothing |
| `Lexer.Lexer.EatWhitespace` | src/luederlang/lexer/lexer.go:144-148 | moves to the end of the whitespace run |
| `Lexer.Lexer.ReadIdentifier` | src/luederlang/lexer/lexer.go:168-174 | returns the maximal letter run and stops after it |
| `Lexer.Lexer.ReadNumber` | src/luederlang/lexer/lexer.go:176-182 | returns the maximal digit-or-dot run and stops after it |
| `Lexer.Lexer.ReadString` | src/luederlang/lexer/lexer.go:135-142 | returns the text up to the closing quote or NUL, and stops on it |
| `Lexer.Lexer.SkipComment` | src/luederlang/lexer/lexer.go:72-78 | moves to the newline, carriage return, tab or NUL that ends the comment |
| `Lexer.Lexer.NextToken` | src/luederlang/lexer/lexer.go:20-133 | returns the token `Scan` gives for the current position and moves the cursor to the position `Scan` gives |
| `Objects.TypeOf` | src/luederlang/object/object.go:17-109 | each of the nine variants gets exactly its own `Type()` tag (INTEGER, STRING, FLOAT, BOOLEAN, NULL, RETURN_VALUE, ERROR, FUNCTION, BUILTIN), LIST is never produced, and nil has none |
| `Objects.TypeOfIdentifiesVariant` | src/luederlang/object/object.go:17-109 | the tag identifies the variant, so the evaluator's checks on `Type()` are checks on the kind of object |
| `Objects.TagNamesDistinct` | src/luederlang/object/object.go:17-28 | two tags have the same string iff they are the same tag |
| `Objects.Inspect` | src/luederlang/object/object.go:34-109 | the `Inspect()` rendering of each variant (a definition; its contract-bearing partners are the `Inspect*` lemmas below) |
| `Objects.JoinLength` | src/luederlang/object/object.go:94 | the length of `strings.Join`: the parts plus one separator between each consecutive pair |
| `Objects.Unwrapped` | src/luederlang/object/object.go:67 | strips every `ReturnValue` layer and leaves a non-`ReturnValue` object |
| `Objects.InspectSeesThroughReturn` | src/luederlang/object/object.go:67 | a return value renders as the value it wraps, however deeply nested |
| `Objects.InspectIntegerRoundTrip` | src/luederlang/object/object.go:34 | an integer's rendering parses back to the integer |
| `Objects.InspectError` | src/luederlang/object/object.go:75 | an error renders as `ERROR: ` followed by its message |
| `Objects.InspectConstants` | src/luederlang/object/object.go:41-109 | strings render as themselves, booleans as `true`/`false`, NULL as `null`, builtins as `built in function` |
| `Objects.InspectFunction` | src/luederlang/object/object.go:84-100 | a function renders as `fun(` + the parameters joined by `, ` + `) {\n` + body + `\n}` |
| `Objects.Environment.constructor` | src/luederlang/object/environment.go:3-6 | a new environment has an empty store |
| `Objects.Environment.Set` | src/luederlang/object/environment.go:13-16 | binds the name to the value, leaves every other binding alone, and returns the value |
| `Objects.Environment.Get` | src/luederlang/object/environment.go:18-21 | reports whether the name is bound, and its value if it is; changes nothing |
| `Objects.FreshEnvironmentLookup` | src/luederlang/object/environment.go:3-21 | a fresh environment binds nothing |
| `Objects.SetThenGet` | src/luederlang/object/environment.go:13-21 | after `Set(n, v)`, `Get(n)` returns v, and every other name reads as before |
| `Operators.IsError` | src/luederlang/evaluator/evaluator.go:133-138 | true exactly for error objects: nil is not an error |
| `Operators.IsTruthy` | src/luederlang/evaluator/evaluator.go:185-197 | a boolean is truthy iff it is true, NULL is falsy, and everything else (integers, errors, functions, nil) is truthy |
| `Operators.EvalBangPrefix` | src/luederlang/evaluator/evaluator.go:217-228 | panics iff the operand is nil; on a boolean or NULL it gives the negated truthiness; on anything else it gives the `type mismatch: !` error |
| `Operators.EvalMinusPrefix` | src/luederlang/evaluator/evaluator.go:230-239 | panics iff the operand is nil; negates integers with wrap-around; gives `0 - f` in float arithmetic for a float; anything else gives the `type mismatch: -` error |
| `Operators.EvalPrefixExpression` | src/luederlang/evaluator/evaluator.go:206-215 | `!` gives exactly `EvalBangPrefix`'s result and `-` exactly `EvalMinusPrefix`'s; any other operator gives `unknown operator: ` + operator + type, and it panics iff the operand is nil |
| `Operators.PrefixOperatorsMean` | src/luederlang/evaluator/evaluator.go:206-242 | at the operator level `!` negates a boolean and sends NULL to TRUE, and `-` negates an int64, MinInt64 wrapping to itself |
| `Operators.BangTwice` | src/luederlang/evaluator/evaluator.go:217-228 | `!!b` is b for a boolean, and `!!null` is false |
| `Operators.MinusTwice` | src/luederlang/evaluator/evaluator.go:230-239 | `--i` is i for every int64, MinInt64 included |
| `Operators.Arithmetic` | src/luederlang/evaluator/evaluator.go:273-375 | `+ - * /`: a panic iff an operand is nil or an integer is divided by integer zero; an integer iff both operands are integers, whose value is the int64-wrapped sum, difference or product, or Go's truncated quotient (`IntArith`); a float iff both are numeric and one is a float; otherwise the `type mismatch: L op R` error |
| `Operators.Comparison` | src/luederlang/evaluator/evaluator.go:377-485 | `< > == !=`: a panic iff an operand is nil; a boolean iff both are numeric, or the operator is `==`/`!=` on two booleans, with the mathematical answer for integers; otherwise the type-mismatch error |
| `Operators.EvalInfixExpression` | src/luederlang/evaluator/evaluator.go:244-270 | it panics iff an operand is nil or an integer is divided by zero, and any operator other than the eight gives the `How did you even do this... What operator is` error; which operation each of the eight reaches is stated by `ArithmeticDispatch` and `ComparisonDispatch` |
| `Operators.ArithmeticDispatch` | src/luederlang/evaluator/evaluator.go:249-257 | for all operands, `+`, `-`, `*`, `/` give exactly `Arithmetic` with addition, subtraction, multiplication and division respectively |
| `Operators.ComparisonDispatch` | src/luederlang/evaluator/evaluator.go:249-265 | for all operands, `<`, `>`, `==`, `!=` give exactly `Comparison` with less, greater, equal and not-equal respectively |
| `Operators.IntegerComparisonsMean` | src/luederlang/evaluator/evaluator.go:244-270 | at the operator level integer `<`, `>`, `==`, `!=` are the mathematical comparisons, and boolean `==`/`!=` compare values |
| `Operators.IntegerArithmeticExact` | src/luederlang/evaluator/evaluator.go:273-349 | in-range integer sums, differences and products are exact, and MaxInt64 + 1 wraps to MinInt64 |
| `Operators.IntegerDivisionTruncates` | src/luederlang/evaluator/evaluator.go:351-375 | integer division rounds toward zero, e.g. -7 / 2 is -3 |
| `Operators.IntegerDivisionOverflow` | src/luederlang/evaluator/evaluator.go:351-375 | MinInt64 / -1 is MinInt64 |
| `Operators.NotEqualNegatesEqual` | src/luederlang/evaluator/evaluator.go:429-485 | wherever `==` gives a boolean, `!=` gives its negation, and wherever `==` is an error, so is `!=` |
| `Operators.GreaterIsFlippedLess` | src/luederlang/evaluator/evaluator.go:377-427 | `a > b` is `b < a` on numeric pairs (on mismatched pairs the error messages differ in operator and order) |
| `Operators.IntegerAddMulCommute` | src/luederlang/evaluator/evaluator.go:273-323 | integer `+` and `*` are commutative |
| `Evaluator.Evaluate` | src/luederlang/evaluator/evaluator.go:15-105 | the big-step meaning of `Eval`, case by case, as a function of the node and the store (a definition; `Evaluator.Eval` is proved equal to it and the `EvaluatorProperties` lemmas state its properties) |
| `Evaluator.Declare` | src/luederlang/evaluator/evaluator.go:36-55 | the shared meaning of `let`, `int` and `float` (a definition; see `EvaluatorProperties.DeclarationBinds`) |
| `Evaluator.EvaluateBlock` | src/luederlang/evaluator/evaluator.go:156-170 | the big-step meaning of `evalBlockStatement` (a definition; see `Evaluator.EvalBlockStatement` and `EvaluatorProperties.BlockFrame`) |
| `Evaluator.EvaluateProgram` | src/luederlang/evaluator/evaluator.go:140-154 | the big-step meaning of `evalProgram` (a definition; see `Evaluator.EvalProgram` and `EvaluatorProperties.ProgramIsUnwrappedBlock`) |
| `Evaluator.EvaluateExpressions` | src/luederlang/evaluator/evaluator.go:107-119 | the big-step meaning of `evalExpressions` (a definition; see `Evaluator.EvalExpressions` and `EvaluatorProperties.ExpressionsShape`) |
| `Evaluator.LookupIdentifier` | src/luederlang/evaluator/evaluator.go:121-127 | a bound name gives its value; an unbound name gives `identifier not found: ` + name |
| `Evaluator.EvalIdentifier` | src/luederlang/evaluator/evaluator.go:121-127 | returns the lookup result and leaves the environment unchanged |
| `Evaluator.Eval` | src/luederlang/evaluator/evaluator.go:15-105 | the result and the new environment are those of the big-step function `Evaluate` |
| `Evaluator.EvalDeclaration` | src/luederlang/evaluator/evaluator.go:36-55 | a `let`/`int`/`float` statement stops on an error or panic in its value; otherwise it binds the value and yields NULL, as `Evaluate` says |
| `Evaluator.EvalExpressions` | src/luederlang/evaluator/evaluator.go:107-119 | evaluates left to right and stops at the first error, as `EvaluateExpressions` says |
| `Evaluator.EvalProgram` | src/luederlang/evaluator/evaluator.go:140-154 | runs statements until a return (unwrapped) or an error, as `EvaluateProgram` says |
| `Evaluator.EvalBlockStatement` | src/luederlang/evaluator/evaluator.go:156-170 | runs statements until a return (kept wrapped) or an error, as `EvaluateBlock` says |
| `Evaluator.EvalIfExpression` | src/luederlang/evaluator/evaluator.go:172-183 | evaluates the condition and then the chosen branch, or yields NULL with no `else`, as `Evaluate` says |
| `EvaluatorProperties.ChangesOnlyCompose` | src/luederlang/evaluator/evaluator.go:156-170 | store changes confined to two name sets compose into the union |
| `EvaluatorProperties.EvaluateFrame` | src/luederlang/evaluator/evaluator.go:15-105 | evaluating a node binds only names the node declares outside function bodies; every other binding is kept |
| `EvaluatorProperties.IfFrame` | src/luederlang/evaluator/evaluator.go:172-183 | the `if` case of the frame property: only names declared in the condition or the branch taken change |
| `EvaluatorProperties.BlockFrame` | src/luederlang/evaluator/evaluator.go:156-170 | the same for a block |
| `EvaluatorProperties.ProgramFrame` | src/luederlang/evaluator/evaluator.go:140-154 | the same for a program |
| `EvaluatorProperties.ExpressionsFrame` | src/luederlang/evaluator/evaluator.go:107-119 | the same for an argument list |
| `EvaluatorProperties.NoDeclarationsNoChange` | src/luederlang/evaluator/evaluator.go:15-105 | a node that declares nothing leaves the store unchanged |
| `EvaluatorProperties.ProgramIsUnwrappedBlock` | src/luederlang/evaluator/evaluator.go:140-170 | running statements as a program is running them as a block and then unwrapping one `ReturnValue` |
| `EvaluatorProperties.ProgramNodeIsUnwrappedBlockNode` | src/luederlang/evaluator/evaluator.go:57-64 | the same at the node level, for `Program` and `BlockStatement` |
| `EvaluatorProperties.SafeNeverPanics` | src/luederlang/evaluator/evaluator.go:15-105 | a node with no `/`, no empty block and no empty program, evaluated over nil-free bindings, never panics and keeps the bindings nil-free |
| `EvaluatorProperties.SafeBlockNeverPanics` | src/luederlang/evaluator/evaluator.go:156-170 | the same for a block |
| `EvaluatorProperties.SafeProgramNeverPanics` | src/luederlang/evaluator/evaluator.go:140-154 | the same for a program |
| `EvaluatorProperties.SafeExpressionsNeverPanic` | src/luederlang/evaluator/evaluator.go:107-119 | the same for an argument list |
| `EvaluatorProperties.ExpressionsShape` | src/luederlang/evaluator/evaluator.go:107-119 | evalExpressions yields either exactly one error, or one error-free value per expression |
| `EvaluatorProperties.CallsYieldNullOrError` | src/luederlang/evaluator/evaluator.go:25-34 | a call that does not panic yields NULL or an error, because no function is ever applied |
| `EvaluatorProperties.AbortsPropagate` | src/luederlang/evaluator/evaluator.go:72-102 | proof step: one clause of `Evaluate` per node kind, collected so that an error or panic in an operand, condition, declared value or returned value is the whole result |
| `EvaluatorProperties.DeclarationBinds` | src/luederlang/evaluator/evaluator.go:36-55 | proof step: the declaration clause of `Evaluate`, a value that is not an error is bound and the statement yields NULL |
| `EvaluatorProperties.IfSelectsBranch` | src/luederlang/evaluator/evaluator.go:172-197 | proof step: the `if` clause of `Evaluate`, a truthy condition selects the consequence, a falsy one the alternative or NULL |
| `EvaluatorProperties.FunctionLiteralCaptures` | src/luederlang/evaluator/evaluator.go:17-20 | proof step: the function-literal clause of `Evaluate`, a function value holding its parameters, body and environment, with no change to the store |
| `EvaluatorExamples.InfixRule` | src/luederlang/evaluator/evaluator.go:79-89 | proof step for the examples: evaluate left, then right, then apply the operator |
| `EvaluatorExamples.PrefixRule` | src/luederlang/evaluator/evaluator.go:72-77 | proof step for the examples: the prefix clause of `Evaluate` |
| `EvaluatorExamples.LetRule` | src/luederlang/evaluator/evaluator.go:36-41 | proof step for the examples: the `let` clause of `Evaluate` |
| `EvaluatorExamples.ReturnRule` | src/luederlang/evaluator/evaluator.go:97-102 | proof step for the examples: the `return` clause of `Evaluate` |
| `EvaluatorExamples.IfRule` | src/luederlang/evaluator/evaluator.go:172-183 | proof step for the examples: the `if` clause of `Evaluate` |
| `EvaluatorExamples.ProgramStep` | src/luederlang/evaluator/evaluator.go:140-154 | proof step for the examples: a program statement that neither returns nor fails passes control on |
| `EvaluatorExamples.ProgramStop` | src/luederlang/evaluator/evaluator.go:140-154 | proof step for the examples: a program statement that returns or fails ends the program |
| `EvaluatorExamples.BlockStep` | src/luederlang/evaluator/evaluator.go:156-170 | proof step for the examples: a block statement that neither returns nor fails passes control on |
| `EvaluatorExamples.BlockStop` | src/luederlang/evaluator/evaluator.go:156-170 | proof step for the examples: a block statement that returns or fails ends the block, still wrapped |
| `EvaluatorExamples.HalveAndDouble` | src/luederlang/evaluator/evaluator_test.go:46 | `50 / 2 * 2` is 50: division and multiplication associate to the left |
| `EvaluatorExamples.DivisionExample` | src/luederlang/evaluator/evaluator_test.go:46 | `50 / 2 * 2 + 10` is 60 |
| `EvaluatorExamples.PrecedenceProduct` | src/luederlang/evaluator/evaluator_test.go:50 | `5 + 10 * 2`, a subterm of the expression on that line, is 25 (multiplication binds tighter) |
| `EvaluatorExamples.PrecedenceQuotient` | src/luederlang/evaluator/evaluator_test.go:50 | `15 / 3` is 5 |
| `EvaluatorExamples.PrecedenceSum` | src/luederlang/evaluator/evaluator_test.go:50 | `5 + 10 * 2 + 15 / 3` is 30 |
| `EvaluatorExamples.PrecedenceDoubled` | src/luederlang/evaluator/evaluator_test.go:50 | `(5 + 10 * 2 + 15 / 3) * 2`, a subterm of the expression on that line, is 60 |
| `EvaluatorExamples.PrecedenceExample` | src/luederlang/evaluator/evaluator_test.go:50 | `(5 + 10 * 2 + 15 / 3) * 2 + -10` is 50 |
| `EvaluatorExamples.ReturnExample` | src/luederlang/evaluator/evaluator_test.go:67 | `9; return 2 * 5; 9;` is 10 |
| `EvaluatorExamples.NestedReturnExample` | src/luederlang/evaluator/evaluator_test.go:69-80 | a return inside a nested if ends the outer block too |
| `EvaluatorExamples.MismatchExample` | src/luederlang/evaluator/evaluator_test.go:227-230 | `5 + true; 5;` is `type mismatch: INTEGER + BOOLEAN` |
| `EvaluatorExamples.PrefixAndIdentifierErrors` | src/luederlang/evaluator/evaluator_test.go:231-266 | `-true` and `foobar` give their error messages |
| `EvaluatorExamples.LetSum` | src/luederlang/evaluator/evaluator_test.go:296 | with a and b bound to 5, `a + b + 5` is 15 |
| `EvaluatorExamples.LetTail` | src/luederlang/evaluator/evaluator_test.go:296 | with a and b bound to 5, `let c = a + b + 5; c;` is 15 and binds c |
| `EvaluatorExamples.LetExample` | src/luederlang/evaluator/evaluator_test.go:296 | `let a = 5; let b = a; let c = a + b + 5; c;` is 15 and binds a, b and c |
| `EvaluatorExamples.OneGreaterThanTwo` | src/luederlang/evaluator/evaluator_test.go:169 | `1 > 2` is false |
| `EvaluatorExamples.TenGreaterThanOne` | src/luederlang/evaluator/evaluator_test.go:68 | `10 > 1` is true |
| `EvaluatorExamples.IfFalseExample` | src/luederlang/evaluator/evaluator_test.go:202 | `if (1 > 2) { 10 }` is NULL |
| `EvaluatorExamples.IfTruthyExample` | src/luederlang/evaluator/evaluator_test.go:200 | `if (1) { 10 }` is 10 |
| `EvaluatorExamples.IfElseExample` | src/luederlang/evaluator/evaluator_test.go:203 | `if (1 > 2) { 10 } else { 20 }` is 20 |
| `EvaluatorExamples.ComparisonEqualsTrue` | src/luederlang/evaluator/evaluator_test.go:181 | `(1 < 2) == true` is true |
| `EvaluatorExamples.TripleBang` | src/luederlang/evaluator/evaluator_test.go:152 | `!!!true` is false |
| `EvaluatorExamples.DoubleReturnExample` | src/luederlang/evaluator/evaluator.go:140-154 | a program unwraps a single return layer, so a returned return stays wrapped once |
| `EvaluatorExamples.NilExample` | src/luederlang/evaluator/evaluator.go:156-170 | an empty program yields nil, and `-` applied to `if (true) {}`, whose branch is an empty block and so yields nil, panics |
| `Builtins.LenBuiltin` | src/luederlang/evaluator/builtins.go:9-21 | an integer iff there is exactly one string argument, and then its length; otherwise the arity error or the `len operation only supported on strings` error |
| `Builtins.HelpBuiltin` | src/luederlang/evaluator/builtins.go:22-29 | exactly `visit https://github.com/ryanlueds/luederlang` when there are no arguments, and the arity error otherwise |
| `Builtins.TableEntries` | src/luederlang/evaluator/builtins.go:8-39 | the builtin table holds exactly `len`, `help` and `print`, each bound to its own function |
| `Builtins.ArityErrorReportsCount` | src/luederlang/evaluator/builtins.go:12 | the `got=` part of the arity error reads back as the number of arguments |
| `Builtins.LenOfConcatenation` | src/luederlang/evaluator/builtins.go:16 | `len` is exact and additive over concatenation |
| `Builtins.TableNotConsulted` | src/luederlang/evaluator/evaluator.go:121-127 | `len` is in the builtin table but is never found by the evaluator, which looks only in the environment |

## Left out

- The parser and the `String()` of syntax nodes are not part of this model. Programs are built as trees, and `Inspect` takes the rendering of a function body as a parameter.
- Float arithmetic, comparison and `%v` formatting are not modelled bit for bit. A float is an opaque 64-bit payload, and these operations are the `FloatOps` parameter.
- Operators.EvalMinusPrefix: for a float the result is `fl.sub(fl.fromInt(0), f)`, Go's `0 - f` (evaluator.go:235). What that float is depends on `FloatOps`, for the reason above.
- The `print` builtin and the `fmt.Printf` on an unknown infix operator (evaluator.go:267) write to standard output and are not modelled. The error value returned after that Printf is modelled.
- `main.go` and `repl.go` (file and console I/O) are not part of this model.
- Function application and parent scopes do not exist in the code: a call never runs its function. The model therefore has neither, and the `let a = 9; a = 7; a` reassignment cases at evaluator_test.go:297-298 are not modelled.
- String literal evaluation and string `+` are absent from the code. A string literal evaluates to NULL, as `Eval`'s final `return NULL` does.
- Pointer identity of objects is not modelled; objects are values. `isTruthy` and `evalBangPrefixExpression` switch on the pointers TRUE, FALSE and NULL, and `==`/`!=` on two booleans compare pointers (evaluator.go:453, 482). Every boolean the evaluator makes comes from `nativeBoolToBooleanObject` (evaluator.go:199-204) or from the bang operator's direct TRUE/FALSE (evaluator.go:217-224), which return only the shared TRUE or FALSE, and there is a single NULL. So pointer equality coincides with value equality, and treating them as values changes no result.
- One `char` stands for one byte throughout: lexer input and the contents of string objects. `len` (builtins.go:16) counts bytes, and the model's `|v|` counts characters, so the two agree only under this reading. Non-ASCII text, whose characters are several bytes in Go, is not modelled byte for byte.
- Go's `string(l.ch)` turns a byte of 128 or more into a two-byte UTF-8 literal. The model keeps the one character.
- Panics are results (`Outcome.Panic` with a reason string), not an unwinding of the Go stack.
- `EvaluatorProperties.SafeNeverPanics`: `Safe` is a sufficient condition for the absence of panics, not a characterisation. Many programs with `/` do not panic either.

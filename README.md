# A verified model of a line-numbered BASIC interpreter's engine

This project models the interpretation engine of a small BASIC interpreter in Dafny:

- the **program image** (`Program`): source text and parsed statement per line number, and the
  request slot through which statements steer the run loop (-2 no request, -1 END, anything else a
  jump target);
- the seven **statements** (REM, LET, PRINT, INPUT, END, GOTO, IF) and what executing each does to
  the variable store, the printed values and the request slot, including the decimal-to-int32
  converter and trimming used by INPUT;
- the **statement parser** on token lists, with the IF comparator search and lhs/rhs split;
- the **RUN loop** over the program image, and the store/remove decision for a numbered line and
  immediate execution of a statement typed without a number.

Expressions are abstract: an `Expr` is the token list it was read from, `Syntax.read` says whether the
expression reader consumes exactly a token list or which error it raises, `Syntax.toInteger` stands for the string library's integer
conversion, and an `Evaluator` gives a value or an error message. Nothing is claimed about precedence,
division or overflow.

Layout: `wrappers.dfy` (Option, Result, Outcome), `text.dfy` (character helpers, ASCII upper-casing),
`expressions.dfy`, `statements.dfy` (the `Stmt` datatype), `program.dfy` (module `ProgramImage`),
`number_input.dfy` (module `NumberInput`), `execution.dfy` (module `Execution`),
`statement_parser.dfy` (module `StatementParser`), `interpreter.dfy` (module `Interpreter`).

Each imperative part of the source is a method that mirrors its loop and is proved equal to a pure
specification function: `ParseInteger` to `ParseIntegerSpec`, `Trim` to `Trimmed`, `ReadInteger` to
`ReadValue`, `Execute` to `Exec`, `ParseStatementWithKeyword` to `ParseStatement`, and `RunProgram` to
`Run`. The lemmas state the source's promises about those functions.

The statement set is the closed datatype `Statements.Stmt`; its constructors keep their arguments as
given (LET its name and expression, GOTO its target, IF its sides, comparator and target), END carries
nothing, and the IF comparator is an unrestricted string, checked only by `Exec`.

Behaviour of the code that the model keeps, though a reader might not expect it:
- the reserved-name check of LET and INPUT happens at execution, not at parse time;
- GOTO and IF targets are any token of digits and signs that converts; a token such as "-1", if the
  scanner yields one, converts to a negative target, and -1 and -2 collide with the END and
  "no request" values of the slot;
- a jump to a line without a statement is not an error: the run goes on at the next stored line above
  the target;
- INPUT takes the first token as its name and ignores the rest; END ignores trailing tokens;
- a request left in the slot by a GOTO, IF or END typed without a number is not discarded; a later RUN
  honours it when its first line has no parsed statement.

## Model

| member | source | states |
|---|---|---|
| `ProgramImage.Program.constructor` | Basic/program.cpp:15 | an empty image with no pending request |
| `ProgramImage.Program.Clear` | Basic/program.cpp:21-28 | both tables empty, the slot back to -2 |
| `ProgramImage.Program.AddSourceLine` | Basic/program.cpp:30-39 | the text of the line is inserted or replaced, its old statement dropped, every other line and the slot unchanged, the invariant kept |
| `ProgramImage.Program.RemoveSourceLine` | Basic/program.cpp:41-48 | text and statement of the line deleted, a no-op for an absent line, the invariant kept |
| `ProgramImage.Program.GetSourceLine` | Basic/program.cpp:50-54 | the stored text, or "" for an absent line |
| `ProgramImage.Program.SetParsedStatement` | Basic/program.cpp:56-69 | fails with LINE NUMBER ERROR exactly when the line has no text, leaving both tables unchanged; otherwise installs or replaces the statement |
| `ProgramImage.Program.GetParsedStatement` | Basic/program.cpp:71-75 | the statement of the line, or none when it has none |
| `ProgramImage.Program.GetFirstLineNumber` | Basic/program.cpp:77-80 | the least stored line, or -1 when there are none |
| `ProgramImage.Program.GetNextLineNumber` | Basic/program.cpp:82-86 | the least stored line strictly above the argument, which need not be stored, or -1 when none lies above |
| `ProgramImage.FirstKey` | Basic/program.cpp:77-80 | the least element of the key set, -1 for the empty set |
| `ProgramImage.NextKey` | Basic/program.cpp:82-86 | the upper bound: the least key strictly above n, -1 when no key lies above n |
| `ProgramImage.Program.RequestNextLine` | Basic/program.cpp:88 | the slot holds the target; the tables are unchanged |
| `ProgramImage.Program.RequestEnd` | Basic/program.cpp:90 | the slot holds -1; the tables are unchanged |
| `ProgramImage.Program.HasRequest` | Basic/program.cpp:92 | true exactly when the slot holds something other than -2 |
| `ProgramImage.Program.ConsumeRequest` | Basic/program.cpp:94-98 | returns the slot's value and resets it to -2 |
| `Execution.IsReservedKeyword` | Basic/statement.cpp:23-28 | a name is reserved when its upper-cased spelling is one of the thirteen keywords |
| `Execution.ReservedIgnoresCase` | Basic/statement.cpp:23-28 | every spelling that differs from a keyword only in the case of its letters is reserved |
| `Execution.ReservedExamples` | Basic/statement.cpp:23-28 | "let" and "Then" are reserved, "x" is not |
| `Execution.Exec` | Basic/statement.cpp:30-112 | only END, GOTO and IF can change the slot; an error leaves slot, variables and output as they were; only PRINT extends the output; only INPUT consumes replies; no variable is ever unbound |
| `Execution.RemIsNoOp` | Basic/statement.cpp:30-32 | REM changes nothing, whatever its comment |
| `Execution.LetRejectsReserved` | Basic/statement.cpp:34-36 | LET with a reserved name raises SYNTAX ERROR before any evaluation and changes nothing |
| `Execution.LetBinds` | Basic/statement.cpp:34-39 | LET binds the name to the expression's value; the name reads back that value, other variables, output, input and slot are unchanged |
| `Execution.LetEvalError` | Basic/statement.cpp:37 | an evaluation error in LET is raised and changes nothing |
| `Execution.PrintEmitsOne` | Basic/statement.cpp:41-45 | PRINT appends exactly its expression's value to the output and changes neither variables nor slot |
| `NumberInput.ParseIntegerSpec` | Basic/statement.cpp:47-62 | an accepted text is an optional sign and at least one digit, and its value lies in the 32-bit range |
| `NumberInput.ParseInteger` | Basic/statement.cpp:47-62 | the digit loop with its early guard succeeds exactly when the specification accepts, with the same value |
| `NumberInput.ParseIntegerRoundTrip` | Basic/statement.cpp:47-62 | every 32-bit integer written in decimal is read back as itself |
| `NumberInput.ParseIntegerRejects` | Basic/statement.cpp:48-54 | the empty text, a lone sign and any non-digit after the sign are rejected |
| `NumberInput.ParseIntegerLimits` | Basic/statement.cpp:55-61 | "-2147483648" and "2147483647" are accepted, "2147483648" is rejected |
| `NumberInput.DigitsValuePrefix` | Basic/statement.cpp:53-57 | a prefix of a digit string never has a larger value, which makes the early guard sound |
| `NumberInput.Trim` | Basic/statement.cpp:76-79 | the two scans produce the trimmed reply |
| `NumberInput.Trimmed` | Basic/statement.cpp:76-79 | the trimmed reply is no longer than the reply and neither starts nor ends with a space or tab |
| `NumberInput.TrimmedSlice` | Basic/statement.cpp:76-79 | the trimmed reply is the slice between the first and last non-blank characters, with only spaces and tabs outside it |
| `NumberInput.ReadValue` | Basic/statement.cpp:67-87 | the value read is 32-bit, the replies left are a suffix of those given, some are consumed when a value is read, and exhausting the replies leaves none |
| `NumberInput.ReadValueFirstValid` | Basic/statement.cpp:67-87 | the first reply whose trimmed text converts is the value read, and only the replies after it remain |
| `NumberInput.ReadInteger` | Basic/statement.cpp:67-87 | the re-prompt loop returns what the reply specification gives |
| `Execution.InputRejectsReserved` | Basic/statement.cpp:64-66 | INPUT with a reserved name raises SYNTAX ERROR, reads no reply and changes nothing |
| `Execution.InputReadsFirstValidReply` | Basic/statement.cpp:64-87 | INPUT binds the value of the first reply that converts after trimming, drops the replies before it, and keeps the slot |
| `Execution.InputWithoutValidReply` | Basic/statement.cpp:71-73 | when no reply converts, INPUT raises INVALID NUMBER and binds nothing |
| `Execution.GotoAndEndRequest` | Basic/statement.cpp:90-98 | GOTO always writes its target and END always writes -1; neither touches the state |
| `Execution.Compare` | Basic/statement.cpp:103-110 | a comparison result exists exactly for the six comparators |
| `Execution.CompareRelations` | Basic/statement.cpp:104-109 | "=" is integer equality and "<" integer less-than; "<>" negates "=", ">" swaps "<", ">=" negates "<", "<=" is "<" or "=" |
| `Execution.IfJumpsWhenTrue` | Basic/statement.cpp:100-112 | IF evaluates both sides and requests its target exactly when the comparison holds, leaving the slot as it was otherwise |
| `Execution.IfEvaluatesLeftFirst` | Basic/statement.cpp:100-102 | IF evaluates its left side before its right side for every comparator; the first evaluation error is raised and state and slot are unchanged |
| `Execution.IfUnknownComparator` | Basic/statement.cpp:100-110 | an unknown comparator raises SYNTAX ERROR after both sides evaluate; an evaluation error comes first |
| `Execution.Execute` | Basic/statement.cpp:30-112 | the execute methods change the state and the request slot exactly as `Exec` says and leave both tables alone |
| `StatementParser.IsNumberToken` | Basic/Basic.cpp:258-262 | a target token is non-empty and made of digits, '+' and '-' only |
| `StatementParser.NumberTokenExamples` | Basic/Basic.cpp:258-262 | a number token is non-empty digits and signs only, so "+-" passes and "4a" does not |
| `StatementParser.IndexOfThen` | Basic/Basic.cpp:207-212 | the position of the first token reading THEN in any case, none before it |
| `StatementParser.IndexOfComparator` | Basic/Basic.cpp:220-222 | the position of the first "<", ">" or "=" token, none before it |
| `StatementParser.ComparatorAt` | Basic/Basic.cpp:222-228 | "<" then ">" gives "<>", "<" or ">" then "=" gives "<=" or ">=", "=" never combines |
| `StatementParser.CollectCondition` | Basic/Basic.cpp:205-212 | the loop collects exactly the tokens before the first THEN and tells whether there was one |
| `StatementParser.FindComparator` | Basic/Basic.cpp:218-231 | the loop finds the first comparator token and the comparator it forms, or -1 |
| `StatementParser.ParseIfStatement` | Basic/Basic.cpp:201-253 | the IF branch gives the result of the IF grammar |
| `StatementParser.ParseIfSplits` | Basic/Basic.cpp:205-252 | a parsed IF's left side, comparator tokens and right side are exactly the tokens before the first THEN; both sides are non-empty and accepted by the expression reader; the target is the converted token after THEN |
| `StatementParser.ParseIfRoundTrip` | Basic/Basic.cpp:201-253 | a written IF (sides, comparator, THEN, target) parses back to the same statement when no comparator is absorbed and the left side holds no comparator |
| `StatementParser.ParseIfMissingSide` | Basic/Basic.cpp:232-235 | no comparator, an empty left side or an empty right side is SYNTAX ERROR |
| `StatementParser.ParseIfTargetErrors` | Basic/Basic.cpp:213-216 | a target token that is not a number token is SYNTAX ERROR; one that does not convert raises the converter's own error |
| `StatementParser.ParseIfNeedsThenAndTarget` | Basic/Basic.cpp:207-213 | a missing THEN or a missing target is SYNTAX ERROR |
| `StatementParser.SimpleStatementGrammar` | Basic/Basic.cpp:152-200 | LET needs a name, "=" and an expression; GOTO a number token that converts, a missing or non-number token being SYNTAX ERROR and a failed conversion raising the converter's error; PRINT an expression; INPUT a name; END and REM always parse; other keywords are SYNTAX ERROR |
| `StatementParser.ParseStatementWithKeyword` | Basic/Basic.cpp:152-256 | the keyword dispatch gives the result of the grammar for every keyword |
| `StatementParser.ParseIf` | Basic/Basic.cpp:201-253 | a parsed IF has one of the six comparators, two non-empty sides and a token after its THEN |
| `StatementParser.ParseStatement` | Basic/Basic.cpp:152-256 | a parsed statement is of the kind its keyword names; an unknown keyword is SYNTAX ERROR |
| `StatementParser.ParseRemainder` | Basic/Basic.cpp:133-150 | no tokens give an empty REM; otherwise a parsed statement is of the kind named by the upper-cased first token |
| `StatementParser.ParseStatementFromRemainder` | Basic/Basic.cpp:133-150 | an empty remainder is an empty REM; otherwise the upper-cased first token is the keyword |
| `Interpreter.Run` | Basic/Basic.cpp:271-294 | a run only appends to the printed values and never unbinds a variable |
| `Interpreter.RunProgram` | Basic/Basic.cpp:271-294 | the loop over the program object ends as the run specification says, with the tables unchanged |
| `Interpreter.RunCommand` | Basic/Basic.cpp:110-113 | RUN starts the loop at the first stored line |
| `Interpreter.RunFuelMonotone` | Basic/Basic.cpp:271-294 | a run that ended within its step budget ends the same way with a larger one |
| `Interpreter.RunEmptiesSlot` | Basic/Basic.cpp:279-292 | once a run has taken a turn, the slot is empty when it stops |
| `Interpreter.ExecFailureKeepsRequest` | Basic/Basic.cpp:279-283 | a statement that raised an error has not written the slot, whatever it held |
| `Interpreter.EndHalts` | Basic/Basic.cpp:286-288 | END halts the run at once with the state unchanged |
| `Interpreter.ErrorStopsRun` | Basic/Basic.cpp:281-284 | an execution error stops the run on that line without advancing |
| `Interpreter.GotoAbsentLineFallsThrough` | Basic/Basic.cpp:274-291 | a jump to a line without a statement continues at the first stored line above the target |
| `Interpreter.GotoMinusTwoIsNoJump` | Basic/Basic.cpp:286-291 | GOTO -2 writes the "no request" value, so the run moves to the next line |
| `Interpreter.GotoMinusOneIsEnd` | Basic/Basic.cpp:286-288 | GOTO -1 writes the END value, so the run halts |
| `Interpreter.StaleRequestRedirectsRun` | Basic/Basic.cpp:274-289 | a request left in the slot redirects a run whose first line has no statement |
| `Interpreter.LastLineEndsRun` | Basic/Basic.cpp:290-293 | after the highest line, a statement that requested nothing ends the run |
| `Interpreter.RunLetPrintEnd` | Basic/Basic.cpp:271-294 | 10 LET X = 1, 20 PRINT X, 30 END prints 1 and halts |
| `Interpreter.RunIfSkipsLine` | Basic/Basic.cpp:271-294 | 10 LET X = 5, 20 IF X > 3 THEN 40, 30 PRINT 0, 40 PRINT 1 prints only 1 |
| `Interpreter.StoreProgramLine` | Basic/Basic.cpp:68-88 | a blank remainder removes the line; otherwise the text is stored before parsing and a parse error leaves it without a statement |
| `Interpreter.ExecuteImmediate` | Basic/Basic.cpp:104-109 | a statement typed without a number is parsed and executed once and its request stays in the slot |

## Left out

- The read-eval loop of `main`, printing of error messages, QUIT (process exit), HELP, LIST, the
  immediate REM no-op and the CLEAR command's clearing of the variable store (Basic/Basic.cpp:29-45,
  101-103, 114-128): console I/O and process control. `Program.Clear` itself is modelled.
- The INPUT prompt " ? " and the "INVALID NUMBER" lines printed before re-prompting: console output.
  Printed values are modelled as a `seq<int>` and the replies to INPUT as a `seq<string>`.
- The token scanner, `toUpperCase`, `trim` and `stringToInteger` of the utility library, which is not
  part of this model: statements are parsed from token lists, the raw-text slicing of remainders
  (Basic/Basic.cpp:73-79, 93-99, 142-148, 166-174, 238-247) is not modelled, a blank remainder is one
  with no tokens, re-scanning a space-joined token list is taken to give the same tokens,
  upper-casing folds ASCII letters, and integer conversion is the `Syntax.toInteger` parameter.
- `Statements.Stmt`: a REM keeps the tokens of its comment rather than the raw text.
- Expression parsing and evaluation (`parseExp`, `readE`, `Expression::eval`), which are not part of
  this model: they are the `Syntax.read` and `Evaluator` parameters. The message for tokens the reader leaves over
  (SYNTAX ERROR in the IF branch) is taken to be part of what `Syntax.read` reports.
- The variable store `EvalState`, which is not part of this model: it is a map value inside
  `Execution.State`; values are unbounded integers, with no claim about 32-bit arithmetic outside
  the INPUT converter.
- Ownership and deletion of statements and expressions: no semantic content here.
- The unused `isReserved` of Basic/Basic.cpp:264-269.
- The initial value of the request slot comes from a header that is not part of this model; it is
  taken to be -2.
- Interpreter.RunProgram: a run that never ends is cut off after `fuel` turns and reported as
  `OutOfFuel`; the source would loop forever.
- Interpreter.StoreProgramLine: the line number is given already converted; the error that
  `setParsedStatement` could raise here cannot happen, because the text was stored just before.

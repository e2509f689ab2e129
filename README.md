# A verified model of a simple infix calculator

The repository is an infix arithmetic calculator, `SimpleCalculator`, in two
near-duplicate versions. Both convert an infix expression to reverse Polish
(postfix) notation with the shunting-yard algorithm and evaluate that
notation on a value stack.

- `calculator_class.py` is the version the test suite uses. Its pipeline:
  - remove all whitespace from the query;
  - check the characters against `[ \d.+\-*^/()]`;
  - scan the text into float and one-character symbol tokens (`parse_string`);
  - reorder the tokens into a postfix list (`to_postfix_notation`);
  - fold that list over a value stack (`calculate`).
- `calculator.py` does not validate. It scans and reorders in one loop that
  writes the postfix notation as a space-separated string. Its `calculate`
  splits that string on whitespace again.

The model follows that structure.

- `common.dfy` (`Common`) holds what the two versions share:
  - the priority table;
  - the positional unary-minus rule (`-` becomes `~`);
  - Python's `float()` on decimal literals;
  - `execute_operation`, with Python's int/float split: a missing operand is
    the int `0`;
  - the two pop loops of the algorithm.
- `class_lexer.dfy` (`ClassLexer`) models `validate_input` and `parse_string`.
  The scanner is a state machine with the pending number as its state. It is
  proved equal to a maximal-munch reference tokenizer. `ParseString` is its
  imperative loop.
- `class_postfix.dfy` (`ClassPostfix`) models `to_postfix_notation`.
  - It is given both as a step function and as the method
    `ToPostfixNotation`, whose loops mutate the stack and output sequences.
  - The method is proved equal to the step function.
  - Also proved: the operator-stack invariant, what the output keeps (numbers
    in order, every operator once, unmatched `(`), and exactly when the
    conversion fails.
- `class_eval.dfy` (`ClassEval`) models `calculate`: a fold over the token
  list, and the imperative method `Calculate` proved equal to it.
- `class_calculator.dfy` (`ClassCalculator`) models `process_calculation_query`
  and its consequences (error cases, parenthesis balance).
- `expressions.dfy` (`Expressions`) gives expression trees as an independent
  reference, with their value and their reverse Polish notation. Two infix
  printers are related to the converter:
  - for any fully parenthesized expression, the converter produces its
    reverse Polish notation, and the evaluator computes its value;
  - for any expression written with only the parentheses its shape needs
    (`MinInfix`), the same holds. This is where precedence and grouping are
    proved: a tighter operator is applied first, and operators of equal
    priority, `^` included, group from the left.
- `class_examples.dfy` (`ClassExamples`) works through the test suite's
  queries and the docstring's example, with exact reals.
- `string_calculator.dfy` (`StringCalculator`) models `calculator.py`:
  - the text-writing converter, as a step function and as the method
    `ToPostfixNotation`;
  - `str.strip`, and `str.split` with no arguments;
  - the word-level evaluator, and `process_calculation_query` without its
    `print`.
- `versions.dfy` (`CalculatorVersions`) relates the two versions. On a query
  with no whitespace, only allowed characters, and every `.` between two
  digits of one number, `calculator.py` returns what `calculator_class.py`
  returns (`VersionsAgree`). The proof runs both converters side by side:
  - each word written by the string converter stands for one token of the
    class converter;
  - the string evaluator does to the stack what the class evaluator does.
- `string_examples.dfy` (`StringExamples`) covers the docstring's
  `7+5*3 -> 7 5 3 * +` in `calculator.py`. It also proves where the versions
  part on a `.` before an operator:
  - `calculator.py` writes `3.+` as the single word `3.+`, and `float()` raises;
  - `calculator_class.py` reads `3.` as the number 3 and returns 3.

  Likewise, `calculator.py` writes `5.+3` as `5.3 +`, where the class version
  computes 8. The agreement theorem is therefore limited to queries whose dots
  stand between digits.

Values are exact: a float is a `real`, and the int/float distinction of Python
is kept (`Value = Int | Float`). The source reports some errors by returning a
message string: invalid input, zero division, unsupported operation. It raises
an exception for others: the `pop` of an empty list, `float()` of a malformed
word, `0 ** negative`. Both kinds are results of the type `Result`, with one
`Error` value per message or exception.

The unary-minus rule follows the code. The characters after which a `-` is
unary (at an index greater than 1) are the keys of the priority dictionary,
and these include `(`. A description of the rule that leaves `(` out does not
match the code. The model therefore reads the `-` in `(4)-(-5)` after the
second `(` as unary, and a `-` at index 1 as binary.

## Model

| member | source | states |
|---|---|---|
| Common.Priority | calculator_class.py:28-36 | `(` has priority 0, `+ -` 1, `* /` 2, `^` 3, `~` 4; the binary operators lie between 1 and 3 |
| Common.Classify | calculator_class.py:79-85 | a `-` becomes `~` exactly when it is at index 0, or at an index above 1 right after a priority key, and stays `-` otherwise; any other symbol stays itself; in particular a symbol at index 1 or right after `)` stays itself |
| Common.ParseFloat | calculator.py:161-162 | `float()` succeeds exactly on an optionally signed decimal literal; an unsigned one yields its decimal value, one after `-` the negated value and one after `+` the value; anything else fails with the float-syntax error |
| Common.Power | calculator_class.py:169-171 | two ints with a non-negative exponent give an int, all else a float; `0` to a negative power raises; an exponent 0 gives 1; the only other failure is a power the model does not compute |
| Common.ExecuteOperation | calculator_class.py:143-174 | `+ - *` always succeed with the sum, difference, product (int only on two ints); `/` fails exactly on a zero divisor, with the zero-division message, and otherwise returns a float quotient; `^` is `Power`; any other symbol gives the "not supported" message; a float operand gives a float result |
| Common.PopWhileAtLeast | calculator_class.py:133-135 | the popped entries (in pop order) all have priority at least `p`; the stack left behind, followed by the popped entries reversed, is the old stack; its top, if any, has priority below `p` |
| Common.PopToOpenParen | calculator_class.py:121-123 | succeeds exactly when a `(` is on the stack (otherwise pop from empty); then the stack is what is left, a `(`, and the popped entries reversed, and no `(` was popped |
| ClassLexer.RemoveWhitespace | calculator_class.py:237 | the result has no whitespace, each character of it is a character of the input, and every non-whitespace character of the input is kept; a one-character text becomes empty if it is whitespace and stays itself otherwise |
| ClassLexer.RemoveWhitespaceAppend | calculator_class.py:237 | removing whitespace from a concatenation concatenates the two results, so with the one-character case the result is the input's non-whitespace characters in order |
| ClassLexer.RemoveWhitespaceKeeps | calculator_class.py:237 | a text without whitespace is left unchanged |
| ClassLexer.ValidateInput | calculator_class.py:44-55 | true exactly when every character is whitespace, a digit, or one of `. + - * ^ / ( )` |
| ClassLexer.Flush | calculator_class.py:87-88 | a pending number yields exactly one number token with its decimal value; an empty one yields nothing |
| ClassLexer.SymbolAt | calculator_class.py:79-85 | a character yields a symbol token exactly when it is an operator or a parenthesis, and that token is its classified symbol |
| ClassLexer.LexFromExtend | calculator_class.py:71-73 | a digit, or a `.` after digits only, is appended to the pending number, which stays a decimal literal |
| ClassLexer.LexFromBreak | calculator_class.py:74-85 | any other character emits the pending number first, then its own symbol token, and scanning restarts with nothing pending |
| ClassLexer.ParseString | calculator_class.py:57-88 | the loop with its accumulator yields exactly the token sequence `Lex(s)` |
| ClassLexer.FlushFirst | calculator_class.py:74-77 | once the next character neither extends the pending number nor is a digit, that number is emitted before anything else |
| ClassLexer.ScanLiteral | calculator_class.py:71-73 | scanning a literal from an empty accumulator reaches any point inside it with exactly the literal's text pending |
| ClassLexer.LiteralEnds | calculator_class.py:71-72 | the character after the longest literal does not extend it (a second `.` included) |
| ClassLexer.LexLiteral | calculator_class.py:71-77 | scanning from the first digit of a literal emits one number with the value of the longest `digits [. digits]` there, then continues after it |
| ClassLexer.LexIsMaximalMunch | calculator_class.py:68-88 | the scanner equals the maximal-munch reference tokenizer: each longest literal one number, each operator or parenthesis one symbol, a stray `.` dropped |
| ClassLexer.LexSymbols | calculator_class.py:79-85 | the symbol tokens of the scan are exactly one per operator or parenthesis character, in input order |
| ClassLexer.LexParens | calculator_class.py:79-85 | the scan has as many `(` (and `)`) tokens as the input has `(` (and `)`) characters |
| ClassLexer.LexPrefix | calculator_class.py:68-88 | cutting the input right after an operator or parenthesis leaves the tokens of the first part unchanged, at the front |
| ClassPostfix.Step | calculator_class.py:106-136 | one token fails exactly when it is a `)` with no `(` on the stack, and then with pop from empty; the stack keeps holding priority keys only |
| ClassPostfix.CloseParenPopsOne | calculator_class.py:121-122 | a `)` over a non-`(` top entry acts as if that entry had been moved to the output first |
| ClassPostfix.CloseParenAtOpen | calculator_class.py:121-123 | a `)` over a `(` only pops the `(` |
| ClassPostfix.OperatorPopsOne | calculator_class.py:133-135 | an operator over a top entry of priority at least its own acts as if that entry had been moved to the output first |
| ClassPostfix.OperatorAtLower | calculator_class.py:133-136 | an operator over an empty stack or a lower-priority top is pushed and nothing is output |
| ClassPostfix.FlushPopsOne | calculator_class.py:139-140 | flushing outputs the top entry first, then flushes the rest |
| ClassPostfix.ToPostfixNotation | calculator_class.py:90-141 | the method, with its mutated stack and output and its inner pop loops, returns exactly `Postfix(Lex(infix))` |
| ClassPostfix.OrderedPush | calculator_class.py:136 | pushing a `(`, or a key that outranks the top, keeps the stack ordered |
| ClassPostfix.CloseParenKeepsOrdered | calculator_class.py:120-123 | closing a parenthesis keeps the stack ordered |
| ClassPostfix.OperatorKeepsOrdered | calculator_class.py:133-136 | popping every entry of priority at least the operator's and pushing it keeps the stack ordered |
| ClassPostfix.StepKeepsOrdered | calculator_class.py:127-136 | every step keeps each non-`(` entry strictly above the priority of the entry below (a new operator first pops every entry of priority at least its own); what this means for grouping is stated by `Expressions.PostfixOfMinInfix` and `Expressions.ChainOfThree` |
| ClassPostfix.ShuntKeepsOrdered | calculator_class.py:106-136 | the stack stays ordered through any run of tokens |
| ClassPostfix.ShuntFromRun | calculator_class.py:106-141 | the conversion is the run over all tokens followed by the LIFO flush of the stack |
| ClassPostfix.StepNumbers | calculator_class.py:109-110 | one step appends the number it reads, if any, and no other number |
| ClassPostfix.StepHeld | calculator_class.py:106-136 | one step adds the token it keeps to the state and, for `)`, drops one `(`; nothing else is created or lost |
| ClassPostfix.ShuntNumbers | calculator_class.py:106-141 | the output's numbers are the state's numbers followed by the input's numbers, in order |
| ClassPostfix.ShuntHeld | calculator_class.py:106-141 | the output holds each token as often as the state plus the kept input occurrences, less one `(` per `)` |
| ClassPostfix.PostfixContents | calculator_class.py:106-141 | the postfix list keeps the numbers in order and every operator exactly once; each `)` removes one `(` and the unmatched `(` remain; nothing else is kept |
| ClassPostfix.PostfixHeld | calculator_class.py:106-141 | the count of each token in the postfix list, in terms of its count in the input |
| ClassPostfix.StepDepth | calculator_class.py:114-123 | a step fails exactly when it would take the count of `(` on the stack below zero, and otherwise changes it by the token's depth |
| ClassPostfix.ShuntFails | calculator_class.py:106-141 | from any state the conversion fails exactly when some prefix of the tokens closes more parentheses than the stack and the prefix open, and only with pop from empty |
| ClassPostfix.PostfixFails | calculator_class.py:120-123 | the conversion fails (on the final `stack.pop()` of a `)`) exactly when some prefix of the tokens has more `)` than `(` |
| ClassEval.EvalStep | calculator_class.py:188-223 | a number pushes one float; `~` replaces the top (0 if empty) by its negation; a binary key pops `second` then `first` (each 0 if missing) and pushes one float result over the untouched deeper entries, or returns whatever else it gets; a non-key symbol is skipped; a `(` returns "not supported" |
| ClassEval.Finish | calculator_class.py:224 | the result is the top value, deeper entries ignored; an empty stack fails with pop from empty |
| ClassEval.Calculate | calculator_class.py:176-224 | the method with its mutated value stack returns exactly `Eval(postfix)` |
| ClassEval.FoldAppend | calculator_class.py:188-223 | evaluating a concatenation continues the second part from where the first left the stack, unless the first returned |
| ClassEval.EarlyReturnIsNotFloat | calculator_class.py:218-223 | an early return carries an error or an int, never a float |
| ClassEval.OpenParenIsNeverFloat | calculator_class.py:196-223 | a `(` among the tokens makes `calculate` return early, with an error or an int |
| ClassEval.FoldErrors | calculator_class.py:188-223 | an early error is zero division, "not supported" or a power error |
| ClassEval.EvalErrors | calculator_class.py:176-224 | `calculate` fails only with an evaluation error, never with invalid input |
| ClassCalculator.Query | calculator_class.py:226-248 | the invalid-input message comes exactly when some character is neither whitespace nor allowed; every other error is an evaluation error |
| ClassCalculator.ValidateStripped | calculator_class.py:237-240 | validating the whitespace-free query accepts exactly the queries without a rejected character |
| ClassCalculator.QueryOfAllowed | calculator_class.py:244-248 | on a query of allowed non-whitespace characters the result is the conversion's failure or the evaluation of its postfix list |
| ClassCalculator.ProcessCalculationQuery | calculator_class.py:226-248 | the method returns exactly `Query(query)` |
| ClassCalculator.OverclosedQuery | calculator_class.py:120-123 | a valid query with a prefix (whitespace removed) holding more `)` than `(` fails with pop from empty |
| ClassCalculator.MoreClosingThanOpening | calculator_class.py:120-123 | a valid query with more `)` than `(` fails with pop from empty |
| ClassCalculator.MoreOpeningThanClosing | calculator_class.py:139-140 | a valid query with more `(` than `)` never yields a float: the leftover `(` reaches `calculate` as an unsupported operation |
| ClassCalculator.FloatResultIsBalanced | calculator_class.py:226-248 | a float result comes only from a query with as many `(` as `)` |
| Expressions.StepNeg | calculator_class.py:198-205 | `~` on a float top replaces it by its negation |
| Expressions.StepBin | calculator_class.py:208-223 | a binary key on two float operands pushes the result or returns the error |
| Expressions.FoldRpn | calculator_class.py:188-223 | evaluating the reverse Polish notation of an expression pushes its value as a float or returns its first error |
| Expressions.EvalRpn | calculator_class.py:176-224 | `calculate` on the reverse Polish notation of an expression returns its value |
| Expressions.RunInfix | calculator_class.py:106-136 | the tokens of a fully parenthesized expression leave the stack as found and append its reverse Polish notation |
| Expressions.PostfixOfInfix | calculator_class.py:90-141 | the converter turns a fully parenthesized expression into exactly its reverse Polish notation |
| Expressions.CalculateInfix | calculator_class.py:245-247 | converting then evaluating a fully parenthesized expression computes its value |
| Expressions.Prec | calculator_class.py:28-36 | a well-formed expression binds with a strength from 1 to 5: its operator's priority, 4 for a unary minus, 5 for a number |
| Expressions.Pending | calculator_class.py:127-136 | the operators an expression leaves on the stack are priority keys, each of priority at least the expression's own |
| Expressions.PendingFlush | calculator_class.py:139-140 | what an expression writes, followed by the flush of what it leaves on the stack, is its reverse Polish notation |
| Expressions.PopFrom | calculator_class.py:133-135 | over a stack whose entries from some index on have priority at least `p` and whose entry below has less, the loop pops exactly those entries |
| Expressions.PopAbove | calculator_class.py:133-135 | the loop pops exactly the entries above a stack part whose top has priority below `p` |
| Expressions.PopAboveOpen | calculator_class.py:121-123 | a `)` pops exactly the entries above the topmost `(`, and that `(` |
| Expressions.GroupRun | calculator_class.py:114-123 | if an operand's tokens push its pending operators and write what it emits, then in parentheses they leave the stack as found and write exactly its reverse Polish notation |
| Expressions.RunMin | calculator_class.py:106-136 | reading a minimally parenthesized expression over a stack whose top binds more loosely leaves that stack in place, with the expression's pending operators above it, and writes what it emits |
| Expressions.OperandRun | calculator_class.py:106-136 | the same for an operand, which in parentheses may stand over any stack |
| Expressions.PostfixOfMinInfix | calculator_class.py:90-141 | the converter turns the minimally parenthesized tokens of any expression into exactly its reverse Polish notation: precedence from the priority table, left grouping from the `>=` pop |
| Expressions.CalculateMinInfix | calculator_class.py:245-247 | converting then evaluating the minimally parenthesized tokens computes the expression's value |
| Expressions.ChainOfThree | calculator_class.py:133-136 | in `x op1 y op2 z` the first operator is applied first when its priority is at least the second's, and last otherwise |
| Expressions.SubtractionGroupsLeft | calculator_class.py:133-135 | `10-3-2` converts to `10 3 - 2 -` and gives 5 |
| Expressions.PowerGroupsLeft | calculator_class.py:133-135 | `2^3^2` converts to `2 3 ^ 2 ^` and gives 64, not 512 |
| Expressions.ProductBeforeSum | calculator_class.py:25 | `7+5*3` converts to `7 5 3 * +` |
| Expressions.DoubleMinusNotCancelled | calculator_class.py:133-136 | two unary minus signs in a row become `~ 5 ~`: the second pops the first before the operand is read, and the result is -5, not 5 |
| ClassExamples.Addition | test_calculator.py:10-14 | `58+23` converts to `58 23 +` and gives 81 |
| ClassExamples.Quotient | test_calculator.py:40-44 | `5.78/3.2` gives 1.80625 |
| ClassExamples.Grouping | test_calculator.py:52-56 | `(45+6)*5+3/(2+1)` gives 256 |
| ClassExamples.Mixed | test_calculator.py:76-80 | `(456*4)-(4+3)*4+3^3` gives 1823 |
| ClassExamples.Negatives | test_calculator.py:82-86 | `(-456*4)-(-5+3)*4` gives -1816, the binary `-` at index 1 taking 0 as its left operand |
| ClassExamples.Precedence | calculator_class.py:25 | `7+5*3` converts to `7 5 3 * +` and gives 22 |
| ClassExamples.NegativeSquare | test_calculator.py:58-62 | `-45*(-45)` converts to `45 ~ 45 ~ *` and gives 2025 |
| ClassExamples.DivisionByZero | calculator_class.py:164-168 | `5/0` converts to `5 0 /` and returns the zero-division message |
| ClassExamples.InvalidLetter | calculator_class.py:239-243 | `5+a` returns the invalid-input message |
| StringCalculator.TrimEnd | calculator.py:108 | the result is a prefix without trailing whitespace, and only whitespace was dropped |
| StringCalculator.TrimStart | calculator.py:108 | the result is a suffix without leading whitespace, and only whitespace was dropped |
| StringCalculator.WordsSpace | calculator.py:150 | trailing whitespace adds no word |
| StringCalculator.WordsWord | calculator.py:150 | a word written after whitespace becomes the last word |
| StringCalculator.WordsSpaced | calculator.py:150 | operators written out each with a space split back into one word each |
| StringCalculator.WordsTrimEnd | calculator.py:150 | dropping trailing whitespace does not change the words |
| StringCalculator.CloseParen | calculator.py:86-89 | the `)` branch fails exactly when no `(` is on the stack, with pop from empty |
| StringCalculator.ConvertStep | calculator.py:67-104 | one character fails exactly when it is a `)` with no `(` on the stack |
| StringCalculator.ConvertFrom | calculator.py:67-104 | the only failure of the loop is pop from empty |
| StringCalculator.CloseParenPopsOne | calculator.py:87-88 | a `)` over a non-`(` top acts as if that entry, and a space, had been written first |
| StringCalculator.CloseParenAtOpen | calculator.py:86-89 | a `)` over a `(` only pops it |
| StringCalculator.OperatorPopsOne | calculator.py:101-103 | an operator over a top of priority at least its own acts as if that entry, and a space, had been written first |
| StringCalculator.OperatorAtLower | calculator.py:101-104 | an operator over an empty stack or a lower-priority top is pushed and nothing is written |
| StringCalculator.FlushPopsOne | calculator.py:106-107 | flushing writes the top entry and a space, then flushes the rest |
| StringCalculator.CloseParenthesis | calculator.py:86-89 | the method with its pop loop returns exactly `CloseParen` |
| StringCalculator.PushWithPriority | calculator.py:93-104 | the method with its pop loop leaves exactly the state `PushOperator` gives |
| StringCalculator.ToPostfixNotation | calculator.py:46-108 | the method with its index loop and flush loop returns exactly `Convert(infix)` |
| StringCalculator.Calculate | calculator.py:142-190 | the method with its mutated value stack returns exactly `Evaluate` of the text |
| StringCalculator.ProcessCalculationQuery | calculator.py:192-205 | the method returns exactly `Process(query)` |
| StringCalculator.StepKeepsSpacing | calculator.py:71-104 | each character keeps the written text single-spaced |
| StringCalculator.ConvertKeepsSpacing | calculator.py:67-104 | the whole loop keeps the written text single-spaced |
| StringCalculator.ConvertIsSingleSpaced | calculator.py:106-108 | the returned postfix text has no whitespace at either end and its words are separated by single spaces |
| StringCalculator.WordStepMeans | calculator.py:157-189 | a word does to the value stack what the token it stands for does in the class version |
| StringCalculator.WordFoldIsFold | calculator.py:157-189 | a sequence of words evaluates as the tokens they stand for |
| StringCalculator.EvaluateMeans | calculator.py:142-190 | a postfix text whose words stand for a token sequence evaluates as the class version evaluates that sequence |
| StringCalculator.ConvertWords | calculator.py:108 | stripping the postfix text does not change its words |
| CalculatorVersions.SymbolStep | calculator.py:84-104 | on an operator or parenthesis both converters fail together or stay related |
| CalculatorVersions.ConvertNumber | calculator.py:71-81 | the string converter writes a number character by character and then one space |
| CalculatorVersions.NumberMeans | calculator.py:161-162 | the word a number becomes is read by `float()` as the class scanner's number token |
| CalculatorVersions.LiteralStep | calculator.py:71-81 | on a number both converters take the same step |
| CalculatorVersions.FlushMeans | calculator.py:106-107 | flushing the stack keeps the two outputs in step |
| CalculatorVersions.Simulate | calculator.py:67-107 | from related states both converters fail together on the rest of a well-formed query, and otherwise the text's words stand for the tokens |
| CalculatorVersions.VersionsAgree | calculator.py:192-205 | on a well-formed query `calculator.py` returns what `calculator_class.py` returns, errors included |
| StringExamples.Precedence | calculator.py:24 | `7+5*3` becomes the text `7 5 3 * +` and gives 22 |
| StringExamples.DotPlusEvaluate | calculator.py:161-162 | the text `3.+` is one word, on which `float()` raises |
| StringExamples.ClassDotPlus | calculator_class.py:71-77 | the class version reads `3.+` as the number 3 followed by `+`, and returns 3 |
| StringExamples.DotPlus | calculator.py:70-81 | `calculator.py` writes `3.+` unchanged and fails with the float-syntax error, while `calculator_class.py` returns 3 |

## Left out

- `main.py`: a read-evaluate-print loop on the standard input with a `done` sentinel. It is I/O only.
- `get_polish_notation` in `calculator.py` reads the standard input (`input()`); it is I/O only.
- The `print` in `calculator.py`'s `process_calculation_query` and the logging setup of both files: output only.
- `get_priorities` returns the priority dictionary; `Common.Priority` is that table.
- The message strings themselves: each is one `Error` value. The two versions' "not supported" messages differ only in capitalization, so they map to the same value.
- IEEE-754 rounding and overflow. Values are exact reals, so results whose float value differs from the exact one (such as `56789/678`) are not stated.
- Common.Power: a non-integral exponent with a nonzero base is the error `PowerNotModelled` rather than a float or a complex number, because real powers are not defined in the model.
- Unicode: `str.isdigit`, `\d`, `str.isspace` and `str.split` are restricted to ASCII digits and ASCII whitespace.
- `float()` accepts more than the scanners can write (exponents, underscores, `inf`, `nan`, surrounding whitespace). Common.ParseFloat models only an optional sign followed by digits with at most one dot. The words of `calculator.py` can hold other characters, such as `3.+`, and are rejected as Python rejects them.
- The generator laziness of `parse_string`: its tokens are a materialized sequence. Nothing in the pipeline observes the difference.
- `test_calculator.py` is not modelled code. Five of its test methods, and the `unary_minus` case, are example lemmas (`ClassExamples`). The subtraction, multiplication, exponentiation, `56789/678`, `45.3*3.9-7.6+(4.5-2)`, `(9+8)*3+(-6)` and `(456-3)*5+45/6` cases have none. The rules they exercise are covered by the general lemmas and by the other examples.
- `unary_minus` in `test_calculator.py` is not a test method (its name lacks `test_`); its query `-45*(-45)` is nevertheless worked through (`ClassExamples.NegativeSquare`).
- Precedence and grouping are proved on token sequences (`Expressions.MinInfix`), not on query strings: the scanner is related to tokens separately (`ClassLexer.LexIsMaximalMunch`).


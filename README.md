# A four-function calculator controller, in Dafny

This project models the input handling of a browser calculator, `calc.js`.
Each key press delivers one key id string to `runKeypress`. The calculator
first classifies the key as clear, edit, operator or evaluate. It then updates
four variables according to the current state:

- `STATE` is one of AWAIT-LEFT, ENTER-LEFT, AWAIT-RIGHT and ENTER-RIGHT;
- `LHS` is the left operand or the last result;
- `OP` is the pending operator;
- `RHS` is the right operand.

Typing edits an operand string with `updateString`: digits, a decimal point,
a sign toggle, and a width of 16 characters. Evaluation applies one of
`+ - * /` and formats the result, with `"NaN"` as the sentinel for an invalid
result.

The model has these modules:

- `Text` defines `Includes`. This is JavaScript's `String.prototype.includes`,
  which tests whether one string contains another as a contiguous run. The
  calculator uses it to test key membership (`EDITS.includes(key)`), so a key
  id matches when it is any substring of the concatenated button ids. In
  particular the empty string is an edit key.
- `Common` holds shared definitions:
  - `MaxWidth` (16) and the `"NaN"` sentinel;
  - `Config`, the four key strings (digits, edits, operators, evaluate keys);
  - the errors the source throws, as values (`Result`, `Outcome`).
- `KeyClassifier` models `getKeyClass` and `opFrom`.
- `NumericEditor` models `updateString`. It also defines which operand strings
  typing can build, and proves the sign-toggle and decimal-point properties
  for them.
- `Evaluator` models `operate`, `toString` and `handleOverflow`. Floating-point
  arithmetic is a parameter (see Left out).
- `Controller` is the transition table as pure functions, one per handler,
  plus `Next` for `runKeypress` and `Run` for a key sequence. A step that
  throws keeps whatever it assigned before the throw. For example, AWAIT-LEFT
  sets `STATE` before `updateString` can fail. The module also defines the
  session invariant and proves it is preserved.
- `Calc.Calculator` is a class whose fields are the four variables. Its
  methods perform the source's assignments in the same order, and each
  method is proved to reach the session that `Controller` prescribes.
- `Scenarios` contains complete key sequences on a keypad-like
  configuration.

Places where the code's behaviour differs from what its design promises
(the model follows the code):

- The sign key's guard `!current[0] === "-"` (calc.js:198) compares a boolean
  with a string and never fires. So a minus sign that is not at the front is
  not rejected: the sign key drops the operand's first character instead
  (`NumericEditor.SignAnyOperand`, `NumericEditor.SignKeyDropsFirstCharacter`).
  When the digit keys are decimal digits, operands built by typing from `""`
  have their only minus sign in front (`NumericEditor.TypedIsOperand`). A result is another matter: after a
  result such as `"1e-7"`, an edit key that `updateString` does not handle
  (`".±"` when the edit string is the concatenation `"0123456789.±"`) throws,
  but only after AWAIT-LEFT has set `STATE` to ENTER-LEFT (calc.js:97-98).
  The result is now the operand being typed, and the sign key turns it into
  `"e-7"` (`Scenarios.SignAfterFailedEdit`).
- An operator pressed while awaiting the right operand does three things: it
  replaces the pending operator, copies the left operand into the right one,
  and evaluates. The result leaves no operator pending. So `5 + *` gives
  `5 * 5`, and a following `2 =` only types a new left operand `2`
  (`Scenarios.Chaining`, `Scenarios.ChainingThenEquals`).
- A `"NaN"` result is frozen only while it is being edited. Pressing a digit
  after such a result starts a new operand (`Scenarios.DigitAfterSentinel`).
- The empty key id belongs to every key string, so it is an edit key. Typing
  it on an empty operand leaves the operand empty, so the left operand can be
  `""` outside the typing states.

## Model

| member | source | states |
|---|---|---|
| KeyClassifier.GetKeyClass | calc.js:78-92 | the tests run in the order clear, edit, operator, evaluate: "clear" is the clear class and nothing else is; any other key is an edit key exactly when the edit string contains it, an operator key exactly when the operator string contains it and the edit string does not, an evaluate key exactly when only the evaluate string contains it, and an error exactly when no string contains it; the empty key is an edit key |
| KeyClassifier.OpFrom | calc.js:164-171 | a key is accepted exactly when it is empty or a single operator character, and is then returned unchanged; otherwise the error is a bad operator string |
| KeyClassifier.OperatorKeyOpFrom | calc.js:164-171 | a key classified as an operator yields an operator exactly when it is one character long, and that character is an operator key |
| KeyClassifier.ClassifyCharacter | calc.js:78-92 | when the edit, operator and evaluate strings share no character, a one-character key gets the class of the string that contains it, whatever the order of the tests |
| NumericEditor.UpdateString | calc.js:189-224 | "NaN" is returned unchanged for every key; the result is an error exactly when the key is not a digit key, the point or the sign; a digit key is appended if the result fits 16 characters and the operand is kept otherwise, and this wins over the point and sign cases; the point is appended to an operand without one if it fits, and an operand that has one is kept; a result either equals the input or fits 16 characters, so an input of at most 16 gives a result of at most 16 |
| NumericEditor.PointIdempotent | calc.js:207-213 | with decimal digit keys, the point key leaves an operand that already has a point unchanged |
| NumericEditor.SignToggle | calc.js:196-205 | on a typed operand the sign key removes a leading minus sign, or adds one when the result fits 16 characters, and otherwise leaves the operand unchanged |
| NumericEditor.EditKeepsOperand | calc.js:189-224 | a successful edit of a typed operand is again a typed operand: at most 16 characters, decimal digits, at most one point, and a minus sign only at index 0 |
| NumericEditor.TypedIsOperand | calc.js:189-224 | when the digit keys are decimal digits, every operand built from "" by any sequence of keys is such an operand, so it has at most one point and a minus sign only in front |
| NumericEditor.SignToggleInvolution | calc.js:196-205 | pressing the sign key twice on a typed operand returns the operand |
| NumericEditor.SignAnyOperand | calc.js:196-205 | for every operand other than "NaN" of at most 16 characters, when the sign is not a digit key: an operand with a minus sign anywhere loses its first character, whatever that is; any other operand gets a minus sign in front if that fits 16 characters and is kept otherwise |
| NumericEditor.SignKeyDropsFirstCharacter | calc.js:196-201 | an instance of the above: the guard against a misplaced minus never fires, and the sign key turns "1e-7" into "e-7" |
| Evaluator.HandleOverflow | calc.js:237-243 | the result fits 16 characters; it is "NaN" exactly when the input has no point; otherwise it is the input's first 16 characters |
| Evaluator.FormatNumber | calc.js:226-235 | the result fits 16 characters; a result containing "Infinity" becomes "NaN"; the result is "NaN" or a prefix of the decimal string; a finite decimal shorter than 16 is kept as it is |
| Evaluator.FormatOverflow | calc.js:231-243 | a finite decimal of 16 or more characters becomes its first 16 characters if it has a point, and "NaN" otherwise |
| Evaluator.Operate | calc.js:245-258 | "+" formats the sum, "-" the difference, "*" the product and "/" the quotient of the operands; it succeeds exactly for these four, and any other operator is an unknown-operator error; a result always fits 16 characters |
| Evaluator.FormatKeepsSentinel | calc.js:226-235 | formatting "NaN" gives "NaN" |
| Evaluator.SentinelAbsorbs | calc.js:245-258 | if the arithmetic propagates NaN, any of the four operations with a "NaN" operand yields "NaN" |
| Evaluator.DivisionByZeroShowsSentinel | calc.js:226-230 | dividing by "0" shows "NaN", given that the quotient reads "NaN" or contains "Infinity" |
| Controller.RunSplit | calc.js:33-56 | handling two key sequences one after the other is the same as handling their concatenation |
| Controller.InitialInv | calc.js:12-15 | the start-up session satisfies the session invariant |
| Controller.Display | calc.js:58-72 | the display shows RHS in ENTER-RIGHT and LHS in the other three states |
| Controller.Evaluated | calc.js:17-24 | evaluation completes exactly when OP is one of + - * /, and then gives AWAIT-LEFT with LHS the result of operate and OP and RHS empty; otherwise it throws an unknown-operator error and changes nothing |
| Controller.AwaitLeftStep | calc.js:94-109 | only the clear class reaches the bad-keyclass error; RHS is never touched; an edit moves to ENTER-LEFT even when it throws, and on success LHS is the edit of ""; evaluate does nothing; an operator completes exactly when opFrom accepts it, installing it and moving to AWAIT-RIGHT; a failing edit is an undefined-edit error that keeps LHS and changes only the state to ENTER-LEFT; any other throw changes nothing |
| Controller.AwaitRightStep | calc.js:111-127 | only the clear class reaches the bad-keyclass error; an edit moves to ENTER-RIGHT even when it throws, and on success RHS is the edit of ""; a failing edit is an undefined-edit error that keeps RHS and changes only the state; evaluate does nothing; an accepted operator is installed, LHS is copied into RHS and the expression is evaluated; a rejected one throws a bad-operator error and changes nothing |
| Controller.EnterLeftStep | calc.js:129-143 | only the clear class reaches the bad-keyclass error; a throw changes nothing; an edit changes only LHS, to the edit of LHS, and a failing edit is an undefined-edit error; evaluate does nothing; an operator completes exactly when opFrom accepts it, installing it and moving to AWAIT-RIGHT |
| Controller.EnterRightStep | calc.js:145-162 | only the clear class reaches the bad-keyclass error; an edit changes only RHS, to the edit of RHS, and a failing edit is an undefined-edit error that changes nothing; evaluate is exactly an evaluation; an operator evaluates first, and a throw there stops the step; after it an accepted operator is installed in AWAIT-RIGHT, while a rejected one throws with the evaluation already done |
| Controller.Next | calc.js:33-56 | a key press never reaches a bad-keyclass error; "clear" completes and yields AWAIT-LEFT, "0", "", "" from any session; the key is unrecognized exactly when it is in no key string, and then nothing changes |
| Controller.Run | calc.js:33-56 | no keys change nothing; any key sequence whose last key is "clear" ends in the start-up session |
| Controller.Inv | calc.js:2-15 | the session invariant (OP is non-empty exactly in AWAIT-RIGHT and ENTER-RIGHT, RHS is "" outside ENTER-RIGHT, OP is "" or one operator character, both operands fit 16 characters) guarantees a display of at most 16 characters |
| Controller.EvaluateKeyIdle | calc.js:94-143 | an evaluate key changes nothing in AWAIT-LEFT, ENTER-LEFT and AWAIT-RIGHT |
| Controller.OperatorChains | calc.js:119-122 | in AWAIT-RIGHT, a one-character operator key installs itself, copies LHS into RHS and evaluates: the session becomes AWAIT-LEFT with LHS = LHS op LHS and nothing pending |
| Controller.OperatorEvaluatesFirst | calc.js:154-157 | in ENTER-RIGHT, an operator key evaluates with the old operator and then installs the new one in AWAIT-RIGHT with an empty RHS |
| Controller.NextKeepsInv | calc.js:94-162 | every key press preserves the invariant, whether it completes or throws, unless the evaluator throws on an unknown operator; the invariant: OP is non-empty exactly in AWAIT-RIGHT and ENTER-RIGHT, RHS is "" outside ENTER-RIGHT, OP is "" or one operator character, and both operands fit 16 characters |
| Controller.NoUnknownOperator | calc.js:245-258 | when every operator key is one of + - * /, no key press in a session that satisfies the invariant throws an unknown-operator error |
| Controller.RunKeepsInv | calc.js:33-56 | when every operator key is one of + - * /, any key sequence, including keys that throw, keeps the invariant |
| Calc.Calculator.constructor | calc.js:12-15 | the variables start as AWAIT-LEFT, "0", "", "" |
| Calc.Calculator.Reset | calc.js:26-31 | the variables become AWAIT-LEFT, "0", "", "" |
| Calc.Calculator.Evaluate | calc.js:17-24 | returns operate(OP, LHS, RHS); on success LHS is the result, OP and RHS are "" and the state is AWAIT-LEFT; on an error nothing changes |
| Calc.Calculator.KeypressAwaitLeft | calc.js:94-109 | the new variables and the outcome are those of the AWAIT-LEFT row of the table, including the state change made before a failing edit |
| Calc.Calculator.KeypressAwaitRight | calc.js:111-127 | the new variables and the outcome are those of the AWAIT-RIGHT row, including the operator chaining through Evaluate |
| Calc.Calculator.KeypressEnterLeft | calc.js:129-143 | the new variables and the outcome are those of the ENTER-LEFT row |
| Calc.Calculator.KeypressEnterRight | calc.js:145-162 | the new variables and the outcome are those of the ENTER-RIGHT row: evaluate, then the new operator |
| Calc.Calculator.RunKeypress | calc.js:33-76 | the variables become those that Next prescribes; the method returns the displayed value (RHS in ENTER-RIGHT, otherwise LHS) or the error thrown; with arithmetic operator keys it preserves the invariant |
| Scenarios.Addition | calc.js:33-56 | 5 + 3 = ends in AWAIT-LEFT showing 8 |
| Scenarios.DivisionByZero | calc.js:226-235 | 6 / 0 = ends in AWAIT-LEFT showing NaN |
| Scenarios.Chaining | calc.js:119-122 | 5 + * ends in AWAIT-LEFT showing 5 * 5 with nothing pending |
| Scenarios.ChainingThenEquals | calc.js:94-99 | 5 + * 2 = ends in ENTER-LEFT showing 2 |
| Scenarios.RepeatedEquals | calc.js:100-101 | = = from start-up changes nothing |
| Scenarios.DigitAfterSentinel | calc.js:94-99 | after a NaN result, the digit 7 starts a new left operand 7 |
| Scenarios.SignAfterFailedEdit | calc.js:94-99 | after a result "1e-7", the edit key ".±" throws but leaves ENTER-LEFT with "1e-7", and the sign key then gives "e-7" |

## Left out

- Floating-point arithmetic (calc.js:173-187, and `num.toString()` at calc.js:227) is not modelled. It becomes the parameter `Arithmetic`, a function from (operation, left string, right string) to the result's JavaScript decimal string. `toString`'s processing of that string is modelled exactly.
- Evaluator.SentinelAbsorbs: that a "NaN" operand gives "NaN" is IEEE floating-point behaviour, so it is stated under an explicit requirement on `Arithmetic`.
- Evaluator.DivisionByZeroShowsSentinel: that dividing by zero gives Infinity or NaN is also IEEE behaviour, so it is stated under an explicit requirement on `Arithmetic`.
- Controller.NextKeepsInv: excludes the unknown-operator error. When `operate` throws in AWAIT-RIGHT, RHS has already been set to LHS (calc.js:121), so the invariant can fail. This happens only when an operator key is not one of + - * /.
- Controller.RunKeepsInv: states the invariant only for configurations whose operator keys are + - * /, for the reason above.
- DOM and console output are not modelled: `DISPLAY.innerText` and the `console.log` calls (calc.js:59, 74-75). `RunKeypress` returns the displayed value instead.
- Button wiring is not modelled: querying the buttons, filling their labels and attaching click listeners (calc.js:260-288).
- The start-up `runKeypress("=")` (calc.js:290) is not modelled. In the initial state it changes nothing (`Controller.EvaluateKeyIdle`).
- The key strings `DIGITS`, `EDITS`, `OPS` and `EVALS` are concatenations of button ids (calc.js:271-274). The model takes them as the `Config` parameter. The page's actual button ids are not part of this model, so `Scenarios.Keypad` is only an example.
- The `bad state` branches (calc.js:52, 71) are left out. They cannot be reached because the state is a datatype.
- Lengths count Unicode characters, where JavaScript counts UTF-16 code units. The two agree for every character the keypad uses, including "±".
- An exception is modelled as an error result from the key press, and the next key press continues from the partly updated variables. The browser's handling of an uncaught exception in a click listener is not modelled.

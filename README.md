# Calculator engine

A Dafny model of the engine behind the on-screen calculator in `index.js`. The `App`
class keeps four fields:

- the display text (the result element's text),
- the accumulator `startedValue`,
- the pending operator `operatorValue`,
- the flag `nextValue`, which says that the next digit starts a new number.

Four button handlers change these fields:

- `setValues` handles a digit,
- `useDecimal` handles the decimal point,
- `useOperator` handles `+ - * / =`,
- `onReset` handles clear.

The model has two modules:

- `Calculator` (calculator.dfy) holds the state as the datatype `CalcState`, the
  operator table `Apply`, one pure step function per handler, and the engine's
  invariant. It also holds the class `App`. Its fields are the same four, and its
  methods `OnReset`, `SetValues`, `UseOperator` and `UseDecimal` update them in place.
  Each method is proved to perform its step function and to keep the invariant.
- `Session` (session.dfy) presses keys one after another from the initial state. It
  proves that every reachable state keeps the invariant, and it works through the
  calculator's example sequences.

Numbers are exact `real`s. The runtime's `Number(text)` and its number-to-text
coercion are not modelled. They are the two fields of a `Conversions` value given to
the `App` constructor. The invariants and the per-handler results hold for any such
conversions; the worked examples in `Session` additionally assume that `parse` reads
the typed digits as their value.

The accumulator follows the code: `0` means "no first operand yet". So `0 - 5 =` takes
`5` as the first operand and leaves `5` on the display (`Session.ZeroFirstOperand`).

The table has no entry for the empty operator, so looking it up would throw before
any field changes. `OperatorPressed` models that case as "state unchanged". The
invariant `Consistent` shows that the case never arises: a nonzero accumulator or a
set `nextValue` always comes with a pending operator.

Two points where the code does less than one might expect, and the model follows the code:

- The display is not always a numeric literal. After a computation it holds whatever
  text the runtime gives for the result. The invariant `DisplayShape` states what does
  hold: while a number is being typed, the display is a typed numeral with at most one
  decimal point; otherwise it may be the text of the accumulator.
- A second `=` does not compute again. Because `nextValue` is set and an operator is
  pending, `useOperator` only re-selects `=` and returns early.

## Model

| member | source | states |
|---|---|---|
| Calculator.Apply | index.js:56-62 | `=` yields the current value whatever the accumulator; in this exact-arithmetic model (no `strip` rounding) the `+`, `-` and nonzero `/` results are characterised by their inverse operations and a product is zero exactly when a factor is, which the program's rounded results need not satisfy |
| Calculator.InitialInvariant | index.js:52-55 | the initial state (accumulator 0, no operator, `nextValue` false, display "0") satisfies the invariant |
| Calculator.ConsistentLookupSucceeds | index.js:107-110 | in a consistent state the table lookup for the pending operator never fails |
| Calculator.DigitPressed | index.js:85-93 | a digit press leaves accumulator and operator unchanged, clears `nextValue`, and makes the display either the digit alone or the old display with the digit appended |
| Calculator.DigitPressedCases | index.js:86-92 | with `nextValue` set the display becomes exactly the digit; otherwise "0" is replaced by the digit and any other display gets the digit appended; nothing else changes |
| Calculator.DecimalPressed | index.js:122-128 | the decimal key never changes accumulator, operator or flag, adds at most one "." and, unless a new number is awaited, leaves a "." in the display |
| Calculator.DecimalPressedCases | index.js:122-128 | no-op while `nextValue` is set or when the display already holds "."; otherwise appends exactly one "."; pressing it twice equals pressing it once |
| Calculator.OperatorPressed | index.js:99-117 | from a consistent state, the pressed operator becomes pending and `nextValue` is set; the display either stays or shows the new accumulator |
| Calculator.OperatorSwapsPending | index.js:102-105 | with an operator pending and `nextValue` set, only the pending operator is replaced; no arithmetic happens |
| Calculator.OperatorCapturesFirstOperand | index.js:107-108 | a zero accumulator takes the parsed display value; the display is unchanged |
| Calculator.OperatorComputes | index.js:109-116 | a nonzero accumulator is combined with the parsed display by the pending operator; the result goes to both accumulator and display; for `=` the result is the parsed display value |
| Calculator.DigitKeepsInvariant | index.js:85-93 | a digit press keeps the invariant, including that a typed numeral keeps at most one "." and no leading zero |
| Calculator.DecimalKeepsInvariant | index.js:122-128 | a decimal press keeps the invariant; the display never gets a second "." |
| Calculator.OperatorKeepsInvariant | index.js:99-117 | an operator press keeps the invariant |
| Calculator.App.constructor | index.js:52-55 | the new engine is in the initial state and valid |
| Calculator.App.OnReset | index.js:74-79 | clear restores accumulator 0, no operator, `nextValue` false and display "0" |
| Calculator.App.SetValues | index.js:85-93 | the fields are updated in place exactly as `DigitPressed` says, and the invariant is kept |
| Calculator.App.UseOperator | index.js:99-117 | the fields are updated in place exactly as `OperatorPressed` says; the table lookup is always defined; the invariant is kept |
| Calculator.App.UseDecimal | index.js:122-128 | the fields are updated in place exactly as `DecimalPressed` says, and the invariant is kept |
| Session.PressKeepsInvariant | index.js:65-68 | whichever handler a button's listener calls keeps the invariant |
| Session.RunKeepsInvariant | index.js:65-68 | every sequence of presses keeps the invariant |
| Session.Reachable | index.js:99-117 | in every reachable state the operator lookup succeeds and a display being edited is a typed numeral with at most one "."; the next operator press leaves that operator pending with `nextValue` set |
| Session.ClearThenDigit | index.js:74-92 | after any presses, clear gives back the initial state, and a following digit replaces the "0" |
| Session.TypingDigits | index.js:85-93 | 5 then 3 shows "53" |
| Session.RepeatedDecimalPoint | index.js:122-128 | 1 . . 2 shows "1.2" |
| Session.Chaining | index.js:99-117 | 2 + 3 + shows the result 5, and then 4 = shows 9 |
| Session.OperatorCorrection | index.js:102-105 | 2 + - 3 = replaces `+` by `-` without computing and shows -1 |
| Session.RepeatedEquals | index.js:102-105 | 6 / 2 = = keeps 3 in display and accumulator |
| Session.DecimalSum | index.js:59 | 0.1 + 0.2 = shows the result 0.3 |
| Session.ZeroFirstOperand | index.js:107-108 | 0 - 5 = shows "5": a zero first operand reads as no operand |

## Left out

- Markup injection, the icon library and stylesheet import (index.js:1-38) are presentation only.
- DOM queries, listener registration and reading digits and operators out of click events (index.js:43-50, 65-68, 85, 99) are not modelled. Inputs are plain `Digit` and `OpKey` values, and `Session.Press` stands for the dispatch.
- `new App()` (index.js:139) is bootstrap only.
- `Number(text)` (index.js:100) and the coercion of a result to display text (index.js:111) are runtime conversions. They are parameters (`Conversions`), so every property holds for any such functions.
- Calculator.Apply: results are exact. It does not round to 12 significant digits as `strip` does with `toPrecision(12)` and `parseFloat` (index.js:135).
- Calculator.Apply: division by zero gives 0. JavaScript gives `Infinity` or `NaN`, and no real number can stand for those. NaN being falsy, and `-0`, are not modelled either. Because the model's 0 then reads as "no first operand" (index.js:107), `5 / 0 + 3 =` shows "3" in the model, where the program shows "Infinity" (`Infinity` is truthy, so the program keeps computing with it).
- Calculator.Apply: its inverse laws for `+`, `-`, `*` and `/` hold only of the exact arithmetic of the model; with the program's rounding to 12 significant digits, `1234567890123 * 1 / 1 =` ends at 1234567890120.

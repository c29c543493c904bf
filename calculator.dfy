/** The calculator engine of the `App` class in index.js: the state it keeps (the
    display text, the accumulator `startedValue`, the pending operator `operatorValue`
    and the "start a new number" flag `nextValue`), the table of operations, and the
    four button handlers `onReset`, `setValues`, `useDecimal` and `useOperator`.

    Each handler is specified by a pure step function on `CalcState`; the class `App`
    holds the same four fields and its methods update them in place, each proved to
    perform exactly that step and to keep the engine's invariant. */
module Calculator {

  /** The label of a digit button. */
  type Digit = c: char | '0' <= c <= '9' witness '0'

  /** The pending operator. `NoOp` is the empty string the engine starts with and
      returns to on clear. */
  datatype Op = NoOp | Add | Sub | Mul | Div | Eq

  /** The value of an operator button: always one of `+ - * / =`, never empty. */
  type OpKey = op: Op | op != NoOp witness Add

  /** The two conversions the engine borrows from the JavaScript runtime: `Number(text)`
      on the display text, and the coercion of a computed number to display text. */
  datatype Conversions = Conversions(parse: string -> real, show: real -> string)

  /** The engine's four fields. */
  datatype CalcState = CalcState(
    display: string,
    startedValue: real,
    operatorValue: Op,
    nextValue: bool)

  /** The state the constructor sets up and `onReset` restores. */
  const Initial := CalcState("0", 0.0, NoOp, false)

  // ---------------------------------------------------------------------------
  // The table of operations

  /** The `calculate` entry for `op`, applied to the accumulator and the current value.
      `=` yields its second operand. The other entries use exact arithmetic on reals
      (no rounding to 12 significant digits), so each result is characterised by the
      operation it inverts; those laws hold of this model, not of the rounded doubles. */
  function Apply(op: OpKey, first: real, second: real): (r: real)
    ensures op == Eq ==> r == second
    ensures op == Add ==> r - second == first
    ensures op == Sub ==> r + second == first
    ensures op == Mul ==> (r == 0.0 <==> first == 0.0 || second == 0.0)
    ensures op == Div && second != 0.0 ==> r * second == first
  {
    match op
    case Add => first + second
    case Sub => first - second
    case Mul => first * second
    case Div => if second == 0.0 then 0.0 else first / second
    case Eq => second
  }

  // ---------------------------------------------------------------------------
  // Shape of the text the user types

  predicate IsDigit(c: char) {
    '0' <= c <= '9'
  }

  /** The number of decimal points in `t`. */
  function Dots(t: string): (n: nat)
    ensures n <= |t|
    ensures n == 0 <==> '.' !in t
  {
    if t == [] then 0 else (if t[0] == '.' then 1 else 0) + Dots(t[1..])
  }

  lemma {:induction false} DotsAppend(t: string, c: char)
    ensures Dots(t + [c]) == Dots(t) + (if c == '.' then 1 else 0)
  {
    if t != [] {
      assert (t + [c])[1..] == t[1..] + [c];
      DotsAppend(t[1..], c);
    }
  }

  /** A number as typed on the keypad: a digit first, then digits and at most one
      decimal point, and no leading zero in front of another digit. */
  predicate Numeral(t: string) {
    |t| > 0 && IsDigit(t[0])
    && (forall i :: 0 <= i < |t| ==> IsDigit(t[i]) || t[i] == '.')
    && Dots(t) <= 1
    && (t[0] == '0' && |t| > 1 ==> t[1] == '.')
  }

  // ---------------------------------------------------------------------------
  // Invariants

  /** A nonzero accumulator, and a pending "start a new number", both come with a
      pending operator; so the table lookup in `useOperator` always finds an entry. */
  predicate Consistent(s: CalcState) {
    (s.startedValue != 0.0 ==> s.operatorValue != NoOp)
    && (s.nextValue ==> s.operatorValue != NoOp)
  }

  /** The display holds a number as typed, or (only while a new number is awaited)
      the text of the result held in the accumulator. */
  predicate DisplayShape(s: CalcState, show: real -> string) {
    Numeral(s.display) || (s.nextValue && s.display == show(s.startedValue))
  }

  predicate Invariant(s: CalcState, show: real -> string) {
    Consistent(s) && DisplayShape(s, show)
  }

  /** The state in which the table has no entry for the pending operator: with no
      operator pending the early return cannot fire, and a nonzero accumulator sends
      the call to `calculate['']`, which throws before any field is written. */
  predicate LookupFails(s: CalcState) {
    s.startedValue != 0.0 && s.operatorValue == NoOp
  }

  lemma InitialInvariant(show: real -> string)
    ensures Invariant(Initial, show)
  {
  }

  lemma ConsistentLookupSucceeds(s: CalcState)
    requires Consistent(s)
    ensures !LookupFails(s)
  {
  }

  // ---------------------------------------------------------------------------
  // The handlers, as steps on the state

  /** `setValues`: a digit button was pressed. */
  function DigitPressed(s: CalcState, d: Digit): (r: CalcState)
    ensures r.startedValue == s.startedValue && r.operatorValue == s.operatorValue
    ensures !r.nextValue
    ensures r.display == [d] || r.display == s.display + [d]
  {
    if s.nextValue then s.(display := [d], nextValue := false)
    else s.(display := if s.display == "0" then [d] else s.display + [d])
  }

  /** `useDecimal`: the decimal-point button was pressed. */
  function DecimalPressed(s: CalcState): (r: CalcState)
    ensures r.startedValue == s.startedValue && r.operatorValue == s.operatorValue
    ensures r.nextValue == s.nextValue
    ensures r.display == s.display || r.display == s.display + "."
    ensures !s.nextValue ==> '.' in r.display
  {
    if s.nextValue then s
    else if '.' in s.display then s
    else s.(display := s.display + ".")
  }

  /** `useOperator`: the operator button `op` was pressed. The early return swaps the
      pending operator; otherwise an unset (zero) accumulator takes the current value,
      and a set one is combined with it by the pending operator, the result going to
      both the accumulator and the display. If the table has no entry for the pending
      operator the call throws and the state is left as it was. */
  function OperatorPressed(s: CalcState, op: OpKey, conv: Conversions): (r: CalcState)
    ensures Consistent(s) ==> r.operatorValue == op && r.nextValue
    ensures r.display == s.display || r.display == conv.show(r.startedValue)
  {
    var currentValue := conv.parse(s.display);
    if s.operatorValue != NoOp && s.nextValue then
      s.(operatorValue := op)
    else if s.startedValue == 0.0 then
      s.(startedValue := currentValue, nextValue := true, operatorValue := op)
    else if s.operatorValue == NoOp then
      s
    else
      var calculation := Apply(s.operatorValue, s.startedValue, currentValue);
      s.(display := conv.show(calculation), startedValue := calculation,
         nextValue := true, operatorValue := op)
  }

  // ---------------------------------------------------------------------------
  // What each handler does, case by case

  lemma DigitPressedCases(s: CalcState, d: Digit)
    ensures s.nextValue ==> DigitPressed(s, d) == s.(display := [d], nextValue := false)
    ensures !s.nextValue && s.display == "0" ==> DigitPressed(s, d) == s.(display := [d])
    ensures !s.nextValue && s.display != "0" ==> DigitPressed(s, d) == s.(display := s.display + [d])
  {
  }

  lemma DecimalPressedCases(s: CalcState)
    ensures s.nextValue ==> DecimalPressed(s) == s
    ensures '.' in s.display ==> DecimalPressed(s) == s
    ensures !s.nextValue && '.' !in s.display ==> DecimalPressed(s) == s.(display := s.display + ".")
    ensures DecimalPressed(DecimalPressed(s)) == DecimalPressed(s)
  {
  }

  /** Two operators in a row: only the pending operator changes. */
  lemma OperatorSwapsPending(s: CalcState, op: OpKey, conv: Conversions)
    requires s.operatorValue != NoOp && s.nextValue
    ensures OperatorPressed(s, op, conv) == s.(operatorValue := op)
  {
  }

  /** An unset accumulator takes the displayed value; the display stays. */
  lemma OperatorCapturesFirstOperand(s: CalcState, op: OpKey, conv: Conversions)
    requires !(s.operatorValue != NoOp && s.nextValue) && s.startedValue == 0.0
    ensures var r := OperatorPressed(s, op, conv);
      r.startedValue == conv.parse(s.display) && r.display == s.display
      && r.operatorValue == op && r.nextValue
  {
  }

  /** A set accumulator is combined with the displayed value by the pending operator;
      for `=` the result is the displayed value itself. */
  lemma OperatorComputes(s: CalcState, op: OpKey, conv: Conversions)
    requires Consistent(s)
    requires !(s.operatorValue != NoOp && s.nextValue) && s.startedValue != 0.0
    ensures s.operatorValue != NoOp
    ensures var r := OperatorPressed(s, op, conv);
      var result := Apply(s.operatorValue, s.startedValue, conv.parse(s.display));
      r.startedValue == result && r.display == conv.show(result)
      && r.operatorValue == op && r.nextValue
    ensures s.operatorValue == Eq ==> OperatorPressed(s, op, conv).startedValue == conv.parse(s.display)
  {
  }

  // ---------------------------------------------------------------------------
  // Every handler keeps the invariant

  lemma DigitKeepsInvariant(s: CalcState, d: Digit, show: real -> string)
    requires Invariant(s, show)
    ensures Invariant(DigitPressed(s, d), show)
  {
    var r := DigitPressed(s, d);
    if r.display == [d] {
      assert Dots([d]) == 0;
    } else {
      var t := s.display;
      assert !s.nextValue && t != "0" && r.display == t + [d];
      assert Numeral(t);
      DotsAppend(t, d);
      if |t| == 1 {
        assert t == [t[0]];
        assert t[0] != '0';
      }
      assert forall i :: 0 <= i < |t| ==> (t + [d])[i] == t[i];
    }
  }

  lemma DecimalKeepsInvariant(s: CalcState, show: real -> string)
    requires Invariant(s, show)
    ensures Invariant(DecimalPressed(s), show)
  {
    var r := DecimalPressed(s);
    if r != s {
      var t := s.display;
      assert Numeral(t) && '.' !in t && r.display == t + ".";
      DotsAppend(t, '.');
      assert forall i :: 0 <= i < |t| ==> (t + ".")[i] == t[i];
    }
  }

  lemma OperatorKeepsInvariant(s: CalcState, op: OpKey, conv: Conversions)
    requires Invariant(s, conv.show)
    ensures Invariant(OperatorPressed(s, op, conv), conv.show)
  {
  }

  // ---------------------------------------------------------------------------
  // The engine as an object updated in place

  class App {
    /** The text of the result element. */
    var display: string
    var startedValue: real
    var operatorValue: Op
    var nextValue: bool
    /** The runtime's number conversions. */
    const conv: Conversions

    function State(): CalcState
      reads this
    {
      CalcState(display, startedValue, operatorValue, nextValue)
    }

    predicate Valid()
      reads this
    {
      Invariant(State(), conv.show)
    }

    constructor (conv: Conversions)
      ensures Valid() && State() == Initial && this.conv == conv
    {
      display := "0";
      startedValue := 0.0;
      operatorValue := NoOp;
      nextValue := false;
      this.conv := conv;
      new;
      InitialInvariant(conv.show);
    }

    method OnReset()
      modifies this
      ensures Valid()
      ensures display == "0" && startedValue == 0.0 && operatorValue == NoOp && !nextValue
    {
      startedValue := 0.0;
      operatorValue := NoOp;
      nextValue := false;
      display := "0";
      InitialInvariant(conv.show);
    }

    method SetValues(number: Digit)
      requires Valid()
      modifies this
      ensures Valid()
      ensures State() == DigitPressed(old(State()), number)
    {
      DigitKeepsInvariant(State(), number, conv.show);
      if nextValue {
        display := [number];
        nextValue := false;
      } else {
        var tmpValue := display;
        display := if tmpValue == "0" then [number] else tmpValue + [number];
      }
    }

    method UseOperator(operator: OpKey)
      requires Valid()
      modifies this
      ensures Valid()
      ensures State() == OperatorPressed(old(State()), operator, conv)
    {
      OperatorKeepsInvariant(State(), operator, conv);
      var currentValue := conv.parse(display);
      if operatorValue != NoOp && nextValue {
        operatorValue := operator;
        return;
      }
      if startedValue == 0.0 {
        startedValue := currentValue;
      } else {
        var calculation := Apply(operatorValue, startedValue, currentValue);
        display := conv.show(calculation);
        startedValue := calculation;
      }
      nextValue := true;
      operatorValue := operator;
    }

    method UseDecimal()
      requires Valid()
      modifies this
      ensures Valid()
      ensures State() == DecimalPressed(old(State()))
    {
      DecimalKeepsInvariant(State(), conv.show);
      if nextValue {
        return;
      }
      if '.' !in display {
        display := display + ".";
      }
    }
  }
}

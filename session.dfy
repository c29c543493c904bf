/** A session of the calculator: the buttons pressed one after another, each handled to
    completion by its handler before the next, starting from the state the App
    constructor sets up. States reached this way keep the engine's invariant, and the
    worked examples of the calculator's behaviour hold for every number conversion
    that reads the typed digits as their value. */
module Session {
  import opened Calculator

  /** A button press, as the event listeners deliver it. */
  datatype Key = DigitKey(d: Digit) | DecimalKey | OperatorKey(op: OpKey) | ClearKey

  /** The handler the listener of key `k` calls, as a step on the state. */
  function Press(s: CalcState, k: Key, conv: Conversions): CalcState {
    match k
    case DigitKey(d) => DigitPressed(s, d)
    case DecimalKey => DecimalPressed(s)
    case OperatorKey(op) => OperatorPressed(s, op, conv)
    case ClearKey => Initial
  }

  /** The state after pressing `keys` in order, starting in `s`. */
  function Run(s: CalcState, keys: seq<Key>, conv: Conversions): CalcState
    decreases |keys|
  {
    if keys == [] then s else Run(Press(s, keys[0], conv), keys[1..], conv)
  }

  lemma {:induction false} RunAppend(s: CalcState, keys: seq<Key>, k: Key, conv: Conversions)
    ensures Run(s, keys + [k], conv) == Press(Run(s, keys, conv), k, conv)
    decreases |keys|
  {
    if keys == [] {
      assert Run(Press(s, k, conv), [], conv) == Press(s, k, conv);
    } else {
      assert (keys + [k])[1..] == keys[1..] + [k];
      RunAppend(Press(s, keys[0], conv), keys[1..], k, conv);
    }
  }

  lemma PressKeepsInvariant(s: CalcState, k: Key, conv: Conversions)
    requires Invariant(s, conv.show)
    ensures Invariant(Press(s, k, conv), conv.show)
  {
    match k
    case DigitKey(d) => DigitKeepsInvariant(s, d, conv.show);
    case DecimalKey => DecimalKeepsInvariant(s, conv.show);
    case OperatorKey(op) => OperatorKeepsInvariant(s, op, conv);
    case ClearKey => InitialInvariant(conv.show);
  }

  lemma {:induction false} RunKeepsInvariant(s: CalcState, keys: seq<Key>, conv: Conversions)
    requires Invariant(s, conv.show)
    ensures Invariant(Run(s, keys, conv), conv.show)
    decreases |keys|
  {
    if keys != [] {
      PressKeepsInvariant(s, keys[0], conv);
      RunKeepsInvariant(Press(s, keys[0], conv), keys[1..], conv);
    }
  }

  /** In every state a session can reach: the operator table always has an entry for
      the pending operator; the display being edited is a number as typed, with at most
      one decimal point; and an operator press leaves that operator pending, awaiting
      a new number. */
  lemma Reachable(keys: seq<Key>, op: OpKey, conv: Conversions)
    ensures var s := Run(Initial, keys, conv);
      !LookupFails(s)
      && (!s.nextValue ==> Numeral(s.display))
      && (var r := Run(Initial, keys + [OperatorKey(op)], conv); r.operatorValue == op && r.nextValue)
  {
    InitialInvariant(conv.show);
    RunKeepsInvariant(Initial, keys, conv);
    RunAppend(Initial, keys, OperatorKey(op), conv);
  }

  /** Clear restores the initial state whatever came before, and the next digit then
      replaces the "0" rather than extending it. */
  lemma ClearThenDigit(s: CalcState, keys: seq<Key>, d: Digit, conv: Conversions)
    ensures Run(s, keys + [ClearKey], conv) == Initial
    ensures Run(s, keys + [ClearKey, DigitKey(d)], conv).display == [d]
  {
    RunAppend(s, keys, ClearKey, conv);
    assert keys + [ClearKey, DigitKey(d)] == (keys + [ClearKey]) + [DigitKey(d)];
    RunAppend(s, keys + [ClearKey], DigitKey(d), conv);
  }

  // ---------------------------------------------------------------------------
  // Worked examples

  /** 5 then 3 shows "53": the first digit replaces the leading zero, the next appends. */
  lemma TypingDigits(conv: Conversions)
    ensures Run(Initial, [DigitKey('5'), DigitKey('3')], conv).display == "53"
  {
  }

  /** 1 . . 2 shows "1.2": a second decimal point is ignored. */
  lemma RepeatedDecimalPoint(conv: Conversions)
    ensures Run(Initial, [DigitKey('1'), DecimalKey, DecimalKey, DigitKey('2')], conv).display == "1.2"
  {
  }

  /** 2 + 3 + 4 = : the second + shows 5, and = shows 9. */
  lemma Chaining(conv: Conversions)
    requires conv.parse("2") == 2.0 && conv.parse("3") == 3.0 && conv.parse("4") == 4.0
    ensures Run(Initial, [DigitKey('2'), OperatorKey(Add), DigitKey('3'), OperatorKey(Add)], conv).display
      == conv.show(5.0)
    ensures Run(Initial, [DigitKey('2'), OperatorKey(Add), DigitKey('3'), OperatorKey(Add),
                          DigitKey('4'), OperatorKey(Eq)], conv).display
      == conv.show(9.0)
  {
  }

  /** 2 + - 3 = : the second operator replaces the first without computing, giving -1. */
  lemma OperatorCorrection(conv: Conversions)
    requires conv.parse("2") == 2.0 && conv.parse("3") == 3.0
    ensures Run(Initial, [DigitKey('2'), OperatorKey(Add), OperatorKey(Sub), DigitKey('3'), OperatorKey(Eq)], conv).display
      == conv.show(-1.0)
  {
  }

  /** 6 / 2 = = : the second = only re-selects =, and 3 stays on display. */
  lemma RepeatedEquals(conv: Conversions)
    requires conv.parse("6") == 6.0 && conv.parse("2") == 2.0
    ensures var s := Run(Initial, [DigitKey('6'), OperatorKey(Div), DigitKey('2'), OperatorKey(Eq), OperatorKey(Eq)], conv);
      s.display == conv.show(3.0) && s.startedValue == 3.0
  {
  }

  /** 0.1 + 0.2 = : exact arithmetic yields exactly 0.3. */
  lemma DecimalSum(conv: Conversions)
    requires conv.parse("0.1") == 0.1 && conv.parse("0.2") == 0.2
    ensures Run(Initial, [DigitKey('0'), DecimalKey, DigitKey('1'), OperatorKey(Add),
                          DigitKey('0'), DecimalKey, DigitKey('2'), OperatorKey(Eq)], conv).display
      == conv.show(0.3)
  {
    var typedFirst := DigitPressed(DecimalPressed(DigitPressed(Initial, '0')), '1');
    assert typedFirst.display == "0.1";
    var s := OperatorPressed(typedFirst, Add, conv);
    var typedSecond := DigitPressed(DecimalPressed(DigitPressed(s, '0')), '2');
    assert typedSecond.display == "0.2";
  }

  /** 0 - 5 = : a first operand of zero reads as "no operand yet", so = takes 5 as the
      first operand and the display keeps "5" instead of showing 0 - 5. */
  lemma ZeroFirstOperand(conv: Conversions)
    requires conv.parse("0") == 0.0 && conv.parse("5") == 5.0
    ensures var s := Run(Initial, [DigitKey('0'), OperatorKey(Sub), DigitKey('5'), OperatorKey(Eq)], conv);
      s.display == "5" && s.startedValue == 5.0 && s.startedValue != Apply(Sub, 0.0, 5.0)
  {
  }
}

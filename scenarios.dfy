/**
 * Whole key sequences on a keypad like the page's: ten digit keys, the point
 * and sign keys as edit keys alongside the digits, four operators and "=".
 * The floating-point results the sequences need are stated as requirements
 * on the arithmetic parameter.
 */
module Scenarios {
  import opened Text
  import opened Common
  import opened KeyClassifier
  import opened NumericEditor
  import opened Evaluator
  import opened Controller

  const Keypad: Config := Config("0123456789", "0123456789.±", "+-*/", "=")

  /** A digit key is an edit key that starts an operand with that digit. */
  lemma DigitKey(c: char)
    requires c in "0123456789"
    ensures GetKeyClass(Keypad, [c]) == Ok(Edit)
    ensures UpdateString(Keypad, "", [c]) == Ok([c])
  {
    IncludesChar(Keypad.digits, c);
    IncludesChar(Keypad.edits, c);
    assert c in Keypad.digits;
    assert Includes(Keypad.digits, [c]);
    assert "" + [c] == [c];
    assert Candidate(Keypad, "", [c]) == Some([c]);
  }

  /** An operator key is classified as one and names itself. */
  lemma OperatorKey(c: char)
    requires c in "+-*/"
    ensures GetKeyClass(Keypad, [c]) == Ok(Operator)
    ensures OpFrom(Keypad, [c]) == Ok([c])
  {
    IncludesChar(Keypad.edits, c);
    IncludesChar(Keypad.ops, c);
  }

  lemma EqualsKey()
    ensures GetKeyClass(Keypad, "=") == Ok(Evaluate)
  {
    IncludesChar(Keypad.edits, '=');
    IncludesChar(Keypad.ops, '=');
    IncludesChar(Keypad.evals, '=');
  }

  /** A key of a class other than clear goes to the handler of the current state. */
  lemma Dispatch(cfg: Config, arith: Arithmetic, s: Session, key: string, c: KeyClass)
    requires GetKeyClass(cfg, key) == Ok(c) && c != Clear
    ensures Next(cfg, arith, s, key) == match s.state
      case AwaitLeft => AwaitLeftStep(cfg, s, key, c)
      case EnterLeft => EnterLeftStep(cfg, s, key, c)
      case EnterRight => EnterRightStep(cfg, arith, s, key, c)
      case AwaitRight => AwaitRightStep(cfg, arith, s, key, c)
  {
  }

  /** Running a non-empty sequence is one step followed by the rest. */
  lemma RunStep(cfg: Config, arith: Arithmetic, s: Session, keys: seq<string>, t: Session)
    requires keys != [] && Next(cfg, arith, s, keys[0]).session == t
    ensures Run(cfg, arith, s, keys) == Run(cfg, arith, t, keys[1..])
  {
  }

  /** A result too short to hold "Infinity" is shown as it is. */
  lemma ShortResult(decimal: string)
    requires |decimal| < 8
    ensures FormatNumber(decimal) == decimal
  {
    IncludesLength(decimal, "Infinity");
  }

  /** A digit while awaiting an operand starts that operand with the digit. */
  lemma FirstDigit(arith: Arithmetic, s: Session, c: char)
    requires c in "0123456789"
    requires s.state == AwaitLeft || s.state == AwaitRight
    ensures Next(Keypad, arith, s, [c]) == Transition(
      if s.state == AwaitLeft then s.(state := EnterLeft, lhs := [c]) else s.(state := EnterRight, rhs := [c]), Pass)
  {
    DigitKey(c);
    Dispatch(Keypad, arith, s, [c], Edit);
  }

  /** An operator while typing the left operand becomes the pending operator. */
  lemma OperatorAfterLeft(arith: Arithmetic, s: Session, c: char)
    requires c in "+-*/"
    requires s.state == EnterLeft
    ensures Next(Keypad, arith, s, [c]) == Transition(s.(op := [c], state := AwaitRight), Pass)
  {
    OperatorKey(c);
    Dispatch(Keypad, arith, s, [c], Operator);
  }

  /** An operator while awaiting the right operand applies it to the left operand twice. */
  lemma OperatorAfterOperator(arith: Arithmetic, s: Session, c: char)
    requires c in "+-*/"
    requires s.state == AwaitRight
    ensures Next(Keypad, arith, s, [c]) == Transition(Session(AwaitLeft, Operate(arith, [c], s.lhs, s.lhs).value, "", ""), Pass)
  {
    OperatorKey(c);
    Dispatch(Keypad, arith, s, [c], Operator);
  }

  /** = while typing the right operand evaluates. */
  lemma EqualsAfterRight(arith: Arithmetic, s: Session)
    requires s.state == EnterRight
    requires Operate(arith, s.op, s.lhs, s.rhs).Ok?
    ensures Next(Keypad, arith, s, "=") == Transition(Session(AwaitLeft, Operate(arith, s.op, s.lhs, s.rhs).value, "", ""), Pass)
  {
    EqualsKey();
    Dispatch(Keypad, arith, s, "=", Evaluate);
  }

  /** = anywhere else does nothing. */
  lemma EqualsIdle(arith: Arithmetic, s: Session)
    requires s.state != EnterRight
    ensures Next(Keypad, arith, s, "=") == Transition(s, Pass)
  {
    EqualsKey();
    Dispatch(Keypad, arith, s, "=", Evaluate);
  }

  /** 5 + 3 = shows 8 and awaits a new left operand. */
  lemma Addition(arith: Arithmetic)
    requires arith(Add, "5", "3") == "8"
    ensures Run(Keypad, arith, Initial, ["5", "+", "3", "="]) == Session(AwaitLeft, "8", "", "")
  {
    ShortResult("8");
    var keys := ["5", "+", "3", "="];
    var s1 := Session(EnterLeft, "5", "", "");
    var s2 := Session(AwaitRight, "5", "+", "");
    var s3 := Session(EnterRight, "5", "+", "3");
    FirstDigit(arith, Initial, '5');
    RunStep(Keypad, arith, Initial, keys, s1);
    OperatorAfterLeft(arith, s1, '+');
    RunStep(Keypad, arith, s1, keys[1..], s2);
    FirstDigit(arith, s2, '3');
    RunStep(Keypad, arith, s2, keys[2..], s3);
    EqualsAfterRight(arith, s3);
    RunStep(Keypad, arith, s3, keys[3..], Session(AwaitLeft, "8", "", ""));
  }

  /** 6 / 0 = shows the sentinel. */
  lemma DivisionByZero(arith: Arithmetic)
    requires arith(Divide, "6", "0") == "Infinity"
    ensures Run(Keypad, arith, Initial, ["6", "/", "0", "="]) == Session(AwaitLeft, NaN, "", "")
  {
    DivisionByZeroShowsSentinel(arith, "6");
    var keys := ["6", "/", "0", "="];
    var s1 := Session(EnterLeft, "6", "", "");
    var s2 := Session(AwaitRight, "6", "/", "");
    var s3 := Session(EnterRight, "6", "/", "0");
    FirstDigit(arith, Initial, '6');
    RunStep(Keypad, arith, Initial, keys, s1);
    OperatorAfterLeft(arith, s1, '/');
    RunStep(Keypad, arith, s1, keys[1..], s2);
    FirstDigit(arith, s2, '0');
    RunStep(Keypad, arith, s2, keys[2..], s3);
    EqualsAfterRight(arith, s3);
    RunStep(Keypad, arith, s3, keys[3..], Session(AwaitLeft, NaN, "", ""));
  }

  /**
   * 5 + * : the second operator replaces the first and is applied to 5 and
   * itself at once, leaving 25 and no pending operator.
   */
  lemma Chaining(arith: Arithmetic)
    requires arith(Multiply, "5", "5") == "25"
    ensures Run(Keypad, arith, Initial, ["5", "+", "*"]) == Session(AwaitLeft, "25", "", "")
  {
    ShortResult("25");
    var keys := ["5", "+", "*"];
    var s1 := Session(EnterLeft, "5", "", "");
    var s2 := Session(AwaitRight, "5", "+", "");
    FirstDigit(arith, Initial, '5');
    RunStep(Keypad, arith, Initial, keys, s1);
    OperatorAfterLeft(arith, s1, '+');
    RunStep(Keypad, arith, s1, keys[1..], s2);
    OperatorAfterOperator(arith, s2, '*');
    RunStep(Keypad, arith, s2, keys[2..], Session(AwaitLeft, "25", "", ""));
  }

  /** So 2 = after 5 + * types a new left operand 2, which = leaves alone. */
  lemma ChainingThenEquals(arith: Arithmetic)
    requires arith(Multiply, "5", "5") == "25"
    ensures Run(Keypad, arith, Initial, ["5", "+", "*", "2", "="]) == Session(EnterLeft, "2", "", "")
  {
    var keys := ["5", "+", "*", "2", "="];
    var s3 := Session(AwaitLeft, "25", "", "");
    var s4 := Session(EnterLeft, "2", "", "");
    Chaining(arith);
    RunSplit(Keypad, arith, Initial, ["5", "+", "*"], ["2", "="]);
    assert keys == ["5", "+", "*"] + ["2", "="];
    FirstDigit(arith, s3, '2');
    RunStep(Keypad, arith, s3, ["2", "="], s4);
    EqualsIdle(arith, s4);
    RunStep(Keypad, arith, s4, ["="], s4);
  }

  /** = with no operator pending changes nothing. */
  lemma RepeatedEquals(arith: Arithmetic)
    ensures Run(Keypad, arith, Initial, ["=", "="]) == Initial
  {
    EqualsIdle(arith, Initial);
    RunStep(Keypad, arith, Initial, ["=", "="], Initial);
    RunStep(Keypad, arith, Initial, ["="], Initial);
  }

  /** After a result of "NaN", a digit starts a fresh left operand: only typing into an operand is frozen. */
  lemma DigitAfterSentinel(arith: Arithmetic)
    ensures Run(Keypad, arith, Session(AwaitLeft, NaN, "", ""), ["7"]) == Session(EnterLeft, "7", "", "")
  {
    FirstDigit(arith, Session(AwaitLeft, NaN, "", ""), '7');
    RunStep(Keypad, arith, Session(AwaitLeft, NaN, "", ""), ["7"], Session(EnterLeft, "7", "", ""));
  }

  /** ".±" is an edit key, being part of the edit string, but not one the editor handles. */
  lemma PointSignKey()
    ensures GetKeyClass(Keypad, ".±") == Ok(Edit)
    ensures UpdateString(Keypad, "", ".±") == Err(UndefinedEdit)
  {
    IncludesAt(Keypad.edits, ".±", 10);
    if Includes(Keypad.digits, ".±") {
      assert '.' in ".±";
      IncludedCharsOccur(Keypad.digits, ".±");
    }
  }

  /** While awaiting the left operand, ".±" moves to typing it and then throws. */
  lemma FailedEditAfterLeft(arith: Arithmetic, s: Session)
    requires s.state == AwaitLeft
    ensures Next(Keypad, arith, s, ".±") == Transition(s.(state := EnterLeft), Fail(UndefinedEdit))
  {
    PointSignKey();
    Dispatch(Keypad, arith, s, ".±", Edit);
  }

  /** The sign key on a typed left operand edits it. */
  lemma SignAfterLeft(arith: Arithmetic, s: Session)
    requires s.state == EnterLeft
    ensures Next(Keypad, arith, s, SignKey) == Transition(s.(lhs := UpdateString(Keypad, s.lhs, SignKey).value), Pass)
  {
    IncludesChar(Keypad.edits, '±');
    IncludesChar(Keypad.digits, '±');
    Dispatch(Keypad, arith, s, SignKey, Edit);
  }

  /**
   * A result with a minus sign away from the front, such as "1e-7", can be
   * edited after all: ".±" is an edit key that no branch of the editor
   * handles, yet the state has moved to typing the left operand before the
   * edit throws, and the sign key then drops the result's first character.
   */
  lemma SignAfterFailedEdit(arith: Arithmetic)
    ensures Run(Keypad, arith, Session(AwaitLeft, "1e-7", "", ""), [".±", "±"]) == Session(EnterLeft, "e-7", "", "")
  {
    var s0 := Session(AwaitLeft, "1e-7", "", "");
    var s1 := Session(EnterLeft, "1e-7", "", "");
    FailedEditAfterLeft(arith, s0);
    RunStep(Keypad, arith, s0, [".±", "±"], s1);
    SignKeyDropsFirstCharacter(Keypad);
    SignAfterLeft(arith, s1);
    RunStep(Keypad, arith, s1, ["±"], Session(EnterLeft, "e-7", "", ""));
  }
}

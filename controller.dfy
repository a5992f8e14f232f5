/**
 * The expression controller as a transition table: what one key press does
 * to the session (state, left operand, operator, right operand), including
 * the partial updates left behind when a step throws.
 */
module Controller {
  import opened Text
  import opened Common
  import opened KeyClassifier
  import opened NumericEditor
  import opened Evaluator

  datatype State = AwaitLeft | EnterLeft | AwaitRight | EnterRight

  datatype Session = Session(state: State, lhs: string, op: string, rhs: string)

  /** The session at start-up and after a reset. */
  const Initial: Session := Session(AwaitLeft, "0", "", "")

  /** The session after a key press, and whether the press completed or threw. */
  datatype Transition = Transition(session: Session, outcome: Outcome)

  /** The value shown: the right operand while it is being typed, the left one otherwise. */
  function Display(s: Session): (shown: string)
    ensures s.state == EnterRight ==> shown == s.rhs
    ensures s.state != EnterRight ==> shown == s.lhs
  {
    match s.state
    case AwaitLeft | EnterLeft | AwaitRight => s.lhs
    case EnterRight => s.rhs
  }

  /** `evaluate`: the result replaces the left operand and the session awaits a new left operand. */
  function Evaluated(arith: Arithmetic, s: Session): (t: Transition)
    ensures t.outcome == Pass <==> s.op == "+" || s.op == "-" || s.op == "*" || s.op == "/"
    ensures t.outcome.Fail? ==> t == Transition(s, Fail(UnknownOperator))
    ensures t.outcome == Pass ==>
      t.session == Session(AwaitLeft, Operate(arith, s.op, s.lhs, s.rhs).value, "", "")
    ensures |t.session.lhs| <= MaxWidth || t.session == s
  {
    match Operate(arith, s.op, s.lhs, s.rhs)
    case Ok(result) => Transition(Session(AwaitLeft, result, "", ""), Pass)
    case Err(e) => Transition(s, Fail(e))
  }

  /** A key of class `c` while awaiting the left operand. */
  function AwaitLeftStep(cfg: Config, s: Session, key: string, c: KeyClass): (t: Transition)
    ensures t.outcome == Fail(BadKeyClass) <==> c == Clear
    ensures t.session.rhs == s.rhs
    ensures c == Edit ==> t.session == s.(state := EnterLeft, lhs := t.session.lhs)
    ensures c == Edit ==> (t.outcome == Pass <==> UpdateString(cfg, "", key).Ok?)
    ensures c == Edit && t.outcome == Pass ==> t.session.lhs == UpdateString(cfg, "", key).value
    ensures c == Edit && t.outcome.Fail? ==> t == Transition(s.(state := EnterLeft), Fail(UndefinedEdit))
    ensures c == Evaluate ==> t == Transition(s, Pass)
    ensures c == Operator ==> (t.outcome == Pass <==> OpFrom(cfg, key).Ok?)
    ensures c == Operator && t.outcome == Pass ==> t.session == s.(state := AwaitRight, op := key)
    ensures t.outcome.Fail? ==> t.session == s || c == Edit
  {
    match c
    case Edit =>
      (match UpdateString(cfg, "", key)
      case Ok(v) => Transition(s.(state := EnterLeft, lhs := v), Pass)
      case Err(e) => Transition(s.(state := EnterLeft), Fail(e)))
    case Evaluate => Transition(s, Pass)
    case Operator =>
      (match OpFrom(cfg, key)
      case Ok(o) => Transition(s.(op := o, state := AwaitRight), Pass)
      case Err(e) => Transition(s, Fail(e)))
    case Clear => Transition(s, Fail(BadKeyClass))
  }

  /** A key of class `c` while awaiting the right operand; an operator chains on the left operand. */
  function AwaitRightStep(cfg: Config, arith: Arithmetic, s: Session, key: string, c: KeyClass): (t: Transition)
    ensures t.outcome == Fail(BadKeyClass) <==> c == Clear
    ensures c == Edit ==> t.session == s.(state := EnterRight, rhs := t.session.rhs)
    ensures c == Edit ==> (t.outcome == Pass <==> UpdateString(cfg, "", key).Ok?)
    ensures c == Edit && t.outcome == Pass ==> t.session.rhs == UpdateString(cfg, "", key).value
    ensures c == Edit && t.outcome.Fail? ==> t == Transition(s.(state := EnterRight), Fail(UndefinedEdit))
    ensures c == Evaluate ==> t == Transition(s, Pass)
    ensures c == Operator && OpFrom(cfg, key).Ok? ==> t == Evaluated(arith, s.(op := key, rhs := s.lhs))
    ensures c == Operator && OpFrom(cfg, key).Err? ==> t == Transition(s, Fail(BadOpString))
  {
    match c
    case Edit =>
      (match UpdateString(cfg, "", key)
      case Ok(v) => Transition(s.(state := EnterRight, rhs := v), Pass)
      case Err(e) => Transition(s.(state := EnterRight), Fail(e)))
    case Evaluate => Transition(s, Pass)
    case Operator =>
      (match OpFrom(cfg, key)
      case Ok(o) => Evaluated(arith, s.(op := o, rhs := s.lhs))
      case Err(e) => Transition(s, Fail(e)))
    case Clear => Transition(s, Fail(BadKeyClass))
  }

  /** A key of class `c` while typing the left operand. */
  function EnterLeftStep(cfg: Config, s: Session, key: string, c: KeyClass): (t: Transition)
    ensures t.outcome == Fail(BadKeyClass) <==> c == Clear
    ensures t.outcome.Fail? ==> t.session == s
    ensures c == Edit ==> t.session == s.(lhs := t.session.lhs)
    ensures c == Edit ==> (t.outcome == Pass <==> UpdateString(cfg, s.lhs, key).Ok?)
    ensures c == Edit && t.outcome == Pass ==> t.session.lhs == UpdateString(cfg, s.lhs, key).value
    ensures c == Edit && t.outcome.Fail? ==> t.outcome == Fail(UndefinedEdit)
    ensures c == Evaluate ==> t == Transition(s, Pass)
    ensures c == Operator ==> (t.outcome == Pass <==> OpFrom(cfg, key).Ok?)
    ensures c == Operator && t.outcome == Pass ==> t.session == s.(state := AwaitRight, op := key)
  {
    match c
    case Edit =>
      (match UpdateString(cfg, s.lhs, key)
      case Ok(v) => Transition(s.(lhs := v), Pass)
      case Err(e) => Transition(s, Fail(e)))
    case Evaluate => Transition(s, Pass)
    case Operator =>
      (match OpFrom(cfg, key)
      case Ok(o) => Transition(s.(op := o, state := AwaitRight), Pass)
      case Err(e) => Transition(s, Fail(e)))
    case Clear => Transition(s, Fail(BadKeyClass))
  }

  /** A key of class `c` while typing the right operand; evaluate and operator keys evaluate first. */
  function EnterRightStep(cfg: Config, arith: Arithmetic, s: Session, key: string, c: KeyClass): (t: Transition)
    ensures t.outcome == Fail(BadKeyClass) <==> c == Clear
    ensures c == Edit ==> t.session == s.(rhs := t.session.rhs)
    ensures c == Edit ==> (t.outcome == Pass <==> UpdateString(cfg, s.rhs, key).Ok?)
    ensures c == Edit && t.outcome == Pass ==> t.session.rhs == UpdateString(cfg, s.rhs, key).value
    ensures c == Edit && t.outcome.Fail? ==> t == Transition(s, Fail(UndefinedEdit))
    ensures c == Evaluate ==> t == Evaluated(arith, s)
    ensures c == Operator && Evaluated(arith, s).outcome.Fail? ==> t == Evaluated(arith, s)
    ensures c == Operator && Evaluated(arith, s).outcome == Pass ==>
      t == if OpFrom(cfg, key).Ok?
        then Transition(Evaluated(arith, s).session.(state := AwaitRight, op := key), Pass)
        else Transition(Evaluated(arith, s).session, Fail(BadOpString))
  {
    match c
    case Edit =>
      (match UpdateString(cfg, s.rhs, key)
      case Ok(v) => Transition(s.(rhs := v), Pass)
      case Err(e) => Transition(s, Fail(e)))
    case Evaluate =>
      var t := Evaluated(arith, s);
      if t.outcome.Fail? then t else Transition(t.session.(state := AwaitLeft), Pass)
    case Operator =>
      var t := Evaluated(arith, s);
      if t.outcome.Fail? then t
      else
        (match OpFrom(cfg, key)
        case Ok(o) => Transition(t.session.(op := o, state := AwaitRight), Pass)
        case Err(e) => Transition(t.session, Fail(e)))
    case Clear => Transition(s, Fail(BadKeyClass))
  }

  /** `runKeypress`: classify, reset on clear, otherwise dispatch on the state. */
  function Next(cfg: Config, arith: Arithmetic, s: Session, key: string): (t: Transition)
    ensures t.outcome != Fail(BadKeyClass)
    ensures key == "clear" ==> t == Transition(Initial, Pass)
    ensures t.outcome == Fail(UnrecognizedKey) <==> GetKeyClass(cfg, key).Err?
    ensures GetKeyClass(cfg, key).Err? ==> t.session == s
  {
    match GetKeyClass(cfg, key)
    case Err(e) => Transition(s, Fail(e))
    case Ok(Clear) => Transition(Initial, Pass)
    case Ok(c) =>
      match s.state
      case AwaitLeft => AwaitLeftStep(cfg, s, key, c)
      case EnterLeft => EnterLeftStep(cfg, s, key, c)
      case EnterRight => EnterRightStep(cfg, arith, s, key, c)
      case AwaitRight => AwaitRightStep(cfg, arith, s, key, c)
  }

  /** The session after a sequence of key presses; a press that throws leaves what it had changed and the next press goes on from there. */
  function Run(cfg: Config, arith: Arithmetic, s: Session, keys: seq<string>): (r: Session)
    ensures keys == [] ==> r == s
    ensures keys != [] && keys[|keys| - 1] == "clear" ==> r == Initial
    decreases |keys|
  {
    if keys == [] then s
    else Run(cfg, arith, Next(cfg, arith, s, keys[0]).session, keys[1..])
  }

  /** Running two sequences one after the other is running their concatenation. */
  lemma {:induction false} RunSplit(cfg: Config, arith: Arithmetic, s: Session, first: seq<string>, second: seq<string>)
    ensures Run(cfg, arith, s, first + second) == Run(cfg, arith, Run(cfg, arith, s, first), second)
    decreases |first|
  {
    if first == [] {
      assert first + second == second;
    } else {
      assert (first + second)[0] == first[0];
      assert (first + second)[1..] == first[1..] + second;
      RunSplit(cfg, arith, Next(cfg, arith, s, first[0]).session, first[1..], second);
    }
  }

  /**
   * What holds of every session the controller reaches: an operator is
   * pending exactly while awaiting or typing the right operand, the right
   * operand is empty unless it is being typed, the operator is one operator
   * character, and both operands fit the display.
   */
  predicate Inv(cfg: Config, s: Session): (ok: bool)
    ensures ok ==> |Display(s)| <= MaxWidth
  {
    && (s.op != "" <==> s.state == AwaitRight || s.state == EnterRight)
    && (s.state != EnterRight ==> s.rhs == "")
    && (s.op == "" || (|s.op| == 1 && s.op[0] in cfg.ops))
    && |s.lhs| <= MaxWidth
    && |s.rhs| <= MaxWidth
  }

  lemma InitialInv(cfg: Config)
    ensures Inv(cfg, Initial)
  {
  }

  /** An evaluate key changes nothing unless the right operand is being typed. */
  lemma EvaluateKeyIdle(cfg: Config, arith: Arithmetic, s: Session, key: string)
    requires GetKeyClass(cfg, key) == Ok(Evaluate)
    requires s.state != EnterRight
    ensures Next(cfg, arith, s, key) == Transition(s, Pass)
  {
  }

  /**
   * An operator while awaiting the right operand installs the new operator,
   * applies it to the left operand twice, and awaits a new left operand.
   */
  lemma OperatorChains(cfg: Config, arith: Arithmetic, s: Session, key: string)
    requires GetKeyClass(cfg, key) == Ok(Operator) && |key| == 1
    requires s.state == AwaitRight
    requires Operate(arith, key, s.lhs, s.lhs).Ok?
    ensures Next(cfg, arith, s, key) ==
      Transition(Session(AwaitLeft, Operate(arith, key, s.lhs, s.lhs).value, "", ""), Pass)
  {
    OperatorKeyOpFrom(cfg, key);
  }

  /**
   * An operator while typing the right operand evaluates with the pending
   * operator, then installs the new one and awaits a right operand.
   */
  lemma OperatorEvaluatesFirst(cfg: Config, arith: Arithmetic, s: Session, key: string)
    requires GetKeyClass(cfg, key) == Ok(Operator) && |key| == 1
    requires s.state == EnterRight
    requires Operate(arith, s.op, s.lhs, s.rhs).Ok?
    ensures Next(cfg, arith, s, key) ==
      Transition(Session(AwaitRight, Operate(arith, s.op, s.lhs, s.rhs).value, key, ""), Pass)
  {
    OperatorKeyOpFrom(cfg, key);
  }

  /**
   * Every key press keeps the invariant, whether it completes or throws,
   * except an operator the evaluator does not know.
   */
  lemma NextKeepsInv(cfg: Config, arith: Arithmetic, s: Session, key: string)
    requires Inv(cfg, s)
    requires Next(cfg, arith, s, key).outcome != Fail(UnknownOperator)
    ensures Inv(cfg, Next(cfg, arith, s, key).session)
  {
    var kc := GetKeyClass(cfg, key);
    if kc == Ok(Operator) {
      OperatorKeyOpFrom(cfg, key);
    }
  }

  /** With operator keys drawn from + - * /, the evaluator never meets an unknown operator. */
  lemma NoUnknownOperator(cfg: Config, arith: Arithmetic, s: Session, key: string)
    requires ArithmeticOps(cfg)
    requires Inv(cfg, s)
    ensures Next(cfg, arith, s, key).outcome != Fail(UnknownOperator)
  {
    var kc := GetKeyClass(cfg, key);
    if kc == Ok(Operator) {
      OperatorKeyOpFrom(cfg, key);
    }
  }

  /** With operator keys drawn from + - * /, every sequence of key presses from start-up keeps the invariant. */
  lemma {:induction false} RunKeepsInv(cfg: Config, arith: Arithmetic, s: Session, keys: seq<string>)
    requires ArithmeticOps(cfg)
    requires Inv(cfg, s)
    ensures Inv(cfg, Run(cfg, arith, s, keys))
    decreases |keys|
  {
    if keys != [] {
      NoUnknownOperator(cfg, arith, s, keys[0]);
      NextKeepsInv(cfg, arith, s, keys[0]);
      RunKeepsInv(cfg, arith, Next(cfg, arith, s, keys[0]).session, keys[1..]);
    }
  }
}

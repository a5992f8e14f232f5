/**
 * The calculator's session as the page keeps it: four variables that every
 * key press updates in place. Each method does what its counterpart does,
 * assignment by assignment, and is proved to end in the session that the
 * transition table of `Controller` prescribes.
 */
module Calc {
  import opened Common
  import opened KeyClassifier
  import opened NumericEditor
  import opened Evaluator
  import opened Controller

  class Calculator {
    const cfg: Config
    const arith: Arithmetic
    var state: State
    var lhs: string
    var op: string
    var rhs: string

    /** The four variables as one value. */
    function Current(): Session
      reads this
    {
      Session(state, lhs, op, rhs)
    }

    constructor (cfg: Config, arith: Arithmetic)
      ensures this.cfg == cfg && this.arith == arith
      ensures Current() == Initial
    {
      this.cfg := cfg;
      this.arith := arith;
      state, lhs, op, rhs := AwaitLeft, "0", "", "";
    }

    method Reset()
      modifies this
      ensures Current() == Initial
    {
      state := AwaitLeft;
      lhs := "0";
      op := "";
      rhs := "";
    }

    /** Replaces the left operand by the result and clears the rest; an unknown operator changes nothing. */
    method Evaluate() returns (r: Result<string>)
      modifies this
      ensures r == Operate(arith, old(op), old(lhs), old(rhs))
      ensures Current() == Evaluated(arith, old(Current())).session
    {
      r := Operate(arith, op, lhs, rhs);
      if r.Err? {
        return;
      }
      lhs := r.value;
      op := "";
      rhs := "";
      state := AwaitLeft;
    }

    method KeypressAwaitLeft(key: string, keyClass: KeyClass) returns (o: Outcome)
      modifies this
      ensures Transition(Current(), o) == AwaitLeftStep(cfg, old(Current()), key, keyClass)
    {
      match keyClass
      case Edit =>
        state := EnterLeft;
        var edited := UpdateString(cfg, "", key);
        if edited.Err? {
          return Fail(edited.error);
        }
        lhs := edited.value;
        o := Pass;
      case Evaluate =>
        o := Pass;
      case Operator =>
        var o' := OpFrom(cfg, key);
        if o'.Err? {
          return Fail(o'.error);
        }
        op := o'.value;
        state := AwaitRight;
        o := Pass;
      case Clear =>
        o := Fail(BadKeyClass);
    }

    method KeypressAwaitRight(key: string, keyClass: KeyClass) returns (o: Outcome)
      modifies this
      ensures Transition(Current(), o) == AwaitRightStep(cfg, arith, old(Current()), key, keyClass)
    {
      match keyClass
      case Edit =>
        state := EnterRight;
        var edited := UpdateString(cfg, "", key);
        if edited.Err? {
          return Fail(edited.error);
        }
        rhs := edited.value;
        o := Pass;
      case Evaluate =>
        o := Pass;
      case Operator =>
        var o' := OpFrom(cfg, key);
        if o'.Err? {
          return Fail(o'.error);
        }
        op := o'.value;
        rhs := lhs;
        var result := Evaluate();
        o := if result.Ok? then Pass else Fail(result.error);
      case Clear =>
        o := Fail(BadKeyClass);
    }

    method KeypressEnterLeft(key: string, keyClass: KeyClass) returns (o: Outcome)
      modifies this
      ensures Transition(Current(), o) == EnterLeftStep(cfg, old(Current()), key, keyClass)
    {
      match keyClass
      case Edit =>
        var edited := UpdateString(cfg, lhs, key);
        if edited.Err? {
          return Fail(edited.error);
        }
        lhs := edited.value;
        o := Pass;
      case Evaluate =>
        o := Pass;
      case Operator =>
        var o' := OpFrom(cfg, key);
        if o'.Err? {
          return Fail(o'.error);
        }
        op := o'.value;
        state := AwaitRight;
        o := Pass;
      case Clear =>
        o := Fail(BadKeyClass);
    }

    method KeypressEnterRight(key: string, keyClass: KeyClass) returns (o: Outcome)
      modifies this
      ensures Transition(Current(), o) == EnterRightStep(cfg, arith, old(Current()), key, keyClass)
    {
      match keyClass
      case Edit =>
        var edited := UpdateString(cfg, rhs, key);
        if edited.Err? {
          return Fail(edited.error);
        }
        rhs := edited.value;
        o := Pass;
      case Evaluate =>
        var result := Evaluate();
        if result.Err? {
          return Fail(result.error);
        }
        state := AwaitLeft;
        o := Pass;
      case Operator =>
        var result := Evaluate();
        if result.Err? {
          return Fail(result.error);
        }
        var o' := OpFrom(cfg, key);
        if o'.Err? {
          return Fail(o'.error);
        }
        op := o'.value;
        state := AwaitRight;
        o := Pass;
      case Clear =>
        o := Fail(BadKeyClass);
    }

    /**
     * Handles one key press and returns the value to display, or the error
     * it throws. When every operator key is one of + - * /, the session
     * invariant is kept whatever the key.
     */
    method RunKeypress(key: string) returns (r: Result<string>)
      modifies this
      ensures var t := Next(cfg, arith, old(Current()), key);
        && Current() == t.session
        && r == (if t.outcome.Pass? then Ok(Display(t.session)) else Err(t.outcome.error))
      ensures ArithmeticOps(cfg) && Inv(cfg, old(Current())) ==> Inv(cfg, Current())
    {
      ghost var before := Current();
      if ArithmeticOps(cfg) && Inv(cfg, before) {
        NoUnknownOperator(cfg, arith, before, key);
        NextKeepsInv(cfg, arith, before, key);
      }
      var keyClass := GetKeyClass(cfg, key);
      if keyClass.Err? {
        return Err(keyClass.error);
      }
      var o := Pass;
      if keyClass.value == Clear {
        Reset();
      } else {
        match state
        case AwaitLeft =>
          o := KeypressAwaitLeft(key, keyClass.value);
        case EnterLeft =>
          o := KeypressEnterLeft(key, keyClass.value);
        case EnterRight =>
          o := KeypressEnterRight(key, keyClass.value);
        case AwaitRight =>
          o := KeypressAwaitRight(key, keyClass.value);
      }
      if o.Fail? {
        return Err(o.error);
      }
      r := Ok(Display(Current()));
    }
  }
}

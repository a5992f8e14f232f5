/**
 * The arithmetic evaluator: `operate` and the formatting of its results
 * (`toString`, `handleOverflow`).
 */
module Evaluator {
  import opened Text
  import opened Common

  datatype ArithOp = Add | Subtract | Multiply | Divide

  /**
   * The floating-point part of `add`, `subtract`, `multiply` and `divide`:
   * both operands coerced to numbers, the operation applied, and the result
   * written as a JavaScript decimal string (which may read "NaN", "Infinity"
   * or "-Infinity"). It is a parameter of the model, not defined by it.
   */
  type Arithmetic = (ArithOp, string, string) -> string

  /** A too-wide result keeps its first 16 characters if it has a point, else it becomes the sentinel. */
  function HandleOverflow(s: string): (r: string)
    ensures |r| <= MaxWidth
    ensures r == NaN <==> !Includes(s, ".")
    ensures Includes(s, ".") ==> r <= s && |r| == if |s| < MaxWidth then |s| else MaxWidth
  {
    IncludesShort(s, ".");
    if Includes(s, ".") then s[..if |s| < MaxWidth then |s| else MaxWidth] else NaN
  }

  /**
   * The string post-processing of `toString`, applied to the decimal string
   * of a result: an infinity becomes the sentinel, and a string of 16 or
   * more characters goes through `HandleOverflow`.
   */
  function FormatNumber(decimal: string): (r: string)
    ensures |r| <= MaxWidth
    ensures Includes(decimal, "Infinity") ==> r == NaN
    ensures r == NaN || r <= decimal
    ensures !Includes(decimal, "Infinity") && |decimal| < MaxWidth ==> r == decimal
  {
    var out := if Includes(decimal, "Infinity") then NaN else decimal;
    if |out| >= MaxWidth then HandleOverflow(out) else out
  }

  /** An overflowing finite result is cut to the display width when it has a point, and is the sentinel otherwise. */
  lemma FormatOverflow(decimal: string)
    requires !Includes(decimal, "Infinity")
    requires |decimal| >= MaxWidth
    ensures FormatNumber(decimal) == if '.' in decimal then decimal[..MaxWidth] else NaN
  {
    IncludesShort(decimal, ".");
  }

  /** Applies one of the four operators and formats the result; any other operator is an error. */
  function Operate(arith: Arithmetic, op: string, lhs: string, rhs: string): (r: Result<string>)
    ensures r.Ok? <==> op == "+" || op == "-" || op == "*" || op == "/"
    ensures r.Err? ==> r.error == UnknownOperator
    ensures r.Ok? ==> |r.value| <= MaxWidth
    ensures op == "+" ==> r == Ok(FormatNumber(arith(Add, lhs, rhs)))
    ensures op == "-" ==> r == Ok(FormatNumber(arith(Subtract, lhs, rhs)))
    ensures op == "*" ==> r == Ok(FormatNumber(arith(Multiply, lhs, rhs)))
    ensures op == "/" ==> r == Ok(FormatNumber(arith(Divide, lhs, rhs)))
  {
    if op == "+" then Ok(FormatNumber(arith(Add, lhs, rhs)))
    else if op == "-" then Ok(FormatNumber(arith(Subtract, lhs, rhs)))
    else if op == "*" then Ok(FormatNumber(arith(Multiply, lhs, rhs)))
    else if op == "/" then Ok(FormatNumber(arith(Divide, lhs, rhs)))
    else Err(UnknownOperator)
  }

  /** The sentinel is a result that formatting leaves alone. */
  lemma FormatKeepsSentinel()
    ensures FormatNumber(NaN) == NaN
  {
    IncludesLength(NaN, "Infinity");
  }

  /** The floating-point assumption that an operation with a "NaN" operand reads "NaN". */
  ghost predicate PropagatesNaN(arith: Arithmetic) {
    forall o, x :: arith(o, NaN, x) == NaN && arith(o, x, NaN) == NaN
  }

  /** Under that assumption the sentinel is absorbing: any operation with it yields it again. */
  lemma SentinelAbsorbs(arith: Arithmetic, op: string, x: string)
    requires PropagatesNaN(arith)
    requires op == "+" || op == "-" || op == "*" || op == "/"
    ensures Operate(arith, op, NaN, x) == Ok(NaN)
    ensures Operate(arith, op, x, NaN) == Ok(NaN)
  {
    FormatKeepsSentinel();
  }

  /**
   * Division by zero shows the sentinel, under the floating-point
   * assumption that the quotient reads "Infinity" or "-Infinity" (or "NaN"
   * for 0/0).
   */
  lemma DivisionByZeroShowsSentinel(arith: Arithmetic, x: string)
    requires arith(Divide, x, "0") == NaN || Includes(arith(Divide, x, "0"), "Infinity")
    ensures Operate(arith, "/", x, "0") == Ok(NaN)
  {
    FormatKeepsSentinel();
  }
}

/**
 * What every component of the calculator shares: the display width, the
 * configured key strings, and the errors the controller can raise.
 */
module Common {

  /** The widest operand or result the display shows (`MAXWIDTH`). */
  const MaxWidth: nat := 16

  /** The invalid-result sentinel. */
  const NaN: string := "NaN"

  /**
   * The four key strings the page builds by concatenating the ids of its
   * digit, edit, operator and evaluate buttons. Membership of a key is
   * substring containment in the corresponding string.
   */
  datatype Config = Config(digits: string, edits: string, ops: string, evals: string)

  /** The exceptions thrown by the controller, as values. */
  datatype Error =
    | UnrecognizedKey   // getKeyClass: no class contains the key
    | BadOpString       // opFrom: longer than one character, or not an operator
    | UndefinedEdit     // updateString: no branch assigned `out`, so `out.length` fails
    | UnknownOperator   // operate: operator outside + - * /
    | BadKeyClass       // a per-state handler got a class it has no case for

  datatype Option<T> = None | Some(value: T)

  datatype Result<T> = Ok(value: T) | Err(error: Error)

  datatype Outcome = Pass | Fail(error: Error)

  predicate IsDigit(c: char) {
    '0' <= c <= '9'
  }

  /** The digit keys are decimal digits, as on the page's keypad. */
  predicate DecimalDigits(cfg: Config) {
    forall c :: c in cfg.digits ==> IsDigit(c)
  }

  /** Every operator key is one that `operate` understands. */
  predicate ArithmeticOps(cfg: Config) {
    forall c :: c in cfg.ops ==> c == '+' || c == '-' || c == '*' || c == '/'
  }

  /** No character belongs to two of the edit, operator and evaluate strings. */
  predicate DisjointClasses(cfg: Config) {
    && (forall c :: c in cfg.edits ==> c !in cfg.ops && c !in cfg.evals)
    && (forall c :: c in cfg.ops ==> c !in cfg.evals)
  }
}

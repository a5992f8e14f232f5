/**
 * The key classifier (`getKeyClass`) and the operator extraction (`opFrom`).
 */
module KeyClassifier {
  import opened Text
  import opened Common

  datatype KeyClass = Clear | Edit | Operator | Evaluate

  /**
   * Classifies a key: the literal "clear" first, then the edit, operator and
   * evaluate strings in that order; a key in none of them is an error.
   */
  function GetKeyClass(cfg: Config, key: string): (r: Result<KeyClass>)
    ensures r == Ok(Clear) <==> key == "clear"
    ensures r.Err? <==>
      key != "clear" && !Includes(cfg.edits, key) && !Includes(cfg.ops, key) && !Includes(cfg.evals, key)
    ensures r == Ok(Edit) <==> key != "clear" && Includes(cfg.edits, key)
    ensures r == Ok(Operator) <==> key != "clear" && !Includes(cfg.edits, key) && Includes(cfg.ops, key)
    ensures r == Ok(Evaluate) <==>
      key != "clear" && !Includes(cfg.edits, key) && !Includes(cfg.ops, key) && Includes(cfg.evals, key)
    ensures r == Ok(Operator) || r == Ok(Evaluate) ==> key != ""
    ensures key == "" ==> r == Ok(Edit)
  {
    IncludesEmpty(cfg.edits);
    if key == "clear" then Ok(Clear)
    else if Includes(cfg.edits, key) then Ok(Edit)
    else if Includes(cfg.ops, key) then Ok(Operator)
    else if Includes(cfg.evals, key) then Ok(Evaluate)
    else Err(UnrecognizedKey)
  }

  /**
   * The operator named by a key: accepted only if it has at most one
   * character and that character is an operator key.
   */
  function OpFrom(cfg: Config, key: string): (r: Result<string>)
    ensures r.Ok? <==> key == "" || (|key| == 1 && key[0] in cfg.ops)
    ensures r.Ok? ==> r.value == key
    ensures r.Err? ==> r.error == BadOpString
  {
    if |key| > 1 then Err(BadOpString)
    else if (IncludesShort(cfg.ops, key); !Includes(cfg.ops, key)) then Err(BadOpString)
    else Ok(key)
  }

  /**
   * A key the classifier calls an operator yields an operator exactly when it
   * is a single character: longer operator keys are rejected by `OpFrom`.
   */
  lemma OperatorKeyOpFrom(cfg: Config, key: string)
    requires GetKeyClass(cfg, key) == Ok(Operator)
    ensures OpFrom(cfg, key).Ok? <==> |key| == 1
    ensures OpFrom(cfg, key).Ok? ==> key[0] in cfg.ops
  {
    if |key| == 1 {
      IncludesShort(cfg.ops, key);
    }
  }

  /**
   * When no character is in two classes, a single-character key is classified
   * by the one string that holds it: the order of the tests does not matter.
   */
  lemma ClassifyCharacter(cfg: Config, c: char)
    requires DisjointClasses(cfg)
    ensures GetKeyClass(cfg, [c]) == Ok(Edit) <==> c in cfg.edits
    ensures GetKeyClass(cfg, [c]) == Ok(Operator) <==> c in cfg.ops
    ensures GetKeyClass(cfg, [c]) == Ok(Evaluate) <==> c in cfg.evals
    ensures GetKeyClass(cfg, [c]).Err? <==> c !in cfg.edits && c !in cfg.ops && c !in cfg.evals
  {
    IncludesChar(cfg.edits, c);
    IncludesChar(cfg.ops, c);
    IncludesChar(cfg.evals, c);
  }
}

/**
 * The numeric string editor (`updateString`): how one edit key changes the
 * operand being typed.
 */
module NumericEditor {
  import opened Text
  import opened Common

  const PointKey: string := "."
  const SignKey: string := "±"

  /**
   * The value `updateString` assigns to `out` before its width guard, or None
   * when no branch assigns it. The branches run in the order of the source,
   * so a digit key overrides the point and sign cases.
   *
   * The sign branch drops the first character of any operand that holds a
   * minus sign anywhere. Its guard against a minus sign away from the front
   * compares a boolean with "-" and so never rejects anything; it is left out.
   */
  function Candidate(cfg: Config, current: string, key: string): Option<string> {
    if Includes(cfg.digits, key) then Some(current + key)
    else if key == PointKey then Some(if Includes(current, PointKey) then current else current + PointKey)
    else if key == SignKey then
      Some(if Includes(current, "-") then (IncludesLength(current, "-"); current[1..]) else "-" + current)
    else None
  }

  /**
   * Applies one edit key to an operand. The sentinel is frozen, an edit
   * wider than the display is discarded, and a key that no branch handles
   * is an error.
   */
  function UpdateString(cfg: Config, current: string, key: string): (r: Result<string>)
    ensures current == NaN ==> r == Ok(NaN)
    ensures r.Err? <==> current != NaN && !Includes(cfg.digits, key) && key != PointKey && key != SignKey
    ensures r.Err? ==> r.error == UndefinedEdit
    ensures r.Ok? ==> r.value == current || |r.value| <= MaxWidth
    ensures |current| <= MaxWidth && r.Ok? ==> |r.value| <= MaxWidth
    ensures current != NaN && Includes(cfg.digits, key) ==>
      r == Ok(if |current + key| <= MaxWidth then current + key else current)
    ensures current != NaN && key == PointKey && !Includes(cfg.digits, key) && !Includes(current, PointKey) ==>
      r == Ok(if |current| < MaxWidth then current + PointKey else current)
    ensures current != NaN && key == PointKey && !Includes(cfg.digits, key) && Includes(current, PointKey) ==>
      r == Ok(current)
  {
    if current == NaN then Ok(NaN)
    else match Candidate(cfg, current, key)
      case None => Err(UndefinedEdit)
      case Some(out) => if |out| > MaxWidth then Ok(current) else Ok(out)
  }

  /**
   * An operand as typing builds it: at most the display width, decimal
   * digits, at most one point, and a minus sign only in front.
   */
  predicate EditedOperand(s: string) {
    && |s| <= MaxWidth
    && (forall i | 0 <= i < |s| :: IsDigit(s[i]) || s[i] == '.' || (i == 0 && s[i] == '-'))
    && multiset(s)['.'] <= 1
  }

  /** The sentinel is never built by typing: its letters are not digits. */
  lemma SentinelIsNotOperand()
    ensures !EditedOperand(NaN)
  {
    assert NaN[1] == 'a';
  }

  /** The operand left by typing `keys` from the empty string; a failed edit leaves it as it was. */
  function Typed(cfg: Config, keys: seq<string>): string
    decreases |keys|
  {
    if keys == [] then ""
    else
      var before := Typed(cfg, keys[..|keys| - 1]);
      match UpdateString(cfg, before, keys[|keys| - 1])
      case Ok(after) => after
      case Err(_) => before
  }

  /** The point key does nothing to an operand that already has a point. */
  lemma PointIdempotent(cfg: Config, s: string)
    requires DecimalDigits(cfg)
    requires '.' in s
    ensures UpdateString(cfg, s, PointKey) == Ok(s)
  {
    IncludesShort(cfg.digits, PointKey);
    IncludesShort(s, PointKey);
  }

  /** On an edited operand the sign key removes a leading minus sign or adds one, within the width. */
  lemma SignToggle(cfg: Config, s: string)
    requires DecimalDigits(cfg)
    requires EditedOperand(s)
    ensures UpdateString(cfg, s, SignKey) ==
      Ok(if s != "" && s[0] == '-' then s[1..] else if |s| < MaxWidth then "-" + s else s)
  {
    IncludesShort(cfg.digits, SignKey);
    IncludesShort(s, "-");
    SentinelIsNotOperand();
    if '-' in s {
      var i :| 0 <= i < |s| && s[i] == '-';
      assert i == 0;
    }
  }

  /** Appending digits within the width keeps an edited operand. */
  lemma AppendDigitsKeepsOperand(s: string, digits: string)
    requires EditedOperand(s)
    requires forall c :: c in digits ==> IsDigit(c)
    requires |s + digits| <= MaxWidth
    ensures EditedOperand(s + digits)
  {
    assert forall i | 0 <= i < |digits| :: IsDigit(digits[i]) by {
      forall i | 0 <= i < |digits| ensures IsDigit(digits[i]) {
        assert digits[i] in digits;
      }
    }
    assert multiset(digits)['.'] == 0;
  }

  /** Appending a point to an operand without one, within the width, keeps an edited operand. */
  lemma AppendPointKeepsOperand(s: string)
    requires EditedOperand(s)
    requires '.' !in s
    requires |s| < MaxWidth
    ensures EditedOperand(s + PointKey)
  {
  }

  /** Toggling the sign of an edited operand, within the width, keeps an edited operand. */
  lemma ToggleKeepsOperand(s: string)
    requires EditedOperand(s)
    ensures s != "" && s[0] == '-' ==> EditedOperand(s[1..])
    ensures !(s != "" && s[0] == '-') && |s| < MaxWidth ==> EditedOperand("-" + s)
  {
    if s != "" && s[0] == '-' {
      assert s == [s[0]] + s[1..];
      assert multiset(s)['.'] == multiset(s[1..])['.'];
    }
  }

  /** Every successful edit of an edited operand is again an edited operand. */
  lemma EditKeepsOperand(cfg: Config, s: string, key: string)
    requires DecimalDigits(cfg)
    requires EditedOperand(s)
    requires UpdateString(cfg, s, key).Ok?
    ensures EditedOperand(UpdateString(cfg, s, key).value)
  {
    SentinelIsNotOperand();
    if Includes(cfg.digits, key) {
      IncludedCharsOccur(cfg.digits, key);
      if |s + key| <= MaxWidth {
        AppendDigitsKeepsOperand(s, key);
      }
    } else if key == PointKey {
      IncludesShort(s, PointKey);
      if '.' !in s && |s| < MaxWidth {
        AppendPointKeepsOperand(s);
      }
    } else {
      SignToggle(cfg, s);
      ToggleKeepsOperand(s);
    }
  }

  /** Whatever keys are pressed, typing from the empty string yields an edited operand. */
  lemma {:induction false} TypedIsOperand(cfg: Config, keys: seq<string>)
    requires DecimalDigits(cfg)
    ensures EditedOperand(Typed(cfg, keys))
    decreases |keys|
  {
    if keys != [] {
      var before := Typed(cfg, keys[..|keys| - 1]);
      TypedIsOperand(cfg, keys[..|keys| - 1]);
      if UpdateString(cfg, before, keys[|keys| - 1]).Ok? {
        EditKeepsOperand(cfg, before, keys[|keys| - 1]);
      }
    }
  }

  /** Pressing the sign key twice on an edited operand gives back the operand. */
  lemma SignToggleInvolution(cfg: Config, s: string)
    requires DecimalDigits(cfg)
    requires EditedOperand(s)
    ensures UpdateString(cfg, s, SignKey).Ok?
    ensures UpdateString(cfg, UpdateString(cfg, s, SignKey).value, SignKey) == Ok(s)
  {
    SignToggle(cfg, s);
    var t := UpdateString(cfg, s, SignKey).value;
    EditKeepsOperand(cfg, s, SignKey);
    SignToggle(cfg, t);
    if s != "" && s[0] == '-' {
      assert s == "-" + s[1..];
      if s[1..] != "" {
        assert s[1..][0] == s[1];
      }
    } else if |s| < MaxWidth {
      assert t[1..] == s;
    }
  }

  /**
   * The sign key on any operand but the sentinel, within the width: a
   * minus sign anywhere makes it drop the first character, whatever that
   * character is; otherwise a minus sign is put in front if it fits.
   */
  lemma {:induction false} SignAnyOperand(cfg: Config, s: string)
    requires !Includes(cfg.digits, SignKey)
    requires s != NaN
    requires |s| <= MaxWidth
    ensures UpdateString(cfg, s, SignKey) ==
      Ok(if Includes(s, "-") then (IncludesLength(s, "-"); s[1..]) else if |s| < MaxWidth then "-" + s else s)
  {
    if Includes(s, "-") {
      IncludesLength(s, "-");
      assert Candidate(cfg, s, SignKey) == Some(s[1..]);
    } else {
      assert Candidate(cfg, s, SignKey) == Some("-" + s);
    }
  }

  /**
   * A minus sign away from the front is not rejected: the sign key drops the
   * operand's first character instead.
   */
  lemma SignKeyDropsFirstCharacter(cfg: Config)
    requires DecimalDigits(cfg)
    ensures UpdateString(cfg, "1e-7", SignKey) == Ok("e-7")
  {
    IncludesShort(cfg.digits, SignKey);
    IncludesShort("1e-7", "-");
    assert "1e-7"[2] == '-';
  }
}

/**
 * Substring containment, the meaning of JavaScript's `String.prototype.includes`
 * that the calculator uses both for "is this key one of the configured keys"
 * and for "does this operand already hold a point or a minus sign".
 */
module Text {

  /** `part` occurs somewhere in `s` as a contiguous run (the empty string occurs everywhere). */
  predicate Includes(s: string, part: string)
    decreases |s|
  {
    part <= s || (s != [] && Includes(s[1..], part))
  }

  /** The empty string is included in every string. */
  lemma IncludesEmpty(s: string)
    ensures Includes(s, "")
  {
  }

  /** Something longer than `s` cannot occur in it. */
  lemma {:induction false} IncludesLength(s: string, part: string)
    ensures Includes(s, part) ==> |part| <= |s|
    decreases |s|
  {
    if s != [] && !(part <= s) {
      IncludesLength(s[1..], part);
    }
  }

  /** For a one-character needle, substring containment is plain membership. */
  lemma {:induction false} IncludesChar(s: string, c: char)
    ensures Includes(s, [c]) <==> c in s
    decreases |s|
  {
    if s != [] {
      IncludesChar(s[1..], c);
      assert s == [s[0]] + s[1..];
    }
  }

  /** A key of at most one character is included exactly when it is empty or its character occurs. */
  lemma IncludesShort(s: string, key: string)
    requires |key| <= 1
    ensures Includes(s, key) <==> key == "" || key[0] in s
  {
    if key != "" {
      assert key == [key[0]];
      IncludesChar(s, key[0]);
    }
  }

  /** Every character of an included part is a character of the whole. */
  lemma {:induction false} IncludedCharsOccur(s: string, part: string)
    requires Includes(s, part)
    ensures forall c :: c in part ==> c in s
    decreases |s|
  {
    if part <= s {
      forall c | c in part ensures c in s {
        var i :| 0 <= i < |part| && part[i] == c;
        assert s[i] == c;
      }
    } else {
      IncludedCharsOccur(s[1..], part);
      forall c | c in part ensures c in s {
        assert c in s[1..];
      }
    }
  }

  /** A part that starts at some index of `s` is included in `s`. */
  lemma {:induction false} IncludesAt(s: string, part: string, i: nat)
    requires i <= |s| && part <= s[i..]
    ensures Includes(s, part)
    decreases i
  {
    if i > 0 {
      assert s[1..][i - 1..] == s[i..];
      IncludesAt(s[1..], part, i - 1);
    }
  }
}

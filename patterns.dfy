/** The two regular expressions the form screens test with `RegExp.prototype.test`
    (an unanchored search): the e-mail shape `\S+@\S+\.\S+` and the password-strength
    look-aheads `(?=.*[a-z])(?=.*[A-Z])(?=.*\d)`.

    Each is given twice: a ghost predicate that reads like the regular expression
    (a match of the whole pattern somewhere in the string) and an executable test,
    with a lemma that the two agree. */
module Patterns {
  import opened Text

  /** No white space in `s[lo..hi]`. */
  predicate NoSpaceIn(s: string, lo: int, hi: int)
    requires 0 <= lo <= hi <= |s|
  {
    forall k :: lo <= k < hi ==> !IsSpace(s[k])
  }

  /** `\S+@\S+\.\S+` matches `s[i..j]`: three non-empty runs of non-space characters
      separated by `@` at `a` and `.` at `d`. */
  ghost predicate EmailMatchAt(s: string, i: int, a: int, d: int, j: int) {
    && 0 <= i < a && a + 1 < d && d + 1 < j <= |s|
    && s[a] == '@' && s[d] == '.'
    && NoSpaceIn(s, i, a) && NoSpaceIn(s, a + 1, d) && NoSpaceIn(s, d + 1, j)
  }

  /** `/\S+@\S+\.\S+/.test(s)`: the pattern matches somewhere in `s`. */
  ghost predicate EmailRegexTest(s: string) {
    exists i, a, d, j :: EmailMatchAt(s, i, a, d, j)
  }

  /** The e-mail shape anchored at an `@` at `a` and a `.` at `d`: a non-space character
      before the `@`, only non-space characters between the two, a non-space character
      after the `.`. */
  predicate EmailShapeAt(s: string, a: int, d: int)
    requires 1 <= a && a + 1 < d && d + 1 < |s|
  {
    s[a] == '@' && s[d] == '.' && !IsSpace(s[a - 1]) && !IsSpace(s[d + 1]) && NoSpaceIn(s, a + 1, d)
  }

  /** Executable form of the e-mail test. */
  predicate LooksLikeEmail(s: string) {
    exists a, d | 1 <= a < |s| && a + 1 < d < |s| - 1 :: EmailShapeAt(s, a, d)
  }

  /** The executable form and the regular expression accept the same strings. */
  lemma EmailTestCorrect(s: string)
    ensures LooksLikeEmail(s) <==> EmailRegexTest(s)
  {
    if LooksLikeEmail(s) {
      var a, d :| 1 <= a < |s| && a + 1 < d < |s| - 1 && EmailShapeAt(s, a, d);
      assert EmailMatchAt(s, a - 1, a, d, d + 2);
    }
    if EmailRegexTest(s) {
      var i, a, d, j :| EmailMatchAt(s, i, a, d, j);
      assert !IsSpace(s[a - 1]) && !IsSpace(s[d + 1]);
      assert EmailShapeAt(s, a, d);
    }
  }

  /** Strings that pass the e-mail test contain an `@` and a `.` and have at least five characters. */
  lemma EmailHasAt(s: string)
    requires LooksLikeEmail(s)
    ensures '@' in s && '.' in s && |s| >= 5
  {
    var a, d :| 1 <= a < |s| && a + 1 < d < |s| - 1 && EmailShapeAt(s, a, d);
    assert s[a] in s && s[d] in s;
  }

  datatype CharClass = Lower | Upper | Digit

  predicate InClass(c: char, cls: CharClass) {
    match cls
    case Lower => IsLower(c)
    case Upper => IsUpper(c)
    case Digit => IsDigit(c)
  }

  predicate NoTerminatorIn(s: string, lo: int, hi: int)
    requires 0 <= lo <= hi <= |s|
  {
    forall m :: lo <= m < hi ==> !IsLineTerminator(s[m])
  }

  /** `(?=.*[cls])` at position `p`: a character of the class follows on the same line
      (`.` does not cross a line terminator). */
  predicate AheadOnLine(s: string, p: int, cls: CharClass)
    requires 0 <= p <= |s|
  {
    exists k | p <= k < |s| :: InClass(s[k], cls) && NoTerminatorIn(s, p, k)
  }

  /** `/(?=.*[a-z])(?=.*[A-Z])(?=.*\d)/.test(s)`: some position sees all three look-aheads. */
  predicate StrongPassword(s: string) {
    exists p | 0 <= p <= |s| ::
      AheadOnLine(s, p, Lower) && AheadOnLine(s, p, Upper) && AheadOnLine(s, p, Digit)
  }

  predicate Contains(s: string, cls: CharClass) {
    exists k | 0 <= k < |s| :: InClass(s[k], cls)
  }

  /** On a single line the strength test means: a lower-case letter, an upper-case
      letter and a digit each occur somewhere. */
  lemma StrongOnOneLine(s: string)
    requires NoTerminatorIn(s, 0, |s|)
    ensures StrongPassword(s) <==> Contains(s, Lower) && Contains(s, Upper) && Contains(s, Digit)
  {
    if Contains(s, Lower) && Contains(s, Upper) && Contains(s, Digit) {
      forall cls: CharClass | Contains(s, cls) ensures AheadOnLine(s, 0, cls) {
        var k :| 0 <= k < |s| && InClass(s[k], cls);
        assert NoTerminatorIn(s, 0, k);
      }
      assert AheadOnLine(s, 0, Lower) && AheadOnLine(s, 0, Upper) && AheadOnLine(s, 0, Digit);
    }
    if StrongPassword(s) {
      var p :| 0 <= p <= |s| && AheadOnLine(s, p, Lower) && AheadOnLine(s, p, Upper) && AheadOnLine(s, p, Digit);
      forall cls: CharClass | AheadOnLine(s, p, cls) ensures Contains(s, cls) {
        var k :| p <= k < |s| && InClass(s[k], cls) && NoTerminatorIn(s, p, k);
      }
    }
  }

  /** Whatever the lines, the strength test implies all three classes occur. */
  lemma StrongImpliesClasses(s: string)
    requires StrongPassword(s)
    ensures Contains(s, Lower) && Contains(s, Upper) && Contains(s, Digit)
  {
    var p :| 0 <= p <= |s| && AheadOnLine(s, p, Lower) && AheadOnLine(s, p, Upper) && AheadOnLine(s, p, Digit);
    forall cls: CharClass | AheadOnLine(s, p, cls) ensures Contains(s, cls) {
      var k :| p <= k < |s| && InClass(s[k], cls) && NoTerminatorIn(s, p, k);
    }
  }

  /** The three classes split across a line break do not pass. */
  lemma StrengthIsPerLine()
    ensures Contains("a\nA1", Lower) && Contains("a\nA1", Upper) && Contains("a\nA1", Digit)
    ensures !StrongPassword("a\nA1")
  {
    var s := "a\nA1";
    assert InClass(s[0], Lower) && InClass(s[2], Upper) && InClass(s[3], Digit);
    forall p | 0 <= p <= |s| ensures !(AheadOnLine(s, p, Lower) && AheadOnLine(s, p, Upper)) {
      if p <= 1 {
        forall k | p <= k < |s| && InClass(s[k], Upper) ensures !NoTerminatorIn(s, p, k) {
          assert IsLineTerminator(s[1]);
        }
      } else {
        forall k | p <= k < |s| ensures !InClass(s[k], Lower) { }
      }
    }
  }
}

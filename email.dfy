/**
 * The email format test of the login screen: the regular expression
 * `\S+@\S+\.\S+` applied with `RegExp.prototype.test`, which succeeds when
 * SOME substring of the input belongs to the expression's language (the
 * expression has no `^`/`$` anchors).
 */
module EmailPattern {
  import opened JsText

  /** No character of `s[lo..hi]` is whitespace, i.e. it is in `\S*`. */
  predicate NonWhitespace(s: string, lo: int, hi: int)
    requires 0 <= lo <= hi <= |s|
  {
    forall k | lo <= k < hi :: !IsWhitespace(s[k])
  }

  /**
   * `s[i..e]` is a word of `\S+@\S+\.\S+` whose `@` is at index `a` and
   * whose `\.` is at index `d`: three non-empty runs of non-whitespace
   * characters separated by those two literal characters.
   */
  ghost predicate MatchAt(s: string, i: int, a: int, d: int, e: int) {
    0 <= i < a && a + 1 < d && d + 1 < e <= |s| &&
    s[a] == '@' && s[d] == '.' &&
    NonWhitespace(s, i, a) && NonWhitespace(s, a + 1, d) && NonWhitespace(s, d + 1, e)
  }

  /** The regular expression matches somewhere in `s`. */
  ghost predicate Matches(s: string) {
    exists i, a, d, e :: MatchAt(s, i, a, d, e)
  }

  /**
   * The shortest match around an `@` at `a` and a `.` at `d`: one
   * non-whitespace character before the `@`, only non-whitespace strictly
   * between the two, and one non-whitespace character after the `.`.
   */
  predicate AtDotWitness(s: string, a: int, d: int) {
    1 <= a && a + 2 <= d && d + 1 < |s| &&
    s[a] == '@' && s[d] == '.' &&
    !IsWhitespace(s[a - 1]) && NonWhitespace(s, a + 1, d) && !IsWhitespace(s[d + 1])
  }

  /**
   * The regular expression matches exactly when some `@` at index a >= 1 and
   * some `.` at index d >= a + 2 form an `AtDotWitness`.
   */
  lemma MatchesIffAtDot(s: string)
    ensures Matches(s) <==> exists a, d :: AtDotWitness(s, a, d)
  {
    if Matches(s) {
      var i, a, d, e :| MatchAt(s, i, a, d, e);
      assert AtDotWitness(s, a, d);
    }
    if exists a, d :: AtDotWitness(s, a, d) {
      var a, d :| AtDotWitness(s, a, d);
      assert MatchAt(s, a - 1, a, d, d + 2);
    }
  }

  /**
   * `/\S+@\S+\.\S+/.test(s)`: looks for an `@` and a `.` that form a witness.
   * A passing input holds both and has at least five characters, as `a@b.c` does.
   */
  function Test(s: string): (r: bool)
    ensures r ==> 5 <= |s| && '@' in s && '.' in s
  {
    exists a, d | 0 < a < |s| && a + 2 <= d < |s| - 1 :: AtDotWitness(s, a, d)
  }

  /** The test succeeds exactly when the regular expression matches somewhere. */
  lemma TestIffMatches(s: string)
    ensures Test(s) <==> Matches(s)
  {
    MatchesIffAtDot(s);
  }

  /** Accepted inputs, including a match inside longer text. */
  lemma Accepted()
    ensures Test("ana@x.com")
    ensures Test("write to ana@x.com today")
  {
    assert AtDotWitness("ana@x.com", 3, 5);
    assert AtDotWitness("write to ana@x.com today", 12, 14);
  }

  lemma AcceptedMatches()
    ensures Matches("ana@x.com")
  {
    Accepted();
    TestIffMatches("ana@x.com");
  }

  /** Rejected inputs: no dot, nothing after the dot, nothing before `@`, nothing between, a space inside. */
  lemma Rejected()
    ensures !Test("ana@x")
    ensures !Test("ana@x.")
    ensures !Test("@x.com")
    ensures !Test("a@.com")
    ensures !Test("a @x.c")
  {
  }
}

/**
 * The e-mail check both authentication forms use: the JavaScript regular
 * expression `\S+@\S+\.\S+`, tested unanchored, written out as a predicate
 * over the string.  `\s` is JavaScript's whitespace class.
 */
module Email {

  /** The characters JavaScript's `\s` matches. */
  predicate IsWhitespace(c: char) {
    c == ' ' || c == '\t' || c == '\n' || c == '\U{B}' || c == '\U{C}' || c == '\r'
    || c == '\U{A0}' || c == '\U{1680}' || ('\U{2000}' <= c <= '\U{200A}')
    || c == '\U{2028}' || c == '\U{2029}' || c == '\U{202F}' || c == '\U{205F}'
    || c == '\U{3000}' || c == '\U{FEFF}'
  }

  /** No whitespace in `s[lo..hi]`. */
  predicate NoSpaceIn(s: string, lo: int, hi: int)
    requires 0 <= lo <= hi <= |s|
  {
    forall p :: lo <= p < hi ==> !IsWhitespace(s[p])
  }

  /**
   * What the regular expression means: some segment `s[i..j]` without
   * whitespace has the shape x@y.z with `x == s[i..k]`, `y == s[k+1..m]`,
   * `z == s[m+1..j]`, each non-empty.
   */
  ghost predicate MatchesEmailRegex(s: string) {
    exists i, k, m, j ::
      0 <= i < k && k + 1 < m && m + 1 < j <= |s|
      && s[k] == '@' && s[m] == '.' && NoSpaceIn(s, i, j)
  }

  /**
   * The check as the forms evaluate it: an `@` with a non-space character
   * before it, later a `.` with at least one character between them and one
   * after it, and no whitespace from the character before the `@` to the one
   * after the `.`.
   */
  predicate IsEmailLike(s: string) {
    exists k, m | 0 < k < |s| && k + 1 < m < |s| - 1 ::
      s[k] == '@' && s[m] == '.' && NoSpaceIn(s, k - 1, m + 2)
  }

  lemma NoSpaceInShrinks(s: string, lo: int, hi: int, lo': int, hi': int)
    requires 0 <= lo <= lo' <= hi' <= hi <= |s|
    requires NoSpaceIn(s, lo, hi)
    ensures NoSpaceIn(s, lo', hi')
  {
  }

  /** The executable check accepts exactly the strings the regular expression matches. */
  lemma EmailCheckMatchesRegex(s: string)
    ensures IsEmailLike(s) <==> MatchesEmailRegex(s)
  {
    if IsEmailLike(s) {
      var k, m :| 0 < k < |s| && k + 1 < m < |s| - 1
        && s[k] == '@' && s[m] == '.' && NoSpaceIn(s, k - 1, m + 2);
      assert 0 <= k - 1 < k && k + 1 < m && m + 1 < m + 2 <= |s|;
    }
    if MatchesEmailRegex(s) {
      var i, k, m, j :| 0 <= i < k && k + 1 < m && m + 1 < j <= |s|
        && s[k] == '@' && s[m] == '.' && NoSpaceIn(s, i, j);
      NoSpaceInShrinks(s, i, j, k - 1, m + 2);
      assert 0 < k < |s| && k + 1 < m < |s| - 1;
    }
  }

  /** Text around a match does not undo it: the test is unanchored. */
  lemma EmailLikeInContext(s: string, before: string, after: string)
    requires IsEmailLike(s)
    ensures IsEmailLike(before + s + after)
  {
    var t := before + s + after;
    var k, m :| 0 < k < |s| && k + 1 < m < |s| - 1
      && s[k] == '@' && s[m] == '.' && NoSpaceIn(s, k - 1, m + 2);
    var d := |before|;
    assert t[d + k] == '@' && t[d + m] == '.';
    assert forall p :: d + k - 1 <= p < d + m + 2 ==> t[p] == s[p - d];
    assert NoSpaceIn(t, d + k - 1, d + m + 2);
  }

  /** A string the check accepts has an `@`, a later `.`, and at least five characters. */
  lemma EmailLikeShape(s: string)
    requires IsEmailLike(s)
    ensures |s| >= 5
    ensures exists k, m :: 0 < k && k + 1 < m && m + 1 < |s| && s[k] == '@' && s[m] == '.'
  {
  }

  /** Without an `@`, or without a `.`, the check fails. */
  lemma EmailNeedsAtAndDot(s: string)
    requires '@' !in s || '.' !in s
    ensures !IsEmailLike(s)
  {
  }

  lemma EmailExamples()
    ensures IsEmailLike("john@example.com")
    ensures IsEmailLike("a@b.c")
    ensures !IsEmailLike("john@example")
    ensures !IsEmailLike("john.example")
  {
    assert "a@b.c"[1] == '@' && "a@b.c"[3] == '.';
    assert NoSpaceIn("a@b.c", 0, 5);
    var e := "john@example.com";
    assert e[4] == '@' && e[12] == '.';
    assert NoSpaceIn(e, 3, 14);
    var f := "john@example";
    assert '.' !in f by {
      assert forall p :: 0 <= p < |f| ==> f[p] != '.';
    }
    EmailNeedsAtAndDot(f);
    var g := "john.example";
    assert '@' !in g by {
      assert forall p :: 0 <= p < |g| ==> g[p] != '@';
    }
    EmailNeedsAtAndDot(g);
  }
}

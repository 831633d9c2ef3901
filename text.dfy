/**
 * String helpers used by the intake form's validator: whitespace, `String.prototype.trim`
 * and the one regular expression the form tests (`\S+@\S+\.\S+`, unanchored).
 * Whitespace is the ASCII subset of what JavaScript's `trim` and `\s` share.
 */
module Text {

  /** ASCII characters that JavaScript's `trim` strips and `\s` matches. */
  predicate IsSpace(c: char) {
    c == ' ' || c == '\t' || c == '\n' || c == '\r' || c == '\U{000B}' || c == '\U{000C}'
  }

  /** Every character of `s` is whitespace (vacuously true of the empty string). */
  predicate Blank(s: string) {
    forall i | 0 <= i < |s| :: IsSpace(s[i])
  }

  /** No character of `s` is whitespace: what `\S+` asks of a non-empty run. */
  predicate Solid(s: string) {
    forall i | 0 <= i < |s| :: !IsSpace(s[i])
  }

  /** Drops leading whitespace: what is left is a suffix that does not start with a space. */
  function TrimStart(s: string): (r: string)
    ensures |r| <= |s| && r == s[|s| - |r|..]
    ensures r == [] || !IsSpace(r[0])
    ensures Blank(s[..|s| - |r|])
  {
    if |s| > 0 && IsSpace(s[0]) then
      var r := TrimStart(s[1..]);
      assert s[1..][..|s| - 1 - |r|] == s[1..|s| - |r|];
      r
    else
      s
  }

  /** Drops trailing whitespace: what is left is a prefix that does not end with a space. */
  function TrimEnd(s: string): (r: string)
    ensures |r| <= |s| && r == s[..|r|]
    ensures r == [] || !IsSpace(r[|r| - 1])
    ensures Blank(s[|r|..])
  {
    if |s| > 0 && IsSpace(s[|s| - 1]) then
      var r := TrimEnd(s[..|s| - 1]);
      assert s[|r|..] == s[..|s| - 1][|r|..] + [s[|s| - 1]];
      r
    else
      s
  }

  /** `String.prototype.trim` over the ASCII whitespace set. */
  function Trim(s: string): string {
    TrimEnd(TrimStart(s))
  }

  /** `!s.trim()` holds exactly of the strings made only of whitespace. */
  lemma TrimEmptyIffBlank(s: string)
    ensures Trim(s) == [] <==> Blank(s)
  {
    var t := TrimStart(s);
    if !Blank(s) && t != [] {
      assert TrimEnd(t) != [];
    }
  }

  /**
   * The regular expression `\S+@\S+\.\S+` matches somewhere in `s` (JavaScript's `test`
   * is unanchored): some substring splits into a non-empty solid run, an `@`, a non-empty
   * solid run, a `.` and a non-empty solid run.
   */
  ghost predicate EmailRegexMatches(s: string) {
    exists i, j, k, l :: RegexMatchAt(s, i, j, k, l)
  }

  /** `s[i..l]` is a match with its `@` at `j` and its `.` at `k`. */
  ghost predicate RegexMatchAt(s: string, i: int, j: int, k: int, l: int) {
    0 <= i < j && j + 1 < k && k + 1 < l <= |s| &&
    s[j] == '@' && s[k] == '.' &&
    Solid(s[i..j]) && Solid(s[j + 1..k]) && Solid(s[k + 1..l])
  }

  /**
   * A direct scan for the same pattern: an `@` with a non-space character before it,
   * then a solid run up to a `.` that is followed by a non-space character.
   */
  predicate HasEmailShape(s: string) {
    exists j, k | 0 < j < k < |s| :: ShapeAt(s, j, k)
  }

  /** The `@` of a match sits at `j` and its `.` at `k`. */
  predicate ShapeAt(s: string, j: int, k: int)
    requires 0 < j < k < |s|
  {
    j + 1 < k && k + 1 < |s| &&
    s[j] == '@' && s[k] == '.' && !IsSpace(s[j - 1]) && !IsSpace(s[k + 1]) &&
    forall m | j < m < k :: !IsSpace(s[m])
  }

  /** A solid slice has no space at any of its positions. */
  lemma SolidAt(s: string, a: int, b: int, m: int)
    requires 0 <= a <= m < b <= |s| && Solid(s[a..b])
    ensures !IsSpace(s[m])
  {
    assert s[a..b][m - a] == s[m];
  }

  /** A slice whose every position holds a non-space character is solid. */
  lemma SolidFrom(s: string, a: int, b: int)
    requires 0 <= a <= b <= |s| && forall m | a <= m < b :: !IsSpace(s[m])
    ensures Solid(s[a..b])
  {
    var t := s[a..b];
    forall n | 0 <= n < |t| ensures !IsSpace(t[n]) {
      assert t[n] == s[a + n];
    }
  }

  /** The scan accepts exactly the strings the regular expression matches somewhere in. */
  lemma EmailShapeIffRegex(s: string)
    ensures HasEmailShape(s) <==> EmailRegexMatches(s)
  {
    if HasEmailShape(s) {
      var j, k :| 0 < j < k < |s| && ShapeAt(s, j, k);
      SolidFrom(s, j + 1, k);
      assert RegexMatchAt(s, j - 1, j, k, k + 2);
    }
    if EmailRegexMatches(s) {
      var i, j, k, l :| RegexMatchAt(s, i, j, k, l);
      SolidAt(s, i, j, j - 1);
      SolidAt(s, k + 1, l, k + 1);
      forall m | j < m < k ensures !IsSpace(s[m]) {
        SolidAt(s, j + 1, k, m);
      }
      assert ShapeAt(s, j, k);
    }
  }

  /** Worked cases: a plain address, a string with no `@`, and the unanchored match after a space. */
  lemma EmailShapeExamples()
    ensures HasEmailShape("a@b.co")
    ensures !HasEmailShape("not-an-email")
    ensures HasEmailShape("x y@z.w")
  {
    assert ShapeAt("a@b.co", 1, 3);
    assert ShapeAt("x y@z.w", 3, 5);
    var u := "not-an-email";
    assert forall j | 0 <= j < |u| :: u[j] != '@';
  }
}

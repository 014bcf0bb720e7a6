/**
 * The two JavaScript string operations the bundle helpers depend on, with
 * their ECMAScript meaning:
 *  - `s.replace(pat, rep)` with a STRING pattern replaces the first
 *    occurrence of `pat` only;
 *  - the regular expression `/.js$/` has an unescaped dot, so it matches any
 *    one character that is not a line terminator, followed by `js`, at the
 *    end of the string.
 */
module JsStrings {
  import opened Wrappers

  /** `pat` occurs in `s` starting at index `i`. */
  predicate OccursAt(s: string, pat: string, i: nat) {
    i + |pat| <= |s| && s[i..i + |pat|] == pat
  }

  /** The leftmost index where `pat` occurs in `s` (the search `indexOf` does). */
  function IndexOf(s: string, pat: string): (r: Option<nat>)
    ensures r.Some? ==> OccursAt(s, pat, r.value)
    ensures r.Some? ==> forall j: nat :: j < r.value ==> !OccursAt(s, pat, j)
    ensures r.None? ==> forall j: nat :: !OccursAt(s, pat, j)
    decreases |s|
  {
    if |pat| > |s| then None
    else if s[..|pat|] == pat then Some(0)
    else
      var rest := IndexOf(s[1..], pat);
      assert !OccursAt(s, pat, 0);
      assert forall j: nat :: 0 < j ==> (OccursAt(s, pat, j) <==> OccursAt(s[1..], pat, j - 1)) by {
        forall j: nat | 0 < j ensures OccursAt(s, pat, j) <==> OccursAt(s[1..], pat, j - 1) {
          OccursAtShift(s, pat, j - 1);
        }
      }
      if rest.None? then None else Some(rest.value + 1)
  }

  /** Dropping the first character moves every occurrence one place to the left. */
  lemma OccursAtShift(s: string, pat: string, j: nat)
    requires |s| > 0
    ensures OccursAt(s[1..], pat, j) <==> OccursAt(s, pat, j + 1)
  {
    if j + 1 + |pat| <= |s| {
      assert s[1..][j..j + |pat|] == s[j + 1..j + 1 + |pat|];
    }
  }

  /**
   * `s.replace(pat, rep)` for a string `pat`: the first occurrence is replaced
   * and every later one is left alone; without an occurrence `s` is returned.
   * (None of the replacement strings used here contains a `$` pattern.)
   */
  function ReplaceFirst(s: string, pat: string, rep: string): string {
    match IndexOf(s, pat)
    case None => s
    case Some(i) => s[..i] + rep + s[i + |pat|..]
  }

  /** The characters `.` does not match in a regular expression without the `s` flag. */
  predicate IsLineTerminator(c: char) {
    c == '\n' || c == '\r' || c == '\U{2028}' || c == '\U{2029}'
  }

  /** `s.match(/.js$/)` succeeds. */
  predicate MatchesDotJs(s: string) {
    |s| >= 3 && !IsLineTerminator(s[|s| - 3]) && s[|s| - 2..] == "js"
  }

  /**
   * `s.replace(/.js$/, '')`. The pattern is anchored at the end and is three
   * characters long, so its only possible match is the last three characters.
   */
  function StripDotJs(s: string): string {
    if MatchesDotJs(s) then s[..|s| - 3] else s
  }

  /** A name with a real `.js` extension matches, and stripping gives back its stem. */
  lemma StripDotJsOfJsFile(stem: string)
    ensures MatchesDotJs(stem + ".js")
    ensures StripDotJs(stem + ".js") == stem
  {
    var s := stem + ".js";
    assert s[|s| - 3] == '.';
    assert s[|s| - 2..] == "js";
    assert s[..|s| - 3] == stem;
  }

  /** The unescaped dot: a name ending in `js` without a dot matches too, and loses three characters. */
  lemma StripDotJsAnyCharacter()
    ensures MatchesDotJs("foojs")
    ensures StripDotJs("foojs") == "fo"
    ensures !MatchesDotJs("a\njs") && StripDotJs("a\njs") == "a\njs"
  {
    var s := "foojs";
    assert s[2] == 'o';
    assert s[3..] == "js";
    assert s[..2] == "fo";
  }

  /** The first occurrence is the one replaced, whatever follows it. */
  lemma ReplaceFirstAt(s: string, pat: string, rep: string, i: nat)
    requires OccursAt(s, pat, i)
    requires forall j: nat :: j < i ==> !OccursAt(s, pat, j)
    ensures ReplaceFirst(s, pat, rep) == s[..i] + rep + s[i + |pat|..]
  {
    var found := IndexOf(s, pat);
    assert found == Some(i);
  }

  /** Without an occurrence the string comes back unchanged. */
  lemma ReplaceFirstAbsent(s: string, pat: string, rep: string)
    requires forall i: nat :: !OccursAt(s, pat, i)
    ensures ReplaceFirst(s, pat, rep) == s
  {
    var found := IndexOf(s, pat);
    assert found == None;
  }

  /** A pattern at the very start of the string is the one replaced: `(pat + t).replace(pat, rep) == rep + t`. */
  lemma ReplaceFirstPrefix(pat: string, t: string, rep: string)
    ensures ReplaceFirst(pat + t, pat, rep) == rep + t
  {
    var s := pat + t;
    assert s[0..|pat|] == pat;
    ReplaceFirstAt(s, pat, rep, 0);
    assert s[|pat|..] == t;
  }

  /** For a one-character pattern, the first occurrence is the first index holding that character. */
  lemma ReplaceFirstCharAt(a: string, c: char, b: string, rep: string)
    requires c !in a
    ensures ReplaceFirst(a + [c] + b, [c], rep) == a + rep + b
  {
    var s := a + [c] + b;
    assert s[|a|..|a| + 1] == [c];
    forall j: nat | j < |a|
      ensures !OccursAt(s, [c], j)
    {
      assert s[j..j + 1] == [a[j]];
    }
    ReplaceFirstAt(s, [c], rep, |a|);
    assert s[..|a|] == a;
    assert s[|a| + 1..] == b;
  }
}

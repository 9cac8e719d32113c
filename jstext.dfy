/** The JavaScript string operations the application relies on:
    `includes`, `indexOf`, `split(sep)[0]`, `replace` of the first occurrence,
    ASCII `toLowerCase`, and the truthiness of a possibly missing string. */
module JsText {
  import opened Wrappers

  /** `pat` occurs in `s` starting at index `i`. */
  predicate OccursAt(s: string, pat: string, i: nat) {
    i + |pat| <= |s| && s[i..i + |pat|] == pat
  }

  /** First occurrence of `pat` in `s` at or after `k`. */
  function IndexFrom(s: string, pat: string, k: nat): (r: Option<nat>)
    decreases |s| - k
    ensures r.Some? ==> k <= r.value && OccursAt(s, pat, r.value)
    ensures r.Some? ==> forall j :: k <= j < r.value ==> !OccursAt(s, pat, j)
    ensures r.None? ==> forall j :: k <= j ==> !OccursAt(s, pat, j)
  {
    if k + |pat| > |s| then None
    else if s[k..k + |pat|] == pat then Some(k)
    else IndexFrom(s, pat, k + 1)
  }

  /** `s.indexOf(pat)`, with -1 written as None. */
  function IndexOf(s: string, pat: string): (r: Option<nat>)
    ensures r.Some? ==> OccursAt(s, pat, r.value)
    ensures r.Some? ==> forall j: nat :: j < r.value ==> !OccursAt(s, pat, j)
    ensures r.None? ==> forall j: nat :: !OccursAt(s, pat, j)
  {
    IndexFrom(s, pat, 0)
  }

  /** `s.includes(pat)`. */
  predicate Contains(s: string, pat: string) {
    IndexOf(s, pat).Some?
  }

  lemma ContainsIff(s: string, pat: string)
    ensures Contains(s, pat) <==> exists j: nat :: OccursAt(s, pat, j)
  {
    if !Contains(s, pat) {
      assert forall j: nat :: !OccursAt(s, pat, j);
    }
  }

  /** A string that does not contain `pat` has no prefix that does. */
  lemma {:induction false} PrefixAvoids(s: string, pat: string, n: nat)
    requires n <= |s|
    requires !Contains(s, pat)
    ensures !Contains(s[..n], pat)
  {
    if Contains(s[..n], pat) {
      var j := IndexOf(s[..n], pat).value;
      assert s[..n][j..j + |pat|] == s[j..j + |pat|];
      assert OccursAt(s, pat, j);
    }
  }

  /** The text before the first occurrence of `pat` does not contain `pat`. */
  lemma {:induction false} BeforeFirstAvoids(s: string, pat: string)
    requires |pat| > 0 && IndexOf(s, pat).Some?
    ensures !Contains(s[..IndexOf(s, pat).value], pat)
  {
    var i := IndexOf(s, pat).value;
    if Contains(s[..i], pat) {
      var j := IndexOf(s[..i], pat).value;
      assert s[..i][j..j + |pat|] == s[j..j + |pat|];
      assert j < i && OccursAt(s, pat, j);
    }
  }

  /** `s.split(sep)[0]`: the text before the first `sep`, or all of `s`. */
  function Before(s: string, sep: string): (r: string)
    requires |sep| > 0
    ensures r <= s
    ensures !Contains(r, sep)
    ensures r == s || OccursAt(s, sep, |r|)
    ensures IndexOf(s, sep).None? ==> r == s
    ensures IndexOf(s, sep).Some? ==> r == s[..IndexOf(s, sep).value]
  {
    match IndexOf(s, sep)
    case None => s
    case Some(i) => BeforeFirstAvoids(s, sep); s[..i]
  }

  /** The text after the first occurrence of `sep`; `s.split(sep)[1]` is
      `Before(After(s, sep), sep)`, this text cut at the next `sep`. */
  function After(s: string, sep: string): (r: string)
    requires Contains(s, sep)
    ensures |r| <= |s| - |sep|
    ensures s == s[..IndexOf(s, sep).value] + sep + r
  {
    var i := IndexOf(s, sep).value;
    s[i + |sep|..]
  }

  /** `s.replace(pat, rep)` with a string pattern: only the first occurrence is replaced. */
  function ReplaceFirst(s: string, pat: string, rep: string): (r: string)
    ensures !Contains(s, pat) ==> r == s
    ensures Contains(s, pat) ==>
      var i := IndexOf(s, pat).value;
      r == s[..i] + rep + s[i + |pat|..]
  {
    match IndexOf(s, pat)
    case None => s
    case Some(i) => s[..i] + rep + s[i + |pat|..]
  }

  /** `toLowerCase` on one character, restricted to the ASCII letters. */
  function LowerChar(c: char): char {
    if 'A' <= c <= 'Z' then (c as int - 'A' as int + 'a' as int) as char else c
  }

  /** `toLowerCase` restricted to ASCII letters. */
  function Lower(s: string): (r: string)
    ensures |r| == |s|
    ensures forall i :: 0 <= i < |s| ==> r[i] == LowerChar(s[i])
  {
    seq(|s|, i requires 0 <= i < |s| => LowerChar(s[i]))
  }

  /** A string read from storage or from a record that may be missing is truthy
      in JavaScript exactly when it is present and not empty. */
  predicate Truthy(o: Option<string>) {
    o.Some? && o.value != ""
  }
}

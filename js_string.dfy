/**
 * The JavaScript string operations that the typing checker and the XML
 * readers rely on, over `string = seq<char>`.  Every kana, digit and symbol
 * the program handles lies in the Basic Multilingual Plane, so one Dafny
 * `char` stands for one UTF-16 code unit.
 */
module JsString {
  import opened Options

  function Min(a: int, b: int): int { if a <= b then a else b }

  // ---------------------------------------------------------------------------
  // String.prototype.startsWith, compared one code unit at a time
  // ---------------------------------------------------------------------------

  /** `s.startsWith(p)`. */
  predicate StartsWith(s: string, p: string) {
    StartsWithFrom(s, p, 0)
  }

  /** `s` and `p` agree on the positions `k .. |p|` of `p`. */
  predicate StartsWithFrom(s: string, p: string, k: nat)
    requires k <= |p|
    decreases |p| - k
  {
    k == |p| || (k < |s| && s[k] == p[k] && StartsWithFrom(s, p, k + 1))
  }

  lemma {:induction false} StartsWithFromAgrees(s: string, p: string, k: nat)
    requires k <= |p|
    ensures StartsWithFrom(s, p, k) <==>
              (k == |p| || |p| <= |s|) && forall j :: k <= j < |p| ==> j < |s| && s[j] == p[j]
    decreases |p| - k
  {
    if k < |p| {
      StartsWithFromAgrees(s, p, k + 1);
    }
  }

  /** `startsWith` is exactly Dafny's prefix relation on sequences. */
  lemma StartsWithIsPrefix(s: string, p: string)
    ensures StartsWith(s, p) <==> p <= s
  {
    StartsWithFromAgrees(s, p, 0);
  }

  // ---------------------------------------------------------------------------
  // String.prototype.slice with non-negative arguments: both ends are clamped
  // to the length, and a range that ends before it starts is empty
  // ---------------------------------------------------------------------------

  /** `s.slice(start, end)`. */
  function Slice(s: string, start: nat, end: nat): (r: string)
    ensures |r| <= |s|
  {
    var from := Min(start, |s|);
    var to := Min(end, |s|);
    if from < to then s[from..to] else []
  }

  /** `s.slice(start)`. */
  function SliceFrom(s: string, start: nat): (r: string)
    ensures start <= |s| ==> r == s[start..]
    ensures start >= |s| ==> r == []
  {
    s[Min(start, |s|)..]
  }

  /**
   * The comparison `x === s.slice(i, i + x.length)` that the checker makes
   * before it advances along the word succeeds exactly when `x` occurs in
   * `s` at `i`.
   */
  lemma SliceMatches(s: string, i: nat, x: string)
    requires i <= |s|
    ensures x == Slice(s, i, i + |x|) <==> i + |x| <= |s| && s[i..i + |x|] == x
  {
  }

  // ---------------------------------------------------------------------------
  // Searching for a literal, the part of a regular expression like
  // /<Name>(.*?)<\/Name>/s that the XML readers need
  // ---------------------------------------------------------------------------

  /** `pat` occurs in `s` starting at index `i`. */
  predicate OccursAt(s: string, pat: string, i: nat) {
    i + |pat| <= |s| && s[i..i + |pat|] == pat
  }

  /** The first index at or after `from` where `pat` occurs in `s`. */
  function IndexOf(s: string, pat: string, from: nat): Option<nat>
    decreases |s| - from
  {
    if |s| < from + |pat| then None
    else if s[from..from + |pat|] == pat then Some(from)
    else IndexOf(s, pat, from + 1)
  }

  /**
   * `indexOf` finds the leftmost occurrence at or after `from`, and finds
   * nothing exactly when there is none.
   */
  lemma {:induction false} IndexOfSpec(s: string, pat: string, from: nat)
    ensures var r := IndexOf(s, pat, from);
            (r.Some? ==> from <= r.value && OccursAt(s, pat, r.value)) &&
            (r.Some? ==> forall j :: from <= j < r.value ==> !OccursAt(s, pat, j)) &&
            (r.None? <==> forall j :: from <= j ==> !OccursAt(s, pat, j))
    decreases |s| - from
  {
    if |s| < from + |pat| {
    } else if s[from..from + |pat|] == pat {
      assert OccursAt(s, pat, from);
    } else {
      IndexOfSpec(s, pat, from + 1);
    }
  }

  // ---------------------------------------------------------------------------
  // String.prototype.trim
  // ---------------------------------------------------------------------------

  /**
   * The code units ECMAScript counts as WhiteSpace or LineTerminator, which
   * `trim` strips: tab, line tabulation, form feed, space, no-break space,
   * the byte order mark, every space separator (ogham space mark, U+2000 to
   * U+200A, narrow no-break space, medium mathematical space, ideographic
   * space), line feed, carriage return, line separator and paragraph
   * separator.
   */
  predicate IsWhiteSpace(c: char) {
    c == '\t' || c == '\U{000B}' || c == '\U{000C}' || c == ' ' || c == '\U{00A0}'
    || c == '\U{FEFF}' || c == '\U{1680}' || ('\U{2000}' <= c <= '\U{200A}')
    || c == '\U{202F}' || c == '\U{205F}' || c == '\U{3000}'
    || c == '\n' || c == '\r' || c == '\U{2028}' || c == '\U{2029}'
  }

  /** Every code unit of `s` is white space. */
  predicate AllWhiteSpace(s: string) {
    forall k :: 0 <= k < |s| ==> IsWhiteSpace(s[k])
  }

  /** `s` with its leading white space removed. */
  function TrimStart(s: string): (r: string)
    ensures |r| <= |s| && r == s[|s| - |r|..]
    ensures AllWhiteSpace(s[..|s| - |r|])
    ensures r != [] ==> !IsWhiteSpace(r[0])
  {
    if s != [] && IsWhiteSpace(s[0]) then
      var r := TrimStart(s[1..]);
      assert s[..|s| - |r|] == [s[0]] + s[1..][..|s| - 1 - |r|];
      r
    else s
  }

  /** `s` with its trailing white space removed. */
  function TrimEnd(s: string): (r: string)
    ensures |r| <= |s| && r == s[..|r|]
    ensures AllWhiteSpace(s[|r|..])
    ensures r != [] ==> !IsWhiteSpace(r[|r| - 1])
  {
    if s != [] && IsWhiteSpace(s[|s| - 1]) then
      var r := TrimEnd(s[..|s| - 1]);
      assert s[|r|..] == s[..|s| - 1][|r|..] + [s[|s| - 1]];
      r
    else s
  }

  /**
   * `s.trim()`: `s` without the white space at either end, so that what
   * remains neither starts nor ends with it.
   */
  function Trim(s: string): (r: string)
    ensures |r| <= |s|
    ensures r != [] ==> !IsWhiteSpace(r[0]) && !IsWhiteSpace(r[|r| - 1])
  {
    TrimEnd(TrimStart(s))
  }

  /** What `trim` drops is white space, from the two ends and nowhere else. */
  lemma TrimDropsEnds(s: string)
    ensures exists i, j :: 0 <= i <= j <= |s| && Trim(s) == s[i..j]
              && AllWhiteSpace(s[..i]) && AllWhiteSpace(s[j..])
  {
    var t := TrimStart(s);
    var r := TrimEnd(t);
    var i := |s| - |t|;
    var j := i + |r|;
    assert t == s[i..];
    assert r == s[i..j];
    assert s[j..] == t[|r|..];
  }
}

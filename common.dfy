/** Values and helpers shared by every component of the portfolio client:
    optional values, the outcome of a call to the REST API, JavaScript's
    `String.prototype.trim` and an order-preserving "subsequence" relation. */
module Common {

  /** Identifiers as the REST API returns them; the client only compares
      them for equality and renders them as text. */
  type Id = string

  /** A JavaScript value that may be `undefined` or `null`. */
  datatype Option<+T> = None | Some(value: T)

  /** `x || ""` for a string-or-missing `x`: the string, or `""` when absent
      (an empty string is falsy too, and gives `""` either way). */
  function OrEmpty(o: Option<string>): (r: string)
    ensures o.Some? ==> r == o.value
    ensures r == "" <==> o.None? || o.value == ""
  {
    if o.Some? then o.value else ""
  }

  /** Outcome of a read request: the response body, or a rejected promise. */
  datatype Response<+T> = Ok(data: T) | Rejected

  /** Outcome of a mutating request whose response body the client ignores. */
  datatype CallOutcome = Succeeded | Failed

  /** The characters `String.prototype.trim` removes: ECMAScript WhiteSpace
      (tab, vertical tab, form feed, space, no-break space, byte order mark
      and the Unicode "Zs" space separators) and LineTerminator. */
  predicate IsJsWhitespace(c: char)
  {
    || c == '\t' || c == '\U{000B}' || c == '\U{000C}' || c == ' '
    || c == '\U{00A0}' || c == '\U{FEFF}' || c == '\U{1680}'
    || ('\U{2000}' <= c <= '\U{200A}')
    || c == '\U{202F}' || c == '\U{205F}' || c == '\U{3000}'
    || c == '\n' || c == '\r' || c == '\U{2028}' || c == '\U{2029}'
  }

  /** Some character of `s` is not whitespace: the text would show. */
  ghost predicate HasVisibleText(s: string)
  {
    exists k :: 0 <= k < |s| && !IsJsWhitespace(s[k])
  }

  /** Drops leading whitespace: the result is a suffix of `s`, everything
      dropped is whitespace, and what is kept does not start with any. */
  function TrimStart(s: string): (r: string)
    ensures |r| <= |s| && r == s[|s| - |r|..]
    ensures forall k :: 0 <= k < |s| - |r| ==> IsJsWhitespace(s[k])
    ensures r != [] ==> !IsJsWhitespace(r[0])
    decreases |s|
  {
    if s != [] && IsJsWhitespace(s[0]) then TrimStart(s[1..]) else s
  }

  /** Drops trailing whitespace: the result is a prefix of `s`, everything
      dropped is whitespace, and what is kept does not end with any. */
  function TrimEnd(s: string): (r: string)
    ensures |r| <= |s| && r == s[..|r|]
    ensures forall k :: |r| <= k < |s| ==> IsJsWhitespace(s[k])
    ensures r != [] ==> !IsJsWhitespace(r[|r| - 1])
    decreases |s|
  {
    if s != [] && IsJsWhitespace(s[|s| - 1]) then TrimEnd(s[..|s| - 1]) else s
  }

  /** `s.trim()`: empty exactly when `s` is all whitespace; otherwise it
      neither starts nor ends with whitespace. */
  function Trim(s: string): (r: string)
    ensures r == [] <==> forall k :: 0 <= k < |s| ==> IsJsWhitespace(s[k])
    ensures r != [] ==> !IsJsWhitespace(r[0]) && !IsJsWhitespace(r[|r| - 1])
  {
    var t := TrimStart(s);
    var r := TrimEnd(t);
    assert t != [] ==> !IsJsWhitespace(t[0]) && r != [];
    r
  }

  /** The guard `s && s.trim() !== ""` that the views use before showing an
      image: true exactly when `s` has a non-whitespace character. */
  function IsNonBlank(s: string): (b: bool)
    ensures b <==> HasVisibleText(s)
  {
    s != "" && Trim(s) != ""
  }

  /** The same guard on a value that may be missing (`undefined`/`null`). */
  function IsPresentAndNonBlank(o: Option<string>): (b: bool)
    ensures b <==> o.Some? && HasVisibleText(o.value)
  {
    o.Some? && IsNonBlank(o.value)
  }

  /** `a` can be obtained from `b` by deleting elements: `a`'s elements occur
      in `b` in the same order. */
  predicate IsSubsequence<T(==)>(a: seq<T>, b: seq<T>)
    decreases |b|
  {
    || a == []
    || (&& b != []
        && ((a[|a| - 1] == b[|b| - 1] && IsSubsequence(a[..|a| - 1], b[..|b| - 1]))
            || IsSubsequence(a, b[..|b| - 1])))
  }

  /** Appending the same element to both sides, or to the longer side only,
      keeps a subsequence a subsequence. */
  lemma SubsequenceAppend<T>(a: seq<T>, b: seq<T>, x: T)
    requires IsSubsequence(a, b)
    ensures IsSubsequence(a + [x], b + [x])
    ensures IsSubsequence(a, b + [x])
  {
    assert (a + [x])[..|a|] == a;
    assert (b + [x])[..|b|] == b;
  }

  /** No element occurs twice. */
  predicate Distinct<T(==)>(s: seq<T>)
  {
    forall i, j :: 0 <= i < j < |s| ==> s[i] != s[j]
  }
}

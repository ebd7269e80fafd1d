/**
 * String helpers standing in for the JavaScript string methods and the
 * small regular expressions the URL skill uses.  Case folding is ASCII
 * only: the regular expressions carry the `i` flag without `u`, under which
 * only ASCII letters fold onto the ASCII letters of the patterns.
 */
module Strings {

  /** `s.startsWith(p)` */
  predicate StartsWith(s: string, p: string) {
    |p| <= |s| && s[..|p|] == p
  }

  /** `s.endsWith(p)` */
  predicate EndsWith(s: string, p: string) {
    |p| <= |s| && s[|s| - |p|..] == p
  }

  function LowerChar(c: char): char {
    if 'A' <= c <= 'Z' then (c as int + 32) as char else c
  }

  /** `s.toLowerCase()` restricted to ASCII letters. */
  function Lower(s: string): (r: string)
    ensures |r| == |s|
    ensures forall k :: 0 <= k < |s| ==> r[k] == LowerChar(s[k])
  {
    seq(|s|, k requires 0 <= k < |s| => LowerChar(s[k]))
  }

  lemma LowerConcat(a: string, b: string)
    ensures Lower(a + b) == Lower(a) + Lower(b)
  {
    assert forall k :: 0 <= k < |a + b| ==> (a + b)[k] == if k < |a| then a[k] else b[k - |a|];
  }

  lemma LowerIdempotent(s: string)
    ensures Lower(Lower(s)) == Lower(s)
  {
  }

  /** The lower-case pattern `p` occurs in `s` at offset `at`, ignoring ASCII case. */
  predicate MatchesAtIgnoringCase(s: string, at: nat, p: string) {
    at + |p| <= |s| && Lower(s[at..at + |p|]) == p
  }

  predicate IsAsciiDigit(c: char) {
    '0' <= c <= '9'
  }

  /** The character classes the regular expressions capture. */
  datatype CharClass =
    | AlphaNum   // [a-z0-9] under the `i` flag
    | Digit      // \d
    | NotSlash   // [^/]

  predicate InClass(c: char, cls: CharClass) {
    match cls
    case AlphaNum => IsAsciiDigit(c) || 'a' <= LowerChar(c) <= 'z'
    case Digit => IsAsciiDigit(c)
    case NotSlash => c != '/'
  }

  /**
   * The greedy run `cls+` starting at `from`: the longest stretch of
   * characters of class `cls` there (empty when there is none).
   */
  function Run(s: string, from: nat, cls: CharClass): (r: string)
    requires from <= |s|
    ensures from + |r| <= |s| && r == s[from..from + |r|]
    ensures forall k :: 0 <= k < |r| ==> InClass(r[k], cls)
    ensures from + |r| < |s| ==> !InClass(s[from + |r|], cls)
    decreases |s| - from
  {
    if from < |s| && InClass(s[from], cls) then [s[from]] + Run(s, from + 1, cls) else []
  }

  /** `s.split("/").pop()`: what follows the last `/`, or all of `s` without one. */
  function LastSegment(s: string): (r: string)
    ensures EndsWith(s, r)
    ensures forall k :: 0 <= k < |r| ==> r[k] != '/'
    ensures |r| < |s| ==> s[|s| - |r| - 1] == '/'
  {
    if s == [] || s[|s| - 1] == '/' then []
    else LastSegment(s[..|s| - 1]) + [s[|s| - 1]]
  }

  /** `s.replace(/\/$/, "")`: drop one trailing slash. */
  function DropTrailingSlash(s: string): (r: string)
    ensures r == s || r + "/" == s
    ensures r == s <==> !EndsWith(s, "/")
  {
    if |s| > 0 && s[|s| - 1] == '/' then s[..|s| - 1] else s
  }

  /** The last segment of `prefix + id`, where `prefix` ends in `/` and `id` has none, is `id`. */
  lemma {:induction false} LastSegmentAfterSlash(prefix: string, id: string)
    requires EndsWith(prefix, "/")
    requires forall k :: 0 <= k < |id| ==> id[k] != '/'
    ensures LastSegment(prefix + id) == id
    decreases |id|
  {
    if id == [] {
      assert prefix + id == prefix;
    } else {
      var init := id[..|id| - 1];
      LastSegmentAfterSlash(prefix, init);
      assert (prefix + id)[..|prefix + id| - 1] == prefix + init;
      assert init + [id[|id| - 1]] == id;
    }
  }

  /** A greedy run that stops after `n` characters is those `n` characters. */
  lemma RunExactly(s: string, from: nat, cls: CharClass, n: nat)
    requires from + n <= |s|
    requires forall k :: from <= k < from + n ==> InClass(s[k], cls)
    requires from + n == |s| || !InClass(s[from + n], cls)
    ensures Run(s, from, cls) == s[from..from + n]
  {
  }
}

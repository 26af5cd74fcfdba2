/** The String.prototype methods the handlers call on a URL pathname:
    startsWith, indexOf (through includes) and replace with a string pattern. */
module Strings {

  /** `s.startsWith(p)` */
  predicate StartsWith(s: string, p: string) {
    |p| <= |s| && s[..|p|] == p
  }

  /** `p` occurs in `s` at index `j`. */
  predicate MatchAt(s: string, p: string, j: int) {
    0 <= j && j + |p| <= |s| && s[j..j + |p|] == p
  }

  /** `s.indexOf(p, i)`: the first index at or after `i` where `p` occurs, or -1. */
  function FindFrom(s: string, p: string, i: nat): (r: int)
    requires i <= |s|
    ensures r == -1 || (i <= r && MatchAt(s, p, r))
    ensures r == -1 ==> forall j :: i <= j ==> !MatchAt(s, p, j)
    ensures r != -1 ==> forall j :: i <= j < r ==> !MatchAt(s, p, j)
    decreases |s| - i
  {
    if i + |p| > |s| then -1
    else if s[i..i + |p|] == p then i
    else FindFrom(s, p, i + 1)
  }

  /** `s.indexOf(p)` */
  function IndexOf(s: string, p: string): (r: int)
    ensures r == -1 <==> forall j :: !MatchAt(s, p, j)
    ensures r != -1 ==> MatchAt(s, p, r) && forall j :: 0 <= j < r ==> !MatchAt(s, p, j)
  {
    FindFrom(s, p, 0)
  }

  /** `s.includes(p)` */
  predicate Includes(s: string, p: string) {
    IndexOf(s, p) != -1
  }

  lemma IncludesIff(s: string, p: string)
    ensures Includes(s, p) <==> exists j :: MatchAt(s, p, j)
  {
  }

  /** `s.replace(p, rep)` with a string pattern and a `rep` free of `$`
      substitution patterns (`$&`, `$$`, ...), which this does not expand: only
      the first occurrence is replaced, and `s` is returned unchanged when there
      is none. */
  function ReplaceFirst(s: string, p: string, rep: string): (r: string)
    ensures (forall j :: !MatchAt(s, p, j)) ==> r == s
    ensures StartsWith(s, p) ==> r == rep + s[|p|..]
  {
    var i := IndexOf(s, p);
    if i == -1 then s
    else
      assert StartsWith(s, p) ==> MatchAt(s, p, 0) && i == 0;
      s[..i] + rep + s[i + |p|..]
  }

  /** A string that starts with `p + q` starts with `p`. */
  lemma StartsWithPrefix(s: string, p: string, q: string)
    requires StartsWith(s, p + q)
    ensures StartsWith(s, p)
  {
  }
}

/**
 Character and string primitives the handlers rely on: JavaScript's notion of
 white space, substring search (`String.prototype.includes`), prefix tests
 (`startsWith`), `toLowerCase` restricted to ASCII letters, and `trim`.
 */
module Text {
  import opened Wrappers

  /** A character in JavaScript's white-space set: the regular-expression class
      `\s` and the characters `String.prototype.trim` strips are the same set,
      the WhiteSpace and LineTerminator code points of ECMA-262. */
  predicate IsWhitespace(c: char) {
    || c == '\t' || c == '\n' || c == '\U{000B}' || c == '\U{000C}' || c == '\r'
    || c == ' ' || c == '\U{00A0}' || c == '\U{1680}'
    || ('\U{2000}' <= c <= '\U{200A}')
    || c == '\U{2028}' || c == '\U{2029}' || c == '\U{202F}' || c == '\U{205F}'
    || c == '\U{3000}' || c == '\U{FEFF}'
  }

  /** Every character of `s` is white space (the empty string included). */
  predicate IsBlank(s: string) {
    forall i :: 0 <= i < |s| ==> IsWhitespace(s[i])
  }

  /** `t` occurs in `s` starting at position `i`. */
  predicate OccursAt(t: string, s: string, i: int) {
    0 <= i <= |s| - |t| && s[i..i + |t|] == t
  }

  /** `t` occurs in `s` as a contiguous substring. */
  ghost predicate Occurs(t: string, s: string) {
    exists i :: OccursAt(t, s, i)
  }

  /** `t` occurs in `s` at position `i`, its characters from `k` on compared one by one. */
  function MatchesAt(s: string, t: string, i: nat, k: nat): bool
    requires i + |t| <= |s| && k <= |t|
    decreases |t| - k
  {
    k == |t| || (s[i + k] == t[k] && MatchesAt(s, t, i, k + 1))
  }

  /** `s.includes(t, i)`: try each start position from `i` on, left to right. */
  function IncludesFrom(s: string, t: string, i: nat): bool
    decreases |s| - i
  {
    if i + |t| > |s| then false
    else MatchesAt(s, t, i, 0) || IncludesFrom(s, t, i + 1)
  }

  /** `s.includes(t)`: true exactly when `t` occurs in `s`. */
  function Includes(s: string, t: string): (r: bool)
    ensures r <==> Occurs(t, s)
  {
    IncludesFromIsOccurrence(s, t, 0);
    IncludesFrom(s, t, 0)
  }

  /** The character comparison from `k` on agrees with slice equality. */
  lemma {:induction false} MatchesAtIsSlice(s: string, t: string, i: nat, k: nat)
    requires i + |t| <= |s| && k <= |t|
    ensures MatchesAt(s, t, i, k) <==> s[i + k..i + |t|] == t[k..]
    decreases |t| - k
  {
    if k < |t| {
      MatchesAtIsSlice(s, t, i, k + 1);
      assert s[i + k..i + |t|] == [s[i + k]] + s[i + k + 1..i + |t|];
      assert t[k..] == [t[k]] + t[k + 1..];
    }
  }

  /** The search from `i` finds `t` exactly when it occurs at some position at or after `i`. */
  lemma {:induction false} IncludesFromIsOccurrence(s: string, t: string, i: nat)
    ensures IncludesFrom(s, t, i) <==> exists j :: i <= j && OccursAt(t, s, j)
    decreases |s| - i
  {
    if i + |t| <= |s| {
      MatchesAtIsSlice(s, t, i, 0);
      IncludesFromIsOccurrence(s, t, i + 1);
      assert OccursAt(t, s, i) <==> MatchesAt(s, t, i, 0);
      if exists j :: i <= j && OccursAt(t, s, j) {
        var j :| i <= j && OccursAt(t, s, j);
        assert j == i || (i + 1 <= j && OccursAt(t, s, j));
      }
    }
  }

  /** An occurrence inside an occurrence: if `inner` sits at `q` in `outer` and `outer`
      sits at `p` in `s`, then `inner` sits at `p + q` in `s`. */
  lemma OccursAtCompose(inner: string, outer: string, s: string, q: int, p: int)
    requires OccursAt(inner, outer, q) && OccursAt(outer, s, p)
    ensures OccursAt(inner, s, p + q)
  {
    forall k | 0 <= k < |inner|
      ensures s[p + q..p + q + |inner|][k] == inner[k]
    {
      assert inner[k] == outer[q..q + |inner|][k] == outer[q + k];
      assert outer[q + k] == s[p..p + |outer|][q + k] == s[p + q + k];
    }
  }

  /** A string whose first character is not white space does not occur in a blank string. */
  lemma NoOccurrenceInBlank(t: string, s: string)
    requires |t| > 0 && !IsWhitespace(t[0])
    requires IsBlank(s)
    ensures !Occurs(t, s)
  {
    forall p | 0 <= p <= |s| - |t|
      ensures !OccursAt(t, s, p)
    {
      assert s[p..p + |t|][0] == s[p];
    }
  }

  /** `s.startsWith(p)`: the first `|p|` characters of `s`, compared one by one, are
      `p`; that is, `p` is a prefix of `s`. */
  function StartsWith(s: string, p: string): (r: bool)
    ensures r <==> p <= s
  {
    if |p| <= |s| then
      MatchesAtIsSlice(s, p, 0, 0);
      assert p <= s <==> s[..|p|] == p;
      MatchesAt(s, p, 0, 0)
    else false
  }

  /** The position of the first `c` in `s`, if there is one. The handlers never call
      `indexOf`; this search is the model's own, used to decide the address pattern
      by splitting at the first `@`. */
  function IndexOf(s: string, c: char): (r: Option<nat>)
    ensures r.Some? ==> r.value < |s| && s[r.value] == c && c !in s[..r.value]
    ensures r.None? ==> c !in s
  {
    if |s| == 0 then None
    else if s[0] == c then Some(0)
    else
      match IndexOf(s[1..], c)
      case None => None
      case Some(i) =>
        assert s[..i + 1] == [s[0]] + s[1..][..i];
        Some(i + 1)
  }

  /** Whether a character is an ASCII capital letter. */
  predicate IsUpper(c: char) {
    'A' <= c <= 'Z'
  }

  /** `toLowerCase` on one character, for the ASCII letters. */
  function ToLowerChar(c: char): char {
    if IsUpper(c) then (c as int + 32) as char else c
  }

  /** `s.toLowerCase()`, mapping only the ASCII capitals. */
  function ToLower(s: string): (r: string)
    ensures |r| == |s|
    ensures forall i :: 0 <= i < |s| ==> r[i] == ToLowerChar(s[i])
  {
    if |s| == 0 then [] else [ToLowerChar(s[0])] + ToLower(s[1..])
  }

  /** `s` holds no ASCII capital letter. */
  predicate IsLowerCase(s: string) {
    forall i :: 0 <= i < |s| ==> !IsUpper(s[i])
  }

  /** `trimStart`: drop leading white space. */
  function TrimStart(s: string): (r: string)
    ensures |r| <= |s| && r == s[|s| - |r|..]
    ensures IsBlank(s[..|s| - |r|])
    ensures |r| == 0 || !IsWhitespace(r[0])
    decreases |s|
  {
    if |s| > 0 && IsWhitespace(s[0]) then
      var r := TrimStart(s[1..]);
      assert s[..|s| - |r|] == [s[0]] + s[1..][..|s| - 1 - |r|];
      r
    else s
  }

  /** `trimEnd`: drop trailing white space. */
  function TrimEnd(s: string): (r: string)
    ensures |r| <= |s| && r == s[..|r|]
    ensures IsBlank(s[|r|..])
    ensures |r| == 0 || !IsWhitespace(r[|r| - 1])
    decreases |s|
  {
    if |s| > 0 && IsWhitespace(s[|s| - 1]) then
      var r := TrimEnd(s[..|s| - 1]);
      assert s[|r|..] == s[..|s| - 1][|r|..] + [s[|s| - 1]];
      r
    else s
  }

  /** `s.trim()`: empty exactly when every character of `s` is white space. */
  function Trim(s: string): (r: string)
    ensures r == "" <==> IsBlank(s)
  {
    TrimBothEmptyIffBlank(s);
    TrimEnd(TrimStart(s))
  }

  /** Trimming both ends leaves nothing exactly when every character is white space. */
  lemma TrimBothEmptyIffBlank(s: string)
    ensures TrimEnd(TrimStart(s)) == "" <==> IsBlank(s)
  {
    var a := TrimStart(s);
    if TrimEnd(a) == "" {
      assert IsBlank(a[0..]);
      forall i | 0 <= i < |s|
        ensures IsWhitespace(s[i])
      {
        assert s[i] == s[..|s| - |a|][i];
      }
    }
  }

  /** Lower-casing commutes with taking a slice. */
  lemma ToLowerSlice(s: string, i: nat, j: nat)
    requires i <= j <= |s|
    ensures ToLower(s)[i..j] == ToLower(s[i..j])
  {
  }

  /** A string without capitals is its own lower-case form. */
  lemma ToLowerFixesLowerCase(s: string)
    requires IsLowerCase(s)
    ensures ToLower(s) == s
  {
  }

  /** Lower-casing leaves white space in place, so a blank string stays blank. */
  lemma ToLowerKeepsBlank(s: string)
    requires IsBlank(s)
    ensures IsBlank(ToLower(s))
  {
  }
}

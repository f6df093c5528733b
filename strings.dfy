/** The three string operations of the JavaScript runtime that the screens rely on:
    `toLowerCase` (restricted to ASCII letters), `includes` (substring containment)
    and `trim` (removal of leading and trailing white space). */
module Strings {

  /** An ASCII capital letter; the only characters that `Lower` changes. */
  predicate IsAsciiUpper(c: char) {
    'A' <= c <= 'Z'
  }

  /** `toLowerCase` on one character: capitals become small letters, every other
      character (Arabic letters included) is left alone. */
  function LowerChar(c: char): (d: char)
    ensures !IsAsciiUpper(d)
    ensures d == c || IsAsciiUpper(c)
    ensures IsAsciiUpper(c) ==> 'a' <= d <= 'z'
    ensures IsAsciiUpper(c) ==> d as int == c as int - 'A' as int + 'a' as int
  {
    if IsAsciiUpper(c) then (c as int - 'A' as int + 'a' as int) as char else c
  }

  /** `toLowerCase` on a string, character by character. */
  function Lower(s: string): (r: string)
    ensures |r| == |s|
    ensures forall i :: 0 <= i < |s| ==> r[i] == LowerChar(s[i])
  {
    if s == [] then [] else [LowerChar(s[0])] + Lower(s[1..])
  }

  /** Lower-casing a string twice is the same as lower-casing it once. */
  lemma LowerIdempotent(s: string)
    ensures Lower(Lower(s)) == Lower(s)
  {
    forall i | 0 <= i < |s|
      ensures Lower(Lower(s))[i] == Lower(s)[i]
    {
      assert Lower(s)[i] == LowerChar(s[i]);
    }
  }

  /** A string without capitals (every keyword the screens match against, and every
      Arabic text) is its own lower-case form. */
  lemma LowerFixesNonUpper(s: string)
    requires forall i :: 0 <= i < |s| ==> !IsAsciiUpper(s[i])
    ensures Lower(s) == s
  {
  }

  /** `t` occurs in `s` starting at index `i`. */
  predicate OccursAt(s: string, t: string, i: nat) {
    i + |t| <= |s| && s[i..i + |t|] == t
  }

  /** `s.includes(t)`: `t` is a prefix of `s` or of one of its suffixes. */
  predicate Contains(s: string, t: string)
    decreases |s|
  {
    t <= s || (s != [] && Contains(s[1..], t))
  }

  /** An occurrence anywhere in `s` is found by `Contains`. */
  lemma {:induction false} ContainsAt(s: string, t: string, i: nat)
    requires OccursAt(s, t, i)
    ensures Contains(s, t)
    decreases i
  {
    if i == 0 {
      assert s[..|t|] == t;
    } else {
      assert s[1..][i - 1..i - 1 + |t|] == s[i..i + |t|];
      ContainsAt(s[1..], t, i - 1);
    }
  }

  /** What `Contains` finds is an occurrence at some index. */
  lemma {:induction false} ContainsWitness(s: string, t: string) returns (i: nat)
    requires Contains(s, t)
    ensures OccursAt(s, t, i)
    decreases |s|
  {
    if t <= s {
      i := 0;
      assert s[..|t|] == t;
    } else {
      var j := ContainsWitness(s[1..], t);
      assert s[1..][j..j + |t|] == s[j + 1..j + 1 + |t|];
      i := j + 1;
    }
  }

  /** `includes` is substring containment, in both directions. */
  lemma ContainsIff(s: string, t: string)
    ensures Contains(s, t) <==> exists i: nat :: OccursAt(s, t, i)
  {
    if Contains(s, t) {
      var i := ContainsWitness(s, t);
    }
    forall i: nat | OccursAt(s, t, i)
      ensures Contains(s, t)
    {
      ContainsAt(s, t, i);
    }
  }

  /** `t` does not occur in `s` when the first three characters of `t` never occur
      side by side in `s`. */
  lemma {:induction false} NotContains(s: string, t: string)
    requires |t| >= 3
    requires forall i :: 0 <= i < |s| - 2 ==> s[i] != t[0] || s[i + 1] != t[1] || s[i + 2] != t[2]
    ensures !Contains(s, t)
    decreases |s|
  {
    if s != [] {
      if |s| >= 3 {
        assert s[0] != t[0] || s[1] != t[1] || s[2] != t[2];
      }
      assert !(t <= s);
      forall i | 0 <= i < |s[1..]| - 2
        ensures s[1..][i] != t[0] || s[1..][i + 1] != t[1] || s[1..][i + 2] != t[2]
      {
        assert s[1..][i] == s[i + 1] && s[1..][i + 1] == s[i + 2] && s[1..][i + 2] == s[i + 3];
      }
      NotContains(s[1..], t);
    }
  }

  /** The characters that JavaScript's `trim` removes: the WhiteSpace and
      LineTerminator code points of ECMAScript (tab, vertical tab, form feed,
      space, no-break space, byte order mark, the space separators of category Zs,
      line feed, carriage return, line and paragraph separator). */
  predicate IsWhiteSpace(c: char) {
    c == '\U{0009}' || c == '\U{000B}' || c == '\U{000C}' || c == '\U{0020}' ||
    c == '\U{00A0}' || c == '\U{FEFF}' || c == '\U{1680}' ||
    ('\U{2000}' <= c <= '\U{200A}') || c == '\U{202F}' || c == '\U{205F}' ||
    c == '\U{3000}' ||
    c == '\U{000A}' || c == '\U{000D}' || c == '\U{2028}' || c == '\U{2029}'
  }

  /** Drops the white space at the start of `s`: the result is the suffix of `s`
      that starts at its first non-white-space character. */
  function TrimStart(s: string): (r: string)
    ensures |r| <= |s| && r == s[|s| - |r|..]
    ensures forall i :: 0 <= i < |s| - |r| ==> IsWhiteSpace(s[i])
    ensures r != [] ==> !IsWhiteSpace(r[0])
  {
    if s != [] && IsWhiteSpace(s[0]) then TrimStart(s[1..]) else s
  }

  /** Drops the white space at the end of `s`: the result is the prefix of `s`
      that ends at its last non-white-space character. */
  function TrimEnd(s: string): (r: string)
    ensures |r| <= |s| && r == s[..|r|]
    ensures forall i :: |r| <= i < |s| ==> IsWhiteSpace(s[i])
    ensures r != [] ==> !IsWhiteSpace(r[|r| - 1])
  {
    if s != [] && IsWhiteSpace(s[|s| - 1]) then TrimEnd(s[..|s| - 1]) else s
  }

  /** `s.trim()`: the slice of `s` left once the white space at both ends is gone. */
  function Trim(s: string): (r: string)
    ensures exists i: nat ::
              && OccursAt(s, r, i)
              && (forall k :: 0 <= k < i ==> IsWhiteSpace(s[k]))
              && (forall k :: i + |r| <= k < |s| ==> IsWhiteSpace(s[k]))
    ensures r != [] ==> !IsWhiteSpace(r[0]) && !IsWhiteSpace(r[|r| - 1])
  {
    var t := TrimStart(s);
    var r := TrimEnd(t);
    assert OccursAt(s, r, |s| - |t|) by {
      assert r == s[|s| - |t|..|s| - |t| + |r|];
    }
    assert forall k :: |s| - |t| + |r| <= k < |s| ==> IsWhiteSpace(s[k]) by {
      forall k | |s| - |t| + |r| <= k < |s|
        ensures IsWhiteSpace(s[k])
      {
        assert s[k] == t[k - (|s| - |t|)];
      }
    }
    r
  }

  /** A string made of white space only; `BlankIff` shows that these are exactly the
      strings whose `trim()` is falsy, i.e. the empty string. */
  predicate IsBlank(s: string) {
    forall i :: 0 <= i < |s| ==> IsWhiteSpace(s[i])
  }

  /** `s.trim()` is the empty string exactly when `s` is blank. */
  lemma BlankIff(s: string)
    ensures Trim(s) == "" <==> IsBlank(s)
  {
    var t := TrimStart(s);
    if t != [] {
      assert !IsWhiteSpace(s[|s| - |t|]);
      assert TrimEnd(t) != [] by {
        assert !IsWhiteSpace(t[0]);
      }
    }
  }
}

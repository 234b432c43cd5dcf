/**
 * Text operations the backend applies to user messages: ASCII lower-casing (`str.lower`),
 * substring containment (Python's `kw in text`), character replacement and title-casing
 * (`str.replace`, `str.title`), and the code-point ordering Python uses to compare strings.
 */
module Strings {

  predicate IsUpper(c: char) { 'A' <= c <= 'Z' }
  predicate IsLower(c: char) { 'a' <= c <= 'z' }
  /** A cased character in the sense of `str.title` (ASCII letters only in this model). */
  predicate IsCased(c: char) { IsUpper(c) || IsLower(c) }

  function LowerChar(c: char): char {
    if IsUpper(c) then (c as int + 32) as char else c
  }

  function UpperChar(c: char): char {
    if IsLower(c) then (c as int - 32) as char else c
  }

  /** `s.lower()`: every character mapped by LowerChar, length preserved. */
  function Lower(s: string): (r: string)
    ensures |r| == |s|
    ensures forall i :: 0 <= i < |s| ==> r[i] == LowerChar(s[i])
  {
    if s == [] then [] else [LowerChar(s[0])] + Lower(s[1..])
  }

  /** Lower-casing twice is lower-casing once. */
  lemma LowerIdempotent(s: string)
    ensures Lower(Lower(s)) == Lower(s)
  {
  }

  /** `w` occurs in `s` at position `i`. */
  predicate OccursAt(s: string, w: string, i: int) {
    0 <= i <= |s| - |w| && s[i..i + |w|] == w
  }

  /** `w in s`: `w` occurs in `s` at some position (the empty word occurs everywhere). */
  predicate Contains(s: string, w: string)
    ensures w == [] ==> Contains(s, w)
    ensures Contains(s, w) ==> |w| <= |s|
  {
    assert w == [] ==> OccursAt(s, w, 0);
    exists i :: 0 <= i <= |s| - |w| && OccursAt(s, w, i)
  }

  /** A word with a character that does not occur in `s` does not occur in `s`. */
  lemma AbsentCharExcludes(s: string, w: string, k: nat)
    requires k < |w| && w[k] !in s
    ensures !Contains(s, w)
  {
    forall i
      ensures !OccursAt(s, w, i)
    {
      if 0 <= i <= |s| - |w| {
        assert s[i..i + |w|][k] == s[i + k];
      }
    }
  }

  /** A word whose first character stands at no position where it could start does not occur. */
  lemma FirstCharExcludes(s: string, w: string)
    requires |w| > 0
    requires forall i :: 0 <= i <= |s| - |w| ==> s[i] != w[0]
    ensures !Contains(s, w)
  {
    forall i
      ensures !OccursAt(s, w, i)
    {
      if 0 <= i <= |s| - |w| {
        assert s[i..i + |w|][0] == s[i];
      }
    }
  }

  /** An occurrence at a known position is an occurrence. */
  lemma OccursAtContains(s: string, w: string, i: int)
    requires OccursAt(s, w, i)
    ensures Contains(s, w)
  {
  }

  /** A string without upper-case letters is its own lower-case form. */
  lemma LowerOfLowerCase(s: string)
    requires forall i :: 0 <= i < |s| ==> !IsUpper(s[i])
    ensures Lower(s) == s
  {
  }

  /** A non-empty word never occurs in the empty string. */
  lemma NotInEmpty(w: string)
    requires w != []
    ensures !Contains("", w)
  {
  }

  /** `s.replace(old, new)` for single characters. */
  function ReplaceChar(s: string, from: char, to: char): (r: string)
    ensures |r| == |s|
    ensures forall i :: 0 <= i < |s| ==> r[i] == (if s[i] == from then to else s[i])
  {
    if s == [] then [] else [if s[0] == from then to else s[0]] + ReplaceChar(s[1..], from, to)
  }

  /**
   * `s.title()`: a cased character is upper-cased when the character before it is not cased
   * and lower-cased otherwise; `afterCased` says whether the character before `s` was cased.
   */
  function TitleFrom(s: string, afterCased: bool): (r: string)
    ensures |r| == |s|
    ensures |s| > 0 ==> r[0] == TitleChar(s[0], afterCased)
    ensures forall i :: 0 < i < |s| ==> r[i] == TitleChar(s[i], IsCased(s[i - 1]))
  {
    if s == [] then []
    else [TitleChar(s[0], afterCased)] + TitleFrom(s[1..], IsCased(s[0]))
  }

  /** One character of `title()`: a cased character is lower-cased after a cased one and upper-cased otherwise. */
  function TitleChar(c: char, afterCased: bool): char {
    if !IsCased(c) then c else if afterCased then LowerChar(c) else UpperChar(c)
  }

  function Title(s: string): string {
    TitleFrom(s, false)
  }

  /** `title()` changes only letter case, and capitalises a leading lower-case letter. */
  lemma TitleChangesOnlyCase(s: string)
    ensures |Title(s)| == |s|
    ensures forall i :: 0 <= i < |s| ==> LowerChar(Title(s)[i]) == LowerChar(s[i])
    ensures |s| > 0 && IsLower(s[0]) ==> IsUpper(Title(s)[0])
  {
    forall i | 0 <= i < |s|
      ensures LowerChar(Title(s)[i]) == LowerChar(s[i])
    {
      LowerTitleChar(s[i], if i == 0 then false else IsCased(s[i - 1]));
    }
  }

  lemma LowerTitleChar(c: char, afterCased: bool)
    ensures LowerChar(TitleChar(c, afterCased)) == LowerChar(c)
  {
  }

  /**
   * Python's `a <= b` on strings: lexicographic by code point, a proper prefix sorting first.
   */
  predicate LexLe(a: string, b: string)
    decreases |a|
  {
    |a| == 0 || (|b| > 0 && (a[0] < b[0] || (a[0] == b[0] && LexLe(a[1..], b[1..]))))
  }

  lemma {:induction false} LexLeTotal(a: string, b: string)
    ensures LexLe(a, b) || LexLe(b, a)
    decreases |a|
  {
    if |a| > 0 && |b| > 0 && a[0] == b[0] {
      LexLeTotal(a[1..], b[1..]);
    }
  }

  lemma {:induction false} LexLeTransitive(a: string, b: string, c: string)
    requires LexLe(a, b) && LexLe(b, c)
    ensures LexLe(a, c)
    decreases |a|
  {
    if |a| > 0 && a[0] == b[0] && b[0] == c[0] {
      LexLeTransitive(a[1..], b[1..], c[1..]);
    }
  }
}

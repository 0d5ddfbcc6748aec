/**
 * ASCII case mapping, standing in for Python's `str.lower()` and `str.title()`.
 * Every string the model compares (file extensions, knowledge-base keys) is ASCII;
 * characters outside A-Z and a-z are treated as uncased.
 */
module Ascii {

  predicate IsUpper(c: char) { 'A' <= c <= 'Z' }

  predicate IsLower(c: char) { 'a' <= c <= 'z' }

  /** A cased character in the sense of `str.title()`. */
  predicate IsLetter(c: char) { IsUpper(c) || IsLower(c) }

  function ToLower(c: char): (r: char)
    ensures IsLetter(r) == IsLetter(c)
    ensures !IsUpper(r)
    ensures IsLower(c) || !IsLetter(c) ==> r == c
  {
    if IsUpper(c) then (c as int + 32) as char else c
  }

  function ToUpper(c: char): (r: char)
    ensures IsLetter(r) == IsLetter(c)
    ensures !IsLower(r)
    ensures IsUpper(c) || !IsLetter(c) ==> r == c
  {
    if IsLower(c) then (c as int - 32) as char else c
  }

  /** `s.lower()`: every character lower-cased, length unchanged. */
  function Lower(s: string): (r: string)
    ensures |r| == |s|
    ensures forall i :: 0 <= i < |s| ==> r[i] == ToLower(s[i])
  {
    seq(|s|, i requires 0 <= i < |s| => ToLower(s[i]))
  }

  /** No upper-case letter occurs in `s`. */
  predicate IsLowerCase(s: string) {
    forall i :: 0 <= i < |s| ==> !IsUpper(s[i])
  }

  /**
   * `s.title()` with the previous character's casedness given: a character that
   * follows a cased one is lowered, any other is upper-cased, and the flag passed
   * on is whether the ORIGINAL character was cased.
   */
  function TitleAfter(s: string, previousCased: bool): (r: string)
    ensures |r| == |s|
    decreases |s|
  {
    if s == [] then []
    else [if previousCased then ToLower(s[0]) else ToUpper(s[0])] + TitleAfter(s[1..], IsLetter(s[0]))
  }

  function Title(s: string): (r: string)
    ensures |r| == |s|
    ensures |s| > 0 ==> r[0] == ToUpper(s[0])
  {
    TitleAfter(s, false)
  }

  /** Position `i` of `s` begins a word: it is first, or follows an uncased character. */
  predicate StartsWord(s: string, i: nat)
    requires i < |s|
  {
    i == 0 || !IsLetter(s[i - 1])
  }

  lemma {:induction false} TitleAfterAt(s: string, previousCased: bool, i: nat)
    requires i < |s|
    ensures TitleAfter(s, previousCased)[i] ==
              if (if i == 0 then previousCased else IsLetter(s[i - 1])) then ToLower(s[i]) else ToUpper(s[i])
    decreases i
  {
    if i > 0 {
      TitleAfterAt(s[1..], IsLetter(s[0]), i - 1);
    }
  }

  /** Closed form of `str.title()`: word starts are upper-cased, every other character lowered. */
  lemma TitleSpec(s: string)
    ensures |Title(s)| == |s|
    ensures forall i :: 0 <= i < |s| ==>
              Title(s)[i] == if StartsWord(s, i) then ToUpper(s[i]) else ToLower(s[i])
  {
    forall i | 0 <= i < |s|
      ensures Title(s)[i] == if StartsWord(s, i) then ToUpper(s[i]) else ToLower(s[i])
    {
      TitleAfterAt(s, false, i);
    }
  }

  /** Title-casing keeps the lower-cased form: `s.title().lower() == s.lower()`. */
  lemma LowerOfTitle(s: string)
    ensures Lower(Title(s)) == Lower(s)
  {
    TitleSpec(s);
  }

  /** Title-casing twice is title-casing once. */
  lemma TitleIdempotent(s: string)
    ensures Title(Title(s)) == Title(s)
  {
    TitleSpec(s);
    TitleSpec(Title(s));
    forall i | 0 <= i < |s|
      ensures StartsWord(Title(s), i) == StartsWord(s, i)
    {
      if i > 0 {
        assert IsLetter(Title(s)[i - 1]) == IsLetter(s[i - 1]);
      }
    }
  }

  /** A string without upper-case letters is its own lower-case form. */
  lemma LowerOfLowerCase(s: string)
    requires IsLowerCase(s)
    ensures Lower(s) == s
  {
  }
}

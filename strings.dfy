/**
 * String helpers the pipeline relies on: blankness and splitting at a separator character.
 * main.go tests options with `stringutil.IsBlank` and gcp/secret_manager.go tests the secret
 * version with `stringsutil.IsBlank`; neither implementation is part of this model, and the one
 * predicate `IsBlank` below stands for both.
 */
module Strings {

  /** The white-space characters this model takes a blank string to consist of (ASCII only). */
  predicate IsSpace(c: char) {
    c == ' ' || c == '\t' || c == '\n' || c == '\r' || c == '\U{0B}' || c == '\U{0C}'
  }

  /** A string is blank when it holds nothing but white space; the empty string is blank. */
  predicate IsBlank(s: string) {
    forall i :: 0 <= i < |s| ==> IsSpace(s[i])
  }

  /** The three cases exercised by pkg/stringsutil/stringsutil_test.go. */
  lemma IsBlankCases()
    ensures IsBlank("")
    ensures IsBlank("     ")
    ensures !IsBlank("aaaaa")
  {
    assert "aaaaa"[0] == 'a';
  }

  /**
   * The pieces of `s` between occurrences of `sep`, like Go's strings.Split with a
   * one-character separator: there is always at least one piece, and a string without
   * the separator is its own only piece.
   */
  function Split(s: string, sep: char): (parts: seq<string>)
    ensures |parts| >= 1
    ensures sep !in s ==> parts == [s]
    decreases |s|
  {
    if s == [] then [[]]
    else
      var rest := Split(s[1..], sep);
      assert sep in s[1..] ==> sep in s;
      assert s == [s[0]] + s[1..];
      if s[0] == sep then [[]] + rest
      else [[s[0]] + rest[0]] + rest[1..]
  }

  /** Splitting at the first separator: the piece before it, then the pieces of what follows. */
  lemma {:induction false} SplitAtSeparator(a: string, sep: char, b: string)
    requires sep !in a
    ensures Split(a + [sep] + b, sep) == [a] + Split(b, sep)
    decreases |a|
  {
    var s := a + [sep] + b;
    if a == [] {
      assert s[0] == sep && s[1..] == b;
    } else {
      assert s[0] == a[0] && s[1..] == a[1..] + [sep] + b;
      SplitAtSeparator(a[1..], sep, b);
      assert [a[0]] + a[1..] == a;
    }
  }
}

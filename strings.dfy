/**
 * The pieces of Rust's string library that the conversion pipeline relies on:
 * `trim_end`, `trim` and line splitting (`str::lines`, `BufRead::lines`).
 * Whitespace is the ASCII subset of Unicode's White_Space property.
 */
module Strings {

  /** Concatenation is associative (stated once, so callers need not prove it on strings). */
  lemma ConcatAssociative<T>(a: seq<T>, b: seq<T>, c: seq<T>)
    ensures a + (b + c) == (a + b) + c
  {
  }

  predicate IsWhitespace(c: char) {
    c == ' ' || c == '\t' || c == '\n' || c == '\r' || c == '\U{0B}' || c == '\U{0C}'
  }

  /** `str::trim_end`: drop the longest whitespace suffix. */
  function TrimEnd(s: string): (r: string)
    ensures |r| <= |s| && r == s[..|r|]
    ensures r == [] || !IsWhitespace(r[|r| - 1])
    ensures forall i :: |r| <= i < |s| ==> IsWhitespace(s[i])
    decreases |s|
  {
    if s != [] && IsWhitespace(s[|s| - 1]) then TrimEnd(s[..|s| - 1]) else s
  }

  /** `str::trim_start`: drop the longest whitespace prefix. */
  function TrimStart(s: string): (r: string)
    ensures |r| <= |s| && r == s[|s| - |r|..]
    ensures r == [] || !IsWhitespace(r[0])
    ensures forall i :: 0 <= i < |s| - |r| ==> IsWhitespace(s[i])
    decreases |s|
  {
    if s != [] && IsWhitespace(s[0]) then TrimStart(s[1..]) else s
  }

  /** `str::trim`: drop whitespace at both ends. */
  function Trim(s: string): string {
    TrimStart(TrimEnd(s))
  }

  /** A string that starts and ends with a non-whitespace character (or is empty). */
  predicate IsTrimmed(s: string) {
    s == [] || (!IsWhitespace(s[0]) && !IsWhitespace(s[|s| - 1]))
  }

  lemma TrimOfTrimmed(s: string)
    requires IsTrimmed(s)
    ensures Trim(s) == s && TrimEnd(s) == s
  {
    assert TrimEnd(s) == s;
  }

  /** Index of the first '\n' of `text`, or `|text|` when there is none. */
  function LineEnd(text: string): (k: nat)
    ensures k <= |text|
    ensures k < |text| ==> text[k] == '\n'
    ensures forall j :: 0 <= j < k ==> text[j] != '\n'
  {
    if text == [] then 0
    else if text[0] == '\n' then 0
    else 1 + LineEnd(text[1..])
  }

  /** A line ended by '\n' loses one '\r' in front of that '\n' ("\r\n" endings). */
  function DropCarriageReturn(line: string): (r: string)
    ensures |r| <= |line| && r == line[..|r|] && |line| - 1 <= |r|
  {
    if line != [] && line[|line| - 1] == '\r' then line[..|line| - 1] else line
  }

  /**
   * `str::lines` and `BufRead::lines`: the pieces of `text` between '\n'
   * characters, each without a '\r' just before its '\n'; a final '\n' does
   * not start another (empty) line, and the empty text has no lines.
   */
  function Lines(text: string): (r: seq<string>)
    ensures r == [] <==> text == []
    ensures forall i :: 0 <= i < |r| ==> forall j :: 0 <= j < |r[i]| ==> r[i][j] != '\n'
    decreases |text|
  {
    if text == [] then []
    else
      var k := LineEnd(text);
      if k == |text| then [text]
      else [DropCarriageReturn(text[..k])] + Lines(text[k + 1..])
  }

  /**
   * A line that survives being written with a '\n' after it and read back
   * by `Lines`: it holds no '\n' and does not end in '\r'.
   */
  predicate IsSingleLine(line: string) {
    (forall i :: 0 <= i < |line| ==> line[i] != '\n') &&
    (line == [] || line[|line| - 1] != '\r')
  }

  /** A line with no trailing whitespace and no '\n' is a single line. */
  lemma TrimmedLineIsSingleLine(line: string)
    requires forall i :: 0 <= i < |line| ==> line[i] != '\n'
    requires line == [] || !IsWhitespace(line[|line| - 1])
    ensures IsSingleLine(line)
  {
  }
}

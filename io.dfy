/**
 * The output side of the conversions: a writer that `writeln!` appends one
 * line to, and the text those lines make once each is followed by '\n'.
 * Writer failures are not modelled: every `writeln!` succeeds.
 */
module Io {
  import opened Strings

  /** An `io::Write` seen as the sequence of lines written to it so far. */
  class Writer {
    var lines: seq<string>

    constructor ()
      ensures lines == []
    {
      lines := [];
    }

    /** `writeln!(writer, "{line}")` */
    method WriteLine(line: string)
      modifies this
      ensures lines == old(lines) + [line]
    {
      lines := lines + [line];
    }

    /** `if !mem::replace(&mut first, false) { writeln!(writer)?; }`, less the flag update. */
    method WriteSeparator(first: bool)
      modifies this
      ensures lines == old(lines) + (if first then [] else [""])
    {
      if !first {
        WriteLine("");
      }
    }

    /** `for line in lines { writeln!(writer, "{line}") }` */
    method WriteLines(more: seq<string>)
      modifies this
      ensures lines == old(lines) + more
    {
      for j := 0 to |more|
        invariant lines == old(lines) + more[..j]
      {
        WriteLine(more[j]);
        assert more[..j + 1] == more[..j] + [more[j]];
      }
      assert more[..|more|] == more;
    }
  }

  /** The bytes `writeln!` produces for `lines`: each line followed by '\n'. */
  function Text(lines: seq<string>): string {
    if lines == [] then [] else lines[0] + "\n" + Text(lines[1..])
  }

  /**
   * Reading back what was written: splitting the written text into lines
   * gives the lines that were written, provided none of them holds a '\n'
   * or ends in '\r'.
   */
  lemma {:induction false} LinesOfText(lines: seq<string>)
    requires forall i :: 0 <= i < |lines| ==> IsSingleLine(lines[i])
    ensures Lines(Text(lines)) == lines
    decreases |lines|
  {
    if lines != [] {
      assert IsSingleLine(lines[0]);
      LinesOfLine(lines[0], Text(lines[1..]));
      LinesOfText(lines[1..]);
      assert lines == [lines[0]] + lines[1..];
    }
  }

  /** A single line followed by '\n' is read back as that line, and reading goes on after it. */
  lemma LinesOfLine(l: string, rest: string)
    requires IsSingleLine(l)
    ensures Lines(l + "\n" + rest) == [l] + Lines(rest)
  {
    var text := l + "\n" + rest;
    assert text[|l|] == '\n';
    assert forall j :: 0 <= j < |l| ==> text[j] == l[j];
    LineEndOfLine(text, l);
    assert text[..|l|] == l;
    assert text[|l| + 1..] == rest;
  }

  lemma LineEndOfLine(text: string, l: string)
    requires |l| < |text| && text[|l|] == '\n'
    requires forall j :: 0 <= j < |l| ==> text[j] == l[j] && l[j] != '\n'
    ensures LineEnd(text) == |l|
  {
  }
}

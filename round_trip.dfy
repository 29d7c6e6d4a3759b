/**
 * How the two directions fit together: the text tangle writes is read back
 * by untangle as one code group (with the blank separator before the
 * trailer kept as a final empty line), and the structural conversions of
 * the two directions undo each other on well-formed inputs.
 */
module RoundTrip {
  import opened Strings
  import opened Io
  import opened TangleAndUntangle
  import Tangle
  import Untangle
  import Lib

  /** Every line of every code group can be written and read back unchanged. */
  predicate SingleLineGroups(groups: seq<GeneratedLineGroup>) {
    forall i :: 0 <= i < |groups| && groups[i].CodeLineGroup? ==>
      forall j :: 0 <= j < |groups[i].lines| ==> IsSingleLine(groups[i].lines[j])
  }

  /** Tangle writes only lines that survive being read back. */
  lemma {:induction false} TangledLinesAreSingle(groups: seq<GeneratedLineGroup>, first: bool)
    requires SingleLineGroups(groups)
    ensures forall i :: 0 <= i < |Tangle.TangledLines(groups, first)| ==> IsSingleLine(Tangle.TangledLines(groups, first)[i])
    decreases |groups|
  {
    if groups != [] {
      assert SingleLineGroups(groups[1..]) by {
        forall i | 0 <= i < |groups[1..]| && groups[1..][i].CodeLineGroup?
          ensures forall j :: 0 <= j < |groups[1..][i].lines| ==> IsSingleLine(groups[1..][i].lines[j])
        {
          assert groups[1..][i] == groups[i + 1];
        }
      }
      TangledLinesAreSingle(groups[1..], false);
      TangledLinesAreSingle(groups[1..], first);
      SignatureIsTrimmed();
    }
  }

  /**
   * Untangle reads what tangle wrote for groups ending in a Postamble as a
   * single code group: every line written before the trailer, including the
   * empty separator line in front of it when anything came before.
   */
  lemma TangledThenAnalyzed(groups: seq<GeneratedLineGroup>)
    requires groups != [] && groups[|groups| - 1].Postamble?
    requires SingleLineGroups(groups)
    ensures var init := groups[..|groups| - 1];
      var body := Tangle.TangledLines(init, true) + (if Tangle.AllPreambles(init) then [] else [""]);
      Untangle.AnalyzedLineGroups(Text(Tangle.TangledLines(groups, true))) ==
        Ok([GeneratedLineGroup.Preamble, CodeLineGroup(body), GeneratedLineGroup.Postamble(Djot)])
  {
    var n := |groups|;
    var init := groups[..n - 1];
    var body := Tangle.TangledLines(init, true) + (if Tangle.AllPreambles(init) then [] else [""]);
    assert groups == init + [groups[n - 1]];
    Tangle.TangledLinesAppend(init, [groups[n - 1]], true);
    assert [groups[n - 1]][1..] == [];
    var written := Tangle.TangledLines(groups, true);
    assert written == body + [GeneratedSignature];
    TangledLinesAreSingle(groups, true);
    LinesOfText(written);
    SignatureIsTrimmed();
    assert written[|body|] == GeneratedSignature;
    Untangle.TakenPostambleFinds(written, |body|);
    assert written[..|body|] == body;
  }

  /**
   * The simplest document: untangling what tangle wrote for one code group
   * gives that group's lines plus one trailing empty line.
   */
  lemma OneGroupRoundTrip(lines: seq<string>)
    requires forall i :: 0 <= i < |lines| ==> IsSingleLine(lines[i])
    ensures Untangle.AnalyzedLineGroups(Text(Tangle.TangledLines(
              [GeneratedLineGroup.Preamble, CodeLineGroup(lines), GeneratedLineGroup.Postamble(Djot)], true))) ==
            Ok([GeneratedLineGroup.Preamble, CodeLineGroup(lines + [""]), GeneratedLineGroup.Postamble(Djot)])
  {
    var groups := [GeneratedLineGroup.Preamble, CodeLineGroup(lines), GeneratedLineGroup.Postamble(Djot)];
    TangledThenAnalyzed(groups);
    var init := groups[..2];
    assert init == [GeneratedLineGroup.Preamble, CodeLineGroup(lines)];
    assert !Tangle.AllPreambles(init);
    assert init[1..] == [CodeLineGroup(lines)];
    assert [CodeLineGroup(lines)][1..] == [];
    assert Tangle.TangledLines([CodeLineGroup(lines)], true) == lines + [];
    assert lines + [] == lines;
  }

  /**
   * Untangle's conversion undoes tangle's on well-formed line groups: the
   * blocks it builds convert back to the same groups.
   */
  lemma ConversionsInverse(groups: seq<GeneratedLineGroup>)
    requires WellFormedGenerated(groups)
    ensures Untangle.ConvertedLineGroups(groups, Rust).Ok?
    ensures Tangle.Converted(Untangle.ConvertedLineGroups(groups, Rust).value) == groups
  {
    Untangle.ConvertedLineGroupsShape(groups, Rust);
    var blocks := Untangle.ConvertedLineGroups(groups, Rust).value;
    var back := Tangle.Converted(blocks);
    forall i | 0 <= i < |groups|
      ensures back[i] == groups[i]
    {
      if i == 0 {
      } else if i == |groups| - 1 {
        SingleLanguages(Rust, groups[i].sourceLang);
      } else {
        assert blocks[i] == VerbatimBlock(Rust, groups[i].lines);
      }
    }
  }

  /** A document made only of code blocks survives tangle's conversion and untangle's. */
  lemma CodeOnlyDocumentsRoundTrip(blocks: seq<SourceToplevelBlock>)
    requires WellFormedSource(blocks)
    requires forall i :: 0 < i < |blocks| - 1 ==> blocks[i].VerbatimBlock?
    ensures Untangle.ConvertedLineGroups(Tangle.Converted(blocks), Rust) == Ok(blocks)
  {
    Tangle.ConvertedWellFormed(blocks);
    var groups := Tangle.Converted(blocks);
    Untangle.ConvertedLineGroupsShape(groups, Rust);
    var back := Untangle.ConvertedLineGroups(groups, Rust).value;
    forall i | 0 <= i < |blocks|
      ensures back[i] == blocks[i]
    {
      if i == 0 {
        SingleLanguages(Rust, blocks[0].lang);
      } else if i < |blocks| - 1 {
        SingleLanguages(blocks[i].codeLang, Djot);
        assert groups[i] == CodeLineGroup(blocks[i].lines);
        assert back[i] == VerbatimBlock(Rust, groups[i].lines);
      }
    }
    assert back == blocks;
  }

  /** Untangle's output for one code block holding a line of Rust and an empty line. */
  lemma OneCodeBlockUntangled(code: string)
    requires code != [] && code[0] != '`'
    ensures Untangle.UntangledLines([SourceToplevelBlock.Preamble(Djot), VerbatimBlock(Rust, [code, ""]), SourceToplevelBlock.Postamble], true)
      == ["``` rust", code, "", "```"]
  {
    var back := [SourceToplevelBlock.Preamble(Djot), VerbatimBlock(Rust, [code, ""]), SourceToplevelBlock.Postamble];
    assert !Untangle.AllBackticks(code);
    assert Untangle.FenceLength([code, ""]) == 3;
    assert Untangle.ClosingFence([code, ""]) == "```";
    assert Untangle.OpeningFence([code, ""], Rust) == "``` rust";
    assert Untangle.BlockLines(back[1]) == ["``` rust", code, "", "```"];
    assert back[1..] == [VerbatimBlock(Rust, [code, ""]), SourceToplevelBlock.Postamble];
    assert back[1..][1..] == [SourceToplevelBlock.Postamble];
    assert back[1..][1..][1..] == [];
    assert Untangle.UntangledLines(back[1..][1..], false) == [];
    assert Untangle.UntangledLines(back[1..], true) == [] + Untangle.BlockLines(back[1]) + [];
  }

  /** Untangle's conversion turns a lone code group into a lone Rust code block with the same lines. */
  lemma OneCodeGroupConverted(lines: seq<string>)
    ensures Untangle.ConvertedLineGroups([GeneratedLineGroup.Preamble, CodeLineGroup(lines), GeneratedLineGroup.Postamble(Djot)], Rust)
      == Ok([SourceToplevelBlock.Preamble(Djot), VerbatimBlock(Rust, lines), SourceToplevelBlock.Postamble])
  {
    var groups := [GeneratedLineGroup.Preamble, CodeLineGroup(lines), GeneratedLineGroup.Postamble(Djot)];
    Untangle.ConvertedLineGroupsShape(groups, Rust);
    assert WellFormedGenerated(groups);
    var bs := Untangle.ConvertedLineGroups(groups, Rust).value;
    assert |bs| == 3 && bs[1] == VerbatimBlock(Rust, lines);
    SingleLanguages(Rust, bs[0].lang);
    assert bs[0] == SourceToplevelBlock.Preamble(Djot) && bs[2] == SourceToplevelBlock.Postamble;
    assert bs == [SourceToplevelBlock.Preamble(Djot), VerbatimBlock(Rust, lines), SourceToplevelBlock.Postamble];
  }

  /**
   * A document holding one Rust code block with one line, tangled and then
   * untangled: the code comes back inside a three-backtick fence, followed
   * by the empty line untangle keeps.
   */
  lemma OneCodeBlockRoundTrip(code: string)
    requires IsSingleLine(code) && code != [] && code[0] != '`'
    ensures var generated := Tangle.Converted([SourceToplevelBlock.Preamble(Djot), VerbatimBlock(Rust, [code]), SourceToplevelBlock.Postamble]);
      Lib.UntangleText(Text(Tangle.TangledLines(generated, true))) == Ok(Text(["``` rust", code, "", "```"]))
  {
    var blocks := [SourceToplevelBlock.Preamble(Djot), VerbatimBlock(Rust, [code]), SourceToplevelBlock.Postamble];
    var generated := Tangle.Converted(blocks);
    var text := Text(Tangle.TangledLines(generated, true));
    var groups := [GeneratedLineGroup.Preamble, CodeLineGroup([code, ""]), GeneratedLineGroup.Postamble(Djot)];
    var back := [SourceToplevelBlock.Preamble(Djot), VerbatimBlock(Rust, [code, ""]), SourceToplevelBlock.Postamble];
    assert Untangle.AnalyzedLineGroups(text) == Ok(groups) by {
      assert generated == [GeneratedLineGroup.Preamble, CodeLineGroup([code]), GeneratedLineGroup.Postamble(Djot)];
      OneGroupRoundTrip([code]);
      assert [code] + [""] == [code, ""];
    }
    assert Untangle.ConvertedLineGroups(groups, Rust) == Ok(back) by {
      OneCodeGroupConverted([code, ""]);
    }
    OneCodeBlockUntangled(code);
  }
}

/**
 * Untangling: read a generated Rust file back into line groups, turn them
 * into Djot top-level blocks, and write those out as a literate document
 * whose code sits in backtick fences long enough never to be closed early.
 */
module Untangle {
  import opened Strings
  import opened Io
  import opened TangleAndUntangle

  // ---------------------------------------------------------------------
  // Reading a generated file

  /** The lines without their run of trailing empty lines. */
  function WithoutTrailingEmptyLines(lines: seq<string>): (r: seq<string>)
    decreases |lines|
  {
    if lines != [] && lines[|lines| - 1] == [] then WithoutTrailingEmptyLines(lines[..|lines| - 1])
    else lines
  }

  /**
   * Only empty lines are dropped, and only from the end: what is left is a
   * prefix, everything after it is empty, and it does not end in an empty line.
   */
  lemma {:induction false} WithoutTrailingEmptyLinesShape(lines: seq<string>)
    ensures var r := WithoutTrailingEmptyLines(lines);
      |r| <= |lines| && r == lines[..|r|] &&
      (forall i :: |r| <= i < |lines| ==> lines[i] == []) &&
      (r == [] || r[|r| - 1] != [])
    decreases |lines|
  {
    if lines != [] && lines[|lines| - 1] == [] {
      var init := lines[..|lines| - 1];
      WithoutTrailingEmptyLinesShape(init);
      var r := WithoutTrailingEmptyLines(init);
      assert lines[..|r|] == init[..|r|];
    }
  }

  /** Dropping the trailing empty lines twice is dropping them once. */
  lemma WithoutTrailingEmptyLinesIdempotent(lines: seq<string>)
    ensures WithoutTrailingEmptyLines(WithoutTrailingEmptyLines(lines)) == WithoutTrailingEmptyLines(lines)
  {
    WithoutTrailingEmptyLinesShape(lines);
  }

  /** Lines that end in a non-empty line lose nothing. */
  lemma {:induction false} WithoutTrailingEmptyLinesKeeps(lines: seq<string>, empties: nat)
    requires lines != [] && lines[|lines| - 1] != []
    ensures WithoutTrailingEmptyLines(lines + seq(empties, _ => [])) == lines
    decreases empties
  {
    var padded := lines + seq(empties, _ => []);
    if empties > 0 {
      assert padded[..|padded| - 1] == lines + seq(empties - 1, _ => []);
      WithoutTrailingEmptyLinesKeeps(lines, empties - 1);
    } else {
      assert padded == lines;
    }
  }

  /** The trailer is not empty, so dropping trailing empty lines never removes it. */
  lemma SignatureNeverDropped(lines: seq<string>)
    ensures WithoutTrailingEmptyLines(lines + [GeneratedSignature]) == lines + [GeneratedSignature]
  {
    SignatureIsLineComment();
    WithoutTrailingEmptyLinesKeeps(lines + [GeneratedSignature], 0);
  }

  /** `drop_trailing_empty_lines` */
  method DropTrailingEmptyLines(lines: seq<string>) returns (r: seq<string>)
    ensures r == WithoutTrailingEmptyLines(lines)
  {
    r := lines;
    while r != [] && r[|r| - 1] == []
      invariant WithoutTrailingEmptyLines(r) == WithoutTrailingEmptyLines(lines)
      decreases |r|
    {
      r := r[..|r| - 1];
    }
  }

  /**
   * `take_postamble`: after dropping trailing empty lines, a last line that
   * trims to the trailer is removed and becomes the Postamble; otherwise
   * there is no Postamble. The second component is what is left of the lines.
   */
  function TakenPostamble(lines: seq<string>): (Option<GeneratedLineGroup>, seq<string>) {
    var kept := WithoutTrailingEmptyLines(lines);
    if kept == [] || Trim(kept[|kept| - 1]) != GeneratedSignature then (None, kept)
    else (Some(GeneratedLineGroup.Postamble(Djot)), kept[..|kept| - 1])
  }

  /**
   * A line that trims to the trailer followed only by empty lines is always
   * found: it becomes the Postamble and exactly the lines before it are kept.
   */
  lemma TakenPostambleFinds(lines: seq<string>, k: nat)
    requires k < |lines| && Trim(lines[k]) == GeneratedSignature
    requires forall j :: k < j < |lines| ==> lines[j] == []
    ensures TakenPostamble(lines) == (Some(GeneratedLineGroup.Postamble(Djot)), lines[..k])
  {
    WithoutTrailingEmptyLinesShape(lines);
    SignatureIsLineComment();
    var kept := WithoutTrailingEmptyLines(lines);
    assert lines[k] != [];
    assert |kept| == k + 1;
    assert kept[k] == lines[k];
    assert kept[..k] == lines[..k];
  }

  /**
   * Conversely, whatever is found is such a line: the kept lines are a
   * prefix, the next line trims to the trailer and only empty lines follow.
   */
  lemma TakenPostambleSound(lines: seq<string>)
    ensures var (p, rest) := TakenPostamble(lines);
      p.Some? ==>
        p.value == GeneratedLineGroup.Postamble(Djot) &&
        |rest| < |lines| && rest == lines[..|rest|] && Trim(lines[|rest|]) == GeneratedSignature &&
        forall j :: |rest| < j < |lines| ==> lines[j] == []
  {
    var (p, rest) := TakenPostamble(lines);
    if p.Some? {
      var kept := WithoutTrailingEmptyLines(lines);
      WithoutTrailingEmptyLinesShape(lines);
      assert kept != [] && rest == kept[..|kept| - 1] && Trim(kept[|kept| - 1]) == GeneratedSignature;
      LastOfPrefix(lines, kept);
    }
  }

  /** A non-empty prefix: its last element and what comes before it, read in the whole. */
  lemma LastOfPrefix<T>(whole: seq<T>, prefix: seq<T>)
    requires prefix != [] && |prefix| <= |whole| && prefix == whole[..|prefix|]
    ensures whole[|prefix| - 1] == prefix[|prefix| - 1]
    ensures prefix[..|prefix| - 1] == whole[..|prefix| - 1]
  {
  }

  /** `take_postamble`, updating the line vector in place: `rest` is its new contents. */
  method TakePostamble(lines: seq<string>) returns (postamble: Option<GeneratedLineGroup>, rest: seq<string>)
    ensures (postamble, rest) == TakenPostamble(lines)
  {
    rest := DropTrailingEmptyLines(lines);
    if rest == [] {
      return None, rest;
    }
    var lastLine := rest[|rest| - 1];
    if Trim(lastLine) != GeneratedSignature {
      return None, rest;
    }
    rest := rest[..|rest| - 1];
    postamble := Some(GeneratedLineGroup.Postamble(Djot));
  }

  /**
   * What `analyze_line_groups` makes of a generated file's text: a Preamble,
   * one code group holding every line before the trailer, and the Postamble.
   */
  function AnalyzedLineGroups(text: string): (r: Result<seq<GeneratedLineGroup>, AnalysisError>)
    ensures r.Ok? ==> WellFormedGenerated(r.value) && |r.value| == 3
    ensures r.Err? ==> r.error == AnalysisError.NoValidPostamble
  {
    var (postamble, rest) := TakenPostamble(Lines(text));
    match postamble
    case None => Err(AnalysisError.NoValidPostamble)
    case Some(p) => Ok([GeneratedLineGroup.Preamble, CodeLineGroup(rest), p])
  }

  /** `analyze_line_groups` (read failures and invalid UTF-8 are not modelled). */
  method AnalyzeLineGroups(text: string) returns (r: Result<seq<GeneratedLineGroup>, AnalysisError>)
    ensures r == AnalyzedLineGroups(text)
  {
    var lines := Lines(text);
    var postamble, rest := TakePostamble(lines);
    if postamble.None? {
      return Err(AnalysisError.NoValidPostamble);
    }
    r := Ok([GeneratedLineGroup.Preamble, CodeLineGroup(rest), postamble.value]);
  }

  // ---------------------------------------------------------------------
  // Conversion into source blocks

  /** The blocks the middle groups become; an error at the first non-code group. */
  function VerbatimBlocks(middle: seq<GeneratedLineGroup>, lang: GeneratedLanguage): (r: Result<seq<SourceToplevelBlock>, ConversionError>)
    ensures r.Ok? <==> forall i :: 0 <= i < |middle| ==> middle[i].CodeLineGroup?
    ensures r.Err? ==> r.error == UnexpectedGeneratedLineGroup
    ensures r.Ok? ==> |r.value| == |middle|
    ensures r.Ok? ==> forall i :: 0 <= i < |middle| ==> r.value[i] == VerbatimBlock(lang, middle[i].lines)
    decreases |middle|
  {
    if middle == [] then Ok([])
    else
      var last := middle[|middle| - 1];
      match VerbatimBlocks(middle[..|middle| - 1], lang)
      case Err(e) => Err(e)
      case Ok(bs) =>
        if last.CodeLineGroup? then Ok(bs + [VerbatimBlock(lang, last.lines)])
        else Err(UnexpectedGeneratedLineGroup)
  }

  /**
   * What `convert_line_groups` returns: the first group must be a Preamble,
   * the last (another group) a Postamble, and every group between them code.
   */
  function ConvertedLineGroups(generated: seq<GeneratedLineGroup>, lang: GeneratedLanguage): (r: Result<seq<SourceToplevelBlock>, ConversionError>)
  {
    if generated == [] || !generated[0].Preamble? then Err(NoValidPreamble)
    else if |generated| == 1 || !generated[|generated| - 1].Postamble? then Err(ConversionError.NoValidPostamble)
    else
      match VerbatimBlocks(generated[1..|generated| - 1], lang)
      case Err(e) => Err(e)
      case Ok(bs) => Ok([SourceToplevelBlock.Preamble(Djot)] + bs + [SourceToplevelBlock.Postamble])
  }

  /**
   * Conversion succeeds exactly on well-formed line groups; it then gives a
   * well-formed document with one Verbatim block per code group, in order.
   * Otherwise it names the first thing that is missing or misplaced: no
   * leading Preamble, then no trailing Postamble (a lone Preamble included),
   * then a group between them that is not code.
   */
  lemma ConvertedLineGroupsShape(generated: seq<GeneratedLineGroup>, lang: GeneratedLanguage)
    ensures var r := ConvertedLineGroups(generated, lang);
      (r.Ok? <==> WellFormedGenerated(generated)) &&
      (r.Err? && r.error == NoValidPreamble <==> generated == [] || !generated[0].Preamble?) &&
      (r.Err? && r.error == ConversionError.NoValidPostamble <==>
         generated != [] && generated[0].Preamble? && (|generated| == 1 || !generated[|generated| - 1].Postamble?)) &&
      (r.Err? && r.error == UnexpectedGeneratedLineGroup <==>
         generated != [] && generated[0].Preamble? && |generated| > 1 && generated[|generated| - 1].Postamble? &&
         exists i :: 0 < i < |generated| - 1 && !generated[i].CodeLineGroup?) &&
      (r.Ok? ==> WellFormedSource(r.value) && |r.value| == |generated| &&
                 forall i :: 0 < i < |generated| - 1 ==> r.value[i] == VerbatimBlock(lang, generated[i].lines))
  {
    var r := ConvertedLineGroups(generated, lang);
    if generated != [] && generated[0].Preamble? && |generated| > 1 && generated[|generated| - 1].Postamble? {
      var middle := generated[1..|generated| - 1];
      assert forall i :: 0 < i < |generated| - 1 ==> generated[i] == middle[i - 1];
      if r.Ok? {
        var bs := VerbatimBlocks(middle, lang).value;
        assert forall i :: 0 < i < |generated| - 1 ==> r.value[i] == bs[i - 1];
      }
    }
  }

  /** `convert_line_groups` */
  method ConvertLineGroups(generated: seq<GeneratedLineGroup>, lang: GeneratedLanguage) returns (r: Result<seq<SourceToplevelBlock>, ConversionError>)
    ensures r == ConvertedLineGroups(generated, lang)
  {
    if generated == [] || !generated[0].Preamble? {
      return Err(NoValidPreamble);
    }
    var rest := generated[1..];
    if rest == [] || !rest[|rest| - 1].Postamble? {
      return Err(ConversionError.NoValidPostamble);
    }
    var middle := rest[..|rest| - 1];
    assert middle == generated[1..|generated| - 1];
    var blocks := [SourceToplevelBlock.Preamble(Djot)];
    for i := 0 to |middle|
      invariant VerbatimBlocks(middle[..i], lang).Ok?
      invariant blocks == [SourceToplevelBlock.Preamble(Djot)] + VerbatimBlocks(middle[..i], lang).value
    {
      assert middle[..i + 1][..i] == middle[..i];
      match middle[i] {
        case CodeLineGroup(lines) =>
          blocks := blocks + [VerbatimBlock(lang, lines)];
        case _ =>
          assert VerbatimBlocks(middle[..i + 1], lang).Err?;
          assert middle == middle[..i + 1] + middle[i + 1..];
          VerbatimBlocksPrefixError(middle, i + 1, lang);
          return Err(UnexpectedGeneratedLineGroup);
      }
    }
    assert middle[..|middle|] == middle;
    r := Ok(blocks + [SourceToplevelBlock.Postamble]);
  }

  /** A failure in a prefix of the middle groups is the failure of them all. */
  lemma VerbatimBlocksPrefixError(middle: seq<GeneratedLineGroup>, n: nat, lang: GeneratedLanguage)
    requires n <= |middle| && VerbatimBlocks(middle[..n], lang).Err?
    ensures VerbatimBlocks(middle, lang) == Err(UnexpectedGeneratedLineGroup)
  {
    assert forall i :: 0 <= i < n ==> middle[..n][i] == middle[i];
  }

  // ---------------------------------------------------------------------
  // Fences

  predicate AllBackticks(line: string) {
    forall i :: 0 <= i < |line| ==> line[i] == '`'
  }

  /**
   * The fence length `calc_djot_fences` settles on after scanning `lines`:
   * 3, raised to one more than the length of each all-backtick line that is
   * at least as long as the fence so far.
   */
  function FenceLength(lines: seq<string>): (n: nat)
    ensures n >= 3
    ensures forall i :: 0 <= i < |lines| && AllBackticks(lines[i]) ==> |lines[i]| < n
    ensures n == 3 || exists i :: 0 <= i < |lines| && AllBackticks(lines[i]) && n == |lines[i]| + 1
    decreases |lines|
  {
    if lines == [] then 3
    else
      var init := lines[..|lines| - 1];
      var line := lines[|lines| - 1];
      var n := FenceLength(init);
      assert forall i :: 0 <= i < |init| ==> lines[i] == init[i];
      if |line| >= n && AllBackticks(line) then |line| + 1 else n
  }

  /** The fence is the shortest one longer than every all-backtick line (and at least 3). */
  lemma FenceLengthIsLeast(lines: seq<string>, m: nat)
    requires m >= 3
    requires forall i :: 0 <= i < |lines| && AllBackticks(lines[i]) ==> |lines[i]| < m
    ensures FenceLength(lines) <= m
  {
  }

  function Backticks(n: nat): (s: string)
    ensures |s| == n && AllBackticks(s)
  {
    seq(n, _ => '`')
  }

  function ClosingFence(lines: seq<string>): string {
    Backticks(FenceLength(lines))
  }

  function OpeningFence(lines: seq<string>, lang: GeneratedLanguage): string {
    ClosingFence(lines) + match lang { case Rust => " rust" }
  }

  /** No line of the block equals its closing fence, so the block cannot end early. */
  lemma ClosingFenceUnique(lines: seq<string>)
    ensures forall i :: 0 <= i < |lines| ==> lines[i] != ClosingFence(lines)
  {
  }

  /** `calc_djot_fences` */
  method CalcDjotFences(lang: GeneratedLanguage, lines: seq<string>) returns (fenceStart: string, fenceEnd: string)
    ensures fenceStart == OpeningFence(lines, lang) && fenceEnd == ClosingFence(lines)
  {
    var fenceLen := 3;
    for i := 0 to |lines|
      invariant fenceLen == FenceLength(lines[..i])
    {
      var line := lines[i];
      assert lines[..i + 1][..i] == lines[..i];
      var lineLen := |line|;
      if lineLen < fenceLen {
        continue;
      }
      var allBackticks := true;
      for j := 0 to lineLen
        invariant allBackticks == AllBackticks(line[..j])
      {
        assert line[..j + 1] == line[..j] + [line[j]];
        allBackticks := allBackticks && line[j] == '`';
      }
      assert line[..lineLen] == line;
      if allBackticks {
        fenceLen := lineLen + 1;
      }
    }
    assert lines[..|lines|] == lines;
    fenceEnd := Backticks(fenceLen);
    fenceStart := fenceEnd + match lang { case Rust => " rust" };
  }

  // ---------------------------------------------------------------------
  // Output

  /** The lines one block writes, leaving aside the separator before it. */
  function BlockLines(block: SourceToplevelBlock): seq<string> {
    match block
    case Preamble(_) => []
    case VerbatimBlock(lang, lines) => [OpeningFence(lines, lang)] + lines + [ClosingFence(lines)]
    case LiterateBlock(lines) => lines
    case Postamble => []
  }

  /**
   * The lines untangle writes for `blocks`; `first` says no block has been
   * written yet, so the next written block gets no blank separator line.
   */
  function UntangledLines(blocks: seq<SourceToplevelBlock>, first: bool): seq<string>
    decreases |blocks|
  {
    if blocks == [] then []
    else if blocks[0].Preamble? || blocks[0].Postamble? then UntangledLines(blocks[1..], first)
    else (if first then [] else [""]) + BlockLines(blocks[0]) + UntangledLines(blocks[1..], false)
  }

  /**
   * Every block is a Preamble or a Postamble: the first-block flag is still
   * set after them, whereas any other block clears it, even one with no lines.
   */
  predicate OnlyMarkers(blocks: seq<SourceToplevelBlock>) {
    forall i :: 0 <= i < |blocks| ==> blocks[i].Preamble? || blocks[i].Postamble?
  }

  /** What one block writes: nothing for a Preamble or Postamble, else a separator unless first, then its lines. */
  function Written(block: SourceToplevelBlock, first: bool): seq<string> {
    if block.Preamble? || block.Postamble? then []
    else (if first then [] else [""]) + BlockLines(block)
  }

  /** The first block writes its part, and the rest follow with the flag it leaves. */
  lemma UntangledCons(blocks: seq<SourceToplevelBlock>, first: bool)
    requires blocks != []
    ensures UntangledLines(blocks, first) ==
      Written(blocks[0], first) + UntangledLines(blocks[1..], first && (blocks[0].Preamble? || blocks[0].Postamble?))
  {
  }

  lemma UntangledOne(block: SourceToplevelBlock, first: bool)
    ensures UntangledLines([block], first) == Written(block, first)
  {
    UntangledCons([block], first);
    assert [block][1..] == [];
  }

  /**
   * Writing `a` then `b` writes `b` as if alone, with a separator before its
   * first written block exactly when `a` holds a code or prose block,
   * even one with no lines.
   */
  lemma {:induction false} UntangledLinesAppend(a: seq<SourceToplevelBlock>, b: seq<SourceToplevelBlock>, first: bool)
    ensures UntangledLines(a + b, first) == UntangledLines(a, first) + UntangledLines(b, first && OnlyMarkers(a))
    decreases |a|
  {
    if a == [] {
      assert a + b == b;
    } else {
      assert (a + b)[0] == a[0];
      assert (a + b)[1..] == a[1..] + b;
      if a[0].Preamble? || a[0].Postamble? {
        UntangledLinesAppend(a[1..], b, first);
        assert OnlyMarkers(a) == OnlyMarkers(a[1..]);
      } else {
        UntangledLinesAppend(a[1..], b, false);
        ConcatAssociative((if first then [] else [""]) + BlockLines(a[0]), UntangledLines(a[1..], false), UntangledLines(b, false));
      }
    }
  }

  /** A Verbatim block's part of `generate_output`: its fences around its lines. */
  method WriteVerbatim(writer: Writer, lang: GeneratedLanguage, lines: seq<string>)
    modifies writer
    ensures writer.lines == old(writer.lines) + BlockLines(VerbatimBlock(lang, lines))
  {
    var fenceStart, fenceEnd := CalcDjotFences(lang, lines);
    writer.WriteLine(fenceStart);
    writer.WriteLines(lines);
    writer.WriteLine(fenceEnd);
    assert writer.lines == old(writer.lines) + ([fenceStart] + lines + [fenceEnd]);
  }

  /** The body of `generate_output`'s loop: write one block, a blank line first unless it is the first. */
  method WriteBlock(writer: Writer, block: SourceToplevelBlock, firstBlock: bool) returns (stillFirst: bool)
    modifies writer
    ensures stillFirst == (firstBlock && (block.Preamble? || block.Postamble?))
    ensures writer.lines == old(writer.lines) + Written(block, firstBlock)
  {
    stillFirst := firstBlock;
    if block.Preamble? || block.Postamble? {
      assert writer.lines == old(writer.lines) + [];
      return;
    }
    writer.WriteSeparator(firstBlock);
    stillFirst := false;
    ghost var mid := writer.lines;
    if block.VerbatimBlock? {
      WriteVerbatim(writer, block.codeLang, block.lines);
    } else {
      writer.WriteLines(block.lines);
    }
    assert writer.lines == mid + BlockLines(block);
  }

  /** One more block of the loop: what it writes is appended, and the first-block flag follows. */
  lemma UntangledStep(before: seq<string>, source: seq<SourceToplevelBlock>, i: nat)
    requires i < |source|
    ensures before + UntangledLines(source[..i + 1], true) ==
      (before + UntangledLines(source[..i], true)) + Written(source[i], OnlyMarkers(source[..i]))
    ensures OnlyMarkers(source[..i + 1]) == (OnlyMarkers(source[..i]) && (source[i].Preamble? || source[i].Postamble?))
  {
    var done := source[..i];
    var block := source[i];
    assert source[..i + 1] == done + [block];
    var first := OnlyMarkers(done);
    var u := UntangledLines(done, true);
    var w := Written(block, first);
    UntangledLinesAppend(done, [block], true);
    UntangledOne(block, first);
    assert UntangledLines(done + [block], true) == u + w;
    ConcatAssociative(before, u, w);
  }

  /** `generate_output`: write every block, blank lines between them, code inside fences. */
  method GenerateOutput(writer: Writer, source: seq<SourceToplevelBlock>)
    modifies writer
    ensures writer.lines == old(writer.lines) + UntangledLines(source, true)
  {
    var firstBlock := true;
    for i := 0 to |source|
      invariant firstBlock == OnlyMarkers(source[..i])
      invariant writer.lines == old(writer.lines) + UntangledLines(source[..i], true)
    {
      UntangledStep(old(writer.lines), source, i);
      firstBlock := WriteBlock(writer, source[i], firstBlock);
    }
    assert source[..|source|] == source;
  }
}

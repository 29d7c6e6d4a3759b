/**
 * Tangle: literate Djot document -> generated Rust file.
 *
 * The Djot parser is not modelled; its output is taken as given: a sequence
 * of events, each with the range of the document it came from. The events are
 * grouped into top-level groups (`PullNextTopLevelBlock`), each group is
 * classified as a Rust code block or as prose (`AnalyzeSourceBlocks`), the
 * blocks become line groups (`ConvertSourceBlocks`) and the line groups are
 * written out with the generated-file trailer (`GenerateOutput`).
 */
module Tangle {
  import opened Strings
  import opened Io
  import opened TangleAndUntangle

  // ---------------------------------------------------------------------
  // Parser events

  /** The kinds of Djot containers; block kinds first, inline kinds after `CodeBlock`. */
  datatype ContainerKind =
    | Blockquote | List | ListItem | TaskListItem | DescriptionList | DescriptionDetails
    | Footnote | Table | TableRow | Section | Div | Paragraph | Heading | TableCell
    | Caption | DescriptionTerm | LinkDefinition | RawBlock | CodeBlock
    | Span | Link | Image | Verbatim | Math | RawInline | Subscript | Superscript
    | Insert | Delete | Strong | Emphasis | Mark

  /**
   * A container: its kind and, as one comparable value, the fields that
   * take part in container equality (a code block's `language`, a heading's
   * level, a list's kind, ...).
   */
  datatype Container = Container(kind: ContainerKind, payload: string)

  /** The events that carry no container and are not text. */
  datatype InlineKind =
    | FootnoteReference | Symbol | LeftSingleQuote | RightSingleQuote
    | LeftDoubleQuote | RightDoubleQuote | Ellipsis | EnDash | EmDash
    | NonBreakingSpace | Softbreak | Hardbreak | Escape

  datatype Event =
    | Start(container: Container, attributes: string)
    | End(container: Container)
    | Str(text: string)
    | Blankline
    | ThematicBreak(attributes: string)
    | Inline(inlineKind: InlineKind)

  /** A half-open range `start..end` of positions in the document. */
  datatype Range = Range(start: nat, end: nat)

  /** An event together with the range of the document it was parsed from. */
  datatype OffsetEvent = OffsetEvent(event: Event, range: Range)

  /** A top-level group: its events and the union of their ranges. */
  datatype TopLevelGroup = TopLevelGroup(events: seq<Event>, range: Range)

  const RustCodeBlock: Container := Container(CodeBlock, "rust")

  predicate RangeWithin(r: Range, length: nat) {
    r.start <= r.end <= length
  }

  /** The parser keeps every range inside the document. */
  predicate InBounds(source: string, stream: seq<OffsetEvent>) {
    forall i :: 0 <= i < |stream| ==> RangeWithin(stream[i].range, |source|)
  }

  function Events(stream: seq<OffsetEvent>): seq<Event> {
    seq(|stream|, i requires 0 <= i < |stream| => stream[i].event)
  }

  // ---------------------------------------------------------------------
  // Segmentation into top-level groups

  /**
   * Events that form a top-level group on their own: a blank line or a
   * thematic break; never a container boundary, text or inline event.
   */
  predicate IsSingletonBlock(event: Event): (b: bool)
    ensures !b <==> event.Start? || event.End? || event.Str? || event.Inline?
  {
    event.Blankline? || event.ThematicBreak?
  }

  /** Block-level containers; the inline ones (spans, links, emphasis, ...) are not. */
  predicate IsBlockContainer(container: Container): (b: bool)
    ensures !b <==> container.kind in {
      Span, Link, Image, Verbatim, Math, RawInline, Subscript, Superscript,
      Insert, Delete, Strong, Emphasis, Mark }
  {
    match container.kind
    case Blockquote | List | ListItem | TaskListItem | DescriptionList | DescriptionDetails
      | Footnote | Table | TableRow | Section | Div | Paragraph | Heading | TableCell
      | Caption | DescriptionTerm | LinkDefinition | RawBlock | CodeBlock => true
    case Span | Link | Image | Verbatim | Math | RawInline | Subscript | Superscript
      | Insert | Delete | Strong | Emphasis | Mark => false
  }

  /** Events with which a top-level group can begin. */
  predicate StartsGroup(event: Event) {
    IsSingletonBlock(event) || (event.Start? && IsBlockContainer(event.container))
  }

  /** The smallest range that covers both arguments. */
  function UnionRange(lhs: Range, rhs: Range): (r: Range)
    ensures r.start <= lhs.start && r.start <= rhs.start
    ensures r.start == lhs.start || r.start == rhs.start
    ensures lhs.end <= r.end && rhs.end <= r.end
    ensures r.end == lhs.end || r.end == rhs.end
  {
    Range(if lhs.start <= rhs.start then lhs.start else rhs.start,
          if lhs.end >= rhs.end then lhs.end else rhs.end)
  }

  /** The union of the ranges of a non-empty run of events, folded left to right. */
  function SpanOf(stream: seq<OffsetEvent>): Range
    requires stream != []
    decreases |stream|
  {
    if |stream| == 1 then stream[0].range
    else UnionRange(SpanOf(stream[..|stream| - 1]), stream[|stream| - 1].range)
  }

  /**
   * The span covers the range of every event of the run, and its start and
   * its end are those of some event: it is the smallest covering range.
   */
  lemma {:induction false} SpanOfCovers(stream: seq<OffsetEvent>)
    requires stream != []
    ensures forall i :: 0 <= i < |stream| ==>
      SpanOf(stream).start <= stream[i].range.start && stream[i].range.end <= SpanOf(stream).end
    ensures exists i :: 0 <= i < |stream| && SpanOf(stream).start == stream[i].range.start
    ensures exists i :: 0 <= i < |stream| && SpanOf(stream).end == stream[i].range.end
    decreases |stream|
  {
    var last := |stream| - 1;
    if last == 0 {
      assert SpanOf(stream) == stream[0].range;
    } else {
      var init := stream[..last];
      SpanOfCovers(init);
      assert forall i :: 0 <= i < |init| ==> init[i] == stream[i];
      var i :| 0 <= i < |init| && SpanOf(init).start == init[i].range.start;
      var j :| 0 <= j < |init| && SpanOf(init).end == init[j].range.end;
      if SpanOf(stream).start != stream[last].range.start {
        assert SpanOf(stream).start == stream[i].range.start;
      }
      if SpanOf(stream).end != stream[last].range.end {
        assert SpanOf(stream).end == stream[j].range.end;
      }
    }
  }

  /** A run of events whose ranges lie in the document has its span there too. */
  lemma SpanWithin(stream: seq<OffsetEvent>, length: nat)
    requires stream != []
    requires forall i :: 0 <= i < |stream| ==> RangeWithin(stream[i].range, length)
    ensures RangeWithin(SpanOf(stream), length)
  {
    SpanOfCovers(stream);
    var r := SpanOf(stream);
    var i :| 0 <= i < |stream| && r.start == stream[i].range.start;
    var j :| 0 <= j < |stream| && r.end == stream[j].range.end;
    assert r.start <= stream[i].range.end <= r.end;
  }

  /** How one event moves the nesting counter of a group opened by `opener`. */
  function Delta(opener: Container, event: Event): int {
    if event.Start? && event.container == opener then 1
    else if event.End? && event.container == opener then -1
    else 0
  }

  /** The value of the nesting counter after `events`: opened minus closed `opener`s. */
  function Nesting(opener: Container, events: seq<Event>): int
    decreases |events|
  {
    if events == [] then 0
    else Nesting(opener, events[..|events| - 1]) + Delta(opener, events[|events| - 1])
  }

  lemma NestingStep(opener: Container, events: seq<Event>, i: nat)
    requires i < |events|
    ensures Nesting(opener, events[..i + 1]) == Nesting(opener, events[..i]) + Delta(opener, events[i])
  {
    assert events[..i + 1][..i] == events[..i];
  }

  /**
   * `n` is the length of the group that `events[0]`, a Start of `opener`,
   * opens: the counter stays positive on every shorter prefix, and the
   * group ends when the counter reaches 0 or the events run out.
   */
  ghost predicate IsGroupLength(opener: Container, events: seq<Event>, n: nat) {
    1 <= n <= |events| && PositiveBefore(opener, events, n) &&
    (n == |events| || Nesting(opener, events[..n]) == 0)
  }

  /** The counter is positive after every non-empty prefix shorter than `n`. */
  ghost predicate PositiveBefore(opener: Container, events: seq<Event>, n: nat) {
    n <= |events| && forall k :: 1 <= k < n ==> Nesting(opener, events[..k]) > 0
  }

  lemma PositiveBeforeStep(opener: Container, events: seq<Event>, n: nat)
    requires n < |events|
    requires PositiveBefore(opener, events, n) && Nesting(opener, events[..n]) > 0
    ensures PositiveBefore(opener, events, n + 1)
  {
  }

  /** The group length is determined uniquely. */
  lemma GroupLengthUnique(opener: Container, events: seq<Event>, m: nat, n: nat)
    requires IsGroupLength(opener, events, m) && IsGroupLength(opener, events, n)
    ensures m == n
  {
  }

  function ScanGroup(opener: Container, events: seq<Event>, i: nat, depth: nat): (n: nat)
    requires 1 <= i <= |events|
    requires depth == Nesting(opener, events[..i]) && depth > 0
    requires PositiveBefore(opener, events, i)
    ensures IsGroupLength(opener, events, n)
    ensures Nesting(opener, events[..n]) >= 0
    decreases |events| - i
  {
    if i == |events| then i
    else
      NestingStep(opener, events, i);
      PositiveBeforeStep(opener, events, i);
      var d := depth + Delta(opener, events[i]);
      if d == 0 then i + 1 else ScanGroup(opener, events, i + 1, d)
  }

  /** The length of the group opened by `events[0]`, a Start of `opener`. */
  function GroupLength(opener: Container, events: seq<Event>): (n: nat)
    requires events != [] && Delta(opener, events[0]) == 1
    ensures IsGroupLength(opener, events, n)
    ensures Nesting(opener, events[..n]) >= 0
  {
    NestingStep(opener, events, 0);
    assert events[..0] == [];
    ScanGroup(opener, events, 1, 1)
  }

  /**
   * The group at the head of `stream`: a singleton event alone, or a block
   * container's Start with everything up to its matching End; `None` at the
   * end of the stream or at any other event.
   */
  function NextGroup(stream: seq<OffsetEvent>): (r: Option<TopLevelGroup>)
    ensures r.None? <==> stream == [] || !StartsGroup(stream[0].event)
    ensures r.Some? ==> 1 <= |r.value.events| <= |stream|
  {
    if stream == [] then None
    else
      var first := stream[0];
      if IsSingletonBlock(first.event) then Some(TopLevelGroup([first.event], first.range))
      else if first.event.Start? && IsBlockContainer(first.event.container) then
        var events := Events(stream);
        var n := GroupLength(first.event.container, events);
        Some(TopLevelGroup(events[..n], SpanOf(stream[..n])))
      else None
  }

  /**
   * The group at the head of the stream is a prefix of it, carrying the
   * span of that prefix; a singleton event is a group by itself, and a block
   * container's group ends where its nesting counter first returns to 0.
   */
  lemma NextGroupShape(stream: seq<OffsetEvent>)
    requires NextGroup(stream).Some?
    ensures var g := NextGroup(stream).value; var n := |g.events|;
      g.events == Events(stream)[..n] && g.range == SpanOf(stream[..n]) &&
      (IsSingletonBlock(stream[0].event) ==> n == 1) &&
      (stream[0].event.Start? ==> IsGroupLength(stream[0].event.container, Events(stream), n))
  {
    if IsSingletonBlock(stream[0].event) {
      assert [stream[0].event] == Events(stream)[..1];
    }
  }

  /** A blank line or a thematic break is a group by itself, with its own range. */
  lemma SingletonGroup(stream: seq<OffsetEvent>)
    requires stream != [] && IsSingletonBlock(stream[0].event)
    ensures NextGroup(stream) == Some(TopLevelGroup([stream[0].event], stream[0].range))
  {
  }

  /**
   * A container nested in one of the same kind does not end the group early:
   * the group runs to the outer End.
   */
  lemma SameKindNested(r: Range)
    ensures var quote := Container(Blockquote, "");
      var events := [Start(quote, ""), Start(quote, ""), End(quote), End(quote), Blankline];
      NextGroup(seq(5, i requires 0 <= i < 5 => OffsetEvent(events[i], r))) == Some(TopLevelGroup(events[..4], r))
  {
    var quote := Container(Blockquote, "");
    var events := [Start(quote, ""), Start(quote, ""), End(quote), End(quote), Blankline];
    var stream := seq(5, i requires 0 <= i < 5 => OffsetEvent(events[i], r));
    assert Events(stream) == events;
    var counters := [1, 2, 1, 0];
    NestedPrefixes(quote, events, counters);
    forall k | 1 <= k < 4
      ensures Nesting(quote, events[..k]) > 0
    {
      assert Nesting(quote, events[..(k - 1) + 1]) == counters[k - 1];
    }
    assert Nesting(quote, events[..3 + 1]) == counters[3];
    assert IsGroupLength(quote, events, 4);
    PulledGroupIsNextGroup(stream, 4);
    SpanOfConstant(stream[..4], r);
  }

  /** A container of another kind inside the group leaves the counter alone. */
  lemma OtherKindNested(r: Range)
    ensures var div := Container(Div, "");
      var para := Container(Paragraph, "");
      var events := [Start(div, ""), Start(para, ""), End(para), Str("x"), End(div), Blankline];
      NextGroup(seq(6, i requires 0 <= i < 6 => OffsetEvent(events[i], r))) == Some(TopLevelGroup(events[..5], r))
  {
    var div := Container(Div, "");
    var para := Container(Paragraph, "");
    var events := [Start(div, ""), Start(para, ""), End(para), Str("x"), End(div), Blankline];
    var stream := seq(6, i requires 0 <= i < 6 => OffsetEvent(events[i], r));
    assert Events(stream) == events;
    var counters := [1, 1, 1, 1, 0];
    NestedPrefixes(div, events, counters);
    forall k | 1 <= k < 5
      ensures Nesting(div, events[..k]) > 0
    {
      assert Nesting(div, events[..(k - 1) + 1]) == counters[k - 1];
    }
    assert Nesting(div, events[..4 + 1]) == counters[4];
    assert IsGroupLength(div, events, 5);
    PulledGroupIsNextGroup(stream, 5);
    SpanOfConstant(stream[..5], r);
  }

  /** `counters[k]` is the nesting counter after the first k + 1 events. */
  lemma {:induction false} NestedPrefixes(opener: Container, events: seq<Event>, counters: seq<int>)
    requires 0 < |counters| <= |events|
    requires counters[0] == Delta(opener, events[0])
    requires forall k :: 0 < k < |counters| ==> counters[k] == counters[k - 1] + Delta(opener, events[k])
    ensures forall k :: 0 <= k < |counters| ==> Nesting(opener, events[..k + 1]) == counters[k]
    decreases |counters|
  {
    var n := |counters|;
    if n > 1 {
      NestedPrefixes(opener, events, counters[..n - 1]);
    }
    NestingStep(opener, events, n - 1);
    assert events[..0] == [];
  }

  lemma {:induction false} SpanOfConstant(stream: seq<OffsetEvent>, r: Range)
    requires stream != []
    requires forall i :: 0 <= i < |stream| ==> stream[i].range == r
    ensures SpanOf(stream) == r
    decreases |stream|
  {
    if |stream| > 1 {
      SpanOfConstant(stream[..|stream| - 1], r);
    }
  }

  /** The groups that repeated pulls produce, up to the first `None`. */
  function Groups(stream: seq<OffsetEvent>): seq<TopLevelGroup>
    decreases |stream|
  {
    match NextGroup(stream)
    case None => []
    case Some(g) => [g] + Groups(stream[|g.events|..])
  }

  function Flatten(groups: seq<TopLevelGroup>): seq<Event> {
    if groups == [] then [] else groups[0].events + Flatten(groups[1..])
  }

  lemma EventsOfSuffix(stream: seq<OffsetEvent>, n: nat)
    requires n <= |stream|
    ensures Events(stream[n..]) == Events(stream)[n..]
  {
  }

  /**
   * The groups, laid end to end, are exactly a prefix of the event stream;
   * segmentation stops only at the end of the stream or at an event that
   * cannot begin a group, and nothing after that event is ever grouped.
   */
  lemma {:induction false} GroupsCoverPrefix(stream: seq<OffsetEvent>)
    ensures |Flatten(Groups(stream))| <= |stream|
    ensures Flatten(Groups(stream)) == Events(stream)[..|Flatten(Groups(stream))|]
    ensures |Flatten(Groups(stream))| < |stream| ==>
      !StartsGroup(stream[|Flatten(Groups(stream))|].event)
    decreases |stream|
  {
    match NextGroup(stream) {
      case None =>
      case Some(g) =>
        var n := |g.events|;
        var tail := stream[n..];
        NextGroupShape(stream);
        GroupsCoverPrefix(tail);
        EventsOfSuffix(stream, n);
        var gs := Groups(stream);
        assert gs == [g] + Groups(tail);
        assert gs[1..] == Groups(tail);
        assert Flatten(gs) == g.events + Flatten(Groups(tail));
        var k := |Flatten(Groups(tail))|;
        assert Events(stream)[..n + k] == Events(stream)[..n] + Events(stream)[n..][..k];
        if n + k < |stream| {
          assert stream[n + k] == tail[k];
        }
    }
  }

  /** Every group's range lies in the document when every event's does. */
  lemma {:induction false} GroupsWithin(source: string, stream: seq<OffsetEvent>)
    requires InBounds(source, stream)
    ensures AllWithin(Groups(stream), |source|)
    decreases |stream|
  {
    match NextGroup(stream) {
      case None =>
      case Some(g) =>
        var n := |g.events|;
        NextGroupShape(stream);
        SpanWithin(stream[..n], |source|);
        GroupsWithin(source, stream[n..]);
        assert Groups(stream) == [g] + Groups(stream[n..]);
    }
  }

  predicate AllWithin(groups: seq<TopLevelGroup>, length: nat) {
    forall i :: 0 <= i < |groups| ==> RangeWithin(groups[i].range, length)
  }

  lemma PulledGroupIsNextGroup(parser: seq<OffsetEvent>, n: nat)
    requires parser != [] && !IsSingletonBlock(parser[0].event)
    requires parser[0].event.Start? && IsBlockContainer(parser[0].event.container)
    requires IsGroupLength(parser[0].event.container, Events(parser), n)
    ensures NextGroup(parser) == Some(TopLevelGroup(Events(parser)[..n], SpanOf(parser[..n])))
  {
    var c := parser[0].event.container;
    GroupLengthUnique(c, Events(parser), n, GroupLength(c, Events(parser)));
  }

  /** One more event of the pull loop: the prefix, its span and its counter each take that event in. */
  lemma PullStep(parser: seq<OffsetEvent>, opener: Container, i: nat)
    requires 1 <= i < |parser|
    ensures Events(parser)[..i + 1] == Events(parser)[..i] + [parser[i].event]
    ensures SpanOf(parser[..i + 1]) == UnionRange(SpanOf(parser[..i]), parser[i].range)
    ensures Nesting(opener, Events(parser)[..i + 1]) == Nesting(opener, Events(parser)[..i]) + Delta(opener, parser[i].event)
  {
    assert parser[..i + 1][..i] == parser[..i];
    NestingStep(opener, Events(parser), i);
  }

  /**
   * `pull_next_top_level_block`: take the next top-level group off the
   * parser. `rest` is what the parser has left afterwards (the event that
   * yields `None` is consumed too).
   */
  method PullNextTopLevelBlock(parser: seq<OffsetEvent>) returns (block: Option<TopLevelGroup>, rest: seq<OffsetEvent>)
    ensures block == NextGroup(parser)
    ensures block.Some? ==> rest == parser[|block.value.events|..]
    ensures block.None? ==> rest == if parser == [] then [] else parser[1..]
  {
    if parser == [] {
      return None, [];
    }
    var first := parser[0];
    if IsSingletonBlock(first.event) {
      return Some(TopLevelGroup([first.event], first.range)), parser[1..];
    }
    if !(first.event.Start? && IsBlockContainer(first.event.container)) {
      return None, parser[1..];
    }
    var startContainer := first.event.container;
    ghost var events := Events(parser);
    var nestingCounter: nat := 1;
    var tokens := [first.event];
    var totalRange := first.range;
    var i := 1;
    NestingStep(startContainer, events, 0);
    assert events[..0] == [] && events[..1] == tokens;
    while i < |parser|
      invariant 1 <= i <= |parser|
      invariant tokens == events[..i]
      invariant totalRange == SpanOf(parser[..i])
      invariant nestingCounter == Nesting(startContainer, tokens) && nestingCounter > 0
      invariant PositiveBefore(startContainer, events, i)
    {
      var next := parser[i];
      PullStep(parser, startContainer, i);
      PositiveBeforeStep(startContainer, events, i);
      if next.event.Start? && next.event.container == startContainer {
        nestingCounter := nestingCounter + 1;
      } else if next.event.End? && next.event.container == startContainer {
        nestingCounter := nestingCounter - 1;
      }
      tokens := tokens + [next.event];
      totalRange := UnionRange(totalRange, next.range);
      i := i + 1;
      if nestingCounter == 0 {
        break;
      }
    }
    PulledGroupIsNextGroup(parser, i);
    block := Some(TopLevelGroup(tokens, totalRange));
    rest := parser[i..];
  }

  // ---------------------------------------------------------------------
  // Classification into source blocks

  predicate OpensRustBlock(group: TopLevelGroup) {
    |group.events| > 0 && group.events[0].Start? && group.events[0].container == RustCodeBlock
  }

  predicate ClosesRustBlock(group: TopLevelGroup) {
    |group.events| > 0 && group.events[|group.events| - 1] == End(RustCodeBlock)
  }

  /** Every event strictly between the first and the last is text. */
  predicate HoldsOnlyText(group: TopLevelGroup) {
    forall i :: 1 <= i < |group.events| - 1 ==> group.events[i].Str?
  }

  /**
   * Classifying `groups` in order reaches the `unreachable!()` arm: a
   * well-closed Rust code block holding a non-text event, before any group
   * that fails with `InvalidDjotBlock`.
   */
  predicate ReachesUnreachable(groups: seq<TopLevelGroup>) {
    groups != [] &&
    if OpensRustBlock(groups[0]) then
      ClosesRustBlock(groups[0]) && (!HoldsOnlyText(groups[0]) || ReachesUnreachable(groups[1..]))
    else
      ReachesUnreachable(groups[1..])
  }

  /** Every group that opens a Rust code block also closes it. */
  predicate RustBlocksClosed(groups: seq<TopLevelGroup>) {
    forall i :: 0 <= i < |groups| && OpensRustBlock(groups[i]) ==> ClosesRustBlock(groups[i])
  }

  /** The lines of a Rust code block: its inner text events, trailing whitespace trimmed. */
  function VerbatimLines(events: seq<Event>): seq<string>
    requires |events| >= 2
    requires forall i :: 1 <= i < |events| - 1 ==> events[i].Str?
  {
    seq(|events| - 2, i requires 0 <= i < |events| - 2 => TrimEnd(events[i + 1].text))
  }

  /** The lines of a prose block: `text.lines()`, trailing whitespace trimmed. */
  function LiterateLines(text: string): seq<string> {
    var lines := Lines(text);
    seq(|lines|, i requires 0 <= i < |lines| => TrimEnd(lines[i]))
  }

  /** No line ends in whitespace. */
  predicate EndsTrimmed(lines: seq<string>) {
    forall i :: 0 <= i < |lines| ==> lines[i] == [] || !IsWhitespace(lines[i][|lines[i]| - 1])
  }

  /** The block one top-level group becomes. */
  function Classify(source: string, group: TopLevelGroup): (r: Result<SourceToplevelBlock, AnalysisError>)
    requires RangeWithin(group.range, |source|)
    requires OpensRustBlock(group) && ClosesRustBlock(group) ==> HoldsOnlyText(group)
    ensures r.Err? <==> OpensRustBlock(group) && !ClosesRustBlock(group)
    ensures r.Err? ==> r.error == InvalidDjotBlock
    ensures r.Ok? && OpensRustBlock(group) ==>
      r.value.VerbatimBlock? && r.value.codeLang == Rust &&
      |r.value.lines| == |group.events| - 2 &&
      forall i :: 0 <= i < |r.value.lines| ==> r.value.lines[i] == TrimEnd(group.events[i + 1].text)
    ensures r.Ok? && !OpensRustBlock(group) ==>
      var lines := Lines(source[group.range.start..group.range.end]);
      r.value.LiterateBlock? && |r.value.lines| == |lines| &&
      forall i :: 0 <= i < |lines| ==> r.value.lines[i] == TrimEnd(lines[i])
    ensures r.Ok? ==> EndsTrimmed(r.value.lines)
  {
    if OpensRustBlock(group) then
      if ClosesRustBlock(group) then Ok(VerbatimBlock(Rust, VerbatimLines(group.events)))
      else Err(InvalidDjotBlock)
    else
      Ok(LiterateBlock(LiterateLines(source[group.range.start..group.range.end])))
  }

  /** Classify the groups in order, stopping at the first error. */
  function ClassifyAll(source: string, groups: seq<TopLevelGroup>): (r: Result<seq<SourceToplevelBlock>, AnalysisError>)
    requires AllWithin(groups, |source|)
    requires !ReachesUnreachable(groups)
    ensures r.Ok? <==> RustBlocksClosed(groups)
    ensures r.Err? ==> r.error == InvalidDjotBlock
    ensures r.Ok? ==> forall i :: 0 <= i < |groups| && OpensRustBlock(groups[i]) ==> HoldsOnlyText(groups[i])
    ensures r.Ok? ==> |r.value| == |groups|
    ensures r.Ok? ==> forall i :: 0 <= i < |groups| ==> Classify(source, groups[i]) == Ok(r.value[i])
    decreases |groups|
  {
    if groups == [] then Ok([])
    else
      match Classify(source, groups[0])
      case Err(e) => Err(e)
      case Ok(b) =>
        match ClassifyAll(source, groups[1..])
        case Err(e) => Err(e)
        case Ok(bs) =>
          assert forall i :: 1 <= i < |groups| ==> groups[i] == groups[1..][i - 1];
          Ok([b] + bs)
  }

  /**
   * What `analyze_source_blocks` returns for a document and its events:
   * the classified groups between a Preamble and a Postamble, or the first
   * classification error.
   */
  function AnalyzedSource(source: string, stream: seq<OffsetEvent>): (r: Result<seq<SourceToplevelBlock>, AnalysisError>)
    requires InBounds(source, stream)
    requires !ReachesUnreachable(Groups(stream))
    ensures r.Ok? <==> RustBlocksClosed(Groups(stream))
    ensures r.Err? ==> r.error == InvalidDjotBlock
    ensures r.Ok? ==> WellFormedSource(r.value) && |r.value| == |Groups(stream)| + 2
    ensures r.Ok? ==> r.value[0] == SourceToplevelBlock.Preamble(Djot)
    ensures r.Ok? ==> AllWithin(Groups(stream), |source|)
    ensures r.Ok? ==> forall i :: 0 <= i < |Groups(stream)| && OpensRustBlock(Groups(stream)[i]) ==>
      HoldsOnlyText(Groups(stream)[i])
    ensures r.Ok? ==> forall i :: 0 <= i < |Groups(stream)| ==>
      Classify(source, Groups(stream)[i]) == Ok(r.value[i + 1])
  {
    GroupsWithin(source, stream);
    match ClassifyAll(source, Groups(stream))
    case Err(e) => Err(e)
    case Ok(bs) =>
      var r := [SourceToplevelBlock.Preamble(Djot)] + bs + [SourceToplevelBlock.Postamble];
      assert forall i :: 0 <= i < |bs| ==> r[i + 1] == bs[i];
      Ok(r)
  }

  /** The inner text events of a closed Rust code block, as lines. */
  method CodeBlockLines(events: seq<Event>) returns (lines: seq<string>)
    requires |events| >= 2
    requires forall i :: 1 <= i < |events| - 1 ==> events[i].Str?
    ensures lines == VerbatimLines(events)
  {
    lines := [];
    var i := 1;
    while i < |events| - 1
      invariant 1 <= i <= |events| - 1
      invariant |lines| == i - 1
      invariant forall j :: 0 <= j < i - 1 ==> lines[j] == TrimEnd(events[j + 1].text)
    {
      lines := lines + [TrimEnd(events[i].text)];
      i := i + 1;
    }
  }

  /**
   * What `analyze_source_blocks` returns once the blocks in `done` have been
   * collected and `rest` is still to be read.
   */
  function Completed(source: string, done: seq<SourceToplevelBlock>, rest: seq<OffsetEvent>): Result<seq<SourceToplevelBlock>, AnalysisError>
    requires InBounds(source, rest)
    requires !ReachesUnreachable(Groups(rest))
  {
    GroupsWithin(source, rest);
    match ClassifyAll(source, Groups(rest))
    case Err(e) => Err(e)
    case Ok(bs) => Ok(done + bs + [SourceToplevelBlock.Postamble])
  }

  /** Reading one more group either fails or appends the block it becomes. */
  lemma CompletedStep(source: string, done: seq<SourceToplevelBlock>, rest: seq<OffsetEvent>)
    requires InBounds(source, rest)
    requires !ReachesUnreachable(Groups(rest))
    requires NextGroup(rest).Some?
    ensures var g := NextGroup(rest).value; var rest' := rest[|g.events|..];
      InBounds(source, rest') && RangeWithin(g.range, |source|) &&
      (OpensRustBlock(g) && ClosesRustBlock(g) ==> HoldsOnlyText(g)) &&
      (OpensRustBlock(g) && !ClosesRustBlock(g) ==> Completed(source, done, rest) == Err(InvalidDjotBlock)) &&
      (!(OpensRustBlock(g) && !ClosesRustBlock(g)) ==>
        !ReachesUnreachable(Groups(rest')) &&
        Completed(source, done, rest) == Completed(source, done + [Classify(source, g).value], rest'))
  {
    var g := NextGroup(rest).value;
    var rest' := rest[|g.events|..];
    var gs := Groups(rest);
    assert gs == [g] + Groups(rest');
    assert gs[1..] == Groups(rest');
    GroupsWithin(source, rest);
    assert RangeWithin(gs[0].range, |source|);
    match Classify(source, g) {
      case Err(_) =>
      case Ok(b) =>
        match ClassifyAll(source, Groups(rest')) {
          case Err(_) =>
          case Ok(bs) =>
            assert done + [b] + bs == done + ([b] + bs);
        }
    }
  }

  /** The whole result is what remains to be done from the Preamble on. */
  lemma AnalyzedSourceCompleted(source: string, stream: seq<OffsetEvent>)
    requires InBounds(source, stream)
    requires !ReachesUnreachable(Groups(stream))
    ensures AnalyzedSource(source, stream) == Completed(source, [SourceToplevelBlock.Preamble(Djot)], stream)
  {
  }

  /**
   * `analyze_source_blocks`: group the parser's events and classify each
   * group; a Rust code block that is not closed by its own End is an error.
   */
  method AnalyzeSourceBlocks(source: string, parser: seq<OffsetEvent>) returns (r: Result<seq<SourceToplevelBlock>, AnalysisError>)
    requires InBounds(source, parser)
    requires !ReachesUnreachable(Groups(parser))
    ensures r == AnalyzedSource(source, parser)
  {
    var sourceLineGroups := [SourceToplevelBlock.Preamble(Djot)];
    var rest := parser;
    AnalyzedSourceCompleted(source, parser);
    while true
      invariant InBounds(source, rest) && !ReachesUnreachable(Groups(rest))
      invariant AnalyzedSource(source, parser) == Completed(source, sourceLineGroups, rest)
      decreases |rest|
    {
      var block, rest' := PullNextTopLevelBlock(rest);
      if block.None? {
        assert Groups(rest) == [];
        assert sourceLineGroups + [] == sourceLineGroups;
        break;
      }
      var group := block.value;
      CompletedStep(source, sourceLineGroups, rest);
      if OpensRustBlock(group) {
        if !ClosesRustBlock(group) {
          return Err(InvalidDjotBlock);
        }
        var lines := CodeBlockLines(group.events);
        sourceLineGroups := sourceLineGroups + [VerbatimBlock(Rust, lines)];
      } else {
        var blockSource := source[group.range.start..group.range.end];
        sourceLineGroups := sourceLineGroups + [LiterateBlock(LiterateLines(blockSource))];
      }
      rest := rest';
    }
    r := Ok(sourceLineGroups + [SourceToplevelBlock.Postamble]);
  }

  // ---------------------------------------------------------------------
  // Conversion into line groups

  /** A prose line turned into a Rust line comment. */
  function Commented(line: string): (r: string)
    ensures |r| == |line| + 3 && r[..3] == "// " && r[3..] == line
  {
    "// " + line
  }

  /** The line group one source block becomes. */
  function ConvertBlock(block: SourceToplevelBlock): (g: GeneratedLineGroup)
    ensures g.Preamble? <==> block.Preamble?
    ensures g.Postamble? <==> block.Postamble?
    ensures g.Postamble? ==> g.sourceLang == Djot
    ensures block.VerbatimBlock? ==> g == CodeLineGroup(block.lines)
    ensures block.LiterateBlock? ==>
      g.CodeLineGroup? && |g.lines| == |block.lines| &&
      forall i :: 0 <= i < |g.lines| ==>
        |g.lines[i]| == |block.lines[i]| + 3 && g.lines[i][..3] == "// " && g.lines[i][3..] == block.lines[i]
  {
    match block
    case Preamble(_) => GeneratedLineGroup.Preamble
    case VerbatimBlock(_, lines) => CodeLineGroup(lines)
    case LiterateBlock(lines) => CodeLineGroup(seq(|lines|, i requires 0 <= i < |lines| => Commented(lines[i])))
    case Postamble => GeneratedLineGroup.Postamble(Djot)
  }

  function Converted(blocks: seq<SourceToplevelBlock>): seq<GeneratedLineGroup> {
    seq(|blocks|, i requires 0 <= i < |blocks| => ConvertBlock(blocks[i]))
  }

  /** Conversion keeps the document's shape: one line group per block. */
  lemma ConvertedWellFormed(blocks: seq<SourceToplevelBlock>)
    requires WellFormedSource(blocks)
    ensures |Converted(blocks)| == |blocks| && WellFormedGenerated(Converted(blocks))
  {
    var gs := Converted(blocks);
    forall i | 0 < i < |gs| - 1
      ensures gs[i].CodeLineGroup?
    {
      assert blocks[i].VerbatimBlock? || blocks[i].LiterateBlock?;
    }
  }

  /** `convert_source_blocks`: never fails; maps each block to its line group. */
  method ConvertSourceBlocks(blocks: seq<SourceToplevelBlock>) returns (r: Result<seq<GeneratedLineGroup>, ConversionError>)
    ensures r == Ok(Converted(blocks))
  {
    var generated := [];
    for i := 0 to |blocks|
      invariant generated == Converted(blocks[..i])
    {
      var g;
      match blocks[i] {
        case Preamble(_) =>
          g := GeneratedLineGroup.Preamble;
        case VerbatimBlock(_, lines) =>
          g := CodeLineGroup(lines);
        case LiterateBlock(lines) =>
          var commented := [];
          for j := 0 to |lines|
            invariant commented == seq(j, k requires 0 <= k < j => Commented(lines[k]))
          {
            commented := commented + [Commented(lines[j])];
          }
          g := CodeLineGroup(commented);
        case Postamble =>
          g := GeneratedLineGroup.Postamble(Djot);
      }
      assert g == ConvertBlock(blocks[i]);
      assert blocks[..i + 1] == blocks[..i] + [blocks[i]];
      generated := generated + [g];
    }
    assert blocks[..|blocks|] == blocks;
    r := Ok(generated);
  }

  // ---------------------------------------------------------------------
  // Output

  /** Every group is a Preamble, so nothing has been written for them. */
  predicate AllPreambles(groups: seq<GeneratedLineGroup>) {
    forall i :: 0 <= i < |groups| ==> groups[i].Preamble?
  }

  /**
   * The lines tangle writes for `groups`; `first` says no group has been
   * written yet, so the next written group gets no blank separator line.
   */
  function TangledLines(groups: seq<GeneratedLineGroup>, first: bool): seq<string>
    decreases |groups|
  {
    if groups == [] then []
    else
      var separator := if first then [] else [""];
      match groups[0]
      case Preamble => TangledLines(groups[1..], first)
      case CodeLineGroup(lines) => separator + lines + TangledLines(groups[1..], false)
      case Postamble(_) => separator + [GeneratedSignature] + TangledLines(groups[1..], false)
  }

  /** What one group writes: nothing for a Preamble, else a separator unless first, then its lines. */
  function GroupWritten(group: GeneratedLineGroup, first: bool): seq<string> {
    match group
    case Preamble => []
    case CodeLineGroup(lines) => (if first then [] else [""]) + lines
    case Postamble(_) => (if first then [] else [""]) + [GeneratedSignature]
  }

  /** The first group writes its part, and the rest follow with the flag it leaves. */
  lemma TangledCons(groups: seq<GeneratedLineGroup>, first: bool)
    requires groups != []
    ensures TangledLines(groups, first) ==
      GroupWritten(groups[0], first) + TangledLines(groups[1..], first && groups[0].Preamble?)
  {
  }

  /**
   * Writing `a` then `b` writes `b` as if alone, with a separator before its
   * first written group exactly when `a` holds a code group or Postamble,
   * even one with no lines.
   */
  lemma {:induction false} TangledLinesAppend(a: seq<GeneratedLineGroup>, b: seq<GeneratedLineGroup>, first: bool)
    ensures TangledLines(a + b, first) == TangledLines(a, first) + TangledLines(b, first && AllPreambles(a))
    decreases |a|
  {
    if a == [] {
      assert a + b == b;
    } else {
      var ab := a + b;
      assert ab[0] == a[0];
      assert ab[1..] == a[1..] + b;
      var first' := first && a[0].Preamble?;
      TangledCons(ab, first);
      TangledCons(a, first);
      TangledLinesAppend(a[1..], b, first');
      assert AllPreambles(a) == (a[0].Preamble? && AllPreambles(a[1..]));
      var w := GroupWritten(a[0], first);
      var u := TangledLines(a[1..], first');
      var v := TangledLines(b, first' && AllPreambles(a[1..]));
      assert TangledLines(ab, first) == w + (u + v);
      ConcatAssociative(w, u, v);
    }
  }

  /** A sequence that ends in a Postamble produces output whose last line is the trailer. */
  lemma TangledEndsWithSignature(groups: seq<GeneratedLineGroup>)
    requires groups != [] && groups[|groups| - 1].Postamble?
    ensures var out := TangledLines(groups, true);
      out != [] && out[|out| - 1] == GeneratedSignature
  {
    var n := |groups|;
    assert groups == groups[..n - 1] + [groups[n - 1]];
    TangledLinesAppend(groups[..n - 1], [groups[n - 1]], true);
  }

  /** A worked example: one prose line, then one line of Rust. */
  lemma TangledExample()
    ensures TangledLines([GeneratedLineGroup.Preamble, CodeLineGroup(["// Hello"]),
                          CodeLineGroup(["fn main() {}"]), GeneratedLineGroup.Postamble(Djot)], true)
         == ["// Hello", "", "fn main() {}", "", GeneratedSignature]
  {
  }

  /** One more group of the loop: what it writes is appended, and the first-group flag follows. */
  lemma TangledStep(before: seq<string>, generated: seq<GeneratedLineGroup>, i: nat)
    requires i < |generated|
    ensures before + TangledLines(generated[..i + 1], true) ==
      (before + TangledLines(generated[..i], true)) + GroupWritten(generated[i], AllPreambles(generated[..i]))
    ensures AllPreambles(generated[..i + 1]) == (AllPreambles(generated[..i]) && generated[i].Preamble?)
  {
    var done := generated[..i];
    var group := generated[i];
    assert generated[..i + 1] == done + [group];
    var u := TangledLines(done, true);
    var w := GroupWritten(group, AllPreambles(done));
    TangledLinesAppend(done, [group], true);
    TangledCons([group], AllPreambles(done));
    assert [group][1..] == [];
    assert TangledLines(done + [group], true) == u + w;
    ConcatAssociative(before, u, w);
  }

  /** The body of `generate_output`'s loop: write one group, a blank line first unless it is the first. */
  method WriteGroup(writer: Writer, group: GeneratedLineGroup, firstGroup: bool) returns (stillFirst: bool)
    modifies writer
    ensures stillFirst == (firstGroup && group.Preamble?)
    ensures writer.lines == old(writer.lines) + GroupWritten(group, firstGroup)
  {
    match group {
      case Preamble =>
        stillFirst := firstGroup;
        assert writer.lines == old(writer.lines) + [];
      case CodeLineGroup(lines) =>
        writer.WriteSeparator(firstGroup);
        stillFirst := false;
        writer.WriteLines(lines);
      case Postamble(_) =>
        writer.WriteSeparator(firstGroup);
        stillFirst := false;
        writer.WriteLine(GeneratedSignature);
    }
  }

  /** `generate_output`: write every line group, blank lines between them, trailer last. */
  method GenerateOutput(writer: Writer, generated: seq<GeneratedLineGroup>)
    modifies writer
    ensures writer.lines == old(writer.lines) + TangledLines(generated, true)
  {
    var firstGroup := true;
    for i := 0 to |generated|
      invariant firstGroup == AllPreambles(generated[..i])
      invariant writer.lines == old(writer.lines) + TangledLines(generated[..i], true)
    {
      TangledStep(old(writer.lines), generated, i);
      firstGroup := WriteGroup(writer, generated[i], firstGroup);
    }
    assert generated[..|generated|] == generated;
  }
}

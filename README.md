# litweb-rs in Dafny

litweb-rs converts a literate Djot document (`name.lit.djot`) into a
generated Rust module (`name.rs`): it *tangles* the document. It also
converts a generated module back into a Djot document: it *untangles* it.

- **Tangle.** The document is parsed into events. The top-level events are
  grouped into blocks. A fenced `rust` code block becomes code. Every other
  block becomes prose, and each prose line is written as a `// ` comment.
  Blank lines separate the groups, and the trailer line
  `// [LITWEB djot->rust]` ends the generated file.
- **Untangle.** The trailer is found at the end of the file and removed.
  Everything before it becomes one code block, written inside a backtick
  fence that is longer than any all-backtick line of the code.
- **Orchestration.** The command works out each file's role and the default
  output path from the file name. It refuses to run when the output is not
  older than the input, unless the run is forced. After writing, it stamps
  the output with the input's modification time.

The Dafny modules follow the source files:

| module | file | models |
|---|---|---|
| `TangleAndUntangle` | `tangle_and_untangle.dfy` | `src/tangle_and_untangle.rs`: the block and line-group types, the languages, the trailer, the errors |
| `Tangle` | `tangle.dfy` | `src/tangle.rs`: grouping parser events, classifying groups, converting, writing |
| `Untangle` | `untangle.dfy` | `src/untangle.rs`: finding the trailer, converting back, choosing fences, writing |
| `Lib` | `lib.dfy` | `src/lib.rs`: path roles and destinations, the freshness rule, dispatch |
| `Strings` | `strings.dfy` | the parts of Rust's `str` the code relies on: `trim_end`, `trim`, `lines` |
| `Io` | `io.dfy` | a writer seen as the lines written to it, and the text those lines make |
| `RoundTrip` | `round_trip.dfy` | how the two directions fit together |

Loops in the source are methods. Each method is proved equal to a recursive
specification function (`PullNextTopLevelBlock` equals `NextGroup`,
`AnalyzeSourceBlocks` equals `AnalyzedSource`, `CalcDjotFences` equals
`FenceLength`, and so on). Lemmas state the properties of those functions.

A writer is the class `Io.Writer`, whose `lines` field grows by one line per
`writeln!`. A Rust `&mut Vec` is modelled by returning the new contents. The
Djot parser is modelled as the sequence of events it has not yet yielded.

## Model

| member | source | states |
|---|---|---|
| TangleAndUntangle.SignatureIsLineComment | src/tangle_and_untangle.rs:28 | the trailer is non-empty and starts with `//`, so it is a Rust line comment |
| TangleAndUntangle.SignatureIsTrimmed | src/tangle_and_untangle.rs:28 | the trailer has no surrounding whitespace, so `trim` and `trim_end` leave it unchanged; it is a single line |
| TangleAndUntangle.SingleLanguages | src/tangle_and_untangle.rs:23-33 | each language enum has only one value, so every `assert!(matches!(..))` on a language holds |
| Strings.TrimEnd | src/tangle.rs:90 | the result is a prefix of the input that does not end in whitespace, and every removed character is whitespace |
| Strings.TrimStart | src/untangle.rs:111 | the result is a suffix of the input that does not start with whitespace, and every removed character is whitespace |
| Strings.TrimOfTrimmed | src/untangle.rs:111 | trimming a string with no whitespace at either end gives the string back |
| Strings.TrimmedLineIsSingleLine | src/tangle.rs:105 | a line with no `\n` and no trailing whitespace is read back as itself |
| Strings.LineEnd | src/untangle.rs:94 | gives the position of the first `\n`, or the text's length when there is none |
| Strings.Lines | src/untangle.rs:95 | the empty text has no lines and any other text has at least one; no line holds a `\n` (with `Io.LinesOfText`, writing lines and reading them back gives them unchanged) |
| Io.Writer.WriteLine | src/tangle.rs:14 | `writeln!` appends exactly one line to what has been written |
| Io.Writer.WriteLines | src/tangle.rs:13-15 | writing a group's lines in order appends exactly those lines |
| Io.Writer.WriteSeparator | src/tangle.rs:10-12 | writes one empty line exactly when the first-group flag is false, that is when a code group or Postamble (in untangle, a code or prose block) came before, even one with no lines; otherwise it writes nothing |
| Io.LinesOfText | src/untangle.rs:93-94 | splitting the written text into lines gives back the written lines, provided none holds `\n` or ends in `\r` |
| Tangle.UnionRange | src/tangle.rs:207-211 | the union starts at the smaller start and ends at the larger end; both bounds are attained |
| Tangle.SpanOfCovers | src/tangle.rs:137 | a group's range contains every member's range, and its start and end are a member's start and end |
| Tangle.SpanWithin | src/tangle.rs:101 | when every member's range lies in the document, so does the group's range, so slicing the source is in bounds |
| Tangle.ScanGroup | src/tangle.rs:126-141 | scanning from a positive counter finds the group length: the counter stays positive on every shorter prefix and is 0 at the end, unless the events run out |
| Tangle.GroupLength | src/tangle.rs:122-142 | the group opened by a block container's Start ends right after the event that brings the counter to 0, or at the end of the stream; the counter never goes below 0 |
| Tangle.GroupLengthUnique | src/tangle.rs:138-140 | only one length satisfies the stopping rule |
| Tangle.NextGroup | src/tangle.rs:115-146 | there is no group exactly when the stream is empty or its first event is neither a singleton nor a block container's Start; a group is never longer than the stream |
| Tangle.NextGroupShape | src/tangle.rs:119-142 | the group is a prefix of the events with the span of that prefix; a singleton is a group of one; a container group has the length the counter rule gives |
| Tangle.IsSingletonBlock | src/tangle.rs:148-168 | an event is not a group by itself exactly when it is a container start or end, text, or one of the inline events |
| Tangle.IsBlockContainer | src/tangle.rs:170-205 | the nineteen block kinds are block containers and exactly the thirteen inline kinds (span, link, image, verbatim, math, raw inline, sub/superscript, insert, delete, strong, emphasis, mark) are not |
| Tangle.SingletonGroup | src/tangle.rs:148-168 | a blank line or a thematic break forms a group by itself, with its own range |
| Tangle.SameKindNested | src/tangle.rs:128-133 | a Blockquote inside a Blockquote raises the counter, so the group runs to the outer End and the following blank line is left out |
| Tangle.OtherKindNested | src/tangle.rs:128-134 | a Paragraph inside a Div leaves the Div's counter alone, so the group runs to the Div's End |
| Tangle.GroupsCoverPrefix | src/tangle.rs:72-74 | the groups laid end to end are exactly a prefix of the events; grouping stops only at the end or at an event that cannot start a group, and later events are never grouped |
| Tangle.GroupsWithin | src/tangle.rs:101 | every group's range lies in the document when every event's range does |
| Tangle.PulledGroupIsNextGroup | src/tangle.rs:142 | a prefix that meets the counter rule is the group the pull yields |
| Tangle.PullNextTopLevelBlock | src/tangle.rs:115-146 | the loop yields exactly `NextGroup` of the parser's events; the parser is left after the group, or after the one event that ends grouping |
| Tangle.Classify | src/tangle.rs:75-108 | a `rust` code block that is not closed by its own End is `InvalidDjotBlock`; a closed one holds its inner text events, trimmed at the end, in order; any other group holds the trimmed `lines()` of its source range |
| Tangle.ClassifyAll | src/tangle.rs:74-110 | classifying stops at the first error; it succeeds exactly when every `rust` block is closed, and then gives one block per group, in order |
| Tangle.AnalyzedSource | src/tangle.rs:61-113 | on success the result is a Preamble, one Verbatim or Literate block per group in group order, and a Postamble; otherwise `InvalidDjotBlock` |
| Tangle.CodeBlockLines | src/tangle.rs:84-94 | the inner events of a closed code block become its lines, trimmed at the end, in order |
| Tangle.CompletedStep | src/tangle.rs:74-110 | reading one more group either fails with `InvalidDjotBlock` or appends the block that the group becomes |
| Tangle.AnalyzedSourceCompleted | src/tangle.rs:68-71 | the analysis starts from a document holding only the Preamble |
| Tangle.AnalyzeSourceBlocks | src/tangle.rs:61-113 | the loop over pulled groups returns exactly `AnalyzedSource` of the document and its events |
| Tangle.Commented | src/tangle.rs:47 | a prose line becomes `// ` followed by the line, three characters longer |
| Tangle.ConvertBlock | src/tangle.rs:34-56 | Preamble and Postamble map to their counterparts; code lines are kept unchanged; each prose line is prefixed by `// ` and the line count is kept |
| Tangle.ConvertedWellFormed | src/tangle.rs:29-59 | conversion keeps the length and the Preamble, code, Postamble shape |
| Tangle.ConvertSourceBlocks | src/tangle.rs:29-59 | the loop never fails and maps every block, in order, to its line group |
| Tangle.TangledLinesAppend | src/tangle.rs:5-25 | Preambles write nothing and leave the first-group flag set; every code group or Postamble after the first such group is preceded by one empty line, even when the earlier one had no lines |
| Tangle.TangledCons | src/tangle.rs:6-24 | the first group writes its own part; the rest are written with the first-group flag still set only if that group was a Preamble |
| Tangle.TangledStep | src/tangle.rs:6-25 | one pass of the loop appends exactly what that group writes, and the flag stays set only while every group so far is a Preamble |
| Tangle.WriteGroup | src/tangle.rs:7-24 | a Preamble writes nothing; a code group writes a separator unless it is first, then its lines; a Postamble writes a separator unless it is first, then the trailer |
| Tangle.TangledEndsWithSignature | src/tangle.rs:17-22 | when the groups end in a Postamble, the last line written is the trailer |
| Tangle.TangledExample | src/tangle.rs:1-27 | one prose line and one code line are written as the prose, a blank line, the code, a blank line, then the trailer |
| Tangle.GenerateOutput | src/tangle.rs:1-27 | the writer receives exactly the tangled lines of the groups |
| Untangle.WithoutTrailingEmptyLinesShape | src/untangle.rs:120-127 | what is left is a prefix of the lines; every removed line was empty; what is left is empty or ends in a non-empty line |
| Untangle.WithoutTrailingEmptyLinesIdempotent | src/untangle.rs:120-127 | dropping trailing empty lines again changes nothing |
| Untangle.WithoutTrailingEmptyLinesKeeps | src/untangle.rs:120-127 | lines ending in a non-empty line, followed by any number of empty lines, lose exactly those empty lines |
| Untangle.SignatureNeverDropped | src/untangle.rs:120-127 | a trailer line at the end is never removed |
| Untangle.DropTrailingEmptyLines | src/untangle.rs:120-127 | the loop pops empty last lines until the last line is non-empty or none are left |
| Untangle.TakenPostambleFinds | src/untangle.rs:108-118 | a line that trims to the trailer, followed only by empty lines, becomes the Postamble, and exactly the lines before it are kept |
| Untangle.TakenPostambleSound | src/untangle.rs:108-118 | whatever is found is such a line: the kept lines are a prefix, the next line trims to the trailer, and only empty lines follow |
| Untangle.TakePostamble | src/untangle.rs:108-118 | the in-place pops give exactly `TakenPostamble` of the lines |
| Untangle.AnalyzedLineGroups | src/untangle.rs:91-106 | success gives exactly three groups: a Preamble, one code group and a Postamble; failure is `NoValidPostamble` |
| Untangle.AnalyzeLineGroups | src/untangle.rs:91-106 | the method returns exactly `AnalyzedLineGroups` of the file's text |
| Untangle.VerbatimBlocks | src/untangle.rs:74-86 | middle groups convert exactly when all are code groups, each to a Verbatim block with the same lines, in order; otherwise `UnexpectedGeneratedLineGroup` |
| Untangle.ConvertedLineGroupsShape | src/untangle.rs:58-89 | conversion succeeds exactly on Preamble, code groups, Postamble; `NoValidPreamble` exactly when the first group is missing or not a Preamble; `NoValidPostamble` exactly when it is a Preamble but stands alone or the last group is not a Postamble; `UnexpectedGeneratedLineGroup` exactly when both ends are right and a middle group is not code; success keeps the length and the lines of every middle group |
| Untangle.VerbatimBlocksPrefixError | src/untangle.rs:82-84 | a non-code group met early fails the whole conversion with `UnexpectedGeneratedLineGroup` |
| Untangle.ConvertLineGroups | src/untangle.rs:58-89 | the pops and the loop return exactly `ConvertedLineGroups` |
| Untangle.FenceLength | src/untangle.rs:38-47 | the fence is at least 3 long and longer than every all-backtick line; it is 3 or one more than such a line |
| Untangle.FenceLengthIsLeast | src/untangle.rs:38-47 | the fence is no longer than any bound of at least 3 that exceeds every all-backtick line, so it is `max(3, 1 + longest all-backtick line)` |
| Untangle.Backticks | src/untangle.rs:48 | gives a string of `n` backticks |
| Untangle.ClosingFenceUnique | src/untangle.rs:48-55 | no line of a code block equals its closing fence |
| Untangle.CalcDjotFences | src/untangle.rs:37-56 | the loop gives the closing fence of `FenceLength` backticks, and the opening fence is that fence followed by ` rust` |
| Untangle.UntangledLinesAppend | src/untangle.rs:5-34 | Preamble and Postamble write nothing and leave the first-block flag set; every code or prose block after the first such block is preceded by one empty line, even when the earlier one had no lines |
| Untangle.UntangledCons | src/untangle.rs:6-33 | the first block writes its own part; the rest are written with the first-block flag still set only if that block was a Preamble or Postamble |
| Untangle.UntangledStep | src/untangle.rs:6-33 | one pass of the loop appends exactly what that block writes, and the flag stays set only while every block so far is a Preamble or Postamble (`OnlyMarkers`) |
| Untangle.WriteVerbatim | src/untangle.rs:16-21 | a code block is written as its opening fence, its lines and its closing fence |
| Untangle.UntangledOne | src/untangle.rs:7-33 | a Preamble or Postamble writes nothing; any other block writes a blank separator unless it comes first, then its lines, with a Verbatim block's lines between its opening and closing fences |
| Untangle.WriteBlock | src/untangle.rs:7-33 | one pass of the write loop appends that block's lines, with a separator when the flag is false, and clears the flag exactly when the block is neither a Preamble nor a Postamble, whether or not it has lines |
| Untangle.GenerateOutput | src/untangle.rs:1-35 | the writer receives exactly the untangled lines of the blocks |
| Lib.FileNameStart | src/lib.rs:36 | the last path component starts after the last `/` |
| Lib.LastDot | src/lib.rs:25 | gives the position of the last `.` of the path |
| Lib.ExtensionDot | src/lib.rs:25 | the extension's dot lies inside the file name and is not its first character |
| Lib.NoExtensionEqualsOnlyEmpty | src/lib.rs:23-29 | a path with no extension satisfies `extension_eq` only for `""` |
| Lib.ExtensionShape | src/lib.rs:25 | `Path::extension` is missing exactly when there is no file name or no `.` after its first character; otherwise the path ends in `.` and the extension, which holds no `.` or `/` |
| Lib.WithExtensionReplaces | src/lib.rs:36-46 | `with_extension` keeps a path without a file name, and otherwise keeps everything before the extension's dot and appends `.ext` (nothing for `""`) |
| Lib.ExtensionEqMeans | src/lib.rs:23-29 | with `""`, `extension_eq` holds exactly for a missing or an empty extension; with any other string only of a path that ends in `.` and that string |
| Lib.AppendedExtensionDot | src/lib.rs:36 | appending `.ext` to a path with a file name makes that dot the extension's dot |
| Lib.AppendedExtension | src/lib.rs:41 | the extension of `stem.ext` is `ext`, and `with_extension` on it gives `stem` or `stem.other` |
| Lib.FileNameStartOfAppended | src/lib.rs:36 | appending text without `/` keeps the file name's start |
| Lib.LastDotOfAppended | src/lib.rs:36 | the dot before an appended plain extension is the last dot |
| Lib.LiterateName | src/lib.rs:36 | `stem.lit.djot` has extension `djot`; without it the path is `stem.lit`, whose extension is `lit` |
| Lib.PlainName | src/lib.rs:43-52 | `stem.rs` or `stem.md` has that extension, and replacing it with `lit.djot` gives `stem.lit.djot` |
| Lib.DetermineFiletypeAndDest | src/lib.rs:32-58 | exactly one side of a recognised pair is the literate document; tangle mode never involves Markdown and weave mode never involves Rust |
| Lib.LiterateRoles | src/lib.rs:36-42 | `stem.lit.djot` maps to `stem.rs` as a Rust module in tangle mode, and to `stem.md` as Markdown in weave mode |
| Lib.RustModuleRoles | src/lib.rs:43-48 | `stem.rs` maps to `stem.lit.djot` in tangle mode and is unrecognised in weave mode |
| Lib.MarkdownRoles | src/lib.rs:49-54 | `stem.md` maps to `stem.lit.djot` in weave mode and is unrecognised in tangle mode |
| Lib.BareDjotUnrecognised | src/lib.rs:36 | a `.djot` file whose stem does not end in `.lit` is unrecognised in both modes |
| Lib.NoExtensionUnrecognised | src/lib.rs:55-57 | a file without an extension is unrecognised |
| Lib.DestinationsPairUp | src/lib.rs:41-52 | the default output of `stem.lit.djot` maps back to `stem.lit.djot`, in either mode |
| Lib.EnsureInputIsNewer | src/lib.rs:60-73 | the run goes ahead exactly when the output's time is unknown, the run is forced or the input is strictly newer, and a go-ahead carries the input's modification time |
| Lib.FreshnessAfterStamp | src/lib.rs:69-72 | when the output carries the input's time, only a forced run proceeds; an input touched later always proceeds |
| Lib.OutputNotOlderStops | src/lib.rs:69-72 | an unforced run stops exactly when the output is at least as new as the input |
| Lib.TangleOrUntangle | src/lib.rs:116-131 | the only refusals are `UnrecognizedFileExt` and `InputFileIsNotNewer`; an explicit output path wins; the stamp is the input's time |
| Lib.DispatchLiterate | src/lib.rs:121-131 | `stem.lit.djot` is tangled into `stem.rs` and stamped with the input's time; it is refused exactly when unforced and `stem.rs` is not older |
| Lib.DispatchRustModule | src/lib.rs:121-134 | `stem.rs` is untangled into `stem.lit.djot` and stamped with the input's time; it is refused exactly when unforced and the document is not older |
| Lib.UnrecognisedInputs | src/lib.rs:121-123 | a `.md` file or a file without an extension is refused with `UnrecognizedFileExt` |
| Lib.RepeatedRun | src/lib.rs:129-154 | after a run stamps its output, repeating it unforced is refused with `InputFileIsNotNewer`, and a forced repeat makes the same run |
| Lib.TangleText | src/lib.rs:145-148 | the tangle pipeline succeeds exactly when every `rust` block is closed; otherwise `InvalidDjotBlock` |
| Lib.UntangleText | src/lib.rs:136-142 | the only way the untangle pipeline fails is a missing trailer (`NoValidPostamble`) |
| RoundTrip.TangledLinesAreSingle | src/tangle.rs:13-22 | tangle writes only lines that read back unchanged when its code lines do |
| RoundTrip.TangledThenAnalyzed | src/untangle.rs:91-118 | untangle reads tangle's output as one code group holding every line before the trailer, including the blank separator in front of it |
| RoundTrip.OneGroupRoundTrip | src/untangle.rs:95-118 | tangling `[Preamble, code ls, Postamble]` and reading it back gives the code group `ls + [""]` |
| RoundTrip.OneCodeGroupConverted | src/untangle.rs:58-89 | untangle's conversion turns a lone code group into a lone Rust code block with the same lines |
| RoundTrip.ConversionsInverse | src/untangle.rs:58-89 | untangle's conversion accepts every well-formed group sequence, and tangle's conversion of its result gives the groups back |
| RoundTrip.CodeOnlyDocumentsRoundTrip | src/tangle.rs:29-59 | a well-formed document of code blocks only survives tangle's conversion followed by untangle's |
| RoundTrip.OneCodeBlockUntangled | src/untangle.rs:1-35 | a code line and an empty line are written in a three-backtick `rust` fence |
| RoundTrip.OneCodeBlockRoundTrip | src/lib.rs:136-148 | tangling a one-line code block and untangling the text gives that line in a three-backtick fence, followed by one empty line |

## Left out

- File I/O is not modelled: reading the input, `File::open`, `File::create`, `fs::metadata` and `filetime::set_file_mtime`. The `Io` variants of the error enums are left out with it. Modification times are integers, and the output's time comes from a map that has no entry when metadata is unavailable.
- Writers never fail, so `GenerationError` is not modelled.
- The Djot parser is not modelled. Its output is a parameter: the events with their ranges. A container's equality-relevant fields are one string payload.
- Ranges are treated as character positions rather than byte offsets. The panic that slicing at a non-character boundary would cause is not modelled.
- Invalid UTF-8 in the generated file is not modelled. It makes `BufRead::lines` fail.
- Whitespace for `trim` and `trim_end` is the ASCII subset of Unicode's White_Space.
- Paths are strings split at `/`. Trailing separators and `.` components are not normalised as `std::path` does. `..` and an empty last component count as having no file name.
- `unreachable!()` at src/tangle.rs:92 is a panic. It appears as the precondition `!ReachesUnreachable(Groups(events))` of the tangle analysis.
- Lib.TangleOrUntangle: states the decisions of `tangle_or_untangle` only. The pipelines it then runs are `Lib.TangleText` and `Lib.UntangleText`, and the writing of the output file is not modelled.
- Weave mode has no pipeline: the `weave` and `unweave` modules are empty. Only its file-name mapping is modelled.
- Untangle.ClosingFenceUnique: states only that no code line equals the closing fence. Whether Djot would close a fence on a line of backticks followed by spaces depends on the Djot grammar, which is not modelled.
- RoundTrip.TangledLinesAreSingle: needs every code line to hold no `\n` and not end in `\r`. A `rust` code block whose text events hold line breaks is not covered.

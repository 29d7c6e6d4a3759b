/**
 * The decisions the command makes before and after converting: which role
 * a file plays and where its output goes (from the file name alone), whether
 * the input is newer than the output, and which pipeline runs.
 * Paths are strings with '/' separators; file metadata, opening, creating
 * and time-stamping files are not modelled, only the values they yield.
 */
module Lib {
  import opened TangleAndUntangle
  import opened Strings
  import opened Io
  import Tangle
  import Untangle

  type Path = string

  // ---------------------------------------------------------------------
  // Path names

  /** Where the last component of `p` begins: just after its last '/'. */
  function FileNameStart(p: Path): (k: nat)
    ensures k <= |p|
    ensures k == 0 || p[k - 1] == '/'
    ensures forall j :: k <= j < |p| ==> p[j] != '/'
    decreases |p|
  {
    if p == [] then 0
    else if p[|p| - 1] == '/' then |p|
    else FileNameStart(p[..|p| - 1])
  }

  /** The last component of `p`; `Path::file_name` has none when it is empty or `..`. */
  function FileName(p: Path): string {
    p[FileNameStart(p)..]
  }

  predicate HasFileName(p: Path) {
    FileName(p) != [] && FileName(p) != ".."
  }

  /** Index of the last '.' of `p`. */
  function LastDot(p: Path): (r: Option<nat>)
    ensures r.Some? ==> r.value < |p| && p[r.value] == '.'
    ensures r.Some? ==> forall j :: r.value < j < |p| ==> p[j] != '.'
    ensures r.None? ==> forall j :: 0 <= j < |p| ==> p[j] != '.'
    decreases |p|
  {
    if p == [] then None
    else if p[|p| - 1] == '.' then Some(|p| - 1)
    else LastDot(p[..|p| - 1])
  }

  /**
   * The dot that begins the extension: the last dot of the file name,
   * unless it is the name's first character (`.profile` has no extension).
   */
  function ExtensionDot(p: Path): (r: Option<nat>)
    ensures r.Some? ==> FileNameStart(p) < r.value < |p| && p[r.value] == '.'
  {
    var d := LastDot(p);
    if HasFileName(p) && d.Some? && d.value > FileNameStart(p) then d else None
  }

  /**
   * `Path::extension`: the text after the last '.' of the file name. There
   * is none when there is no file name or its only dots lead it.
   */
  function Extension(p: Path): Option<string> {
    match ExtensionDot(p)
    case None => None
    case Some(d) => Some(p[d + 1..])
  }

  /**
   * `Path::with_extension`: cut the path after the file stem and append
   * '.' and `ext` unless `ext` is empty; a path without a file name is kept.
   */
  function WithExtension(p: Path, ext: string): Path {
    if !HasFileName(p) then p
    else
      var stemEnd := match ExtensionDot(p) case None => |p| case Some(d) => d;
      p[..stemEnd] + (if ext == [] then [] else "." + ext)
  }

  /**
   * `ExtensionEq::extension_eq`: a path without an extension equals only the
   * empty one, so the empty one matches both a missing and an empty extension,
   * and a non-empty one matches only a path ending in '.' and it.
   */
  function ExtensionEq(p: Path, rhs: string): bool {
    match Extension(p)
    case Some(lhs) => lhs == rhs
    case None => rhs == []
  }

  /**
   * The extension is the text after the last '.' of the file name: there is
   * none when there is no file name or its only dots lead it, and otherwise
   * the path ends in '.' and the extension, which holds no '.' or '/'.
   */
  lemma ExtensionShape(p: Path)
    ensures Extension(p).None? <==> !HasFileName(p) || forall j :: FileNameStart(p) < j < |p| ==> p[j] != '.'
    ensures Extension(p).Some? ==>
      var e := Extension(p).value;
      |e| < |p| && p[|p| - |e| - 1..] == "." + e &&
      forall i :: 0 <= i < |e| ==> e[i] != '.' && e[i] != '/'
  {
    var d := ExtensionDot(p);
    if d.Some? {
      var e := p[d.value + 1..];
      assert p[|p| - |e| - 1..] == "." + e;
      forall i | 0 <= i < |e|
        ensures e[i] != '.' && e[i] != '/'
      {
        assert e[i] == p[d.value + 1 + i];
      }
    }
  }

  /**
   * Replacing the extension keeps the path up to (not including) the
   * extension's dot and appends '.' and the new one, or nothing for an empty
   * one; a path without a file name is kept whole.
   */
  lemma WithExtensionReplaces(p: Path, ext: string)
    ensures !HasFileName(p) ==> WithExtension(p, ext) == p
    ensures HasFileName(p) ==>
      var r := WithExtension(p, ext);
      var keep := |p| - (match Extension(p) case None => 0 case Some(e) => |e| + 1);
      keep <= |r| && r[..keep] == p[..keep] && r[keep..] == (if ext == [] then [] else "." + ext)
  {
  }

  /**
   * `extension_eq` with the empty string holds for a missing and for an
   * empty extension; with a non-empty one only of a path ending in '.' and it.
   */
  lemma ExtensionEqMeans(p: Path, rhs: string)
    ensures rhs == [] ==> (ExtensionEq(p, rhs) <==> Extension(p).None? || Extension(p) == Some([]))
    ensures ExtensionEq(p, rhs) && rhs != [] ==> |rhs| < |p| && p[|p| - |rhs| - 1..] == "." + rhs
  {
    ExtensionShape(p);
  }

  lemma NoExtensionEqualsOnlyEmpty(p: Path, rhs: string)
    requires Extension(p).None?
    ensures ExtensionEq(p, rhs) <==> rhs == []
  {
  }

  /** A plain extension: non-empty, without '.' or '/'. */
  predicate IsSimpleExtension(ext: string) {
    ext != [] && forall i :: 0 <= i < |ext| ==> ext[i] != '.' && ext[i] != '/'
  }

  /** Appending `.ext` keeps the file name's start, and the dot begins the extension. */
  lemma AppendedExtensionDot(stem: Path, ext: string)
    requires HasFileName(stem) && IsSimpleExtension(ext)
    ensures HasFileName(stem + "." + ext)
    ensures ExtensionDot(stem + "." + ext) == Some(|stem|)
  {
    var p := stem + "." + ext;
    FileNameStartOfAppended(stem, "." + ext);
    var k := FileNameStart(stem);
    ConcatAssociative(stem, ".", ext);
    assert p[k..] == stem[k..] + ("." + ext);
    assert p[|p| - 1] == ext[|ext| - 1];
    LastDotOfAppended(stem, ext);
  }

  /**
   * Appending `.ext` to a path with a file name gives a path whose extension
   * is `ext`, and whose extension can then be replaced or removed.
   */
  lemma AppendedExtension(stem: Path, ext: string, other: string)
    requires HasFileName(stem) && IsSimpleExtension(ext)
    ensures HasFileName(stem + "." + ext)
    ensures Extension(stem + "." + ext) == Some(ext)
    ensures WithExtension(stem + "." + ext, other) == if other == [] then stem else stem + "." + other
  {
    var p := stem + "." + ext;
    AppendedExtensionDot(stem, ext);
    assert Extension(p) == Some(ext) by {
      assert p[|stem| + 1..] == ext;
    }
    assert p[..|stem|] == stem;
    var suffix: string := if other == [] then [] else "." + other;
    assert WithExtension(p, other) == stem + suffix;
    if other == [] {
      assert stem + suffix == stem;
    } else {
      ConcatAssociative(stem, ".", other);
    }
  }

  lemma {:induction false} FileNameStartOfAppended(stem: Path, tail: string)
    requires HasFileName(stem)
    requires forall i :: 0 <= i < |tail| ==> tail[i] != '/'
    ensures FileNameStart(stem + tail) == FileNameStart(stem)
    decreases |tail|
  {
    if tail == [] {
      assert stem + tail == stem;
    } else {
      var p := stem + tail;
      assert p[..|p| - 1] == stem + tail[..|tail| - 1];
      FileNameStartOfAppended(stem, tail[..|tail| - 1]);
    }
  }

  lemma {:induction false} LastDotOfAppended(stem: Path, ext: string)
    requires IsSimpleExtension(ext)
    ensures LastDot(stem + "." + ext) == Some(|stem|)
  {
    var p := stem + "." + ext;
    assert p[|stem|] == '.';
    assert forall j :: |stem| < j < |p| ==> p[j] == ext[j - |stem| - 1];
    var d := LastDot(p);
    if d.None? || d.value != |stem| {
      assert false;
    }
  }

  // ---------------------------------------------------------------------
  // Roles of files

  datatype FileType = SourceDjot | GeneratedMarkdown | GeneratedRustModule

  datatype TangleOrWeave = Tangle | Weave

  /** The input's role, the default output path and the output's role. */
  datatype Roles = Roles(inputType: FileType, dest: Path, destType: FileType)

  /**
   * `determine_filetype_and_dest`: `*.lit.djot` is a literate document whose
   * output is `*.rs` (tangle) or `*.md` (weave); in tangle mode `*.rs` goes
   * back to `*.lit.djot`, in weave mode `*.md` does; anything else is
   * unrecognised. Exactly one side of a recognised pair is the literate
   * document, and the other is the generated kind the mode produces.
   */
  function DetermineFiletypeAndDest(input: Path, mode: TangleOrWeave): (r: Option<Roles>)
    ensures r.Some? ==> (r.value.inputType == SourceDjot) != (r.value.destType == SourceDjot)
    ensures r.Some? && mode == Tangle ==>
      r.value.inputType != GeneratedMarkdown && r.value.destType != GeneratedMarkdown
    ensures r.Some? && mode == Weave ==>
      r.value.inputType != GeneratedRustModule && r.value.destType != GeneratedRustModule
  {
    if ExtensionEq(input, "djot") && ExtensionEq(WithExtension(input, ""), "lit") then
      var (destExt, destType) := match mode
        case Tangle => ("rs", GeneratedRustModule)
        case Weave => ("md", GeneratedMarkdown);
      Some(Roles(SourceDjot, WithExtension(WithExtension(input, ""), destExt), destType))
    else if mode == Tangle && ExtensionEq(input, "rs") then
      Some(Roles(GeneratedRustModule, WithExtension(input, "lit.djot"), SourceDjot))
    else if mode == Weave && ExtensionEq(input, "md") then
      Some(Roles(GeneratedMarkdown, WithExtension(input, "lit.djot"), SourceDjot))
    else
      None
  }

  /** `stem.lit.djot` has extension `djot`, and removing it leaves `stem.lit`, whose extension is `lit`. */
  lemma LiterateName(stem: Path)
    requires HasFileName(stem)
    ensures ExtensionEq(stem + ".lit.djot", "djot")
    ensures WithExtension(stem + ".lit.djot", "") == stem + ".lit"
    ensures ExtensionEq(stem + ".lit", "lit")
  {
    var lit := stem + ".lit";
    assert lit == stem + "." + "lit" by {
      ConcatAssociative(stem, ".", "lit");
      assert "." + "lit" == ".lit";
    }
    assert stem + ".lit.djot" == lit + "." + "djot" by {
      ConcatAssociative(lit, ".", "djot");
      ConcatAssociative(stem, ".lit", ".djot");
      assert ".lit" + ".djot" == ".lit.djot" && "." + "djot" == ".djot";
    }
    assert IsSimpleExtension("lit") && IsSimpleExtension("djot");
    AppendedExtension(stem, "lit", "");
    AppendedExtension(lit, "djot", "");
  }

  /** Replacing the `lit` extension of `stem.lit` by `ext` gives `stem.ext`. */
  lemma LiterateStemWith(stem: Path, ext: string)
    requires HasFileName(stem) && (ext == "rs" || ext == "md")
    ensures WithExtension(stem + ".lit", ext) == stem + "." + ext
  {
    assert stem + ".lit" == stem + "." + "lit" by {
      ConcatAssociative(stem, ".", "lit");
      assert "." + "lit" == ".lit";
    }
    assert IsSimpleExtension("lit");
    AppendedExtension(stem, "lit", ext);
  }

  /** `stem.lit.djot` tangles to `stem.rs` and weaves to `stem.md`. */
  lemma LiterateRoles(stem: Path, mode: TangleOrWeave)
    requires HasFileName(stem)
    ensures DetermineFiletypeAndDest(stem + ".lit.djot", mode) ==
      match mode
      case Tangle => Some(Roles(SourceDjot, stem + ".rs", GeneratedRustModule))
      case Weave => Some(Roles(SourceDjot, stem + ".md", GeneratedMarkdown))
  {
    LiterateName(stem);
    match mode {
      case Tangle =>
        LiterateStemWith(stem, "rs");
        assert stem + "." + "rs" == stem + ".rs" by {
          ConcatAssociative(stem, ".", "rs");
          assert "." + "rs" == ".rs";
        }
      case Weave =>
        LiterateStemWith(stem, "md");
        assert stem + "." + "md" == stem + ".md" by {
          ConcatAssociative(stem, ".", "md");
          assert "." + "md" == ".md";
        }
    }
  }

  /** `stem.ext` for a plain extension: that extension, and `stem.lit.djot` once it is replaced. */
  lemma PlainName(stem: Path, ext: string)
    requires HasFileName(stem) && IsSimpleExtension(ext)
    ensures Extension(stem + "." + ext) == Some(ext)
    ensures WithExtension(stem + "." + ext, "lit.djot") == stem + ".lit.djot"
  {
    AppendedExtension(stem, ext, "lit.djot");
    ConcatAssociative(stem, ".", "lit.djot");
    assert "." + "lit.djot" == ".lit.djot";
  }

  /** In tangle mode `stem.rs` untangles to `stem.lit.djot`; in weave mode it is unrecognised. */
  lemma RustModuleRoles(stem: Path)
    requires HasFileName(stem)
    ensures DetermineFiletypeAndDest(stem + ".rs", Tangle) == Some(Roles(GeneratedRustModule, stem + ".lit.djot", SourceDjot))
    ensures DetermineFiletypeAndDest(stem + ".rs", Weave) == None
  {
    var p := stem + ".rs";
    assert Extension(p) == Some("rs") && WithExtension(p, "lit.djot") == stem + ".lit.djot" by {
      assert p == stem + "." + "rs" by {
        ConcatAssociative(stem, ".", "rs");
        assert "." + "rs" == ".rs";
      }
      assert IsSimpleExtension("rs");
      PlainName(stem, "rs");
    }
    assert !ExtensionEq(p, "djot") && ExtensionEq(p, "rs") && !ExtensionEq(p, "md");
  }

  /** In weave mode `stem.md` goes back to `stem.lit.djot`; in tangle mode it is unrecognised. */
  lemma MarkdownRoles(stem: Path)
    requires HasFileName(stem)
    ensures DetermineFiletypeAndDest(stem + ".md", Weave) == Some(Roles(GeneratedMarkdown, stem + ".lit.djot", SourceDjot))
    ensures DetermineFiletypeAndDest(stem + ".md", Tangle) == None
  {
    var p := stem + ".md";
    assert Extension(p) == Some("md") && WithExtension(p, "lit.djot") == stem + ".lit.djot" by {
      assert p == stem + "." + "md" by {
        ConcatAssociative(stem, ".", "md");
        assert "." + "md" == ".md";
      }
      assert IsSimpleExtension("md");
      PlainName(stem, "md");
    }
    assert !ExtensionEq(p, "djot") && ExtensionEq(p, "md") && !ExtensionEq(p, "rs");
  }

  /** A `.djot` file whose stem does not end in `.lit` is not a literate document. */
  lemma BareDjotUnrecognised(stem: Path, mode: TangleOrWeave)
    requires HasFileName(stem) && !ExtensionEq(stem, "lit")
    ensures DetermineFiletypeAndDest(stem + ".djot", mode) == None
  {
    var p := stem + ".djot";
    assert p == stem + "." + "djot" by {
      ConcatAssociative(stem, ".", "djot");
      assert "." + "djot" == ".djot";
    }
    assert Extension(p) == Some("djot") && WithExtension(p, "") == stem by {
      assert IsSimpleExtension("djot");
      AppendedExtension(stem, "djot", "");
    }
    assert !ExtensionEq(p, "rs") && !ExtensionEq(p, "md");
  }

  /** A file name without an extension is never recognised. */
  lemma NoExtensionUnrecognised(p: Path, mode: TangleOrWeave)
    requires Extension(p).None?
    ensures DetermineFiletypeAndDest(p, mode) == None
  {
  }

  /**
   * The default destinations pair up: the output of `stem.lit.djot` maps
   * back to `stem.lit.djot`, in either mode.
   */
  lemma DestinationsPairUp(stem: Path, mode: TangleOrWeave)
    requires HasFileName(stem)
    ensures var there := DetermineFiletypeAndDest(stem + ".lit.djot", mode);
      there.Some? &&
      DetermineFiletypeAndDest(there.value.dest, mode) == Some(Roles(there.value.destType, stem + ".lit.djot", SourceDjot))
  {
    LiterateRoles(stem, mode);
    RustModuleRoles(stem);
    MarkdownRoles(stem);
  }

  // ---------------------------------------------------------------------
  // Freshness

  /**
   * The decision of `ensure_input_is_newer`: go ahead, returning the time
   * to stamp on the output, when the output's time is unknown, the input
   * is strictly newer, or the run is forced.
   */
  function EnsureInputIsNewer(inputModified: int, outputModified: Option<int>, force: bool): (r: Option<int>)
    ensures r.Some? <==> outputModified.None? || force || inputModified > outputModified.value
    ensures r.Some? ==> r.value == inputModified
  {
    match outputModified
    case None => Some(inputModified)
    case Some(outputTime) =>
      if inputModified > outputTime || force then Some(inputModified) else None
  }

  /**
   * Once the output carries the input's time, only a forced run proceeds,
   * and an input touched afterwards always does.
   */
  lemma FreshnessAfterStamp(inputModified: int, force: bool, later: int)
    ensures EnsureInputIsNewer(inputModified, Some(inputModified), force).Some? <==> force
    ensures later > inputModified ==> EnsureInputIsNewer(later, Some(inputModified), force) == Some(later)
  {
  }

  /** An output at least as new as the input stops an unforced run. */
  lemma OutputNotOlderStops(inputModified: int, outputModified: int)
    ensures EnsureInputIsNewer(inputModified, Some(outputModified), false).None? <==> inputModified <= outputModified
  {
  }

  // ---------------------------------------------------------------------
  // Dispatch

  /** The failures of a run (I/O failures are not modelled). */
  datatype TangleUntangleError =
    | UnrecognizedFileExt
    | InputFileIsNotNewer
    | TangleUntangleAnalysisError(analysis: AnalysisError)
    | TangleUntangleConversionError(conversion: ConversionError)

  datatype Direction = TangleRun | UntangleRun

  /** What a run does: which pipeline, the file it writes, and the time stamped on it. */
  datatype Run = Run(direction: Direction, output: Path, stamp: int)

  /**
   * The decisions of `tangle_or_untangle` (always in tangle mode): the file's
   * roles, the output path (an explicit one wins), the freshness check
   * against that path's time in `modified`, and the pipeline to run.
   */
  function TangleOrUntangle(filePath: Path, outputPath: Option<Path>, force: bool,
                            inputModified: int, modified: map<Path, int>): (r: Result<Run, TangleUntangleError>)
    ensures r.Err? ==> r.error == UnrecognizedFileExt || r.error == InputFileIsNotNewer
    ensures r.Ok? ==> r.value.stamp == inputModified
    ensures r.Ok? && outputPath.Some? ==> r.value.output == outputPath.value
  {
    match DetermineFiletypeAndDest(filePath, Tangle)
    case None => Err(UnrecognizedFileExt)
    case Some(roles) =>
      var output := match outputPath case None => roles.dest case Some(path) => path;
      var isTangle := roles.inputType == SourceDjot;
      var outputModified := if output in modified then Some(modified[output]) else None;
      match EnsureInputIsNewer(inputModified, outputModified, force)
      case None => Err(InputFileIsNotNewer)
      case Some(stamp) => Ok(Run(if isTangle then TangleRun else UntangleRun, output, stamp))
  }

  /**
   * `stem.lit.djot` is tangled into `stem.rs` unless another output is
   * given; an unforced run whose output is not older than the input does
   * nothing.
   */
  lemma DispatchLiterate(stem: Path, force: bool, inputModified: int, modified: map<Path, int>)
    requires HasFileName(stem)
    ensures var r := TangleOrUntangle(stem + ".lit.djot", None, force, inputModified, modified);
      (r.Ok? ==> r.value == Run(TangleRun, stem + ".rs", inputModified)) &&
      (r.Err? <==> !force && stem + ".rs" in modified && inputModified <= modified[stem + ".rs"]) &&
      (r.Err? ==> r.error == InputFileIsNotNewer)
  {
    LiterateRoles(stem, Tangle);
  }

  /**
   * `stem.rs` is untangled into `stem.lit.djot` unless another output is
   * given; an unforced run whose output is not older than the input does
   * nothing.
   */
  lemma DispatchRustModule(stem: Path, force: bool, inputModified: int, modified: map<Path, int>)
    requires HasFileName(stem)
    ensures var r := TangleOrUntangle(stem + ".rs", None, force, inputModified, modified);
      (r.Ok? ==> r.value == Run(UntangleRun, stem + ".lit.djot", inputModified)) &&
      (r.Err? <==> !force && stem + ".lit.djot" in modified && inputModified <= modified[stem + ".lit.djot"]) &&
      (r.Err? ==> r.error == InputFileIsNotNewer)
  {
    RustModuleRoles(stem);
  }

  /** A `.md` file or a file without extension is refused with `UnrecognizedFileExt`. */
  lemma UnrecognisedInputs(stem: Path, p: Path, outputPath: Option<Path>, force: bool,
                           inputModified: int, modified: map<Path, int>)
    requires HasFileName(stem) && Extension(p).None?
    ensures TangleOrUntangle(stem + ".md", outputPath, force, inputModified, modified) == Err(UnrecognizedFileExt)
    ensures TangleOrUntangle(p, outputPath, force, inputModified, modified) == Err(UnrecognizedFileExt)
  {
    MarkdownRoles(stem);
  }

  /**
   * After a run has stamped its output with the input's time, repeating it
   * unforced fails with `InputFileIsNotNewer`, while a forced repeat does
   * the same run again.
   */
  lemma RepeatedRun(filePath: Path, outputPath: Option<Path>, force: bool,
                    inputModified: int, modified: map<Path, int>)
    requires TangleOrUntangle(filePath, outputPath, force, inputModified, modified).Ok?
    ensures var run := TangleOrUntangle(filePath, outputPath, force, inputModified, modified).value;
      var stamped := modified[run.output := run.stamp];
      TangleOrUntangle(filePath, outputPath, false, inputModified, stamped) == Err(InputFileIsNotNewer) &&
      TangleOrUntangle(filePath, outputPath, true, inputModified, stamped) == Ok(run)
  {
  }

  // ---------------------------------------------------------------------
  // The two pipelines

  /**
   * The text tangle writes for a literate document, given the parser's
   * events for it: analyse, convert, write the line groups.
   */
  function TangleText(source: string, events: seq<Tangle.OffsetEvent>): (r: Result<string, TangleUntangleError>)
    requires Tangle.InBounds(source, events)
    requires !Tangle.ReachesUnreachable(Tangle.Groups(events))
    ensures r.Ok? <==> Tangle.RustBlocksClosed(Tangle.Groups(events))
    ensures r.Err? ==> r.error == TangleUntangleAnalysisError(InvalidDjotBlock)
  {
    match Tangle.AnalyzedSource(source, events)
    case Err(e) => Err(TangleUntangleAnalysisError(e))
    case Ok(blocks) => Ok(Text(Tangle.TangledLines(Tangle.Converted(blocks), true)))
  }

  /** The text untangle writes for a generated file: analyse, convert, write the blocks. */
  function UntangleText(text: string): (r: Result<string, TangleUntangleError>)
    ensures r.Err? ==> r.error == TangleUntangleAnalysisError(AnalysisError.NoValidPostamble)
  {
    match Untangle.AnalyzedLineGroups(text)
    case Err(e) => Err(TangleUntangleAnalysisError(e))
    case Ok(groups) =>
      Untangle.ConvertedLineGroupsShape(groups, Rust);
      match Untangle.ConvertedLineGroups(groups, Rust)
      case Err(e) => Err(TangleUntangleConversionError(e))
      case Ok(blocks) => Ok(Text(Untangle.UntangledLines(blocks, true)))
  }
}

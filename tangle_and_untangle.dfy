/**
 * The types shared by both conversion directions: the top-level blocks of a
 * literate Djot document, the line groups of a generated Rust file, the two
 * language enumerations, the trailer line that marks a generated file, and
 * the errors of the analysis and conversion stages.
 */
module TangleAndUntangle {
  import opened Strings

  datatype Option<+T> = None | Some(value: T)

  datatype Result<+T, +E> = Ok(value: T) | Err(error: E)

  /** The markup language of literate documents (only Djot today). */
  datatype SourceLanguage = Djot

  /** The language of generated files (only Rust today). */
  datatype GeneratedLanguage = Rust

  /** One top-level block of a literate document. */
  datatype SourceToplevelBlock =
    | Preamble(lang: SourceLanguage)
    | VerbatimBlock(codeLang: GeneratedLanguage, lines: seq<string>)
    | LiterateBlock(lines: seq<string>)
    | Postamble

  /** One group of lines of a generated file. */
  datatype GeneratedLineGroup =
    | Preamble
    | CodeLineGroup(lines: seq<string>)
    | Postamble(sourceLang: SourceLanguage)

  /** The trailer line written at the end of every generated file. */
  const GeneratedSignature: string := "// [LITWEB djot->rust]"

  /** Errors of the structural conversion between the two block kinds. */
  datatype ConversionError = NoValidPreamble | NoValidPostamble | UnexpectedGeneratedLineGroup

  /** Errors of reading a document into blocks (I/O failures are not modelled). */
  datatype AnalysisError = NoValidPostamble | InvalidDjotBlock

  /** `Preamble, (VerbatimBlock | LiterateBlock)*, Postamble` */
  predicate WellFormedSource(blocks: seq<SourceToplevelBlock>) {
    |blocks| >= 2 &&
    blocks[0].Preamble? && blocks[|blocks| - 1].Postamble? &&
    forall i :: 0 < i < |blocks| - 1 ==> blocks[i].VerbatimBlock? || blocks[i].LiterateBlock?
  }

  /** `Preamble, CodeLineGroup*, Postamble` */
  predicate WellFormedGenerated(groups: seq<GeneratedLineGroup>) {
    |groups| >= 2 &&
    groups[0].Preamble? && groups[|groups| - 1].Postamble? &&
    forall i :: 0 < i < |groups| - 1 ==> groups[i].CodeLineGroup?
  }

  /** The trailer is a non-empty Rust line comment. */
  lemma SignatureIsLineComment()
    ensures GeneratedSignature != []
    ensures |GeneratedSignature| >= 2 && GeneratedSignature[..2] == "//"
  {
  }

  /**
   * The trailer has no surrounding whitespace, so trimming the line tangle
   * writes gives back the trailer itself, and it is one line of text.
   */
  lemma SignatureIsTrimmed()
    ensures Trim(GeneratedSignature) == GeneratedSignature
    ensures TrimEnd(GeneratedSignature) == GeneratedSignature
    ensures IsSingleLine(GeneratedSignature)
  {
    TrimOfTrimmed(GeneratedSignature);
  }

  /** Each language enumeration has a single value, so matching on it never fails. */
  lemma SingleLanguages(g: GeneratedLanguage, s: SourceLanguage)
    ensures g == Rust && s == Djot
  {
  }
}

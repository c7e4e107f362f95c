/** The per-pass lint context: the parsed source, the ignore directives found
    in it, whether unknown rule codes are checked, and the diagnostics the
    rules have reported so far. Rules change nothing but the diagnostics. */
module LintContext {
  import opened Diagnostics
  import opened Sources

  /** A file-level directive; without codes it ignores the whole file. */
  datatype FileIgnoreDirective = FileIgnoreDirective(codes: seq<string>)
  {
    predicate IgnoreAll()
    {
      codes == []
    }
  }

  /** A line-level directive attached to the line it suppresses. */
  datatype LineIgnoreDirective = LineIgnoreDirective(lineIndex: nat, codes: seq<string>)

  /** What the suppression stages read from a context once the rules have
      run: the file it belongs to, its directives, the check flag and the
      diagnostics reported so far. */
  datatype ContextState = ContextState(
    source: ParsedSource,
    mediaType: MediaType,
    fileIgnoreDirective: Option<FileIgnoreDirective>,
    lineIgnoreDirectives: seq<LineIgnoreDirective>,
    checkUnknownRules: bool,
    diagnostics: seq<LintDiagnostic>)

  class Context {
    const source: ParsedSource
    const mediaType: MediaType
    const fileIgnoreDirective: Option<FileIgnoreDirective>
    const lineIgnoreDirectives: seq<LineIgnoreDirective>
    const checkUnknownRules: bool
    var diagnostics: seq<LintDiagnostic>

    constructor (
      source: ParsedSource,
      mediaType: MediaType,
      fileIgnoreDirective: Option<FileIgnoreDirective>,
      lineIgnoreDirectives: seq<LineIgnoreDirective>,
      checkUnknownRules: bool)
      ensures this.source == source && this.mediaType == mediaType
      ensures this.fileIgnoreDirective == fileIgnoreDirective
      ensures this.lineIgnoreDirectives == lineIgnoreDirectives
      ensures this.checkUnknownRules == checkUnknownRules
      ensures diagnostics == []
    {
      this.source := source;
      this.mediaType := mediaType;
      this.fileIgnoreDirective := fileIgnoreDirective;
      this.lineIgnoreDirectives := lineIgnoreDirectives;
      this.checkUnknownRules := checkUnknownRules;
      diagnostics := [];
    }

    function State(): ContextState
      reads this
    {
      ContextState(source, mediaType, fileIgnoreDirective, lineIgnoreDirectives, checkUnknownRules, diagnostics)
    }

    /** The diagnostic a rule reports for `span`: the span's ends located
        through the source's text index, and the source's file name. */
    function CreateDiagnostic(span: Span, code: string, message: string, hint: Option<string>): (d: LintDiagnostic)
      ensures d.filename == source.specifier && d.code == code && d.message == message && d.hint == hint
      ensures d.range.start.byteIndex == span.lo && d.range.end.byteIndex == span.hi
    {
      var lo := source.textInfo.lineAndColumnIndex(span.lo);
      var hi := source.textInfo.lineAndColumnIndex(span.hi);
      LintDiagnostic(
        Range(Position(span.lo, lo.lineIndex, lo.columnIndex),
              Position(span.hi, hi.lineIndex, hi.columnIndex)),
        source.specifier, code, message, hint)
    }

    method AddDiagnosticWithHint(span: Span, code: string, message: string, hint: string)
      modifies this
      ensures diagnostics == old(diagnostics) + [CreateDiagnostic(span, code, message, Some(hint))]
    {
      diagnostics := diagnostics + [CreateDiagnostic(span, code, message, Some(hint))];
    }
  }
}

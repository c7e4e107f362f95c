/** The diagnostic record every rule, the suppression stages and the plugin
    host produce: a rule code, a message, an optional hint, the file name and
    a source range whose two ends carry a byte offset and a line/column pair. */
module Diagnostics {

  datatype Option<+T> = None | Some(value: T)

  /** One end of a range: byte offset plus zero-based line and column. */
  datatype Position = Position(byteIndex: nat, lineIndex: nat, columnIndex: nat)

  datatype Range = Range(start: Position, end: Position)

  datatype LintDiagnostic = LintDiagnostic(
    range: Range,
    filename: string,
    code: string,
    message: string,
    hint: Option<string>)

  /** The key the final report is sorted by: the line the diagnostic starts on. */
  function StartLine(d: LintDiagnostic): nat
  {
    d.range.start.lineIndex
  }
}

/** What the parser collaborator hands over: a parsed source with its text
    and a text index that maps byte offsets to lines and columns. The syntax
    tree itself is not modelled here; the rule that inspects one works on the
    declaration sites of `NoInferrableTypes`. */
module Sources {

  newtype byte = b: int | 0 <= b < 256

  /** A source span as a half-open byte interval. */
  datatype Span = Span(lo: nat, hi: nat)

  datatype LineAndColumnIndex = LineAndColumnIndex(lineIndex: nat, columnIndex: nat)

  /** The text index: the UTF-8 bytes of the text and the offset-to-line/column
      conversion, which this model leaves uninterpreted. */
  datatype SourceTextInfo = SourceTextInfo(
    text: seq<byte>,
    lineAndColumnIndex: nat -> LineAndColumnIndex)

  datatype ParsedSource = ParsedSource(specifier: string, textInfo: SourceTextInfo)

  datatype MediaType =
    | JavaScript | Jsx | Mjs | Cjs
    | TypeScript | Mts | Cts | Dts | Dmts | Dcts | Tsx
    | Json | Wasm | TsBuildInfo | SourceMap | Unknown
}

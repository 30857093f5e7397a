/**
 * Value types of the Language Server Protocol that the helpers produce:
 * zero-based positions, ranges, URI-addressed locations, the diagnostic
 * severity enumeration with its wire codes, and diagnostics.
 */
module Lsp {

  datatype Option<T> = None | Some(value: T)

  /** A zero-based point in a text document. */
  datatype Position = Position(line: int, character: int)

  /** The protocol only admits non-negative line and character offsets. */
  predicate ValidPosition(p: Position) {
    p.line >= 0 && p.character >= 0
  }

  /** `a` is at or before `b` in document order. */
  predicate PositionBefore(a: Position, b: Position) {
    a.line < b.line || (a.line == b.line && a.character <= b.character)
  }

  datatype Range = Range(start: Position, end: Position)

  /** A range whose start does not come after its end. */
  predicate OrderedRange(r: Range) {
    PositionBefore(r.start, r.end)
  }

  datatype Location = Location(uri: string, range: Range)

  /** The protocol's `DiagnosticSeverity` enumeration. */
  datatype DiagnosticSeverity = Error | Warning | Information | Hint

  /** The number a severity is sent as on the wire. */
  function Code(s: DiagnosticSeverity): (c: int)
    ensures 1 <= c <= 4
    ensures c == 1 <==> s == Error
    ensures c == 4 <==> s == Hint
  {
    match s
    case Error => 1
    case Warning => 2
    case Information => 3
    case Hint => 4
  }

  /** Reads a severity back from its wire number; anything outside 1..4 is not one. */
  function FromCode(c: int): (r: Option<DiagnosticSeverity>)
    ensures r.Some? <==> 1 <= c <= 4
  {
    if c == 1 then Some(Error)
    else if c == 2 then Some(Warning)
    else if c == 3 then Some(Information)
    else if c == 4 then Some(Hint)
    else None
  }

  lemma CodeRoundTrip(s: DiagnosticSeverity)
    ensures FromCode(Code(s)) == Some(s)
  {
  }

  lemma FromCodeRoundTrip(c: int)
    requires FromCode(c).Some?
    ensures Code(FromCode(c).value) == c
  {
  }

  datatype Diagnostic = Diagnostic(
    severity: DiagnosticSeverity,
    message: string,
    source: string,
    range: Range,
    code: string)
}

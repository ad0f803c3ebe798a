/**
 * The parts of the language-server diagnostic type that the editor reads:
 * a diagnostic is a message attached to a range of the buffer.
 */
module LanguageTypes {

  /** A zero-based buffer position. */
  datatype Position = Position(line: int, character: int)

  datatype Range = Range(start: Position, end: Position)

  datatype Diagnostic = Diagnostic(range: Range, message: string)
}

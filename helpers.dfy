/**
 * The translation between the GraphQL language service and the Language
 * Server Protocol: one-based `{line, column}` positions become zero-based
 * `{line, character}` positions and back, string severities become protocol
 * severities, and errors and spans become diagnostics and locations.
 */
module Helpers {
  import opened Lsp

  /** A one-based point as reported by the GraphQL language service. */
  datatype GqlPosition = GqlPosition(line: int, column: int)

  /** Language-service positions count from one on both axes. */
  predicate ValidGqlPosition(p: GqlPosition) {
    p.line >= 1 && p.column >= 1
  }

  /** `a` is at or before `b` in document order. */
  predicate GqlBefore(a: GqlPosition, b: GqlPosition) {
    a.line < b.line || (a.line == b.line && a.column <= b.column)
  }

  /** A span in a file as reported by the language service. */
  datatype GqlLocation = GqlLocation(path: string, start: GqlPosition, end: GqlPosition)

  /**
   * The `severity` field of a language-service error. It is an open value:
   * `Tag` is a string, `NoTag` stands for `undefined` or any non-string value.
   */
  datatype GqlSeverity = Tag(name: string) | NoTag

  /** A language-service error: only its message and severity are read. */
  datatype GqlError = GqlError(message: string, severity: GqlSeverity)

  /** One-based to zero-based: one less on each axis, with no clamping. */
  function MapPosition(p: GqlPosition): (r: Position)
    ensures r.line == p.line - 1 && r.character == p.column - 1
    ensures ValidGqlPosition(p) <==> ValidPosition(r)
  {
    Position(p.line - 1, p.column - 1)
  }

  /** Zero-based to one-based: one more on each axis. */
  function ToGqlPosition(q: Position): (r: GqlPosition)
    ensures r.line == q.line + 1 && r.column == q.character + 1
    ensures ValidPosition(q) <==> ValidGqlPosition(r)
  {
    GqlPosition(q.line + 1, q.character + 1)
  }

  lemma GqlRoundTrip(p: GqlPosition)
    ensures ToGqlPosition(MapPosition(p)) == p
  {
  }

  lemma ProtocolRoundTrip(q: Position)
    ensures MapPosition(ToGqlPosition(q)) == q
  {
  }

  /** Distinct language-service positions never land on the same protocol position. */
  lemma MapPositionInjective(a: GqlPosition, b: GqlPosition)
    ensures MapPosition(a) == MapPosition(b) <==> a == b
  {
  }

  /** Every valid protocol position is the image of a valid language-service position. */
  lemma MapPositionOnto(q: Position)
    requires ValidPosition(q)
    ensures exists p :: ValidGqlPosition(p) && MapPosition(p) == q
  {
    ProtocolRoundTrip(q);
    assert MapPosition(ToGqlPosition(q)) == q;
  }

  /** Every valid language-service position is the image of a valid protocol position. */
  lemma ToGqlPositionOnto(p: GqlPosition)
    requires ValidGqlPosition(p)
    ensures exists q :: ValidPosition(q) && ToGqlPosition(q) == p
  {
    GqlRoundTrip(p);
    assert ToGqlPosition(MapPosition(p)) == p;
  }

  /** Shifting both axes by one keeps document order, in both directions. */
  lemma MapPositionKeepsOrder(a: GqlPosition, b: GqlPosition)
    ensures GqlBefore(a, b) <==> PositionBefore(MapPosition(a), MapPosition(b))
  {
  }

  /** `'error'` is Error, `'warn'` is Warning, every other value is Hint. */
  function MapSeverity(s: GqlSeverity): (r: DiagnosticSeverity)
    ensures r == Error <==> s == Tag("error")
    ensures r == Warning <==> s == Tag("warn")
    ensures r == Hint <==> s != Tag("error") && s != Tag("warn")
    ensures r != Information
  {
    match s
    case Tag(name) =>
      if name == "error" then Error
      else if name == "warn" then Warning
      else Hint
    case NoTag => Hint
  }

  /** The wire code of a mapped severity is 1, 2 or 4, never 3. */
  lemma MapSeverityCodes(s: GqlSeverity)
    ensures Code(MapSeverity(s)) in {1, 2, 4}
  {
  }

  /** Each of Error, Warning and Hint is produced by some severity value. */
  lemma MapSeverityOnto(sev: DiagnosticSeverity)
    requires sev != Information
    ensures exists s :: MapSeverity(s) == sev
  {
    match sev
    case Error => assert MapSeverity(Tag("error")) == Error;
    case Warning => assert MapSeverity(Tag("warn")) == Warning;
    case Hint => assert MapSeverity(NoTag) == Hint;
  }

  /**
   * A zero-width diagnostic anchored at `position`, with the error's message
   * and mapped severity, source "graphql" and code "syntax".
   */
  function MakeDiagnostic(error: GqlError, position: GqlPosition): (r: Diagnostic)
    ensures r.range.start == r.range.end
    ensures ToGqlPosition(r.range.start) == position
    ensures ValidPosition(r.range.start) <==> ValidGqlPosition(position)
    ensures r.message == error.message
    ensures r.severity == MapSeverity(error.severity)
    ensures r.source == "graphql" && r.code == "syntax"
  {
    var startPosition := MapPosition(position);
    Diagnostic(
      severity := MapSeverity(error.severity),
      message := error.message,
      source := "graphql",
      range := Range(startPosition, startPosition),
      code := "syntax")
  }

  /** The example of an unexpected token at line 3, column 5. */
  lemma MakeDiagnosticExample()
    ensures MakeDiagnostic(GqlError("Unexpected token", Tag("error")), GqlPosition(3, 5))
         == Diagnostic(Error, "Unexpected token", "graphql",
                       Range(Position(2, 4), Position(2, 4)), "syntax")
  {
  }

  /**
   * A protocol location for a language-service span. `toUri` stands for the
   * path-to-URI conversion, whose rules are not part of this model. No order
   * between start and end is enforced: the range is ordered exactly when the
   * span was.
   */
  function MapLocation(toUri: string -> string, loc: GqlLocation): (r: Location)
    ensures r.uri == toUri(loc.path)
    ensures ToGqlPosition(r.range.start) == loc.start
    ensures ToGqlPosition(r.range.end) == loc.end
    ensures OrderedRange(r.range) <==> GqlBefore(loc.start, loc.end)
  {
    MapPositionKeepsOrder(loc.start, loc.end);
    Location(toUri(loc.path), Range(MapPosition(loc.start), MapPosition(loc.end)))
  }

  /** A point span maps to the same range a diagnostic at that point gets. */
  lemma MapLocationPointIsDiagnosticRange(toUri: string -> string, loc: GqlLocation, error: GqlError)
    requires loc.start == loc.end
    ensures MapLocation(toUri, loc).range == MakeDiagnostic(error, loc.start).range
  {
  }

  /** The names of the notifications shared by the server and the client. */
  datatype Notifications = Notifications(serverInitialized: string, serverExited: string)

  const Namespace := "graphqlForVSCode/"

  const CommonNotifications := Notifications(
    serverInitialized := Namespace + "serverInitialized",
    serverExited := Namespace + "serverExited")

  /** The two channels are distinct and both live in the extension's namespace. */
  lemma CommonNotificationsDistinct()
    ensures CommonNotifications.serverInitialized != CommonNotifications.serverExited
    ensures Namespace <= CommonNotifications.serverInitialized
    ensures Namespace <= CommonNotifications.serverExited
    ensures CommonNotifications.serverInitialized == "graphqlForVSCode/serverInitialized"
    ensures CommonNotifications.serverExited == "graphqlForVSCode/serverExited"
  {
  }
}

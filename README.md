# GraphQL for VS Code: server helpers

A model of the translation layer between the GraphQL language service and the
Language Server Protocol in `src/server/helpers.ts`. The language service
reports one-based `{line, column}` positions and string severities
(`'error'`, `'warn'`, ...); the protocol wants zero-based `{line, character}`
positions, the `DiagnosticSeverity` enumeration (Error = 1, Warning = 2,
Information = 3, Hint = 4) and URI-addressed locations.

- `lsp.dfy` (module `Lsp`): the protocol value types the helpers build —
  `Position`, `Range`, `Location`, `DiagnosticSeverity` with its wire codes, and
  `Diagnostic`.
- `helpers.dfy` (module `Helpers`): the language-service types and the helpers
  `MapPosition` (`mapPosition`), `ToGqlPosition` (`toGQLPosition`),
  `MapSeverity` (`mapSeverity`), `MakeDiagnostic` (`makeDiagnostic`),
  `MapLocation` (`mapLocation`) and the constant `CommonNotifications`
  (`commonNotifications`).

Every helper is a single expression in the source, so every one is a Dafny
function, and the properties are lemmas and `ensures` clauses about them.
Positions are mathematical integers. The path-to-URI conversion is a parameter
`toUri` of `MapLocation`, so nothing is assumed about it beyond being a
function of the path. A language-service severity is an open value: `Tag(s)`
for a string and `NoTag` for `undefined` or any non-string value, which the
source's `switch` (strict equality) sends to the default branch.

## Model

| member | source | states |
|---|---|---|
| Helpers.MapPosition | src/server/helpers.ts:45-48 | the result is exactly one less on each axis, with no clamping; it is a valid protocol position exactly when the input is a valid one-based position |
| Helpers.ToGqlPosition | src/server/helpers.ts:57-63 | the result is exactly one more on each axis; it is a valid one-based position exactly when the input is a valid protocol position |
| Helpers.GqlRoundTrip | src/server/helpers.ts:46-48 | converting a language-service position to the protocol and back gives it back, for every integer position |
| Helpers.ProtocolRoundTrip | src/server/helpers.ts:58-63 | converting a protocol position to the language service and back gives it back, for every integer position |
| Helpers.MapPositionInjective | src/server/helpers.ts:46-48 | two language-service positions map to the same protocol position if and only if they are equal |
| Helpers.MapPositionOnto | src/server/helpers.ts:46-48 | every valid protocol position is the image of some valid one-based position |
| Helpers.ToGqlPositionOnto | src/server/helpers.ts:58-63 | every valid one-based position is the image of some valid protocol position |
| Helpers.MapPositionKeepsOrder | src/server/helpers.ts:46-48 | one position is before another in document order if and only if their mapped positions are |
| Helpers.MapSeverity | src/server/helpers.ts:65-75 | total: Error exactly for `'error'`, Warning exactly for `'warn'`, Hint for every other value including absent ones, never Information |
| Helpers.MapSeverityCodes | src/server/helpers.ts:66-75 | a mapped severity goes on the wire as 1, 2 or 4 |
| Helpers.MapSeverityOnto | src/server/helpers.ts:66-75 | each of Error, Warning and Hint is produced by some severity value |
| Helpers.MakeDiagnostic | src/server/helpers.ts:30-43 | the range is zero-width and its point converts back to the anchor position; it is valid exactly when the anchor is; the message is the error's, the severity is the mapped severity of the error's, the source is "graphql" and the code is "syntax" |
| Helpers.MakeDiagnosticExample | src/server/helpers.ts:30-43 | an error "Unexpected token" of severity `'error'` at line 3, column 5 gives an Error diagnostic at line 2, character 4 |
| Helpers.MapLocation | src/server/helpers.ts:50-55 | the URI is the path's URI; start and end convert back to the span's start and end; no order is enforced, and the range is ordered exactly when the span was |
| Helpers.MapLocationPointIsDiagnosticRange | src/server/helpers.ts:31-40 | a location whose start equals its end gets the same range as a diagnostic anchored at that point |
| Helpers.CommonNotificationsDistinct | src/server/helpers.ts:85-89 | the two channel names are "graphqlForVSCode/serverInitialized" and "graphqlForVSCode/serverExited", distinct and in one namespace |
| Lsp.Code | src/server/helpers.ts:66-75 | each severity has a wire number in 1..4; 1 is Error and 4 is Hint |
| Lsp.FromCode | src/server/helpers.ts:66-75 | a wire number names a severity exactly when it is in 1..4 |
| Lsp.CodeRoundTrip | src/server/helpers.ts:66-75 | reading back the wire number of a severity gives that severity |
| Lsp.FromCodeRoundTrip | src/server/helpers.ts:66-75 | a wire number that names a severity is that severity's number |

## Left out

- `resolveModule` (src/server/helpers.ts:11-28): asynchronous module resolution through `Files.resolve`, a dynamic `require` and an optional tracer; this is I/O and foreign calls, not modelled.
- `filePathToURI` and `uriToFilePath` (src/server/helpers.ts:77-83): thin wrappers over `vscode-uri` and `Files.uriToFilePath`, whose encoding rules are not part of this model. `MapLocation` takes the conversion as a parameter, and no path/URI round trip is claimed.
- Numbers: the source's positions are JavaScript floating-point numbers; the model uses unbounded integers, which agree with them on every line and column count the language service can report.
- `Position.create`, `Range.create` and `Location.create` are taken to build plain records from their arguments, with no validation.
- Fields of the error object other than `message` and `severity` are never read by `makeDiagnostic` and are not modelled; `message` is modelled as a string.

/**
 * What one call of a handler's `decodeURLParameter` can lead to: nothing at all, one of a
 * closed set of thrown errors, or a new map centre. Localised message texts are not modelled;
 * an error is its message key.
 */
module Outcomes {
  import Wrappers

  /** The host's `parseFloat`; NaN is `None`. */
  type ParseFloat = string -> Wrappers.Option<real>

  /** The message keys of the errors the handlers throw. */
  datatype ErrKind =
    | EmptyCoordinates
    | MalformedCoordinates
    | CoordinateNaN
    | CoordinateExceedsXLimit
    | CoordinateExceedsYLimit
    | CoordinateExceedsLongitudeLimit
    | CoordinateExceedsLatitudeLimit
    | WkidNaN
    | WkidExceedsLowerLimit
    | WkidExceedsUpperLimit

  /** Something a handler reports on the side: a `console.warn` of the missing-WKID message,
      or a `logger.error` of an error's message just before that error is thrown. */
  datatype LogEntry = MissingWkidWarning | LoggedError(kind: ErrKind)

  /** `NoOp`: the parameter was absent or empty. `Fail`: the error thrown, with what was
      reported before it. `Center`: the point handed on to the map, with what was reported. */
  datatype Outcome<P> =
    | NoOp
    | Fail(kind: ErrKind, log: seq<LogEntry>)
    | Center(point: P, log: seq<LogEntry>)
}

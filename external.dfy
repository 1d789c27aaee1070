/**
 * The collaborators whose code is not part of this model, reduced to their
 * results: the Cache-Control parser, the HTTP date parsers and formatter, and
 * the lookup of the response date. Each is a total function supplied by the
 * caller.
 */
module External {
  import opened Wrappers
  import opened JavaLong
  import opened Headers

  /** A `java.time.Instant`, as milliseconds since the epoch (`toEpochMilli`). */
  type Instant = Int64

  /** The parsed `Cache-Control` directives: `isPublic()` and `maxAge()` in seconds. */
  datatype CacheControl = CacheControl(isPublic: bool, maxAge: Int32)

  datatype Collaborators = Collaborators(
    // new CacheControl().parse(value)
    parseCacheControl: string -> CacheControl,
    // ParseUtils.parseHeaderDate(value); None is a null result
    parseHeaderDate: string -> Option<Instant>,
    // ParseUtils.parseWarningHeaderDate(value); None is a null result
    parseWarningDate: string -> Option<Instant>,
    // HttpUtils.dateHeader(headers); None is a null result
    dateHeader: seq<Header> -> Option<Instant>,
    // ParseUtils.formatHttpDate(instant); None when it throws
    formatHttpDate: Instant -> Option<string>)
}

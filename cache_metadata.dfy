/**
 * What the constructor that wraps an origin response derives from the
 * origin's headers: the body length from Content-Length, and the cache
 * metadata (`maxAge`, `publicCacheControl`, `etag`) from Cache-Control, Date,
 * Expires and ETag.
 */
module CacheMetadata {
  import opened Wrappers
  import opened JavaLong
  import opened Headers
  import opened External
  import opened Transfer

  /** Milliseconds of freshness (-1: not determined) and whether Cache-Control said public. */
  datatype CacheMeta = CacheMeta(maxAge: Int64, publicCacheControl: bool)

  /**
   * The constructor throws: Date and Expires are both present but one of them
   * does not parse, and the null instant is dereferenced.
   */
  datatype ConstructionError = UnparseableDate

  /** The body length: Content-Length parsed as a `long`, or -1 when absent or malformed. */
  function ContentLengthOf(hs: seq<Header>): (n: Int64)
    ensures n != -1 ==> Get(hs, CONTENT_LENGTH).Some? && ParseLong(Get(hs, CONTENT_LENGTH).value) == Some(n)
    ensures Get(hs, CONTENT_LENGTH).Some? && ParseLong(Get(hs, CONTENT_LENGTH).value).Some?
            ==> n == ParseLong(Get(hs, CONTENT_LENGTH).value).value
  {
    match Get(hs, CONTENT_LENGTH)
    case None => -1
    case Some(v) =>
      match ParseLong(v)
      case None => -1
      case Some(len) => len
  }

  /** The body the constructor wraps around the origin's stream. */
  function OriginBody(hs: seq<Header>, stream: seq<Chunk>): Body {
    Body(stream, ContentLengthOf(hs), Get(hs, CONTENT_TYPE))
  }

  /** The parsed Cache-Control directives, when the header is present. */
  function Directives(hs: seq<Header>, c: Collaborators): Option<CacheControl> {
    match Get(hs, CACHE_CONTROL)
    case None => None
    case Some(v) => Some(c.parseCacheControl(v))
  }

  predicate SaysPublic(hs: seq<Header>, c: Collaborators) {
    Directives(hs, c).Some? && Directives(hs, c).value.isPublic
  }

  /** Public with a positive max-age directive. */
  predicate HasPositiveMaxAge(hs: seq<Header>, c: Collaborators) {
    SaysPublic(hs, c) && Directives(hs, c).value.maxAge > 0
  }

  /** Public without a positive max-age, and both Date and Expires present. */
  predicate UsesExpires(hs: seq<Header>, c: Collaborators) {
    SaysPublic(hs, c) && !HasPositiveMaxAge(hs, c)
    && Get(hs, DATE).Some? && Get(hs, EXPIRES).Some?
  }

  /** The constructor's cache-metadata derivation. */
  function DeriveCacheMeta(hs: seq<Header>, c: Collaborators): (r: Result<CacheMeta, ConstructionError>)
    ensures r.Ok? ==> (r.value.publicCacheControl <==> SaysPublic(hs, c))
    ensures r.Ok? && !r.value.publicCacheControl ==> r.value.maxAge == -1
    ensures r.Err? <==>
              UsesExpires(hs, c)
              && (c.parseHeaderDate(Get(hs, DATE).value).None?
                  || c.parseHeaderDate(Get(hs, EXPIRES).value).None?)
    ensures HasPositiveMaxAge(hs, c) ==>
              r.Ok? && r.value.maxAge == Directives(hs, c).value.maxAge * 1000
    ensures SaysPublic(hs, c) && !HasPositiveMaxAge(hs, c) && !UsesExpires(hs, c) ==>
              r == Ok(CacheMeta(-1, true))
    ensures r.Ok? && UsesExpires(hs, c) ==>
              r.value.maxAge == Wrap64(c.parseHeaderDate(Get(hs, EXPIRES).value).value
                                       - c.parseHeaderDate(Get(hs, DATE).value).value)
  {
    match Directives(hs, c)
    case None => Ok(CacheMeta(-1, false))
    case Some(cc) =>
      if !cc.isPublic then Ok(CacheMeta(-1, false))
      else if cc.maxAge > 0 then Ok(CacheMeta(cc.maxAge as int * 1000, true))
      else if Get(hs, DATE).None? || Get(hs, EXPIRES).None? then Ok(CacheMeta(-1, true))
      else
        match (c.parseHeaderDate(Get(hs, EXPIRES).value), c.parseHeaderDate(Get(hs, DATE).value))
        case (Some(expires), Some(date)) => Ok(CacheMeta(Wrap64(expires as int - date as int), true))
        case _ => Err(UnparseableDate)
  }

  /**
   * A positive max-age directive overrides Expires (section 5.3 of RFC 7234):
   * whatever the Date and Expires headers hold, even values that do not
   * parse or none at all, the derived metadata is the same and construction
   * succeeds.
   */
  lemma MaxAgeOverridesExpires(hs: seq<Header>, c: Collaborators, dates: seq<string>, expires: seq<string>)
    requires HasPositiveMaxAge(hs, c)
    ensures DeriveCacheMeta(SetAll(SetAll(hs, DATE, dates), EXPIRES, expires), c) == DeriveCacheMeta(hs, c)
    ensures DeriveCacheMeta(hs, c).Ok?
  {
    var dated := SetAll(hs, DATE, dates);
    SetAllValues(hs, DATE, dates, CACHE_CONTROL);
    SetAllValues(dated, EXPIRES, expires, CACHE_CONTROL);
    assert Get(SetAll(dated, EXPIRES, expires), CACHE_CONTROL) == Get(hs, CACHE_CONTROL);
  }

  /**
   * For instants within a quarter of the `long` range (any real HTTP date),
   * the Expires-based max-age is the exact difference, negative exactly when
   * Expires lies before Date.
   */
  lemma ExpiresBasedMaxAgeIsExact(hs: seq<Header>, c: Collaborators)
    requires UsesExpires(hs, c)
    requires c.parseHeaderDate(Get(hs, DATE).value).Some?
    requires c.parseHeaderDate(Get(hs, EXPIRES).value).Some?
    requires -TWO_63 / 2 <= c.parseHeaderDate(Get(hs, DATE).value).value < TWO_63 / 2
    requires -TWO_63 / 2 <= c.parseHeaderDate(Get(hs, EXPIRES).value).value < TWO_63 / 2
    ensures DeriveCacheMeta(hs, c).Ok?
    ensures var date := c.parseHeaderDate(Get(hs, DATE).value).value;
      var expires := c.parseHeaderDate(Get(hs, EXPIRES).value).value;
      && DeriveCacheMeta(hs, c).value.maxAge == expires - date
      && (DeriveCacheMeta(hs, c).value.maxAge < 0 <==> expires < date)
  {
  }

  /** A Content-Length the origin wrote in canonical form is the body length. */
  lemma CanonicalContentLength(hs: seq<Header>, n: Int64)
    requires Get(hs, CONTENT_LENGTH) == Some(LongToString(n))
    ensures ContentLengthOf(hs) == n
  {
    ParseLongOfLongToString(n);
  }
}

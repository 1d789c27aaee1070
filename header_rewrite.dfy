/**
 * The headers `send` writes on the client response: the Date (the stored
 * one, else the current time), the Warning values that are not stale, every
 * stored header except the ones the proxy owns, and the framing headers of
 * the transfer strategy.
 */
module HeaderRewrite {
  import opened Wrappers
  import opened JavaLong
  import opened Headers
  import opened External
  import opened Transfer

  // ---------------------------------------------------------------- Date

  /** The instant the Date header announces: the stored date, else the current time. */
  function EffectiveDate(stored: seq<Header>, c: Collaborators, now: Instant): (r: Instant)
    ensures c.dateHeader(stored) == Some(r) || (c.dateHeader(stored).None? && r == now)
  {
    match c.dateHeader(stored)
    case Some(d) => d
    case None => now
  }

  // ------------------------------------------------------------- Warning

  /** The stored Date header, parsed; the reference the warn-dates are checked against. */
  function StoredDateInstant(stored: seq<Header>, c: Collaborators): (r: Option<Instant>)
    ensures r.Some? ==> exists i :: FirstEntry(stored, DATE, i) && c.parseHeaderDate(stored[i].value) == r
    ensures forall i :: FirstEntry(stored, DATE, i) ==> r == c.parseHeaderDate(stored[i].value)
    ensures (forall i :: 0 <= i < |stored| ==> !SameName(stored[i].name, DATE)) ==> r.None?
  {
    GetFirstEntry(stored, DATE);
    assert forall i, j :: FirstEntry(stored, DATE, i) && FirstEntry(stored, DATE, j) ==> i == j;
    match Get(stored, DATE)
    case None => None
    case Some(v) => c.parseHeaderDate(v)
  }

  /** A Warning value is dropped when its warn-date and the stored Date both parse and differ. */
  predicate Stale(warning: string, date: Option<Instant>, warnDate: string -> Option<Instant>) {
    warnDate(warning).Some? && date.Some? && warnDate(warning).value != date.value
  }

  /** The Warning values that survive, in their original order. */
  function KeptWarnings(ws: seq<string>, date: Option<Instant>, warnDate: string -> Option<Instant>): (r: seq<string>)
    ensures forall i :: 0 <= i < |r| ==> !Stale(r[i], date, warnDate)
  {
    if ws == [] then []
    else (if Stale(ws[0], date, warnDate) then [] else [ws[0]]) + KeptWarnings(ws[1..], date, warnDate)
  }

  lemma {:induction false} KeptWarningsConcat(a: seq<string>, b: seq<string>, date: Option<Instant>, warnDate: string -> Option<Instant>)
    ensures KeptWarnings(a + b, date, warnDate) == KeptWarnings(a, date, warnDate) + KeptWarnings(b, date, warnDate)
  {
    if a == [] {
      assert a + b == b;
    } else {
      assert (a + b)[0] == a[0];
      assert (a + b)[1..] == a[1..] + b;
      KeptWarningsConcat(a[1..], b, date, warnDate);
    }
  }

  /**
   * A value survives, with all its occurrences, exactly when it is not stale;
   * a stale one disappears entirely.
   */
  lemma {:induction false} KeptWarningsCount(ws: seq<string>, date: Option<Instant>, warnDate: string -> Option<Instant>, w: string)
    ensures multiset(KeptWarnings(ws, date, warnDate))[w]
         == if Stale(w, date, warnDate) then 0 else multiset(ws)[w]
  {
    if ws != [] {
      KeptWarningsCount(ws[1..], date, warnDate, w);
      assert ws == [ws[0]] + ws[1..];
    }
  }

  /** Without a parseable stored Date, every Warning value survives. */
  lemma {:induction false} KeptWarningsWithoutDate(ws: seq<string>, warnDate: string -> Option<Instant>)
    ensures KeptWarnings(ws, None, warnDate) == ws
  {
    if ws != [] {
      KeptWarningsWithoutDate(ws[1..], warnDate);
    }
  }

  /**
   * The iterator-removal loop over a copy of the stored Warning values: each
   * stale value is removed where it stands, the others are stepped over.
   */
  method SuppressStaleWarnings(warnings: seq<string>, date: Option<Instant>, warnDate: string -> Option<Instant>)
    returns (kept: seq<string>)
    ensures kept == KeptWarnings(warnings, date, warnDate)
  {
    kept := warnings;
    var i := 0;
    ghost var seen := 0;
    while i < |kept|
      invariant 0 <= seen <= |warnings| && i <= |kept|
      invariant kept[..i] == KeptWarnings(warnings[..seen], date, warnDate)
      invariant kept[i..] == warnings[seen..]
      decreases |kept| - i
    {
      ghost var done := kept[..i];
      ghost var rest := kept[i + 1..];
      var w := kept[i];
      assert kept == done + [w] + rest;
      assert w == warnings[seen] && rest == warnings[seen + 1..];
      assert warnings[..seen + 1] == warnings[..seen] + [w];
      KeptWarningsConcat(warnings[..seen], [w], date, warnDate);
      if Stale(w, date, warnDate) {
        kept := kept[..i] + kept[i + 1..];
        assert kept[..i] == done && kept[i..] == rest;
      } else {
        i := i + 1;
        assert kept[..i] == done + [w];
      }
      seen := seen + 1;
    }
    assert warnings[..seen] == warnings;
  }

  // --------------------------------------------------------- pass-through

  /**
   * The stored headers `send` does not copy: `content-type`, compared with
   * exact case and only while a body is present, and Date, Warning and
   * Transfer-Encoding in any case.
   */
  predicate Skipped(name: string, hasBody: bool) {
    (name == CONTENT_TYPE && hasBody)
    || SameName(name, DATE) || SameName(name, WARNING) || SameName(name, TRANSFER_ENCODING)
  }

  /** The stored headers copied by `add`, in iteration order. */
  function PassThrough(hs: seq<Header>, hasBody: bool): (r: seq<Header>)
    ensures forall i :: 0 <= i < |r| ==> !Skipped(r[i].name, hasBody)
  {
    if hs == [] then []
    else (if Skipped(hs[0].name, hasBody) then [] else [hs[0]]) + PassThrough(hs[1..], hasBody)
  }

  lemma {:induction false} PassThroughConcat(a: seq<Header>, b: seq<Header>, hasBody: bool)
    ensures PassThrough(a + b, hasBody) == PassThrough(a, hasBody) + PassThrough(b, hasBody)
  {
    if a == [] {
      assert a + b == b;
    } else {
      assert (a + b)[0] == a[0];
      assert (a + b)[1..] == a[1..] + b;
      PassThroughConcat(a[1..], b, hasBody);
    }
  }

  /**
   * Under a name the proxy does not own, the copied headers carry the stored
   * values unchanged, with their multiplicity and order; under Date, Warning
   * and Transfer-Encoding they carry nothing.
   */
  lemma {:induction false} PassThroughValues(hs: seq<Header>, hasBody: bool, name: string)
    ensures SameName(name, DATE) || SameName(name, WARNING) || SameName(name, TRANSFER_ENCODING)
            ==> ValuesOf(PassThrough(hs, hasBody), name) == []
    ensures !SameName(name, DATE) && !SameName(name, WARNING) && !SameName(name, TRANSFER_ENCODING)
            && !(hasBody && SameName(name, CONTENT_TYPE))
            ==> ValuesOf(PassThrough(hs, hasBody), name) == ValuesOf(hs, name)
  {
    if hs != [] {
      var head := if Skipped(hs[0].name, hasBody) then [] else [hs[0]];
      ValuesOfConcat(head, PassThrough(hs[1..], hasBody), name);
      PassThroughValues(hs[1..], hasBody, name);
    }
  }

  /**
   * Each stored entry is copied as often as it is stored unless its name is
   * skipped, and then not at all; in particular, with a body, an entry whose
   * name folds to `content-type` is dropped only when spelled exactly so.
   */
  lemma {:induction false} PassThroughCount(hs: seq<Header>, hasBody: bool, h: Header)
    ensures multiset(PassThrough(hs, hasBody))[h] == if Skipped(h.name, hasBody) then 0 else multiset(hs)[h]
  {
    if hs != [] {
      PassThroughCount(hs[1..], hasBody, h);
      assert hs == [hs[0]] + hs[1..];
    }
  }

  /**
   * The `content-type` skip is case-sensitive: while a body is present, a
   * stored `Content-Type` is copied although `content-type` is not.
   */
  lemma ContentTypeSkipIsCaseSensitive(v: string)
    ensures PassThrough([Header("Content-Type", v)], true) == [Header("Content-Type", v)]
    ensures PassThrough([Header("content-type", v)], true) == []
  {
    assert |FoldCase("Content-Type")| != |FoldCase(DATE)|;
    assert |FoldCase("Content-Type")| != |FoldCase(WARNING)|;
    assert |FoldCase("Content-Type")| != |FoldCase(TRANSFER_ENCODING)|;
  }

  // ------------------------------------------------------------- framing

  /** The framing headers of the transfer strategy. */
  function FramingHeaders(hs: seq<Header>, body: Option<Body>, originDeclaresLength: bool): (r: seq<Header>)
    ensures body.None? && originDeclaresLength ==> ValuesOf(r, CONTENT_LENGTH) == ["0"]
    ensures body.Some? && body.value.length >= 0 ==> ValuesOf(r, CONTENT_LENGTH) == [LongToString(body.value.length)]
    ensures body.Some? && body.value.mediaType.Some? ==> ValuesOf(r, CONTENT_TYPE) == [body.value.mediaType.value]
    ensures body.None? && !originDeclaresLength ==> r == hs
    ensures body.Some? && body.value.length < 0 && body.value.mediaType.None? ==> r == hs
  {
    match body
    case None =>
      SetValues(hs, CONTENT_LENGTH, "0", CONTENT_LENGTH);
      if originDeclaresLength then Set(hs, CONTENT_LENGTH, "0") else hs
    case Some(b) =>
      var typed := if b.mediaType.Some? then Set(hs, CONTENT_TYPE, b.mediaType.value) else hs;
      assert b.mediaType.Some? ==> ValuesOf(typed, CONTENT_TYPE) == [b.mediaType.value] by {
        if b.mediaType.Some? {
          SetValues(hs, CONTENT_TYPE, b.mediaType.value, CONTENT_TYPE);
        }
      }
      SetValues(typed, CONTENT_LENGTH, LongToString(b.length), CONTENT_LENGTH);
      SetValues(typed, CONTENT_LENGTH, LongToString(b.length), CONTENT_TYPE);
      if b.length >= 0 then Set(typed, CONTENT_LENGTH, LongToString(b.length)) else typed
  }

  /**
   * The client response's headers after `send`, from its headers before
   * (`initial`), the stored headers, the body, whether the origin response
   * declared a Content-Length, the formatted date (None when formatting
   * failed) and the surviving Warning values.
   */
  function OutboundHeaders(initial: seq<Header>, stored: seq<Header>, body: Option<Body>,
                           originDeclaresLength: bool, formattedDate: Option<string>,
                           kept: seq<string>): seq<Header>
  {
    FramingHeaders(RewrittenHeaders(initial, stored, body.Some?, formattedDate, kept), body, originDeclaresLength)
  }

  /** The headers before framing: Date set, Warning set, stored headers copied. */
  function RewrittenHeaders(initial: seq<Header>, stored: seq<Header>, hasBody: bool,
                            formattedDate: Option<string>, kept: seq<string>): seq<Header>
  {
    var dated := if formattedDate.Some? then Set(initial, DATE, formattedDate.value) else initial;
    SetAll(dated, WARNING, kept) + PassThrough(stored, hasBody)
  }

  /** Framing touches Content-Type and Content-Length only. */
  lemma FramingValues(hs: seq<Header>, body: Option<Body>, originDeclaresLength: bool, name: string)
    requires !SameName(name, CONTENT_TYPE) && !SameName(name, CONTENT_LENGTH)
    ensures ValuesOf(FramingHeaders(hs, body, originDeclaresLength), name) == ValuesOf(hs, name)
  {
    match body
    case None =>
      SetValues(hs, CONTENT_LENGTH, "0", name);
    case Some(b) =>
      var typed := if b.mediaType.Some? then Set(hs, CONTENT_TYPE, b.mediaType.value) else hs;
      if b.mediaType.Some? {
        SetValues(hs, CONTENT_TYPE, b.mediaType.value, name);
      }
      SetValues(typed, CONTENT_LENGTH, LongToString(b.length), name);
  }

  /**
   * Exactly one Date header goes out, carrying the formatted date; when
   * formatting failed, the client response's own Date values stay as they
   * were.
   */
  lemma OutboundDate(initial: seq<Header>, stored: seq<Header>, body: Option<Body>,
                     originDeclaresLength: bool, formattedDate: Option<string>, kept: seq<string>)
    ensures ValuesOf(OutboundHeaders(initial, stored, body, originDeclaresLength, formattedDate, kept), DATE)
         == if formattedDate.Some? then [formattedDate.value] else ValuesOf(initial, DATE)
  {
    var dated := if formattedDate.Some? then Set(initial, DATE, formattedDate.value) else initial;
    var warned := SetAll(dated, WARNING, kept);
    if formattedDate.Some? {
      SetValues(initial, DATE, formattedDate.value, DATE);
    }
    SetAllValues(dated, WARNING, kept, DATE);
    PassThroughValues(stored, body.Some?, DATE);
    ValuesOfConcat(warned, PassThrough(stored, body.Some?), DATE);
    FramingValues(warned + PassThrough(stored, body.Some?), body, originDeclaresLength, DATE);
  }

  /** The Warning values that go out are exactly the surviving ones. */
  lemma OutboundWarnings(initial: seq<Header>, stored: seq<Header>, body: Option<Body>,
                         originDeclaresLength: bool, formattedDate: Option<string>, kept: seq<string>)
    ensures ValuesOf(OutboundHeaders(initial, stored, body, originDeclaresLength, formattedDate, kept), WARNING)
         == kept
  {
    var dated := if formattedDate.Some? then Set(initial, DATE, formattedDate.value) else initial;
    var warned := SetAll(dated, WARNING, kept);
    SetAllValues(dated, WARNING, kept, WARNING);
    PassThroughValues(stored, body.Some?, WARNING);
    ValuesOfConcat(warned, PassThrough(stored, body.Some?), WARNING);
    FramingValues(warned + PassThrough(stored, body.Some?), body, originDeclaresLength, WARNING);
  }

  /** No stored Transfer-Encoding reaches the client. */
  lemma OutboundTransferEncoding(initial: seq<Header>, stored: seq<Header>, body: Option<Body>,
                                 originDeclaresLength: bool, formattedDate: Option<string>, kept: seq<string>)
    ensures ValuesOf(OutboundHeaders(initial, stored, body, originDeclaresLength, formattedDate, kept), TRANSFER_ENCODING)
         == ValuesOf(initial, TRANSFER_ENCODING)
  {
    var dated := if formattedDate.Some? then Set(initial, DATE, formattedDate.value) else initial;
    var warned := SetAll(dated, WARNING, kept);
    if formattedDate.Some? {
      SetValues(initial, DATE, formattedDate.value, TRANSFER_ENCODING);
    }
    SetAllValues(dated, WARNING, kept, TRANSFER_ENCODING);
    PassThroughValues(stored, body.Some?, TRANSFER_ENCODING);
    ValuesOfConcat(warned, PassThrough(stored, body.Some?), TRANSFER_ENCODING);
    FramingValues(warned + PassThrough(stored, body.Some?), body, originDeclaresLength, TRANSFER_ENCODING);
  }

  /**
   * Every other stored header goes out with the same values, multiplicity
   * and order, after the values the client response already had.
   */
  lemma OutboundOtherHeaders(initial: seq<Header>, stored: seq<Header>, body: Option<Body>,
                             originDeclaresLength: bool, formattedDate: Option<string>, kept: seq<string>,
                             name: string)
    requires !SameName(name, DATE) && !SameName(name, WARNING) && !SameName(name, TRANSFER_ENCODING)
    requires !SameName(name, CONTENT_TYPE) && !SameName(name, CONTENT_LENGTH)
    ensures ValuesOf(OutboundHeaders(initial, stored, body, originDeclaresLength, formattedDate, kept), name)
         == ValuesOf(initial, name) + ValuesOf(stored, name)
  {
    var dated := if formattedDate.Some? then Set(initial, DATE, formattedDate.value) else initial;
    var warned := SetAll(dated, WARNING, kept);
    if formattedDate.Some? {
      SetValues(initial, DATE, formattedDate.value, name);
    }
    SetAllValues(dated, WARNING, kept, name);
    PassThroughValues(stored, body.Some?, name);
    ValuesOfConcat(warned, PassThrough(stored, body.Some?), name);
    FramingValues(warned + PassThrough(stored, body.Some?), body, originDeclaresLength, name);
  }

  /**
   * Content-Length: the body's length when it is known; "0" for a response
   * without a body whose origin declared one; otherwise whatever was there
   * and whatever was stored, copied verbatim.
   */
  lemma OutboundContentLength(initial: seq<Header>, stored: seq<Header>, body: Option<Body>,
                              originDeclaresLength: bool, formattedDate: Option<string>, kept: seq<string>)
    ensures var out := ValuesOf(OutboundHeaders(initial, stored, body, originDeclaresLength, formattedDate, kept), CONTENT_LENGTH);
      && (body.Some? && body.value.length >= 0 ==> out == [LongToString(body.value.length)])
      && (body.None? && originDeclaresLength ==> out == ["0"])
      && ((body.None? && !originDeclaresLength) || (body.Some? && body.value.length < 0)
          ==> out == ValuesOf(initial, CONTENT_LENGTH) + ValuesOf(stored, CONTENT_LENGTH))
  {
    var dated := if formattedDate.Some? then Set(initial, DATE, formattedDate.value) else initial;
    var warned := SetAll(dated, WARNING, kept);
    var copied := warned + PassThrough(stored, body.Some?);
    if formattedDate.Some? {
      SetValues(initial, DATE, formattedDate.value, CONTENT_LENGTH);
    }
    SetAllValues(dated, WARNING, kept, CONTENT_LENGTH);
    PassThroughValues(stored, body.Some?, CONTENT_LENGTH);
    ValuesOfConcat(warned, PassThrough(stored, body.Some?), CONTENT_LENGTH);
    match body
    case None =>
      SetValues(copied, CONTENT_LENGTH, "0", CONTENT_LENGTH);
    case Some(b) =>
      var typed := if b.mediaType.Some? then Set(copied, CONTENT_TYPE, b.mediaType.value) else copied;
      if b.mediaType.Some? {
        SetValues(copied, CONTENT_TYPE, b.mediaType.value, CONTENT_LENGTH);
      }
      SetValues(typed, CONTENT_LENGTH, LongToString(b.length), CONTENT_LENGTH);
  }

  /**
   * Content-Type: the body's media type when it has one; without a body,
   * the stored values are copied whatever their case; with a body that has
   * no media type, the stored values are copied except those spelled exactly
   * `content-type` (see `PassThroughCount`).
   */
  lemma OutboundContentType(initial: seq<Header>, stored: seq<Header>, body: Option<Body>,
                            originDeclaresLength: bool, formattedDate: Option<string>, kept: seq<string>)
    ensures var out := ValuesOf(OutboundHeaders(initial, stored, body, originDeclaresLength, formattedDate, kept), CONTENT_TYPE);
      && (body.Some? && body.value.mediaType.Some? ==> out == [body.value.mediaType.value])
      && (body.None? ==> out == ValuesOf(initial, CONTENT_TYPE) + ValuesOf(stored, CONTENT_TYPE))
      && (body.Some? && body.value.mediaType.None?
          ==> out == ValuesOf(initial, CONTENT_TYPE) + ValuesOf(PassThrough(stored, true), CONTENT_TYPE))
  {
    var dated := if formattedDate.Some? then Set(initial, DATE, formattedDate.value) else initial;
    var warned := SetAll(dated, WARNING, kept);
    var copied := warned + PassThrough(stored, body.Some?);
    if formattedDate.Some? {
      SetValues(initial, DATE, formattedDate.value, CONTENT_TYPE);
    }
    SetAllValues(dated, WARNING, kept, CONTENT_TYPE);
    PassThroughValues(stored, body.Some?, CONTENT_TYPE);
    ValuesOfConcat(warned, PassThrough(stored, body.Some?), CONTENT_TYPE);
    match body
    case None =>
      SetValues(copied, CONTENT_LENGTH, "0", CONTENT_TYPE);
    case Some(b) =>
      var typed := if b.mediaType.Some? then Set(copied, CONTENT_TYPE, b.mediaType.value) else copied;
      if b.mediaType.Some? {
        SetValues(copied, CONTENT_TYPE, b.mediaType.value, CONTENT_TYPE);
      }
      SetValues(typed, CONTENT_LENGTH, LongToString(b.length), CONTENT_TYPE);
  }
}

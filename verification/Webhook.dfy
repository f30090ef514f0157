/**
  Normalised payment events: what a decoded provider payload becomes before any
  of it reaches the database.
 */
module Webhook {
  import opened Options

  newtype byte = x: int | 0 <= x < 256
  type Bytes = seq<byte>

  datatype PaymentStatus =
    | Pending | Authorized | Paid | Failed | Expired | Cancelled
    | PartiallyRefunded | Refunded | Disputed | Chargeback

  /** `timestamp` is an instant at the resolution of the stored TIMESTAMPTZ column. */
  datatype PaymentEvent = PaymentEvent(
    providerEventID: string,
    paymentID: string,
    eventType: string,
    paymentStatus: PaymentStatus,
    timestamp: int,
    rawPayload: Bytes)
  {
    /** The status is the one the event type names, as for every parsed event. */
    predicate WellFormed() {
      StatusOfEventType(eventType) == Some(paymentStatus)
    }
  }

  /** The four text fields of a decoded JSON body. */
  datatype Payload = Payload(providerEventID: string, paymentID: string, eventType: string, eventTimestamp: string)

  datatype ParseError =
    | InvalidJSON | MissingProviderEventID | MissingPaymentID | MissingEventType
    | UnknownEventType | MissingEventTimestamp | InvalidEventTimestamp

  /** JSON decoding and RFC 3339 reading belong to Go's library: they are parameters. */
  type JSONDecoder = Bytes -> Option<Payload>
  type TimeReader = string -> Option<int>

  function StatusOfEventType(eventType: string): Option<PaymentStatus> {
    if eventType == "payment.pending" then Some(Pending)
    else if eventType == "payment.authorized" then Some(Authorized)
    else if eventType == "payment.paid" then Some(Paid)
    else if eventType == "payment.failed" then Some(Failed)
    else if eventType == "payment.expired" then Some(Expired)
    else if eventType == "payment.cancelled" then Some(Cancelled)
    else if eventType == "payment.partially_refunded" then Some(PartiallyRefunded)
    else if eventType == "payment.refunded" then Some(Refunded)
    else if eventType == "payment.disputed" then Some(Disputed)
    else if eventType == "payment.chargeback" then Some(Chargeback)
    else None
  }

  function EventTypeOf(s: PaymentStatus): string {
    match s
    case Pending => "payment.pending"
    case Authorized => "payment.authorized"
    case Paid => "payment.paid"
    case Failed => "payment.failed"
    case Expired => "payment.expired"
    case Cancelled => "payment.cancelled"
    case PartiallyRefunded => "payment.partially_refunded"
    case Refunded => "payment.refunded"
    case Disputed => "payment.disputed"
    case Chargeback => "payment.chargeback"
  }

  /** Event types and statuses are in one-to-one correspondence. */
  lemma EventTypesNameStatuses(eventType: string, s: PaymentStatus)
    ensures StatusOfEventType(eventType) == Some(s) <==> eventType == EventTypeOf(s)
  {
  }

  /** Go's unicode.IsSpace. */
  predicate IsSpace(c: char) {
    || c in {'\t', '\n', '\U{000B}', '\U{000C}', '\r', ' ', '\U{0085}', '\U{00A0}'}
    || c in {'\U{1680}', '\U{2028}', '\U{2029}', '\U{202F}', '\U{205F}', '\U{3000}'}
    || '\U{2000}' <= c <= '\U{200A}'
  }

  /** The white space characters by code point. */
  lemma SpaceByCodePoint(c: char)
    ensures IsSpace(c) <==>
            || 9 <= c as int <= 13
            || c as int in {32, 0x85, 0xA0, 0x1680, 0x2028, 0x2029, 0x202F, 0x205F, 0x3000}
            || 0x2000 <= c as int <= 0x200A
  {
  }

  predicate AllSpace(s: string) {
    forall i | 0 <= i < |s| :: IsSpace(s[i])
  }

  function TrimLeft(s: string): string {
    if s != "" && IsSpace(s[0]) then TrimLeft(s[1..]) else s
  }

  function TrimRight(s: string): string {
    if s != "" && IsSpace(s[|s| - 1]) then TrimRight(s[..|s| - 1]) else s
  }

  function TrimSpace(s: string): string {
    TrimRight(TrimLeft(s))
  }

  /** No white space at either end. */
  predicate Trimmed(s: string) {
    s != "" ==> !IsSpace(s[0]) && !IsSpace(s[|s| - 1])
  }

  function ParseEvent(raw: Bytes, decode: JSONDecoder, readTime: TimeReader): (r: Result<PaymentEvent, ParseError>)
    ensures r.Success? ==>
              && r.value.WellFormed()
              && r.value.providerEventID != "" && Trimmed(r.value.providerEventID)
              && r.value.paymentID != "" && Trimmed(r.value.paymentID)
              && r.value.rawPayload == raw
  {
    match decode(raw)
    case None => Failure(InvalidJSON)
    case Some(payload) =>
      var providerEventID := TrimSpace(payload.providerEventID);
      TrimSpaceTrims(payload.providerEventID);
      if providerEventID == "" then Failure(MissingProviderEventID) else
      var paymentID := TrimSpace(payload.paymentID);
      TrimSpaceTrims(payload.paymentID);
      if paymentID == "" then Failure(MissingPaymentID) else
      var eventType := TrimSpace(payload.eventType);
      if eventType == "" then Failure(MissingEventType) else
      match StatusOfEventType(eventType)
      case None => Failure(UnknownEventType)
      case Some(status) =>
        var eventTimestamp := TrimSpace(payload.eventTimestamp);
        if eventTimestamp == "" then Failure(MissingEventTimestamp) else
        match readTime(eventTimestamp)
        case None => Failure(InvalidEventTimestamp)
        case Some(instant) => Success(PaymentEvent(providerEventID, paymentID, eventType, status, instant, raw))
  }

  /* ---- Trimming ---- */

  /** TrimSpace cuts white space off both ends and nothing else. */
  lemma TrimSpaceTrims(s: string)
    ensures Trimmed(TrimSpace(s))
    ensures exists left, right ::
              AllSpace(left) && AllSpace(right) && s == left + TrimSpace(s) + right
  {
    var left := TrimLeftCuts(s);
    var right := TrimRightCuts(TrimLeft(s));
    var t := TrimSpace(s);
    if t != "" {
      assert TrimLeft(s)[0] == t[0];
    }
    assert s == left + t + right;
  }

  lemma {:induction false} TrimLeftCuts(s: string) returns (left: string)
    ensures AllSpace(left) && s == left + TrimLeft(s)
    ensures TrimLeft(s) != "" ==> !IsSpace(TrimLeft(s)[0])
  {
    if s != "" && IsSpace(s[0]) {
      var rest := TrimLeftCuts(s[1..]);
      left := [s[0]] + rest;
    } else {
      left := "";
    }
  }

  lemma {:induction false} TrimRightCuts(s: string) returns (right: string)
    ensures AllSpace(right) && s == TrimRight(s) + right
    ensures TrimRight(s) != "" ==> !IsSpace(TrimRight(s)[|TrimRight(s)| - 1])
  {
    if s != "" && IsSpace(s[|s| - 1]) {
      var rest := TrimRightCuts(s[..|s| - 1]);
      right := rest + [s[|s| - 1]];
    } else {
      right := "";
    }
  }

  /** The trimmed core of a string is unique, whatever padding surrounds it. */
  lemma TrimSpaceIs(left: string, core: string, right: string)
    requires AllSpace(left) && AllSpace(right) && Trimmed(core)
    ensures TrimSpace(left + core + right) == core
  {
    TrimLeftSkips(left, core + right);
    assert left + core + right == left + (core + right);
    if core == "" {
      TrimLeftSkips(right, "");
      assert right + "" == right && "" + right == right;
    } else {
      TrimRightSkips(core, right);
    }
  }

  lemma {:induction false} TrimLeftSkips(left: string, s: string)
    requires AllSpace(left)
    ensures TrimLeft(left + s) == TrimLeft(s)
  {
    if left == "" {
      assert left + s == s;
    } else {
      assert (left + s)[1..] == left[1..] + s;
      TrimLeftSkips(left[1..], s);
    }
  }

  lemma {:induction false} TrimRightSkips(s: string, right: string)
    requires AllSpace(right)
    ensures TrimRight(s + right) == TrimRight(s)
  {
    if right == "" {
      assert s + right == s;
    } else {
      assert (s + right)[..|s + right| - 1] == s + right[..|right| - 1];
      TrimRightSkips(s, right[..|right| - 1]);
    }
  }

  /** Extra padding around a string does not change what is left after trimming. */
  lemma TrimSpacePadded(left: string, s: string, right: string)
    requires AllSpace(left) && AllSpace(right)
    ensures TrimSpace(left + s + right) == TrimSpace(s)
  {
    TrimSpaceTrims(s);
    var l, r :| AllSpace(l) && AllSpace(r) && s == l + TrimSpace(s) + r;
    assert left + s + right == (left + l) + TrimSpace(s) + (r + right);
    TrimSpaceIs(left + l, TrimSpace(s), r + right);
  }

  /* ---- Padding and parsing ---- */

  ghost predicate PaddingOf(padded: string, s: string) {
    exists left, right :: AllSpace(left) && AllSpace(right) && padded == left + s + right
  }

  ghost predicate PayloadPaddingOf(padded: Payload, payload: Payload) {
    && PaddingOf(padded.providerEventID, payload.providerEventID)
    && PaddingOf(padded.paymentID, payload.paymentID)
    && PaddingOf(padded.eventType, payload.eventType)
    && PaddingOf(padded.eventTimestamp, payload.eventTimestamp)
  }

  lemma PaddingTrimsAlike(padded: string, s: string)
    requires PaddingOf(padded, s)
    ensures TrimSpace(padded) == TrimSpace(s)
  {
    var left, right :| AllSpace(left) && AllSpace(right) && padded == left + s + right;
    TrimSpacePadded(left, s, right);
  }

  /** The only trimmed string that s pads is what trimming leaves of it. */
  lemma PaddingOfTrimmed(s: string, core: string)
    ensures PaddingOf(s, core) && Trimmed(core) <==> core == TrimSpace(s)
  {
    if PaddingOf(s, core) && Trimmed(core) {
      var left, right :| AllSpace(left) && AllSpace(right) && s == left + core + right;
      TrimSpaceIs(left, core, right);
    }
    TrimSpaceTrims(s);
  }

  /** The text is a nonempty trimmed core with white space around it. */
  ghost predicate Reads(s: string, core: string) {
    core != "" && Trimmed(core) && PaddingOf(s, core)
  }

  /**
    Parsing succeeds with an event exactly when the event's own fields, padded in any way,
    are what the payload says, its type names its status, and its instant is what the
    timestamp reads as.
   */
  lemma ParsesExactly(raw: Bytes, decode: JSONDecoder, readTime: TimeReader, e: PaymentEvent)
    ensures ParseEvent(raw, decode, readTime) == Success(e) <==>
            && decode(raw).Some?
            && Reads(decode(raw).value.providerEventID, e.providerEventID)
            && Reads(decode(raw).value.paymentID, e.paymentID)
            && Reads(decode(raw).value.eventType, e.eventType)
            && (exists time :: Reads(decode(raw).value.eventTimestamp, time) && readTime(time) == Some(e.timestamp))
            && e.WellFormed()
            && e.rawPayload == raw
  {
    if decode(raw).Some? {
      var p := decode(raw).value;
      PaddingOfTrimmed(p.providerEventID, e.providerEventID);
      PaddingOfTrimmed(p.paymentID, e.paymentID);
      PaddingOfTrimmed(p.eventType, e.eventType);
      forall time ensures Reads(p.eventTimestamp, time) <==> time != "" && time == TrimSpace(p.eventTimestamp) {
        PaddingOfTrimmed(p.eventTimestamp, time);
      }
    }
  }

  lemma BlankTrimsToNothing(s: string)
    ensures AllSpace(s) <==> TrimSpace(s) == ""
  {
    if AllSpace(s) {
      TrimSpaceIs(s, "", "");
      assert s + "" + "" == s;
    }
    TrimSpaceTrims(s);
  }

  /** Which error is reported: that of the first field in the parser's order that is blank or cannot be read. */
  lemma FailsExactly(raw: Bytes, decode: JSONDecoder, readTime: TimeReader, error: ParseError)
    ensures ParseEvent(raw, decode, readTime) == Failure(error) <==>
            match decode(raw)
            case None => error == InvalidJSON
            case Some(p) =>
              if AllSpace(p.providerEventID) then error == MissingProviderEventID
              else if AllSpace(p.paymentID) then error == MissingPaymentID
              else if AllSpace(p.eventType) then error == MissingEventType
              else if forall s :: !Reads(p.eventType, EventTypeOf(s)) then error == UnknownEventType
              else if AllSpace(p.eventTimestamp) then error == MissingEventTimestamp
              else error == InvalidEventTimestamp && forall time | Reads(p.eventTimestamp, time) :: readTime(time).None?
  {
    if decode(raw).Some? {
      var p := decode(raw).value;
      BlankTrimsToNothing(p.providerEventID);
      BlankTrimsToNothing(p.paymentID);
      BlankTrimsToNothing(p.eventType);
      BlankTrimsToNothing(p.eventTimestamp);
      forall s ensures Reads(p.eventType, EventTypeOf(s)) <==> StatusOfEventType(TrimSpace(p.eventType)) == Some(s) {
        PaddingOfTrimmed(p.eventType, EventTypeOf(s));
        EventTypesNameStatuses(TrimSpace(p.eventType), s);
      }
      forall time ensures Reads(p.eventTimestamp, time) <==> time != "" && time == TrimSpace(p.eventTimestamp) {
        PaddingOfTrimmed(p.eventTimestamp, time);
      }
    }
  }

  /**
    Padding any of the four fields changes nothing about parsing but the raw bytes
    kept with the event: the same error, or the same event.
   */
  lemma ParsePadded(raw: Bytes, padded: Bytes, decode: JSONDecoder, readTime: TimeReader)
    requires decode(raw).Some? && decode(padded).Some?
    requires PayloadPaddingOf(decode(padded).value, decode(raw).value)
    ensures match ParseEvent(raw, decode, readTime)
            case Failure(error) => ParseEvent(padded, decode, readTime) == Failure(error)
            case Success(event) => ParseEvent(padded, decode, readTime) == Success(event.(rawPayload := padded))
  {
    var p, q := decode(padded).value, decode(raw).value;
    PaddingTrimsAlike(p.providerEventID, q.providerEventID);
    PaddingTrimsAlike(p.paymentID, q.paymentID);
    PaddingTrimsAlike(p.eventType, q.eventType);
    PaddingTrimsAlike(p.eventTimestamp, q.eventTimestamp);
  }

  /* ---- Plain text ---- */

  /** Tabs, line breaks and blanks. */
  predicate PlainPadding(s: string) {
    forall i | 0 <= i < |s| :: 9 <= s[i] as int <= 13 || s[i] as int == 32
  }

  /** A nonempty text that starts and ends in visible ASCII characters. */
  predicate PlainCore(s: string) {
    s != "" && 33 <= s[0] as int <= 126 && 33 <= s[|s| - 1] as int <= 126
  }

  ghost predicate PlainlyPads(s: string, core: string) {
    PlainCore(core) && exists left, right :: PlainPadding(left) && PlainPadding(right) && s == left + core + right
  }

  lemma PlainlyReads(s: string, core: string)
    requires PlainlyPads(s, core)
    ensures Reads(s, core)
  {
    var left, right :| PlainPadding(left) && PlainPadding(right) && s == left + core + right;
    forall i | 0 <= i < |left| ensures IsSpace(left[i]) {
      SpaceByCodePoint(left[i]);
    }
    forall i | 0 <= i < |right| ensures IsSpace(right[i]) {
      SpaceByCodePoint(right[i]);
    }
    SpaceByCodePoint(core[0]);
    SpaceByCodePoint(core[|core| - 1]);
    assert AllSpace(left) && AllSpace(right);
  }

  /** Blanks, tabs and line breaks around plain fields are dropped: the fields' cores make the event. */
  lemma PlainPaddingIsDropped(raw: Bytes, decode: JSONDecoder, readTime: TimeReader, e: PaymentEvent, time: string)
    requires decode(raw).Some? && e.rawPayload == raw
    requires PlainlyPads(decode(raw).value.providerEventID, e.providerEventID)
    requires PlainlyPads(decode(raw).value.paymentID, e.paymentID)
    requires PlainlyPads(decode(raw).value.eventType, e.eventType) && e.eventType == EventTypeOf(e.paymentStatus)
    requires PlainlyPads(decode(raw).value.eventTimestamp, time) && readTime(time) == Some(e.timestamp)
    ensures ParseEvent(raw, decode, readTime) == Success(e)
  {
    PlainlyReads(decode(raw).value.providerEventID, e.providerEventID);
    PlainlyReads(decode(raw).value.paymentID, e.paymentID);
    PlainlyReads(decode(raw).value.eventType, e.eventType);
    PlainlyReads(decode(raw).value.eventTimestamp, time);
    EventTypesNameStatuses(e.eventType, e.paymentStatus);
    ParsesExactly(raw, decode, readTime, e);
  }
}

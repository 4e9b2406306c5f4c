/**
 * The pipeline half of `WebhookUtils`: `parseEvent` (verify, then decode, then validate),
 * `isEventRecent`, and the function `createHandler` returns (parse, then dispatch on the
 * event type). `JSON.parse` of the payload text and `new Date(s).getTime()` are parameters.
 */
module Webhook {
  import opened Base
  import opened Js
  import opened Signature
  import opened EventSchema

  /** `JSON.parse` of the payload's text: the value, or the message of the SyntaxError. */
  type Decoder = Payload -> Result<Json, string>

  /** Why `parseEvent` gives `isValid: false`. */
  datatype ParseError =
    | SignatureMismatch
    | DecodeFailed(message: string)
    | SchemaViolation(reason: EventError)
  {
    /** The `error` text of the result. */
    function Message(): (m: string)
      ensures m == [] ==> this.DecodeFailed? && this.message == []
    {
      match this
      case SignatureMismatch => "Invalid webhook signature"
      case DecodeFailed(m) => m
      case SchemaViolation(e) => e.Message()
    }
  }

  /** `{isValid: true, event}` or `{isValid: false, error}`, never both. */
  datatype ParseResult = Parsed(event: Json) | Rejected(error: ParseError)

  /** `parseEvent(payload, signature, secret)`. */
  function ParseEvent(payload: Payload, signature: Option<string>, secret: string,
                      hmac: Hmac, decode: Decoder): (r: ParseResult)
    ensures r.Parsed? ==> decode(payload) == Ok(r.event)
    ensures r.Parsed? <==>
      && signature == Some(GenerateSignature(payload, secret, hmac))
      && decode(payload).Ok?
      && WellFormedEvent(decode(payload).value)
  {
    if !VerifySignature(payload, signature, secret, hmac) then Rejected(SignatureMismatch)
    else match decode(payload)
      case Err(message) => Rejected(DecodeFailed(message))
      case Ok(eventData) =>
        match ValidateEventStructure(eventData)
        case Invalid(reason) => Rejected(SchemaViolation(reason))
        case Valid => Parsed(eventData)
  }

  /** A bad signature is reported before the body is looked at: the decoder plays no part. */
  lemma SignatureCheckedFirst(payload: Payload, signature: Option<string>, secret: string,
                              hmac: Hmac, d1: Decoder, d2: Decoder)
    requires signature != Some(GenerateSignature(payload, secret, hmac))
    ensures ParseEvent(payload, signature, secret, hmac, d1) == Rejected(SignatureMismatch)
    ensures ParseEvent(payload, signature, secret, hmac, d1) == ParseEvent(payload, signature, secret, hmac, d2)
  {
  }

  /** With an authentic signature, a decode failure or the first failing schema check is reported. */
  lemma AuthenticRejections(payload: Payload, secret: string, hmac: Hmac, decode: Decoder)
    ensures var r := ParseEvent(payload, Some(GenerateSignature(payload, secret, hmac)), secret, hmac, decode);
      && (decode(payload).Err? ==> r == Rejected(DecodeFailed(decode(payload).error)))
      && (decode(payload).Ok? && ValidateEventStructure(decode(payload).value).Invalid? ==>
            r == Rejected(SchemaViolation(ValidateEventStructure(decode(payload).value).error)))
  {
  }

  /**
   * An authentic event with an unknown type and a `type` object carrying its own
   * `toString` is rejected with the TypeError's message, which `parseEvent` catches.
   */
  lemma UnconvertibleTypeReported(payload: Payload, secret: string, hmac: Hmac, decode: Decoder)
    requires decode(payload) == Ok(JObj(map["event" := JStr("x"), "type" := JObj(map["toString" := JNum(0)])]))
    ensures var r := ParseEvent(payload, Some(GenerateSignature(payload, secret, hmac)), secret, hmac, decode);
      r.Rejected? && r.error.Message() == ConversionError
  {
    var j := decode(payload).value;
    assert Prop(j, "event") == Some(JStr("x"));
    assert "x" !in EventTypes;
    assert !Convertible(JObj(map["toString" := JNum(0)]));
  }

  // ---------------------------------------------------------------------------
  // isEventRecent

  /** The `timestamp` argument: epoch seconds, or a date string. */
  datatype EventTime = EpochSeconds(seconds: int) | DateText(text: string)

  function EventMillis(t: EventTime, parseDate: DateParser): Option<int> {
    match t
    case EpochSeconds(s) => Some(s * 1000)
    case DateText(text) => parseDate(text)
  }

  function Abs(x: int): nat {
    if x < 0 then -x else x
  }

  /**
   * `isEventRecent(timestamp, toleranceInSeconds = 300)` with `Date.now()` given as `now`
   * (milliseconds). `|now - t| / 1000 <= tolerance` is stated without the division.
   */
  function IsEventRecent(timestamp: EventTime, now: int, parseDate: DateParser, tolerance: int := 300): (r: bool)
    ensures EventMillis(timestamp, parseDate).None? ==> !r
    ensures EventMillis(timestamp, parseDate).Some? ==>
      (r <==> -tolerance * 1000 <= now - EventMillis(timestamp, parseDate).value <= tolerance * 1000)
    ensures timestamp.EpochSeconds? ==>
      (r <==> -tolerance * 1000 <= now - timestamp.seconds * 1000 <= tolerance * 1000)
  {
    match EventMillis(timestamp, parseDate)
    case None => false
    case Some(eventTime) => Abs(now - eventTime) <= tolerance * 1000
  }

  /** Widening the window never makes a recent event stale. */
  lemma RecentMonotone(timestamp: EventTime, now: int, parseDate: DateParser, t1: int, t2: int)
    requires t1 <= t2 && IsEventRecent(timestamp, now, parseDate, t1)
    ensures IsEventRecent(timestamp, now, parseDate, t2)
  {
  }

  /** Events as far in the future as in the past are treated alike. */
  lemma RecentSymmetric(now: int, delta: int, parseDate: DateParser, tolerance: int)
    ensures IsEventRecent(EpochSeconds(now + delta), now * 1000, parseDate, tolerance)
        == IsEventRecent(EpochSeconds(now - delta), now * 1000, parseDate, tolerance)
  {
  }

  /** An unparseable date is never recent. */
  lemma UnparseableNotRecent(text: string, now: int, parseDate: DateParser, tolerance: int)
    requires parseDate(text).None?
    ensures !IsEventRecent(DateText(text), now, parseDate, tolerance)
  {
  }

  /** With the default window, 299 seconds old is recent and 301 seconds old is not. */
  lemma DefaultWindowExample(nowSeconds: int, parseDate: DateParser)
    ensures IsEventRecent(EpochSeconds(nowSeconds - 299), nowSeconds * 1000, parseDate)
    ensures !IsEventRecent(EpochSeconds(nowSeconds - 301), nowSeconds * 1000, parseDate)
    ensures IsEventRecent(EpochSeconds(nowSeconds - 300), nowSeconds * 1000, parseDate)
  {
  }

  // ---------------------------------------------------------------------------
  // createHandler

  /** What one call of the function built by `createHandler(secret, handlers)` does. */
  datatype Dispatch<H> =
    | Threw(message: string)
    | Invoked(handler: H, event: Json)
    | Ignored

  /** The `event` field of a parsed event. */
  function EventType(event: Json): string
    requires WellFormedEvent(event)
  {
    event.fields["event"].s
  }

  /**
   * `createHandler(secret, handlers)(payload, signature)`: throws the parse error (or
   * "Invalid webhook event" when it is empty), otherwise calls the handler registered for
   * the event type once, or nothing when none is.
   */
  function HandleWebhook<H>(secret: string, handlers: map<string, H>, payload: Payload,
                            signature: Option<string>, hmac: Hmac, decode: Decoder): (r: Dispatch<H>)
    ensures r.Invoked? ==> WellFormedEvent(r.event) && EventType(r.event) in handlers
                           && r.handler == handlers[EventType(r.event)]
                           && decode(payload) == Ok(r.event)
    ensures r.Threw? <==> ParseEvent(payload, signature, secret, hmac, decode).Rejected?
    ensures r.Threw? ==>
      var m := ParseEvent(payload, signature, secret, hmac, decode).error.Message();
      r.message == if m == "" then "Invalid webhook event" else m
    ensures r.Ignored? ==> WellFormedEvent(decode(payload).value)
                           && EventType(decode(payload).value) !in handlers
  {
    match ParseEvent(payload, signature, secret, hmac, decode)
    case Rejected(error) =>
      var message := error.Message();
      Threw(if message == "" then "Invalid webhook event" else message)
    case Parsed(event) =>
      var eventType := event.fields["event"].s;
      if eventType in handlers then Invoked(handlers[eventType], event) else Ignored
  }

  /** With a handler for each of the seven types, every authentic valid event reaches one. */
  lemma AllTypesHandled<H>(secret: string, handlers: map<string, H>, payload: Payload,
                           signature: Option<string>, hmac: Hmac, decode: Decoder)
    requires forall t :: t in EventTypes ==> t in handlers
    ensures !HandleWebhook(secret, handlers, payload, signature, hmac, decode).Ignored?
  {
  }

  /** A thrown message is never empty. */
  lemma ThrownMessageNonEmpty<H>(secret: string, handlers: map<string, H>, payload: Payload,
                                 signature: Option<string>, hmac: Hmac, decode: Decoder)
    requires HandleWebhook(secret, handlers, payload, signature, hmac, decode).Threw?
    ensures HandleWebhook(secret, handlers, payload, signature, hmac, decode).message != ""
  {
  }

  // ---------------------------------------------------------------------------
  // An end-to-end example

  /** The event `{"event":"payment_intent.succeeded", ...}` with an integer amount. */
  function SampleEvent(): Json {
    JObj(map[
      "event" := JStr("payment_intent.succeeded"),
      "timestamp" := JStr("2024-01-01T00:00:00Z"),
      "data" := JObj(map[
        "transaction" := JObj(map[
          "id" := JStr("tx_1"),
          "commodity_amount" := JNum(10),
          "commodity" := JStr("USDT"),
          "status" := JStr("completed")])])])
  }

  /**
   * Signed with "whsec_test", the sample body parses to the sample event; signed with
   * another secret whose digest differs, it is rejected as a signature mismatch.
   */
  lemma SampleEndToEnd(body: Payload, hmac: Hmac, decode: Decoder)
    requires decode(body) == Ok(SampleEvent())
    requires hmac(Utf8.Encode("wrong_secret"), PayloadBytes(body)) != hmac(Utf8.Encode("whsec_test"), PayloadBytes(body))
    ensures ParseEvent(body, Some(GenerateSignature(body, "whsec_test", hmac)), "whsec_test", hmac, decode)
         == Parsed(SampleEvent())
    ensures ParseEvent(body, Some(GenerateSignature(body, "whsec_test", hmac)), "wrong_secret", hmac, decode)
         == Rejected(SignatureMismatch)
  {
    SampleWellFormed();
    GenerateSignatureInjective(body, "wrong_secret", body, "whsec_test", hmac);
  }

  lemma SampleWellFormed()
    ensures WellFormedEvent(SampleEvent())
    ensures EventType(SampleEvent()) == "payment_intent.succeeded"
  {
    var m := SampleEvent().fields;
    assert m["event"].s == EventTypes[3];
    var tx := m["data"].fields["transaction"].fields;
    assert HasNonEmptyString(tx, "id") && HasNonEmptyString(tx, "commodity") && HasNonEmptyString(tx, "status");
    assert HasNonEmptyString(m, "timestamp");
  }
}

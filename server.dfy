/**
 * The example Express server: its stand-alone `verifyWebhookSignature`, which compares
 * hex-decoded digests with `crypto.timingSafeEqual` and so throws when their lengths
 * differ, and the outcome rule of its `/webhook` route, whose signature check is
 * commented out and which reads a body that `express.json()` has already parsed.
 */
module Server {
  import opened Base
  import opened Js
  import Utf8
  import Hex
  import opened Signature

  const InvalidFormat: string := "Invalid signature format"

  /** The digest bytes a signature header claims: `Buffer.from(signature.slice(7), "hex")`. */
  function ClaimedDigest(signature: string): seq<byte>
    requires |signature| >= 7
  {
    Hex.NodeDecode(signature[7..])
  }

  /**
   * `verifyWebhookSignature(payload, signature, secret)`: an error for a missing prefix or
   * for a claimed digest that is not 32 bytes long (the RangeError of `timingSafeEqual`),
   * otherwise whether the claimed digest is the HMAC of the payload as given.
   */
  function VerifyWebhookSignature(payload: Payload, signature: string, secret: string, hmac: Hmac): (r: Result<bool, string>)
    ensures !(Prefix <= signature) ==> r == Err(InvalidFormat)
    ensures Prefix <= signature ==>
      && (r.Ok? <==> |ClaimedDigest(signature)| == 32)
      && (r.Ok? ==> (r.value <==> ClaimedDigest(signature) == hmac(Utf8.Encode(secret), PayloadBytes(payload))))
  {
    if !(Prefix <= signature) then Err(InvalidFormat)
    else
      var signatureHex := signature[7..];
      var computedSignature := Hex.EncodeLower(hmac(Utf8.Encode(secret), PayloadBytes(payload)));
      Hex.DecodeEncodeLower(hmac(Utf8.Encode(secret), PayloadBytes(payload)));
      TimingSafeEqual(Hex.NodeDecode(signatureHex), Hex.NodeDecode(computedSignature))
  }

  /** A signature made by `generateSignature` verifies here too. */
  lemma GeneratedSignatureVerifies(payload: Payload, secret: string, hmac: Hmac)
    ensures VerifyWebhookSignature(payload, GenerateSignature(payload, secret, hmac), secret, hmac) == Ok(true)
  {
  }

  /**
   * Every signature the SDK's `verifySignature` accepts is accepted here, and more: text
   * after the 64 digits that the decoder stops at is ignored here but not by the SDK.
   */
  lemma AcceptsWhatSdkAccepts(payload: Payload, signature: string, secret: string, hmac: Hmac, tail: string)
    requires VerifySignature(payload, Some(signature), secret, hmac)
    requires |tail| < 2 || Hex.DigitValue(tail[0]).None? || Hex.DigitValue(tail[1]).None?
    ensures VerifyWebhookSignature(payload, signature, secret, hmac) == Ok(true)
    ensures VerifyWebhookSignature(payload, signature + tail, secret, hmac) == Ok(true)
    ensures tail != [] ==> !VerifySignature(payload, Some(signature + tail), secret, hmac)
  {
    GeneratedSignatureVerifies(payload, secret, hmac);
    TailIgnored(payload, secret, hmac, tail);
    assert |signature + tail| == |signature| + |tail|;
  }

  /** The digits after the prefix decode to the digest even with a non-hex tail after them. */
  lemma TailIgnored(payload: Payload, secret: string, hmac: Hmac, tail: string)
    requires |tail| < 2 || Hex.DigitValue(tail[0]).None? || Hex.DigitValue(tail[1]).None?
    ensures VerifyWebhookSignature(payload, GenerateSignature(payload, secret, hmac) + tail, secret, hmac) == Ok(true)
  {
    var d := hmac(Utf8.Encode(secret), PayloadBytes(payload));
    var hex := Hex.EncodeLower(d);
    var sig := GenerateSignature(payload, secret, hmac) + tail;
    assert sig == Prefix + (hex + tail) by {
      assert GenerateSignature(payload, secret, hmac) == Prefix + hex;
    }
    assert sig[7..] == hex + tail;
    Hex.DecodeIgnoresTail(d, tail);
    DigestMatchVerifies(payload, sig, secret, hmac);
  }

  /** A prefixed signature verifies exactly when its digits decode to the digest. */
  lemma DigestMatchVerifies(payload: Payload, sig: string, secret: string, hmac: Hmac)
    requires Prefix <= sig
    ensures VerifyWebhookSignature(payload, sig, secret, hmac) == Ok(true) <==>
      Hex.NodeDecode(sig[7..]) == hmac(Utf8.Encode(secret), PayloadBytes(payload))
  {
  }

  /** A claimed digest of the wrong length is an error, not `false`: e.g. a bare prefix. */
  lemma BarePrefixThrows(payload: Payload, secret: string, hmac: Hmac)
    ensures VerifyWebhookSignature(payload, Prefix, secret, hmac).Err?
  {
    assert Prefix[7..] == [];
  }

  /** The digest is over the payload exactly as received: a text body is its UTF-8 bytes. */
  lemma PayloadAsGiven(text: string, signature: string, secret: string, hmac: Hmac)
    ensures VerifyWebhookSignature(Text(text), signature, secret, hmac)
         == VerifyWebhookSignature(Buffer(Utf8.Encode(text)), signature, secret, hmac)
  {
  }

  // ---------------------------------------------------------------------------
  // The /webhook route

  /** `JSON.parse(text)`: the value, or the message of the SyntaxError. */
  type TextParser = string -> Result<Json, string>

  /** The status and JSON body the route answers with. */
  datatype RouteResponse = RouteResponse(status: int, body: Json)

  const Received: Json := JObj(map["received" := JBool(true)])
  const ProcessingFailed: Json := JObj(map["error" := JStr("Webhook processing failed")])

  /**
   * `req.body.toString()`. After `express.json()` the body is the parsed JSON value (and
   * `{}` for a request the middleware does not parse); `null.toString()` throws, and
   * otherwise the method gives JavaScript's string conversion, which throws for an object
   * with its own `toString` property.
   */
  function BodyText(body: Json): (r: Option<string>)
    ensures r.None? <==> body.JNull? || !Convertible(body)
    ensures body.JObj? && r.Some? ==> r.value == "[object Object]"
  {
    if body.JNull? then None else ToJsString(body)
  }

  /**
   * The `/webhook` handler as written, for the body `express.json()` left in `req.body`.
   * Reading its text may throw, parsing it may throw, and so may reading
   * `payload.event_type` when it parses to `null`; each gives 500. The `event_type` switch
   * only logs.
   */
  function WebhookRoute(body: Json, parse: TextParser): (r: RouteResponse)
    ensures r.status == 200 <==>
      BodyText(body).Some? && parse(BodyText(body).value).Ok? && parse(BodyText(body).value).value != JNull
    ensures r.status == 200 ==> r.body == Received
    ensures r.status != 200 ==> r.status == 500 && r.body == ProcessingFailed
  {
    match BodyText(body)
    case None => RouteResponse(500, ProcessingFailed)
    case Some(text) => RawWebhookRoute(text, parse)
  }

  /**
   * Every JSON-object body, and so every webhook a sender posts as JSON, is answered with
   * 500: its text is "[object Object]", which `JSON.parse` refuses.
   */
  lemma ObjectBodyFails(fields: map<string, Json>, parse: TextParser)
    requires parse("[object Object]").Err?
    ensures WebhookRoute(JObj(fields), parse) == RouteResponse(500, ProcessingFailed)
  {
  }

  /** An array holding the JSON text of a value is the kind of body that gets a 200. */
  lemma ArrayBodyAcknowledged(text: string, parse: TextParser, payload: Json)
    requires parse(text) == Ok(payload) && payload != JNull
    ensures WebhookRoute(JArr([JStr(text)]), parse) == RouteResponse(200, Received)
  {
    assert ToJsString(JArr([JStr(text)])) == Some(text);
  }

  /**
   * The handler as evidently intended, for a body whose raw text is `text` (as
   * `express.raw()` on the route would give): the parsed value decides, and any non-null
   * payload is acknowledged.
   */
  function RawWebhookRoute(text: string, parse: TextParser): (r: RouteResponse)
    ensures r.status == 200 <==> parse(text).Ok? && parse(text).value != JNull
    ensures r.status == 200 ==> r.body == Received
    ensures r.status != 200 ==> r.status == 500 && r.body == ProcessingFailed
  {
    match parse(text)
    case Err(_) => RouteResponse(500, ProcessingFailed)
    case Ok(payload) =>
      if payload == JNull then RouteResponse(500, ProcessingFailed)
      else RouteResponse(200, Received)
  }

  /**
   * Every non-null body is acknowledged alike, whatever its `event_type` (unknown types
   * included); no signature takes part.
   */
  lemma RouteIgnoresEventType(t1: string, t2: string, parse: TextParser, fields: map<string, Json>, e1: Json, e2: Json)
    requires parse(t1) == Ok(JObj(fields["event_type" := e1]))
    requires parse(t2) == Ok(JObj(fields["event_type" := e2]))
    ensures RawWebhookRoute(t1, parse) == RawWebhookRoute(t2, parse) == RouteResponse(200, Received)
  {
  }

  /** A body that does not parse is answered with 500. */
  lemma UnparseableBodyFails(text: string, parse: TextParser)
    requires parse(text).Err?
    ensures RawWebhookRoute(text, parse) == RouteResponse(500, ProcessingFailed)
  {
  }
}

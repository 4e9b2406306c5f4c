/**
 * The signing half of `WebhookUtils`: `generateSignature`, `secureCompare`,
 * `verifySignature` and `extractSignature`. HMAC-SHA256 (RFC 2104) is a parameter of type
 * `Hmac`; nothing about it is assumed beyond its 32-byte output.
 */
module Signature {
  import opened Base
  import Utf8
  import Hex

  /** An HMAC-SHA256 output. */
  type Digest = s: seq<byte> | |s| == 32 witness seq(32, _ => 0)

  /** `createHmac("sha256", key).update(message).digest()`. */
  type Hmac = (seq<byte>, seq<byte>) -> Digest

  /** The raw webhook body: a string, or a `Buffer` of the exact bytes received. */
  datatype Payload = Text(text: string) | Buffer(bytes: seq<byte>)

  /** The bytes `hmac.update(payload)` consumes: a string is UTF-8 encoded, a buffer used as is. */
  function PayloadBytes(p: Payload): seq<byte> {
    match p
    case Text(s) => Utf8.Encode(s)
    case Buffer(b) => b
  }

  const Prefix: string := "sha256="

  /** The hex digest of `hmac` over the payload, keyed by the secret. */
  function HexDigest(payload: Payload, secret: string, hmac: Hmac): string {
    Hex.EncodeLower(hmac(Utf8.Encode(secret), PayloadBytes(payload)))
  }

  /** `generateSignature(payload, secret)`: `sha256=` and 64 lower-case hex digits. */
  function GenerateSignature(payload: Payload, secret: string, hmac: Hmac): (r: string)
    ensures |r| == 71 && Prefix <= r
    ensures forall i :: 7 <= i < |r| ==> Hex.IsLowerDigit(r[i])
    ensures Hex.NodeDecode(r[7..]) == hmac(Utf8.Encode(secret), PayloadBytes(payload))
  {
    var d := hmac(Utf8.Encode(secret), PayloadBytes(payload));
    Hex.DecodeEncodeLower(d);
    var r := Prefix + Hex.EncodeLower(d);
    assert r[7..] == Hex.EncodeLower(d);
    r
  }

  /** Two signatures generated with different digests differ. */
  lemma GenerateSignatureInjective(p1: Payload, s1: string, p2: Payload, s2: string, hmac: Hmac)
    requires hmac(Utf8.Encode(s1), PayloadBytes(p1)) != hmac(Utf8.Encode(s2), PayloadBytes(p2))
    ensures GenerateSignature(p1, s1, hmac) != GenerateSignature(p2, s2, hmac)
  {
  }

  /**
   * `crypto.timingSafeEqual(a, b)`: throws a RangeError when the lengths differ, otherwise
   * answers whether the bytes are equal (in time independent of where they differ, which
   * this model does not express).
   */
  function TimingSafeEqual(a: seq<byte>, b: seq<byte>): (r: Result<bool, string>)
    ensures r.Err? <==> |a| != |b|
    ensures r.Ok? ==> (r.value <==> a == b)
  {
    if |a| != |b| then Err("Input buffers must have the same byte length") else Ok(a == b)
  }

  /** `secureCompare(a, b)`: compares the UTF-8 encodings, lengths first. */
  function SecureCompare(a: string, b: string): (r: bool)
    ensures r <==> a == b
  {
    Utf8.EncodeEqualIff(a, b);
    var bufA, bufB := Utf8.Encode(a), Utf8.Encode(b);
    if |bufA| != |bufB| then false else TimingSafeEqual(bufA, bufB) == Ok(true)
  }

  /**
   * `verifySignature(payload, signature, secret)`. An absent signature makes `Buffer.from`
   * throw, which the method turns into `false`.
   */
  function VerifySignature(payload: Payload, signature: Option<string>, secret: string, hmac: Hmac): (r: bool)
    ensures r <==> signature == Some(GenerateSignature(payload, secret, hmac))
  {
    match signature
    case None => false
    case Some(sig) => SecureCompare(sig, GenerateSignature(payload, secret, hmac))
  }

  // ---------------------------------------------------------------------------
  // extractSignature

  /** `s.split(sep)`: the pieces between separators, at least one. */
  function Split(s: string, sep: char): (parts: seq<string>)
    ensures |parts| >= 1
    ensures forall i :: 0 <= i < |parts| ==> sep !in parts[i]
  {
    if s == [] then [[]]
    else
      var rest := Split(s[1..], sep);
      if s[0] == sep then [[]] + rest else [[s[0]] + rest[0]] + rest[1..]
  }

  /** `parts.join(sep)`. */
  function Join(parts: seq<string>, sep: char): string
    requires |parts| >= 1
  {
    if |parts| == 1 then parts[0] else parts[0] + [sep] + Join(parts[1..], sep)
  }

  /** Joining the pieces of a split gives back the string. */
  lemma {:induction false} JoinSplit(s: string, sep: char)
    ensures Join(Split(s, sep), sep) == s
  {
    if s != [] {
      var rest := Split(s[1..], sep);
      JoinSplit(s[1..], sep);
      if s[0] == sep {
        assert Split(s, sep)[1..] == rest;
        assert s == [sep] + s[1..];
      } else {
        var parts := Split(s, sep);
        if |rest| == 1 {
          assert s == [s[0]] + rest[0];
        } else {
          assert parts[1..] == rest[1..];
          assert Join(rest, sep) == rest[0] + [sep] + Join(rest[1..], sep);
          assert s == [s[0]] + s[1..];
        }
      }
    }
  }

  /** Splitting at a separator splits the two halves independently. */
  lemma {:induction false} SplitAround(a: string, b: string, sep: char)
    requires sep !in a
    ensures Split(a + [sep] + b, sep) == [a] + Split(b, sep)
  {
    if a == [] {
      assert [] + [sep] + b == [sep] + b;
      assert ([sep] + b)[1..] == b;
    } else {
      assert (a + [sep] + b)[1..] == a[1..] + [sep] + b;
      SplitAround(a[1..], b, sep);
      assert [a[0]] + a[1..] == a;
    }
  }

  lemma {:induction false} SplitWithoutSeparator(a: string, sep: char)
    requires sep !in a
    ensures Split(a, sep) == [a]
  {
    if a != [] {
      SplitWithoutSeparator(a[1..], sep);
      assert [a[0]] + a[1..] == a;
    }
  }

  const VendorPrefix: string := "v1="

  /** The rewritten signature of the first part that starts with `v1=`. */
  function FirstV1(parts: seq<string>): (r: Option<string>)
    ensures r.Some? ==> Prefix <= r.value
  {
    if parts == [] then None
    else if VendorPrefix <= parts[0] then Some(Prefix + parts[0][3..])
    else FirstV1(parts[1..])
  }

  const HeaderRequired: string := "Signature header is required"
  const HeaderMalformed: string := "Invalid signature header format"

  /** What `extractSignature(header)` returns or throws; an absent header is `None`. */
  function ExtractSpec(header: Option<string>): (r: Result<string, string>)
    ensures r.Ok? ==> Prefix <= r.value
    ensures r.Err? ==> r.error in {HeaderRequired, HeaderMalformed}
  {
    match header
    case None => Err(HeaderRequired)
    case Some(h) =>
      if h == [] then Err(HeaderRequired)
      else if Prefix <= h then Ok(h)
      else match FirstV1(Split(h, ','))
        case Some(sig) => Ok(sig)
        case None => Err(HeaderMalformed)
  }

  /** `extractSignature(header)`: scans the comma-separated parts, returning at the first `v1=`. */
  method ExtractSignature(header: Option<string>) returns (r: Result<string, string>)
    ensures r == ExtractSpec(header)
  {
    if header.None? || header.value == [] {
      return Err(HeaderRequired);
    }
    var h := header.value;
    if Prefix <= h {
      return Ok(h);
    }
    var parts := Split(h, ',');
    var i := 0;
    while i < |parts|
      invariant 0 <= i <= |parts|
      invariant FirstV1(parts[i..]) == FirstV1(parts)
    {
      if VendorPrefix <= parts[i] {
        return Ok(Prefix + parts[i][3..]);
      }
      assert parts[i..][1..] == parts[i + 1..];
      i := i + 1;
    }
    return Err(HeaderMalformed);
  }

  /** `FirstV1` picks the `i`-th part exactly when no earlier part starts with `v1=`. */
  lemma {:induction false} FirstV1At(parts: seq<string>, i: nat)
    requires i < |parts| && VendorPrefix <= parts[i]
    requires forall j :: 0 <= j < i ==> !(VendorPrefix <= parts[j])
    ensures FirstV1(parts) == Some(Prefix + parts[i][3..])
  {
    if i > 0 {
      FirstV1At(parts[1..], i - 1);
    }
  }

  lemma {:induction false} FirstV1None(parts: seq<string>)
    requires forall j :: 0 <= j < |parts| ==> !(VendorPrefix <= parts[j])
    ensures FirstV1(parts) == None
  {
    if parts != [] {
      FirstV1None(parts[1..]);
    }
  }

  /**
   * For a non-empty header without the `sha256=` prefix, the result is `sha256=` and the
   * rest of the first comma-separated part starting with `v1=` (untrimmed), or the
   * format error when there is no such part.
   */
  lemma ExtractVendorPart(h: string, i: nat)
    requires h != [] && !(Prefix <= h)
    requires i < |Split(h, ',')| && VendorPrefix <= Split(h, ',')[i]
    requires forall j :: 0 <= j < i ==> !(VendorPrefix <= Split(h, ',')[j])
    ensures ExtractSpec(Some(h)) == Ok(Prefix + Split(h, ',')[i][3..])
  {
    FirstV1At(Split(h, ','), i);
  }

  lemma ExtractNoVendorPart(h: string)
    requires h != [] && !(Prefix <= h)
    requires forall j :: 0 <= j < |Split(h, ',')| ==> !(VendorPrefix <= Split(h, ',')[j])
    ensures ExtractSpec(Some(h)) == Err(HeaderMalformed)
  {
    FirstV1None(Split(h, ','));
  }

  /** Extraction is idempotent: what it returns is already in canonical form. */
  lemma ExtractIdempotent(header: Option<string>)
    requires ExtractSpec(header).Ok?
    ensures ExtractSpec(Some(ExtractSpec(header).value)) == ExtractSpec(header)
  {
  }

  /** The header `t=<ts>,v1=<hex>` normalises to `sha256=<hex>`. */
  lemma ExtractTimestampedHeader(ts: string, hex: string)
    requires ',' !in ts && ',' !in hex
    ensures ExtractSpec(Some("t=" + ts + ",v1=" + hex)) == Ok(Prefix + hex)
  {
    var h := "t=" + ts + ",v1=" + hex;
    var first, second := "t=" + ts, "v1=" + hex;
    assert h == first + [','] + second;
    assert ',' !in first;
    assert ',' !in second;
    SplitAround(first, second, ',');
    SplitWithoutSeparator(second, ',');
    var parts := Split(h, ',');
    assert parts == [first, second];
    assert h[0] == 't' && Prefix[0] == 's';
    assert !(Prefix <= h);
    assert first[0] == 't' && VendorPrefix[0] == 'v';
    assert !(VendorPrefix <= parts[0]);
    assert second[..3] == VendorPrefix;
    assert VendorPrefix <= parts[1];
    FirstV1At(parts, 1);
    assert second[3..] == hex;
  }

  /** The example header `t=169000,v1=abcd` gives `sha256=abcd`. */
  lemma ExtractExample()
    ensures ExtractSpec(Some("t=169000,v1=abcd")) == Ok("sha256=abcd")
  {
    ExampleHeaderParts();
    ExtractTimestampedHeader("169000", "abcd");
    ExampleSignatureText();
  }

  lemma ExampleHeaderParts()
    ensures "t=" + "169000" + ",v1=" + "abcd" == "t=169000,v1=abcd"
  {
    var h := "t=" + "169000" + ",v1=" + "abcd";
    assert |h| == 16;
    forall i | 0 <= i < 16 ensures h[i] == "t=169000,v1=abcd"[i] {
      if i < 2 { assert h[i] == "t="[i]; }
      else if i < 8 { assert h[i] == "169000"[i - 2]; }
      else if i < 12 { assert h[i] == ",v1="[i - 8]; }
      else { assert h[i] == "abcd"[i - 12]; }
    }
  }

  lemma ExampleSignatureText()
    ensures Prefix + "abcd" == "sha256=abcd"
  {
    var r := Prefix + "abcd";
    assert |r| == 11;
    forall i | 0 <= i < 11 ensures r[i] == "sha256=abcd"[i] {
      if i < 7 { assert r[i] == Prefix[i]; } else { assert r[i] == "abcd"[i - 7]; }
    }
  }

  /** A header in neither form is refused, and so is an empty one. */
  lemma ExtractMalformedExample()
    ensures ExtractSpec(Some("not-a-signature")) == Err(HeaderMalformed)
    ensures ExtractSpec(Some("")) == Err(HeaderRequired)
  {
    var s := "not-a-signature";
    assert ',' !in s;
    SplitWithoutSeparator(s, ',');
    assert s[0] == 'n';
    assert !(Prefix <= s) && !(VendorPrefix <= s);
    FirstV1None([s]);
  }

  /** A timestamped header carrying the right hex digest verifies once extracted. */
  lemma TimestampedHeaderVerifies(ts: string, payload: Payload, secret: string, hmac: Hmac)
    requires ',' !in ts
    ensures var h := "t=" + ts + ",v1=" + HexDigest(payload, secret, hmac);
      && ExtractSpec(Some(h)).Ok?
      && VerifySignature(payload, Some(ExtractSpec(Some(h)).value), secret, hmac)
  {
    var hex := HexDigest(payload, secret, hmac);
    assert forall i :: 0 <= i < |hex| ==> Hex.IsLowerDigit(hex[i]);
    assert ',' !in hex;
    ExtractTimestampedHeader(ts, hex);
  }
}

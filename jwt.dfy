/**
 * The attendee's rotating credential (src/services/JWTService.ts): a compact
 * token `header.payload.signature` in the JWS Compact Serialization of
 * section 7.1 of RFC 7515, each segment unpadded base64url (section 5 of
 * RFC 4648), the header `{"alg":"HS256","typ":"JWT"}` (section 3.2 of
 * RFC 7518) and the claims `sub`, `tid`, `evt`, `iat`, `exp` (section 4.1 of
 * RFC 7519). The decoder does not check the signature.
 *
 * The platform's own encoders -- `btoa`, `atob`, `JSON.stringify`,
 * `JSON.parse`, WebCrypto's HMAC-SHA-256 and JavaScript's string-to-number
 * conversion -- are not modelled: they are the fields of a `Platform` value,
 * and `Sound` states the facts about them the proofs rely on.
 */
module Jwt {
  import opened Common

  newtype byte = x: int | 0 <= x < 256

  /** A property value of a parsed claims object: a string or an integer. */
  datatype Value = Str(s: string) | Num(n: int)

  /**
   * What `JSON.parse` returns, as far as reading the token's properties can
   * tell: `null` (reading any property throws) or an object. A number, string,
   * boolean or array has none of the properties read here, so it behaves as
   * an object without them.
   */
  datatype Json = Null | Object(props: map<string, Value>)

  /** The result of a property read `v.key`. */
  datatype Property = Undefined | Defined(value: Value)

  /** The message of the `TypeError` thrown by reading a property of `null`. */
  const NullPropertyRead: string := "Cannot read properties of null"

  /** `j.key`: throws on `null`, `undefined` for a missing property. */
  function Get(j: Json, key: string): (r: Result<Property>)
    ensures r.Throws? <==> j.Null?
    ensures r.Ok? ==> (r.value.Defined? <==> key in j.props)
    ensures r.Ok? && key in j.props ==> r.value.value == j.props[key]
  {
    match j
    case Null => Throws(NullPropertyRead)
    case Object(props) => Ok(if key in props then Defined(props[key]) else Undefined)
  }

  /** The platform functions the codec calls. */
  datatype Platform = Platform(
    btoa: string -> Result<string>,               // throws on a character above U+00FF
    atob: string -> Result<string>,               // forgiving base64 decode; throws on malformed input
    stringify: Json -> string,                    // JSON.stringify
    parse: string -> Result<Json>,                // JSON.parse; throws on malformed input
    hmac: (string, string) -> Result<seq<byte>>,  // crypto.subtle HMAC-SHA-256 (message, secret)
    toNumber: string -> Option<real>)             // ToNumber on a string; None for NaN

  /** A character of the standard base64 alphabet, padding included (section 4 of RFC 4648). */
  predicate Base64Char(c: char) {
    'A' <= c <= 'Z' || 'a' <= c <= 'z' || '0' <= c <= '9' || c == '+' || c == '/' || c == '='
  }

  predicate Base64Text(s: string) {
    forall i :: 0 <= i < |s| ==> Base64Char(s[i])
  }

  /** A character of the base64url alphabet, which has no padding (section 5 of RFC 4648). */
  predicate Base64UrlChar(c: char) {
    'A' <= c <= 'Z' || 'a' <= c <= 'z' || '0' <= c <= '9' || c == '-' || c == '_'
  }

  predicate Base64UrlText(s: string) {
    forall i :: 0 <= i < |s| ==> Base64UrlChar(s[i])
  }

  predicate ValueLatin1(v: Value) {
    v.Str? ==> Latin1(v.s)
  }

  /** Every key and string value is Latin-1, so its JSON text is too. */
  predicate JsonLatin1(j: Json) {
    j.Object? ==> forall k :: k in j.props ==> Latin1(k) && ValueLatin1(j.props[k])
  }

  /**
   * What the proofs assume of the platform: `btoa` accepts exactly the
   * Latin-1 strings and writes the base64 alphabet; `atob` undoes `btoa` even
   * with the padding removed; `JSON.parse` undoes `JSON.stringify`; and the
   * JSON text is Latin-1 exactly when the keys and strings in it are.
   */
  ghost predicate Sound(p: Platform) {
    && (forall s {:trigger p.btoa(s)} :: p.btoa(s).Ok? <==> Latin1(s))
    && (forall s {:trigger p.btoa(s)} :: p.btoa(s).Ok? ==> Base64Text(p.btoa(s).value))
    && (forall s {:trigger p.btoa(s)} :: p.btoa(s).Ok? ==> p.atob(RemoveAll(p.btoa(s).value, '=')) == Ok(s))
    && (forall j {:trigger p.stringify(j)} :: p.parse(p.stringify(j)) == Ok(j))
    && (forall j {:trigger p.stringify(j)} :: Latin1(p.stringify(j)) <==> JsonLatin1(j))
  }

  /** JWTHeader */
  const HeaderJson: Json := Object(map["alg" := Str("HS256"), "typ" := Str("JWT")])

  /** JWTPayload */
  datatype Claims = Claims(sub: string, tid: string, evt: string, iat: int, exp: int)

  function ClaimsJson(c: Claims): Json {
    Object(map["sub" := Str(c.sub), "tid" := Str(c.tid), "evt" := Str(c.evt),
               "iat" := Num(c.iat), "exp" := Num(c.exp)])
  }

  predicate ClaimsLatin1(c: Claims) {
    Latin1(c.sub) && Latin1(c.tid) && Latin1(c.evt)
  }

  /** The claims object's JSON text is Latin-1 exactly when its three string claims are. */
  lemma ClaimsJsonLatin1(c: Claims)
    ensures JsonLatin1(ClaimsJson(c)) <==> ClaimsLatin1(c)
  {
    var props := ClaimsJson(c).props;
    assert "sub" in props && "tid" in props && "evt" in props;
    assert Latin1("sub") && Latin1("tid") && Latin1("evt") && Latin1("iat") && Latin1("exp");
  }

  lemma HeaderJsonLatin1()
    ensures JsonLatin1(HeaderJson)
  {
    assert Latin1("alg") && Latin1("typ") && Latin1("HS256") && Latin1("JWT");
  }

  /** The base64url rewrite of `base64UrlEncode` and `hmacSha256`: '+' to '-', '/' to '_', padding dropped. */
  function UrlSafe(b64: string): (r: string)
    ensures '+' !in r && '/' !in r && '=' !in r
    ensures forall c :: c in r && c != '-' && c != '_' ==> c in b64
    ensures Base64Text(b64) ==> Base64UrlText(r)
  {
    var r := RemoveAll(ReplaceAll(ReplaceAll(b64, '+', '-'), '/', '_'), '=');
    assert Base64Text(b64) ==> Base64UrlText(r) by {
      if Base64Text(b64) {
        forall i | 0 <= i < |r| ensures Base64UrlChar(r[i]) {
          assert r[i] in r;
          if r[i] != '-' && r[i] != '_' {
            assert r[i] in b64;
          }
        }
      }
    }
    r
  }

  /** The rewrite the decoders apply before `atob`: '-' to '+', '_' to '/'. */
  function UrlUnsafe(seg: string): string {
    ReplaceAll(ReplaceAll(seg, '-', '+'), '_', '/')
  }

  /** `base64UrlEncode(data)` for an object: the base64url text of its JSON. */
  function Base64UrlEncode(p: Platform, data: Json): (r: Result<string>)
    ensures r.Ok? ==> '+' !in r.value && '/' !in r.value && '=' !in r.value
    ensures Sound(p) && r.Ok? ==> Base64UrlText(r.value)
  {
    var b64 :- p.btoa(p.stringify(data));
    Ok(UrlSafe(b64))
  }

  /** A string whose characters are the given bytes (`String.fromCharCode(...bytes)`). */
  function FromCharCodes(bytes: seq<byte>): (s: string)
    ensures |s| == |bytes| && Latin1(s)
    ensures forall i :: 0 <= i < |bytes| ==> s[i] as int == bytes[i] as int
  {
    seq(|bytes|, i requires 0 <= i < |bytes| => bytes[i] as int as char)
  }

  /** Base64url text and '.' joined to base64url text hold only base64url characters and '.'. */
  lemma DottedText(a: string, b: string)
    ensures (forall i :: 0 <= i < |a| ==> a[i] == '.' || Base64UrlChar(a[i])) && Base64UrlText(b) ==>
              forall i :: 0 <= i < |a + "." + b| ==> (a + "." + b)[i] == '.' || Base64UrlChar((a + "." + b)[i])
  {
  }

  /** `hmacSha256(message, secret)`: the base64url text of the MAC. */
  function HmacSha256(p: Platform, message: string, secret: string): (r: Result<string>)
    ensures r.Ok? ==> '+' !in r.value && '/' !in r.value && '=' !in r.value
    ensures Sound(p) && r.Ok? ==> Base64UrlText(r.value)
    ensures Sound(p) ==> (r.Ok? <==> p.hmac(message, secret).Ok?)
  {
    var mac :- p.hmac(message, secret);
    var b64 :- p.btoa(FromCharCodes(mac));
    Ok(UrlSafe(b64))
  }

  /** The signing input `${encodedHeader}.${encodedPayload}` of `generateJWT`. */
  function SigningInput(p: Platform, payload: Claims): (r: Result<string>)
    ensures r.Ok? ==> '+' !in r.value && '/' !in r.value && '=' !in r.value
    ensures Sound(p) && r.Ok? ==> forall i :: 0 <= i < |r.value| ==> r.value[i] == '.' || Base64UrlChar(r.value[i])
  {
    var encodedHeader :- Base64UrlEncode(p, HeaderJson);
    var encodedPayload :- Base64UrlEncode(p, ClaimsJson(payload));
    DottedText(encodedHeader, encodedPayload);
    Ok(encodedHeader + "." + encodedPayload)
  }

  /** `generateJWT(payload, secret)`: the signing input, '.', and its MAC. */
  function GenerateJwt(p: Platform, payload: Claims, secret: string): (r: Result<string>)
    ensures r.Ok? ==> '+' !in r.value && '/' !in r.value && '=' !in r.value
    ensures Sound(p) && r.Ok? ==> forall i :: 0 <= i < |r.value| ==> r.value[i] == '.' || Base64UrlChar(r.value[i])
  {
    var message :- SigningInput(p, payload);
    var signature :- HmacSha256(p, message, secret);
    DottedText(message, signature);
    Ok(message + "." + signature)
  }

  /** The claims `createRotatingQR` signs at epoch second `now`. */
  function RotatingClaims(ticketId: string, eventId: string, ttlSeconds: int, skewSeconds: int, now: int): (c: Claims)
    ensures c.sub == c.tid == ticketId && c.evt == eventId
    ensures c.iat == now - skewSeconds && c.exp == now + ttlSeconds
    ensures c.exp - c.iat == ttlSeconds + skewSeconds
    ensures c.iat <= now <= c.exp <==> skewSeconds >= 0 && ttlSeconds >= 0
  {
    Claims(ticketId, ticketId, eventId, now - skewSeconds, now + ttlSeconds)
  }

  /** `createRotatingQR(ticketId, eventId, sessionKey, ttlSeconds, skewSeconds)` with the clock read as `now`. */
  function CreateRotatingQr(p: Platform, ticketId: string, eventId: string, sessionKey: string,
                            ttlSeconds: int, skewSeconds: int, now: int): (r: Result<string>)
    ensures Sound(p) && r.Ok? ==>
              DecodeJwt(p, r.value) == Some(Decoded(HeaderJson, ClaimsJson(RotatingClaims(ticketId, eventId, ttlSeconds, skewSeconds, now))))
  {
    var c := RotatingClaims(ticketId, eventId, ttlSeconds, skewSeconds, now);
    GeneratedDecodes(p, c, sessionKey);
    GenerateJwt(p, c, sessionKey)
  }

  /** GenerateThenDecode, stated for any platform. */
  lemma GeneratedDecodes(p: Platform, c: Claims, secret: string)
    ensures Sound(p) && GenerateJwt(p, c, secret).Ok? ==>
              DecodeJwt(p, GenerateJwt(p, c, secret).value) == Some(Decoded(HeaderJson, ClaimsJson(c)))
  {
    if Sound(p) && GenerateJwt(p, c, secret).Ok? {
      GenerateThenDecode(p, c, secret);
    }
  }

  /** One segment decoded as the decoders do: `JSON.parse(atob(unsafe(seg)))`. */
  function DecodeSegment(p: Platform, seg: string): Result<Json> {
    var bin :- p.atob(UrlUnsafe(seg));
    p.parse(bin)
  }

  datatype Decoded = Decoded(header: Json, payload: Json)

  /**
   * `decodeJWT(jwt)`: the first two segments parsed, `null` when either fails
   * or when there is no second segment (the destructured payload is then
   * `undefined` and `.replace` on it throws). The signature is not read.
   */
  function DecodeJwt(p: Platform, jwt: string): (d: Option<Decoded>)
    ensures var parts := Split(jwt, '.');
            d.Some? <==> |parts| >= 2 && DecodeSegment(p, parts[0]).Ok? && DecodeSegment(p, parts[1]).Ok?
    ensures var parts := Split(jwt, '.');
            d.Some? ==> DecodeSegment(p, parts[0]) == Ok(d.value.header) && DecodeSegment(p, parts[1]) == Ok(d.value.payload)
  {
    var parts := Split(jwt, '.');
    if |parts| < 2 then None
    else
      match (DecodeSegment(p, parts[0]), DecodeSegment(p, parts[1]))
      case (Ok(header), Ok(payload)) => Some(Decoded(header, payload))
      case _ => None
  }

  /** The number JavaScript compares when a property meets a number in `<` or `<=`; None for NaN. */
  function NumericValue(p: Platform, x: Property): Option<real> {
    match x
    case Undefined => None
    case Defined(Num(n)) => Some(n as real)
    case Defined(Str(s)) => p.toNumber(s)
  }

  /** `x <= now` in JavaScript: false whenever `x` converts to NaN. */
  predicate AtOrBefore(p: Platform, x: Property, now: int) {
    var v := NumericValue(p, x);
    v.Some? && v.value <= now as real
  }

  /** `x < now` in JavaScript: false whenever `x` converts to NaN. */
  predicate Before(p: Platform, x: Property, now: int) {
    var v := NumericValue(p, x);
    v.Some? && v.value < now as real
  }

  /**
   * `isExpired(jwt)` at epoch second `now`: true for an undecodable token,
   * otherwise `payload.exp <= now`; throws when the payload is JSON `null`.
   */
  function IsExpired(p: Platform, jwt: string, now: int): (r: Result<bool>)
    ensures DecodeJwt(p, jwt).None? ==> r == Ok(true)
    ensures r.Throws? <==> DecodeJwt(p, jwt).Some? && DecodeJwt(p, jwt).value.payload.Null?
    ensures DecodeJwt(p, jwt).Some? && DecodeJwt(p, jwt).value.payload.Object? ==>
              var props := DecodeJwt(p, jwt).value.payload.props;
              r == Ok("exp" in props && NumericValue(p, Defined(props["exp"])).Some? &&
                      NumericValue(p, Defined(props["exp"])).value <= now as real)
  {
    match DecodeJwt(p, jwt)
    case None => Ok(true)
    case Some(decoded) =>
      var exp :- Get(decoded.payload, "exp");
      Ok(AtOrBefore(p, exp, now))
  }

  // ---------------------------------------------------------------------------
  // Properties

  /**
   * For a token that decodes to an object: no `exp` is never expired
   * (`undefined <= now` is false), an integer `exp` is expired exactly from
   * that second on, and a string `exp` that is not a number never expires.
   */
  lemma DecodedTokenExpiry(p: Platform, jwt: string, d: Decoded, now: int)
    requires DecodeJwt(p, jwt) == Some(d) && d.payload.Object?
    ensures "exp" !in d.payload.props ==> IsExpired(p, jwt, now) == Ok(false)
    ensures forall n :: "exp" in d.payload.props && d.payload.props["exp"] == Num(n) ==> IsExpired(p, jwt, now) == Ok(n <= now)
    ensures forall s :: "exp" in d.payload.props && d.payload.props["exp"] == Str(s) && p.toNumber(s).None? ==>
              IsExpired(p, jwt, now) == Ok(false)
  {
  }

  /** Removing '=' commutes with a replacement that neither reads nor writes '='. */
  lemma {:induction false} RemoveReplaceCommute(s: string, a: char, b: char, c: char)
    requires a != c && b != c
    ensures RemoveAll(ReplaceAll(s, a, b), c) == ReplaceAll(RemoveAll(s, c), a, b)
    decreases |s|
  {
    if |s| > 0 {
      var r := ReplaceAll(s, a, b);
      assert r == [r[0]] + r[1..];
      assert r[1..] == ReplaceAll(s[1..], a, b);
      RemoveReplaceCommute(s[1..], a, b, c);
      if s[0] != c {
        var t := RemoveAll(s[1..], c);
        assert RemoveAll(s, c) == [s[0]] + t;
        assert ([s[0]] + t)[1..] == t;
      }
    }
  }

  /**
   * Undoing the base64url rewrite of standard base64 text gives that text
   * without its padding -- which `atob` accepts in place of the padded text.
   */
  lemma UrlSafeRoundTrip(b64: string)
    requires '-' !in b64 && '_' !in b64
    ensures UrlUnsafe(UrlSafe(b64)) == RemoveAll(b64, '=')
  {
    var x := RemoveAll(b64, '=');
    RemoveReplaceCommute(b64, '+', '-', '=');
    RemoveReplaceCommute(ReplaceAll(b64, '+', '-'), '/', '_', '=');
    assert UrlSafe(b64) == ReplaceAll(ReplaceAll(x, '+', '-'), '/', '_');
    var y := UrlUnsafe(UrlSafe(b64));
    assert '-' !in x && '_' !in x;
    forall i | 0 <= i < |x| ensures y[i] == x[i] {
      assert x[i] != '-' && x[i] != '_';
    }
  }

  /** A Latin-1 JSON value survives `base64UrlEncode` followed by the decoders' segment decoding. */
  lemma EncodeThenDecodeSegment(p: Platform, j: Json)
    requires Sound(p) && JsonLatin1(j)
    ensures Base64UrlEncode(p, j).Ok?
    ensures DecodeSegment(p, Base64UrlEncode(p, j).value) == Ok(j)
  {
    var text := p.stringify(j);
    var b64 := p.btoa(text).value;
    assert Base64Text(b64);
    assert '-' !in b64 && '_' !in b64;
    UrlSafeRoundTrip(b64);
  }

  /** A base64 text has no '.', so no encoded segment does. */
  lemma NoDotInEncoding(p: Platform, s: string)
    requires Sound(p) && p.btoa(s).Ok?
    ensures '.' !in UrlSafe(p.btoa(s).value)
  {
    var b64 := p.btoa(s).value;
    if '.' in b64 {
      var i :| 0 <= i < |b64| && b64[i] == '.';
      assert Base64Char(b64[i]);
    }
  }

  /** `base64UrlEncode` succeeds on exactly the Latin-1 JSON values. */
  lemma EncodeSucceeds(p: Platform, j: Json)
    requires Sound(p)
    ensures Base64UrlEncode(p, j).Ok? <==> JsonLatin1(j)
  {
    assert p.btoa(p.stringify(j)).Ok? <==> Latin1(p.stringify(j));
  }

  /**
   * `generateJWT` succeeds exactly when every string claim is Latin-1 and the
   * MAC of the signing input is computed.
   */
  lemma GenerateSucceeds(p: Platform, c: Claims, secret: string)
    requires Sound(p)
    ensures SigningInput(p, c).Ok? <==> ClaimsLatin1(c)
    ensures GenerateJwt(p, c, secret).Ok? <==>
              SigningInput(p, c).Ok? && p.hmac(SigningInput(p, c).value, secret).Ok?
  {
    HeaderJsonLatin1();
    ClaimsJsonLatin1(c);
    EncodeSucceeds(p, HeaderJson);
    EncodeSucceeds(p, ClaimsJson(c));
  }

  /**
   * A generated token splits on '.' into exactly three segments, and the third
   * is the MAC of the first two joined by '.': the signature depends on
   * nothing but `encHeader.encPayload` and the secret.
   */
  lemma GeneratedTokenSegments(p: Platform, c: Claims, secret: string)
    requires Sound(p) && GenerateJwt(p, c, secret).Ok?
    ensures var parts := Split(GenerateJwt(p, c, secret).value, '.');
            && |parts| == 3
            && parts[0] == Base64UrlEncode(p, HeaderJson).value
            && parts[1] == Base64UrlEncode(p, ClaimsJson(c)).value
            && HmacSha256(p, parts[0] + "." + parts[1], secret) == Ok(parts[2])
  {
    var h := Base64UrlEncode(p, HeaderJson).value;
    var pl := Base64UrlEncode(p, ClaimsJson(c)).value;
    var message := h + "." + pl;
    var mac := p.hmac(message, secret).value;
    var sig := HmacSha256(p, message, secret).value;
    NoDotInEncoding(p, p.stringify(HeaderJson));
    NoDotInEncoding(p, p.stringify(ClaimsJson(c)));
    NoDotInEncoding(p, FromCharCodes(mac));
    assert GenerateJwt(p, c, secret).value == Join3(h, pl, sig, '.');
    SplitJoin3(h, pl, sig, '.');
  }

  /**
   * Round trip: decoding a generated token yields the fixed header
   * `{"alg":"HS256","typ":"JWT"}` and exactly the claims that were signed.
   */
  lemma GenerateThenDecode(p: Platform, c: Claims, secret: string)
    requires Sound(p) && GenerateJwt(p, c, secret).Ok?
    ensures DecodeJwt(p, GenerateJwt(p, c, secret).value) == Some(Decoded(HeaderJson, ClaimsJson(c)))
  {
    GeneratedTokenSegments(p, c, secret);
    HeaderJsonLatin1();
    GenerateSucceeds(p, c, secret);
    ClaimsJsonLatin1(c);
    EncodeThenDecodeSegment(p, HeaderJson);
    EncodeThenDecodeSegment(p, ClaimsJson(c));
  }

  /** The first two pieces of `header.payload.rest`, for separator-free `header` and `payload`. */
  lemma SplitFirstTwo(header: string, payload: string, rest: string)
    requires '.' !in header && '.' !in payload
    ensures var parts := Split(Join3(header, payload, rest, '.'), '.');
            |parts| >= 2 && parts[0] == header && parts[1] == payload
  {
    assert Join3(header, payload, rest, '.') == header + ['.'] + (payload + ['.'] + rest);
    SplitAfterPiece(header, '.', payload + ['.'] + rest);
    SplitAfterPiece(payload, '.', rest);
  }

  /** `decodeJWT` reads only the first two segments: whatever follows the second '.' is ignored. */
  lemma DecodeIgnoresSignature(p: Platform, header: string, payload: string, sig1: string, sig2: string)
    requires '.' !in header && '.' !in payload
    ensures DecodeJwt(p, Join3(header, payload, sig1, '.')) == DecodeJwt(p, Join3(header, payload, sig2, '.'))
  {
    SplitFirstTwo(header, payload, sig1);
    SplitFirstTwo(header, payload, sig2);
  }

  /** A string without '.' never decodes: there is no payload segment. */
  lemma DecodeNeedsPayloadSegment(p: Platform, jwt: string)
    requires '.' !in jwt
    ensures DecodeJwt(p, jwt) == None
  {
    SplitNoSeparator(jwt, '.');
  }

  /** `generateJWT` throws, rather than signing, when a string claim has a character above U+00FF. */
  lemma GenerateRejectsWideCharacters(p: Platform, c: Claims, secret: string)
    requires Sound(p) && !ClaimsLatin1(c)
    ensures GenerateJwt(p, c, secret).Throws?
  {
    GenerateSucceeds(p, c, secret);
  }

  /** On a generated token, `isExpired` is exactly `exp <= now`. */
  lemma GeneratedTokenExpiry(p: Platform, c: Claims, secret: string, token: string, now: int)
    requires Sound(p) && GenerateJwt(p, c, secret) == Ok(token)
    ensures IsExpired(p, token, now) == Ok(c.exp <= now)
  {
    GenerateThenDecode(p, c, secret);
    assert Get(ClaimsJson(c), "exp") == Ok(Defined(Num(c.exp)));
  }

  /**
   * The client's expiry rule on its own tokens: a token created at `now` with
   * a positive TTL is not expired at `now`, and is expired from `now + ttl` on
   * (`exp <= now`, as section 4.1.4 of RFC 7519 has it).
   */
  lemma RotatingTokenExpiry(p: Platform, ticketId: string, eventId: string, key: string,
                            ttlSeconds: int, skewSeconds: int, now: int, token: string, later: int)
    requires Sound(p) && CreateRotatingQr(p, ticketId, eventId, key, ttlSeconds, skewSeconds, now) == Ok(token)
    ensures IsExpired(p, token, later) == Ok(later >= now + ttlSeconds)
    ensures ttlSeconds > 0 ==> IsExpired(p, token, now) == Ok(false)
  {
    var c := RotatingClaims(ticketId, eventId, ttlSeconds, skewSeconds, now);
    GeneratedTokenExpiry(p, c, key, token, later);
    GeneratedTokenExpiry(p, c, key, token, now);
  }
}

/**
 * The presigned GET URL builder of the cache plugin (AWS Signature Version 4,
 * query-parameter authentication), as the plugin writes it.
 *
 * The instant of signing is a parameter (`now`, nanoseconds since the Unix
 * epoch) instead of a clock read; SHA-256, HMAC and the `net/url` helpers
 * come in through `Library.Crypto` and `Library.UrlLib`.
 *
 * Three details differ from textbook SigV4 and are kept: the URL's
 * `X-Amz-Date` is the expiry time, not the signing time; the URL has no
 * slash between bucket and key while the canonical URI has one; and a key
 * that starts with `/` is not normalised, giving `//` in the canonical URI.
 */
module S3 {
  import opened Wrappers
  import opened GoStrings
  import opened GoStrconv
  import opened GoHex
  import opened GoTime
  import opened Library

  const Method: string := "GET"
  const Service: string := "s3"
  const Algorithm: string := "AWS4-HMAC-SHA256"
  const SignedHeaders: string := "host"
  const PayloadHash: string := "UNSIGNED-PAYLOAD"
  const ScopeTerminator: string := "aws4_request"

  /** The arguments of `GeneratePresignedURL`, in order; `expires` is a `time.Duration` in nanoseconds. */
  datatype PresignRequest = PresignRequest(
    accessKey: string,
    secretKey: string,
    sessionToken: string,
    region: string,
    host: string,
    bucket: string,
    key: string,
    expires: int,
    versionId: string)

  /** The error `url.Parse` reports for the endpoint. */
  datatype UrlError = UrlError(endpoint: string)

  /** Go's `(string, error)` result. */
  datatype Presigned = Presigned(url: string, err: Option<UrlError>)

  /** Everything the signing steps compute on the way to the signature. */
  datatype Signing = Signing(
    amzDate: string,
    credentialDate: string,
    iso8601Expiry: string,
    canonicalRequest: string,
    stringToSign: string,
    signatureHex: string)

  /** One `name=value` query parameter of the presigned URL. */
  datatype QueryParam = QueryParam(name: string, value: string)

  /** The object URL: no slash between bucket and key. */
  function Endpoint(host: string, bucket: string, key: string): string {
    "https://" + host + "/" + bucket + key
  }

  /** The path the signature covers: a slash between bucket and key. */
  function CanonicalUri(bucket: string, key: string): string {
    "/" + bucket + "/" + key
  }

  function CanonicalHeaders(host: string): string {
    "host:" + host + "\n"
  }

  /** The six fields of the canonical request, one per line. */
  function CanonicalRequest(bucket: string, key: string, canonicalQuery: string, host: string): string {
    Join([Method, CanonicalUri(bucket, key), canonicalQuery, CanonicalHeaders(host), SignedHeaders, PayloadHash], "\n")
  }

  /** `hashSHA256`: the lowercase hex SHA-256 of a string. */
  function HashSHA256(c: Crypto, data: string): (r: string)
    ensures |r| == 64
    ensures forall i :: 0 <= i < |r| ==> IsLowerHex(r[i])
  {
    EncodeToString(c.sha256(c.toBytes(data)))
  }

  /** `hmacSHA256`. */
  function HmacSHA256(c: Crypto, key: Bytes, message: string): Digest {
    c.hmac(key, c.toBytes(message))
  }

  /** `getSignatureKey`: four chained HMACs, each result keying the next. */
  function GetSignatureKey(c: Crypto, secretKey: string, date: string, region: string, service: string): Digest {
    var kDate := HmacSHA256(c, c.toBytes("AWS4" + secretKey), date);
    var kRegion := HmacSHA256(c, kDate, region);
    var kService := HmacSHA256(c, kRegion, service);
    HmacSHA256(c, kService, ScopeTerminator)
  }

  /** The string to sign: algorithm, signing time, credential scope, hashed canonical request. */
  function StringToSign(amzDate: string, credentialDate: string, region: string, canonicalRequestHash: string): string {
    Algorithm + "\n" + amzDate + "\n" + credentialDate + "/" + region + "/" + Service + "/" + ScopeTerminator + "\n" + canonicalRequestHash
  }

  /** The components of the credential scope, in scope order. */
  function ScopeParts(date: string, region: string, service: string): seq<string> {
    [date, region, service, ScopeTerminator]
  }

  /** HMAC keyed by `key` over the first part, its result keying the HMAC over the next part, and so on. */
  function HmacChain(c: Crypto, key: Bytes, parts: seq<string>): Bytes
    decreases |parts|
  {
    if parts == [] then key else HmacChain(c, HmacSHA256(c, key, parts[0]), parts[1..])
  }

  /** `int(expires.Seconds())`: whole seconds, truncated toward zero. */
  function ExpiresSeconds(expires: int): (s: int)
    ensures expires >= 0 ==> s * NanosPerSecond <= expires < (s + 1) * NanosPerSecond
    ensures expires < 0 ==> (s - 1) * NanosPerSecond < expires <= s * NanosPerSecond
  {
    if expires >= 0 then expires / NanosPerSecond else -((-expires) / NanosPerSecond)
  }

  /**
   * Lines 24-56 of the signer, from the signing time `t` and the expiry time
   * `expiry`: formatted times, canonical request, string to sign, signature.
   */
  function Sign(c: Crypto, u: UrlLib, r: PresignRequest, t: DateTime, expiry: DateTime): (s: Signing)
    ensures |s.signatureHex| == 64
    ensures forall i :: 0 <= i < |s.signatureHex| ==> IsLowerHex(s.signatureHex[i])
  {
    var amzDate := FormatDateTime(t);
    var credentialDate := FormatDate(t);
    var iso8601Expiry := FormatDateTime(expiry);
    var canonicalRequest := CanonicalRequest(r.bucket, r.key, u.encodedQuery(Endpoint(r.host, r.bucket, r.key)), r.host);
    var stringToSign := StringToSign(amzDate, credentialDate, r.region, HashSHA256(c, canonicalRequest));
    var signingKey := GetSignatureKey(c, r.secretKey, credentialDate, r.region, Service);
    var signatureHex := EncodeToString(HmacSHA256(c, signingKey, stringToSign));
    Signing(amzDate, credentialDate, iso8601Expiry, canonicalRequest, stringToSign, signatureHex)
  }

  /** `name=value` for each parameter, in order. */
  function Rendered(ps: seq<QueryParam>): (r: seq<string>)
    ensures |r| == |ps|
  {
    seq(|ps|, i requires 0 <= i < |ps| => ps[i].name + "=" + ps[i].value)
  }

  /** A query string: the rendered parameters joined with `&`. */
  function RenderQuery(ps: seq<QueryParam>): string {
    Join(Rendered(ps), "&")
  }

  /** A parameter that is present only for a non-empty raw value. */
  function OptionalParam(u: UrlLib, name: string, raw: string): seq<QueryParam> {
    if raw != "" then [QueryParam(name, u.queryEscape(raw))] else []
  }

  /** The six parameters every presigned URL carries, in order. */
  function CoreParams(u: UrlLib, r: PresignRequest, s: Signing): seq<QueryParam> {
    [ QueryParam("X-Amz-Algorithm", Algorithm),
      QueryParam("X-Amz-Credential", u.queryEscape(r.accessKey) + "%2F" + s.credentialDate + "%2F" + r.region + "%2F" + Service + "%2F" + ScopeTerminator),
      QueryParam("X-Amz-Date", s.iso8601Expiry),
      QueryParam("X-Amz-Expires", Itoa(ExpiresSeconds(r.expires))),
      QueryParam("X-Amz-SignedHeaders", SignedHeaders),
      QueryParam("X-Amz-Signature", s.signatureHex) ]
  }

  /** The query parameters of the presigned URL, as a list. */
  function QueryParams(u: UrlLib, r: PresignRequest, s: Signing): seq<QueryParam> {
    CoreParams(u, r, s)
    + OptionalParam(u, "X-Amz-Security-Token", r.sessionToken)
    + OptionalParam(u, "versionId", r.versionId)
  }

  /** Lines 58-68: the URL as the format string writes it. */
  function BaseUrl(endpoint: string, u: UrlLib, r: PresignRequest, s: Signing): string {
    endpoint + "?"
      + "X-Amz-Algorithm=AWS4-HMAC-SHA256" + "&X-Amz-Credential=" + u.queryEscape(r.accessKey)
      + "%2F" + s.credentialDate + "%2F" + r.region + "%2F" + Service + "%2Faws4_request"
      + "&X-Amz-Date=" + s.iso8601Expiry
      + "&X-Amz-Expires=" + Itoa(ExpiresSeconds(r.expires))
      + "&X-Amz-SignedHeaders=" + SignedHeaders
      + "&X-Amz-Signature=" + s.signatureHex
  }

  /** Lines 70-78: the session token, then the version id, each appended to the formatted URL only when non-empty. */
  function FormatUrl(presignedURL: string, u: UrlLib, r: PresignRequest): string {
    var withToken := if r.sessionToken != "" then presignedURL + "&X-Amz-Security-Token=" + u.queryEscape(r.sessionToken) else presignedURL;
    if r.versionId != "" then withToken + "&versionId=" + u.queryEscape(r.versionId) else withToken
  }

  /**
   * `GeneratePresignedURL`: fails only when the endpoint does not parse;
   * otherwise the endpoint, `?`, and the query parameters in their fixed order.
   */
  function GeneratePresignedURL(c: Crypto, u: UrlLib, r: PresignRequest, now: int): (res: Presigned)
    ensures res.err.Some? <==> !u.parses(Endpoint(r.host, r.bucket, r.key))
    ensures res.err.Some? ==> res.url == "" && res.err.value.endpoint == Endpoint(r.host, r.bucket, r.key)
    ensures res.err.None? ==> res.url == Endpoint(r.host, r.bucket, r.key) + "?" + RenderQuery(QueryParams(u, r, Sign(c, u, r, UTC(now), UTC(now + r.expires))))
  {
    var endpoint := Endpoint(r.host, r.bucket, r.key);
    if !u.parses(endpoint) then Presigned("", Some(UrlError(endpoint)))
    else
      var s := Sign(c, u, r, UTC(now), UTC(now + r.expires));
      FormatUrlRendersParams(endpoint, u, r, s);
      Presigned(FormatUrl(BaseUrl(endpoint, u, r, s), u, r), None)
  }

  /** `Join` of six elements, written out. */
  lemma JoinSix(e: seq<string>, sep: string)
    requires |e| == 6
    ensures Join(e, sep) == e[0] + sep + e[1] + sep + e[2] + sep + e[3] + sep + e[4] + sep + e[5]
  {
    assert e[1..][1..] == e[2..];
    assert e[2..][1..] == e[3..];
    assert e[3..][1..] == e[4..];
    assert e[4..][1..] == e[5..];
    assert Join(e[5..], sep) == e[5];
    assert Join(e[4..], sep) == e[4] + sep + e[5];
    assert Join(e[3..], sep) == e[3] + sep + (e[4] + sep + e[5]);
    assert Join(e[2..], sep) == e[2] + sep + (e[3] + sep + (e[4] + sep + e[5]));
    assert Join(e[1..], sep) == e[1] + sep + (e[2] + sep + (e[3] + sep + (e[4] + sep + e[5])));
  }

  /** The first field of the format string is the algorithm parameter. */
  lemma FormatAlgorithm()
    ensures "X-Amz-Algorithm=AWS4-HMAC-SHA256" == "X-Amz-Algorithm" + "=" + Algorithm
  {
    assert "X-Amz-Algorithm=AWS4-HMAC-SHA256" == "X-Amz-Algorithm=" + "AWS4-HMAC-SHA256";
    assert "X-Amz-Algorithm=" == "X-Amz-Algorithm" + "=";
  }

  /** The literal pieces of the format string, split at the parameter names. */
  lemma FormatLiterals()
    ensures "&X-Amz-Credential=" == "&" + ("X-Amz-Credential" + "=")
    ensures "&X-Amz-Date=" == "&" + ("X-Amz-Date" + "=")
    ensures "&X-Amz-Expires=" == "&" + ("X-Amz-Expires" + "=")
    ensures "&X-Amz-SignedHeaders=" == "&" + ("X-Amz-SignedHeaders" + "=")
    ensures "&X-Amz-Signature=" == "&" + ("X-Amz-Signature" + "=")
    ensures "%2Faws4_request" == "%2F" + ScopeTerminator
  {
  }

  /**
   * A URL written as the format string writes it, with every literal piece a
   * parameter, is the endpoint, `?` and the six fields joined by `&`.
   * The pieces are parameters rather than the literals themselves so that
   * the regrouping is plain reasoning about concatenation: with the literal
   * strings in place the solver compares them character by character. The
   * `l`/`k` pairs are the `&name=` pieces and the names, `v` the values, `sl`
   * the escaped slash and `term` the scope terminator.
   */
  lemma JoinedFormat(url: string, endpoint: string, e: seq<string>, a0: string, l1: string, k1: string, esc: string,
                     sl: string, date: string, region: string, service: string, tail: string, term: string,
                     l2: string, k2: string, v2: string, l3: string, k3: string, v3: string,
                     l4: string, k4: string, v4: string, l5: string, k5: string, v5: string)
    requires url == endpoint + "?" + a0 + l1 + esc + sl + date + sl + region + sl + service + tail
                    + l2 + v2 + l3 + v3 + l4 + v4 + l5 + v5
    requires tail == sl + term
    requires l1 == "&" + k1 && l2 == "&" + k2 && l3 == "&" + k3 && l4 == "&" + k4 && l5 == "&" + k5
    requires e == [a0, k1 + (esc + sl + date + sl + region + sl + service + sl + term), k2 + v2, k3 + v3, k4 + v4, k5 + v5]
    ensures url == endpoint + "?" + Join(e, "&")
  {
    JoinSix(e, "&");
    assert Join(e, "&") == a0 + "&" + (k1 + (esc + sl + date + sl + region + sl + service + sl + term)) + "&" + (k2 + v2)
                           + "&" + (k3 + v3) + "&" + (k4 + v4) + "&" + (k5 + v5);
    RegroupFormat(endpoint, a0, l1, k1, esc, sl, date, region, service, tail, term, l2, k2, v2, l3, k3, v3, l4, k4, v4, l5, k5, v5);
  }

  /** The flat concatenation regrouped field by field. */
  lemma RegroupFormat(endpoint: string, e0: string, l1: string, k1: string, esc: string, sl: string, date: string,
                      region: string, service: string, tail: string, term: string,
                      l2: string, k2: string, v2: string, l3: string, k3: string, v3: string,
                      l4: string, k4: string, v4: string, l5: string, k5: string, v5: string)
    requires tail == sl + term
    requires l1 == "&" + k1 && l2 == "&" + k2 && l3 == "&" + k3 && l4 == "&" + k4 && l5 == "&" + k5
    ensures endpoint + "?" + e0 + l1 + esc + sl + date + sl + region + sl + service + tail + l2 + v2 + l3 + v3 + l4 + v4 + l5 + v5
      == endpoint + "?" + (e0 + "&" + (k1 + (esc + sl + date + sl + region + sl + service + sl + term)) + "&" + (k2 + v2)
         + "&" + (k3 + v3) + "&" + (k4 + v4) + "&" + (k5 + v5))
  {
  }

  /** The six core parameters rendered one by one. */
  lemma RenderedCore(u: UrlLib, r: PresignRequest, s: Signing)
    ensures Rendered(CoreParams(u, r, s)) == [
      "X-Amz-Algorithm=AWS4-HMAC-SHA256",
      "X-Amz-Credential" + "=" + (u.queryEscape(r.accessKey) + "%2F" + s.credentialDate + "%2F" + r.region + "%2F" + Service + "%2F" + ScopeTerminator),
      "X-Amz-Date" + "=" + s.iso8601Expiry,
      "X-Amz-Expires" + "=" + Itoa(ExpiresSeconds(r.expires)),
      "X-Amz-SignedHeaders" + "=" + SignedHeaders,
      "X-Amz-Signature" + "=" + s.signatureHex]
  {
    FormatAlgorithm();
  }

  /** The format string renders exactly the six core parameters. */
  lemma BaseUrlRendersCore(endpoint: string, u: UrlLib, r: PresignRequest, s: Signing)
    ensures BaseUrl(endpoint, u, r, s) == endpoint + "?" + RenderQuery(CoreParams(u, r, s))
  {
    var e := Rendered(CoreParams(u, r, s));
    var esc := u.queryEscape(r.accessKey);
    var expires := Itoa(ExpiresSeconds(r.expires));
    RenderedCore(u, r, s);
    FormatLiterals();
    JoinedFormat(BaseUrl(endpoint, u, r, s), endpoint, e, "X-Amz-Algorithm=AWS4-HMAC-SHA256", "&X-Amz-Credential=", "X-Amz-Credential" + "=",
                 esc, "%2F", s.credentialDate, r.region, Service, "%2Faws4_request", ScopeTerminator,
                 "&X-Amz-Date=", "X-Amz-Date" + "=", s.iso8601Expiry,
                 "&X-Amz-Expires=", "X-Amz-Expires" + "=", expires,
                 "&X-Amz-SignedHeaders=", "X-Amz-SignedHeaders" + "=", SignedHeaders,
                 "&X-Amz-Signature=", "X-Amz-Signature" + "=", s.signatureHex);
  }

  /** Appending `&name=value` to a rendered query renders the list with that parameter added at the end. */
  lemma AppendParam(url: string, prefix: string, ps: seq<QueryParam>, name: string, literal: string, value: string)
    requires ps != []
    requires url == prefix + RenderQuery(ps)
    requires literal == "&" + name + "="
    ensures url + literal + value == prefix + RenderQuery(ps + [QueryParam(name, value)])
  {
    RenderedAppend(ps, [QueryParam(name, value)]);
    assert Rendered([QueryParam(name, value)]) == [name + "=" + value];
    JoinSnoc(Rendered(ps), name + "=" + value, "&");
    assert literal + value == "&" + (name + "=" + value);
  }

  /** The two conditional appends add the optional parameters to a rendered query. */
  lemma AppendsRenderOptional(presignedURL: string, prefix: string, u: UrlLib, r: PresignRequest, core: seq<QueryParam>)
    requires core != [] && presignedURL == prefix + RenderQuery(core)
    ensures FormatUrl(presignedURL, u, r)
      == prefix + RenderQuery(core + OptionalParam(u, "X-Amz-Security-Token", r.sessionToken) + OptionalParam(u, "versionId", r.versionId))
  {
    var token := OptionalParam(u, "X-Amz-Security-Token", r.sessionToken);
    var version := OptionalParam(u, "versionId", r.versionId);
    var withToken := if r.sessionToken != "" then presignedURL + "&X-Amz-Security-Token=" + u.queryEscape(r.sessionToken) else presignedURL;
    if r.sessionToken != "" {
      AppendParam(presignedURL, prefix, core, "X-Amz-Security-Token", "&X-Amz-Security-Token=", u.queryEscape(r.sessionToken));
    } else {
      assert core + token == core;
    }
    assert withToken == prefix + RenderQuery(core + token);
    if r.versionId != "" {
      AppendParam(withToken, prefix, core + token, "versionId", "&versionId=", u.queryEscape(r.versionId));
    } else {
      assert core + token + version == core + token;
    }
  }

  /** The format string and the two conditional appends produce exactly the rendered parameter list. */
  lemma FormatUrlRendersParams(endpoint: string, u: UrlLib, r: PresignRequest, s: Signing)
    ensures FormatUrl(BaseUrl(endpoint, u, r, s), u, r) == endpoint + "?" + RenderQuery(QueryParams(u, r, s))
  {
    BaseUrlRendersCore(endpoint, u, r, s);
    AppendsRenderOptional(BaseUrl(endpoint, u, r, s), endpoint + "?", u, r, CoreParams(u, r, s));
  }

  /** `name=value` for each parameter, in order. */
  lemma RenderedAppend(a: seq<QueryParam>, b: seq<QueryParam>)
    ensures Rendered(a + b) == Rendered(a) + Rendered(b)
  {
  }

  /** The canonical request's six lines, written as the format string writes them. */
  lemma CanonicalRequestLayout(bucket: string, key: string, canonicalQuery: string, host: string)
    ensures CanonicalRequest(bucket, key, canonicalQuery, host)
      == "GET" + "\n" + "/" + bucket + "/" + key + "\n" + canonicalQuery + "\n" + "host:" + host + "\n" + "\n" + "host" + "\n" + "UNSIGNED-PAYLOAD"
  {
    JoinSix([Method, CanonicalUri(bucket, key), canonicalQuery, CanonicalHeaders(host), SignedHeaders, PayloadHash], "\n");
    RegroupLines(Method, "/", bucket, key, canonicalQuery, "host:", host, SignedHeaders, PayloadHash, "\n");
  }

  /** The canonical request's lines regrouped, with every piece a parameter. */
  lemma RegroupLines(m: string, sl: string, b: string, k: string, q: string, hd: string, h: string, sh: string, ph: string, nl: string)
    ensures m + nl + (sl + b + sl + k) + nl + q + nl + (hd + h + nl) + nl + sh + nl + ph
      == m + nl + sl + b + sl + k + nl + q + nl + hd + h + nl + nl + sh + nl + ph
  {
  }

  /** `getSignatureKey` is the HMAC chain, from `"AWS4"` and the secret, over the scope components. */
  lemma SignatureKeyChain(c: Crypto, secretKey: string, date: string, region: string)
    ensures GetSignatureKey(c, secretKey, date, region, Service) == HmacChain(c, c.toBytes("AWS4" + secretKey), ScopeParts(date, region, Service))
  {
    var k0 := c.toBytes("AWS4" + secretKey);
    var parts := ScopeParts(date, region, Service);
    var k1 := HmacSHA256(c, k0, date);
    var k2 := HmacSHA256(c, k1, region);
    var k3 := HmacSHA256(c, k2, Service);
    var k4 := HmacSHA256(c, k3, ScopeTerminator);
    assert parts[1..] == [region, Service, ScopeTerminator];
    assert parts[1..][1..] == [Service, ScopeTerminator];
    assert parts[1..][1..][1..] == [ScopeTerminator];
    assert HmacChain(c, k4, []) == k4;
    assert HmacChain(c, k3, [ScopeTerminator]) == k4;
    assert HmacChain(c, k2, [Service, ScopeTerminator]) == k4;
    assert HmacChain(c, k1, [region, Service, ScopeTerminator]) == k4;
  }

  /** The string to sign is four lines, the third the scope components joined with `/`. */
  lemma StringToSignLines(amzDate: string, date: string, region: string, hash: string)
    ensures StringToSign(amzDate, date, region, hash) == Join([Algorithm, amzDate, Join(ScopeParts(date, region, Service), "/"), hash], "\n")
  {
    var parts := ScopeParts(date, region, Service);
    assert parts[1..][1..][1..] == [ScopeTerminator];
    var scope := Join(parts, "/");
    assert Join(parts[1..][1..], "/") == Service + "/" + ScopeTerminator;
    assert Join(parts[1..], "/") == region + "/" + (Service + "/" + ScopeTerminator);
    assert scope == date + "/" + (region + "/" + (Service + "/" + ScopeTerminator));
    var lines := [Algorithm, amzDate, scope, hash];
    assert lines[1..] == [amzDate, scope, hash];
    assert lines[1..][1..] == [scope, hash];
    assert lines[1..][1..][1..] == [hash];
    assert Join(lines[1..][1..], "\n") == scope + "\n" + hash;
    assert Join(lines[1..], "\n") == amzDate + "\n" + (scope + "\n" + hash);
    assert Join(lines, "\n") == Algorithm + "\n" + (amzDate + "\n" + (scope + "\n" + hash));
  }

  /**
   * The signature is the hex HMAC, under the key chained over the scope,
   * of the string to sign, which carries the hash of the canonical request
   * built from the endpoint's encoded query.
   */
  lemma SignatureCoversRequest(c: Crypto, u: UrlLib, r: PresignRequest, t: DateTime, expiry: DateTime)
    ensures Sign(c, u, r, t, expiry).canonicalRequest
      == CanonicalRequest(r.bucket, r.key, u.encodedQuery(Endpoint(r.host, r.bucket, r.key)), r.host)
    ensures Sign(c, u, r, t, expiry).stringToSign
      == Join([Algorithm, Sign(c, u, r, t, expiry).amzDate, Join(ScopeParts(Sign(c, u, r, t, expiry).credentialDate, r.region, Service), "/"),
               HashSHA256(c, Sign(c, u, r, t, expiry).canonicalRequest)], "\n")
    ensures Sign(c, u, r, t, expiry).signatureHex
      == EncodeToString(c.hmac(HmacChain(c, c.toBytes("AWS4" + r.secretKey), ScopeParts(Sign(c, u, r, t, expiry).credentialDate, r.region, Service)),
                               c.toBytes(Sign(c, u, r, t, expiry).stringToSign)))
  {
    var s := Sign(c, u, r, t, expiry);
    SignatureKeyChain(c, r.secretKey, s.credentialDate, r.region);
    StringToSignLines(s.amzDate, s.credentialDate, r.region, HashSHA256(c, s.canonicalRequest));
  }

  /** The credential in the URL names the scope the key was derived for, with `/` escaped as `%2F`. */
  lemma CredentialNamesScope(u: UrlLib, r: PresignRequest, s: Signing)
    ensures CoreParams(u, r, s)[1].value == u.queryEscape(r.accessKey) + "%2F" + Join(ScopeParts(s.credentialDate, r.region, Service), "%2F")
  {
    var parts := ScopeParts(s.credentialDate, r.region, Service);
    assert parts[1..][1..][1..] == [ScopeTerminator];
    assert Join(parts[1..][1..], "%2F") == Service + "%2F" + ScopeTerminator;
    assert Join(parts[1..], "%2F") == r.region + "%2F" + (Service + "%2F" + ScopeTerminator);
  }

  /**
   * The times of a signing: the signing time gives the date-time of the
   * string to sign and the date of the scope, the expiry time gives the
   * URL's `X-Amz-Date`.
   */
  lemma SigningTimes(c: Crypto, u: UrlLib, r: PresignRequest, t: DateTime, expiry: DateTime)
    ensures Sign(c, u, r, t, expiry).amzDate == FormatDateTime(t)
    ensures Sign(c, u, r, t, expiry).credentialDate == FormatDate(t)
    ensures Sign(c, u, r, t, expiry).iso8601Expiry == FormatDateTime(expiry)
    ensures CoreParams(u, r, Sign(c, u, r, t, expiry))[2] == QueryParam("X-Amz-Date", FormatDateTime(expiry))
  {
    var s := Sign(c, u, r, t, expiry);
    assert s.iso8601Expiry == FormatDateTime(expiry);
    DateParam(u, r, s);
  }

  /** The URL's `X-Amz-Date` is the signing's expiry date-time. */
  lemma DateParam(u: UrlLib, r: PresignRequest, s: Signing)
    ensures CoreParams(u, r, s)[2] == QueryParam("X-Amz-Date", s.iso8601Expiry)
  {
  }

  /** Within years 0 to 9999 the signing date-time is 16 characters and begins with the scope's 8-digit date. */
  lemma SigningDateIsPrefix(c: Crypto, u: UrlLib, r: PresignRequest, t: DateTime, expiry: DateTime)
    requires Valid(t) && 0 <= t.year <= 9999
    ensures |Sign(c, u, r, t, expiry).amzDate| == 16 && |Sign(c, u, r, t, expiry).credentialDate| == 8
    ensures Sign(c, u, r, t, expiry).amzDate[..8] == Sign(c, u, r, t, expiry).credentialDate
  {
    SigningTimes(c, u, r, t, expiry);
    FormatShape(t);
  }

  /** With a zero lifetime the URL's `X-Amz-Date` is the signing time and `X-Amz-Expires` is `0`. */
  lemma ZeroExpiry(c: Crypto, u: UrlLib, r: PresignRequest, now: int)
    requires r.expires == 0
    ensures CoreParams(u, r, Sign(c, u, r, UTC(now), UTC(now + r.expires)))[2].value == Sign(c, u, r, UTC(now), UTC(now + r.expires)).amzDate
    ensures CoreParams(u, r, Sign(c, u, r, UTC(now), UTC(now + r.expires)))[3].value == "0"
  {
    assert now + r.expires == now;
    SigningTimes(c, u, r, UTC(now), UTC(now + r.expires));
    assert Decimal(0) == "0";
  }

  /** Signing on the Unix epoch with an expiry one day later. */
  lemma EpochSigning(c: Crypto, u: UrlLib, r: PresignRequest, t: DateTime, expiry: DateTime)
    requires t == DateTime(1970, 1, 1, 0, 0, 0) && expiry == DateTime(1970, 1, 2, 0, 0, 0)
    ensures Sign(c, u, r, t, expiry).amzDate == "19700101T000000Z"
    ensures CoreParams(u, r, Sign(c, u, r, t, expiry))[2].value == "19700102T000000Z"
  {
    SigningTimes(c, u, r, t, expiry);
    EpochFormats();
  }

  /**
   * A URL signed at the Unix epoch for one day carries the expiry instant
   * as `X-Amz-Date`, while the signature was computed over the signing
   * instant: the two differ.
   */
  lemma ExpiryDateIsNotSigningDate(c: Crypto, u: UrlLib, r: PresignRequest)
    requires r.expires == SecondsPerDay * NanosPerSecond
    ensures Sign(c, u, r, UTC(0), UTC(0 + r.expires)).amzDate == "19700101T000000Z"
    ensures CoreParams(u, r, Sign(c, u, r, UTC(0), UTC(0 + r.expires)))[2].value == "19700102T000000Z"
    ensures CoreParams(u, r, Sign(c, u, r, UTC(0), UTC(0 + r.expires)))[3].value == "86400"
  {
    assert UTC(0) == DateTime(1970, 1, 1, 0, 0, 0) && UTC(0 + r.expires) == DateTime(1970, 1, 2, 0, 0, 0) by {
      EpochDaysUTC();
    }
    EpochSigning(c, u, r, UTC(0), UTC(0 + r.expires));
    assert Itoa(ExpiresSeconds(r.expires)) == "86400" by {
      assert ExpiresSeconds(r.expires) == 86400;
      assert Decimal(86400) == "86400";
    }
  }

  /** `X-Amz-Expires` reads back with `strconv.Atoi` as the lifetime in whole seconds, truncated toward zero. */
  lemma ExpiresReadsBack(u: UrlLib, r: PresignRequest, s: Signing)
    requires InIntRange(r.expires)
    ensures Atoi(CoreParams(u, r, s)[3].value) == Some(ExpiresSeconds(r.expires))
  {
    AtoiItoa(ExpiresSeconds(r.expires));
  }

  /**
   * The URL path has no slash between bucket and key, the signed path has
   * one, so the two never agree; a key that starts with `/` signs a path
   * with `//` in it.
   */
  lemma SignedPathIsNotUrlPath(host: string, bucket: string, key: string)
    ensures Endpoint(host, bucket, key) == "https://" + host + ("/" + bucket + key)
    ensures |CanonicalUri(bucket, key)| == |"/" + bucket + key| + 1
    ensures CanonicalUri(bucket, key) != "/" + bucket + key
    ensures |key| > 0 && key[0] == '/' ==> CanonicalUri(bucket, key)[|bucket| + 1..|bucket| + 3] == "//"
  {
  }

  /** The security token and the version id each appear exactly when given, after the six fixed parameters. */
  lemma OptionalParamsPresent(u: UrlLib, r: PresignRequest, s: Signing)
    ensures QueryParams(u, r, s)[..6] == CoreParams(u, r, s)
    ensures |QueryParams(u, r, s)| == 6 + (if r.sessionToken != "" then 1 else 0) + (if r.versionId != "" then 1 else 0)
    ensures r.sessionToken != "" ==> QueryParams(u, r, s)[6] == QueryParam("X-Amz-Security-Token", u.queryEscape(r.sessionToken))
    ensures r.versionId != "" ==> QueryParams(u, r, s)[|QueryParams(u, r, s)| - 1] == QueryParam("versionId", u.queryEscape(r.versionId))
    ensures (exists i :: 0 <= i < |QueryParams(u, r, s)| && QueryParams(u, r, s)[i].name == "X-Amz-Security-Token") <==> r.sessionToken != ""
    ensures (exists i :: 0 <= i < |QueryParams(u, r, s)| && QueryParams(u, r, s)[i].name == "versionId") <==> r.versionId != ""
  {
    var ps := QueryParams(u, r, s);
    var core := CoreParams(u, r, s);
    assert ps[..6] == core;
    forall i | 0 <= i < 6
      ensures ps[i].name != "X-Amz-Security-Token" && ps[i].name != "versionId"
    {
      assert ps[i] == core[i];
    }
    if r.sessionToken != "" {
      assert ps[6].name == "X-Amz-Security-Token";
    }
    if r.versionId != "" {
      assert ps[|ps| - 1].name == "versionId";
    }
  }
}

/**
 * Library behaviour the plugin calls but does not define, taken as
 * parameters: each field is a function the model never looks inside.
 */
module Library {
  import opened GoHex

  /** A SHA-256 or HMAC-SHA256 output: exactly 32 bytes. */
  type Digest = d: Bytes | |d| == 32 witness seq(32, _ => 0)

  /**
   * `crypto/sha256` (FIPS 180-4), `crypto/hmac` over SHA-256 (RFC 2104, key
   * first) and the `[]byte(s)` conversion of a Go string.
   */
  datatype Crypto = Crypto(
    sha256: Bytes -> Digest,
    hmac: (Bytes, Bytes) -> Digest,
    toBytes: string -> Bytes)

  /**
   * `net/url`: whether `url.Parse` accepts a string, the re-encoded query of
   * the parsed URL (`parsedURL.Query().Encode()`), and `url.QueryEscape`.
   */
  datatype UrlLib = UrlLib(
    parses: string -> bool,
    encodedQuery: string -> string,
    queryEscape: string -> string)
}

# proxy-cache-s3 in Dafny

`proxy-cache-s3` is a Higress WebAssembly plugin, written in Go, meant to
cache proxied HTTP responses in S3-compatible object storage. As the code
stands, the request handler computes a cache key for each request, starts a
GET to a fixed cluster and answers with a placeholder body. It never calls the
presigned-URL signer and never reads from S3. This project models the plugin's
algorithmic core and proves properties of it:

- **The presigned-URL signer** (`util/s3.go`, module `S3`). It builds an AWS
  Signature Version 4 query-authenticated GET URL, with these steps:
  - the canonical request;
  - its SHA-256;
  - the string to sign;
  - the four-step HMAC derivation of the signing key;
  - the hex signature;
  - the query parameters, in their fixed order. The security token and the
    version id are added only when they are non-empty.
- **The lifetime parser and the cache-key hash** (`util/function.go`, module
  `Functions`).
  - `CalculateTTL` removes spaces. It picks the first of the units
    `s`, `m`, `h`, `d` (either case) that the string ends with. It trims that
    unit's lowercase letter and then its uppercase letter, so `10Ss` loses
    both. It converts the rest with `strconv.Atoi`, then scales it with 64-bit
    wrapping multiplication. Anything unparsable gives 0.
  - `GetCacheKey` is the lowercase hex SHA-256 of a string.
- **The plugin object** (`main.go`, module `ProxyCache`). This is class
  `W7ProxyCache`, with its `cacheKey` tag list and its `setting` record.
  - `ParseConfig` reads the optional JSON fields and strips spaces from the
    string fields. It adds the `$cookie` tag when `cache_header` is true. It
    rejects a configuration in which the lifetime or any S3 setting is empty.
  - `OnHttpRequestHeaders` walks the tags. It turns each known tag into the
    tag followed by the request's host, path, method or cookie, and keeps an
    unknown tag as it is. It returns `ActionContinue` when a `$cookie` tag
    meets a request without a cookie header. Otherwise it joins the parts
    with `-` and hashes them into the cache key.

Supporting modules model the Go library behaviour the core relies on:

- `GoStrings`: `strings.Replace(s, " ", "", -1)`, `HasSuffix`, `TrimSuffix`
  and `Join`.
- `GoStrconv`: `strconv.Itoa` and `Atoi` over 64-bit `int`, with wrapping
  multiplication.
- `GoHex`: `hex.EncodeToString` and a decoder for it.
- `GoTime`: the UTC calendar breakdown and the `20060102` and
  `20060102T150405Z` layouts.
- `Library`: SHA-256, HMAC-SHA256, the string-to-bytes conversion and the
  `net/url` helpers. These are parameters (`Crypto`, `UrlLib`), so every
  property holds for any hash function and any URL library. The one fact used
  about a digest is that it is 32 bytes.

The clock is a parameter too. `now` is the signing instant in nanoseconds
since the Unix epoch.

Some behaviour of the code is easy to misread, and the model keeps it as written:

- The URL is formatted as `https://%s/%s%s`, with no slash between bucket and
  key. The canonical URI is `/%s/%s`, with one. So the path that is signed is
  never the path that is requested (`S3.SignedPathIsNotUrlPath`).
- The object key is not normalised, so a key with a leading `/` signs a path
  containing `//`.
- Unlike textbook Signature Version 4, `X-Amz-Date` in the URL carries the
  expiry instant, while the string to sign carries the signing time
  (`S3.SigningTimes`, `S3.ExpiryDateIsNotSigningDate`).
- Only the space character is removed from a lifetime. Tabs and newlines stay,
  and make it unparsable.

## Model

| member | source | states |
|---|---|---|
| S3.GeneratePresignedURL | extensions/proxy-cache-s3/util/s3.go:13-81 | It fails exactly when `url.Parse` rejects the endpoint. It then returns `""` and an error naming that endpoint. Otherwise the URL is the endpoint, `?`, and `name=value` pairs joined by `&`, in this order: the six fixed parameters, then the security token, then the version id. The parameters come from signing at `UTC(now)` with expiry `UTC(now + expires)`. |
| S3.FormatUrlRendersParams | extensions/proxy-cache-s3/util/s3.go:58-78 | The format string plus the two conditional appends spell exactly the endpoint, `?` and the rendered list `QueryParams`. |
| S3.BaseUrlRendersCore | extensions/proxy-cache-s3/util/s3.go:59-68 | The nine-argument format string renders the six fixed parameters joined with `&`. |
| S3.AppendsRenderOptional | extensions/proxy-cache-s3/util/s3.go:70-78 | Applied to a URL that renders a parameter list, the two conditional appends render that list followed by the present optional parameters. |
| S3.AppendParam | extensions/proxy-cache-s3/util/s3.go:71-78 | Appending `&name=value` to a rendered query is the same as rendering the list with that parameter added at its end. |
| S3.OptionalParamsPresent | extensions/proxy-cache-s3/util/s3.go:70-78 | The six fixed parameters come first. `X-Amz-Security-Token` appears iff the session token is non-empty, right after them. `versionId` appears iff the version id is non-empty, last. The length counts exactly the present ones. |
| S3.CredentialNamesScope | extensions/proxy-cache-s3/util/s3.go:59-64 | `X-Amz-Credential` is the escaped access key followed by the credential scope (date, region, `s3`, `aws4_request`) with `/` written `%2F`. |
| S3.HashSHA256 | extensions/proxy-cache-s3/util/s3.go:84-88 | The result is 64 lowercase hex characters. |
| S3.HmacSHA256 | extensions/proxy-cache-s3/util/s3.go:91-95 | The HMAC-SHA256 under `key` of the message's bytes, a 32-byte digest. No contract of its own. Its use is stated by `S3.SignatureKeyChain` and `S3.SignatureCoversRequest`. |
| S3.GetSignatureKey | extensions/proxy-cache-s3/util/s3.go:98-104 | Four chained HMACs, each result keying the next. No contract of its own. `S3.SignatureKeyChain` proves it equal to the general chain `HmacChain` over the scope components. |
| S3.Sign | extensions/proxy-cache-s3/util/s3.go:24-56 | The signature is 64 lowercase hex characters. |
| S3.SignatureCoversRequest | extensions/proxy-cache-s3/util/s3.go:29-56 | The canonical request is built from the endpoint's encoded query. The string to sign is the algorithm, the signing date-time, the `/`-joined scope and the canonical request's hash, one per line. The signature is the hex HMAC of that string, keyed by the HMAC chain over the scope. |
| S3.CanonicalRequestLayout | extensions/proxy-cache-s3/util/s3.go:30-42 | The canonical request reads `GET`, `/bucket/key`, the query, `host:<host>` with its own newline, `host` and `UNSIGNED-PAYLOAD`, on separate lines. |
| S3.SignatureKeyChain | extensions/proxy-cache-s3/util/s3.go:98-104 | The signing key is the HMAC chain, from `"AWS4"+secret`, over date, region, `s3` and `aws4_request`, each result keying the next. |
| S3.StringToSignLines | extensions/proxy-cache-s3/util/s3.go:47-52 | The string to sign is four lines: the algorithm, the date-time, the scope components joined with `/`, and the hash. |
| S3.SigningTimes | extensions/proxy-cache-s3/util/s3.go:24-27 | `amzDate` and the credential date are the signing time in the two layouts. The URL's `X-Amz-Date` is the expiry time, not the signing time. |
| S3.SigningDateIsPrefix | extensions/proxy-cache-s3/util/s3.go:24-25 | For years 0 to 9999, `amzDate` has 16 characters and the credential date has 8. `amzDate` starts with the credential date. |
| S3.ZeroExpiry | extensions/proxy-cache-s3/util/s3.go:26-66 | With a zero lifetime, `X-Amz-Date` equals the signing date-time and `X-Amz-Expires` is `0`. |
| S3.ExpiryDateIsNotSigningDate | extensions/proxy-cache-s3/util/s3.go:23-27 | A URL signed at the epoch for 24 hours signs `19700101T000000Z` but carries `X-Amz-Date=19700102T000000Z` and `X-Amz-Expires=86400`. |
| S3.ExpiresSeconds | extensions/proxy-cache-s3/util/s3.go:66 | The whole seconds of a duration, truncated toward zero: rounded down for a non-negative duration, up for a negative one. |
| S3.ExpiresReadsBack | extensions/proxy-cache-s3/util/s3.go:66 | `X-Amz-Expires` parses back with `Atoi` to the lifetime in whole seconds. |
| S3.SignedPathIsNotUrlPath | extensions/proxy-cache-s3/util/s3.go:16-30 | The URL path is `/bucket` followed by the key. The signed path is one character longer and never equal to it. A key starting with `/` gives `//` in the signed path. |
| GoTime.UTC | extensions/proxy-cache-s3/util/s3.go:23 | The broken-down time is a valid calendar date and time of day. |
| GoTime.FormatDate | extensions/proxy-cache-s3/util/s3.go:25 | No contract of its own: the `20060102` layout. `GoTime.FormatShape` gives 8 digits for years 0 to 9999, and `GoTime.EpochFormats` gives examples. |
| GoTime.FormatDateTime | extensions/proxy-cache-s3/util/s3.go:24-27 | No contract of its own: the `20060102T150405Z` layout. `GoTime.FormatShape` gives 16 characters with `T` and `Z` for years 0 to 9999, and `GoTime.EpochFormats` gives examples. |
| GoTime.FormatShape | extensions/proxy-cache-s3/util/s3.go:24-27 | For years 0 to 9999 the date layout gives 8 digits. The date-time layout gives 16 characters: that date, `T`, and a final `Z`. |
| GoTime.EpochDaysUTC | extensions/proxy-cache-s3/util/s3.go:23 | Instant 0 is midnight on 1 January 1970 UTC. One day of nanoseconds later is midnight on 2 January. |
| GoTime.EpochFormats | extensions/proxy-cache-s3/util/s3.go:24-27 | 1 and 2 January 1970 at midnight format as `19700101T000000Z`, `19700101` and `19700102T000000Z`. |
| GoHex.EncodeToString | extensions/proxy-cache-s3/util/s3.go:56 | The result has two lowercase hex characters per byte. |
| GoHex.DecodeEncode | extensions/proxy-cache-s3/util/s3.go:87 | Decoding the hex encoding gives back the bytes. |
| GoHex.EncodeInjective | extensions/proxy-cache-s3/util/function.go:59 | Two byte strings with the same hex encoding are equal. |
| GoStrconv.Itoa | extensions/proxy-cache-s3/util/s3.go:66 | The shortest decimal: digits, after a `-` only for a negative number, with no leading zero unless the number is 0. |
| GoStrconv.Atoi | extensions/proxy-cache-s3/util/function.go:15 | Only an optional sign followed by at least one digit can parse, and a parsed value is a 64-bit `int`. A string without digits does not parse. The value is given by `AtoiSignedDigits`. |
| GoStrconv.AtoiSignedDigits | extensions/proxy-cache-s3/util/function.go:15 | An optional `+`/`-` followed by at least one digit parses to the signed value of the digits iff that value is a 64-bit `int`, and is an error otherwise. |
| GoStrconv.AtoiPadded | extensions/proxy-cache-s3/util/function.go:15 | A number written with an optional sign and any number of leading zeros (`+42`, `042`, `-0`) parses to its value when that is in range. |
| GoStrconv.DigitsValueZeros | extensions/proxy-cache-s3/util/function.go:15 | Leading zeros do not change the value of a digit string. |
| GoStrconv.AtoiItoa | extensions/proxy-cache-s3/util/function.go:15 | `Atoi(Itoa(n)) == n` for every 64-bit `n`. |
| GoStrconv.Wrap | extensions/proxy-cache-s3/util/function.go:28 | The result is in 64-bit range and congruent to the input modulo 2^64. It is the input itself when the input fits. |
| GoStrconv.Mul | extensions/proxy-cache-s3/util/function.go:37 | The 64-bit product is the true product whenever that fits. |
| GoStrconv.WrapMul | extensions/proxy-cache-s3/util/function.go:37 | Wrapping after each multiplication is the same as wrapping once at the end. |
| GoStrings.RemoveSpaces | extensions/proxy-cache-s3/util/function.go:11 | The result has no space. It keeps every other character and adds none. |
| GoStrings.RemoveSpacesCounts | extensions/proxy-cache-s3/util/function.go:11 | Every character other than a space occurs in the result exactly as many times as in the input, and a space not at all. |
| GoStrings.RemoveSpacesAppend | extensions/proxy-cache-s3/util/function.go:11 | Removing spaces from a concatenation concatenates the results, so the kept characters stay in their order. |
| GoStrings.RemoveSpacesIdentity | extensions/proxy-cache-s3/util/function.go:11 | Removing spaces from a space-free string changes nothing. |
| GoStrings.RemoveSpacesEmpty | extensions/proxy-cache-s3/main.go:59-61 | Removing spaces gives `""` iff the input is all spaces. |
| GoStrings.TrimSuffix | extensions/proxy-cache-s3/util/function.go:13-14 | When the suffix is present it is cut off exactly once. Otherwise the string is unchanged. |
| GoStrings.HasSuffix | extensions/proxy-cache-s3/util/function.go:12 | The string ends with `suffix`: its last characters, as many as `suffix` has, are `suffix`. No contract of its own. `Functions.HasSuffixChar` gives the one-character case the lifetime parser uses. |
| GoStrings.Join | extensions/proxy-cache-s3/main.go:140 | The elements in order, with the separator between neighbours. No contract of its own. `GoStrings.JoinSnoc` states that one more element adds the separator and that element at the end. |
| GoStrings.JoinSnoc | extensions/proxy-cache-s3/main.go:140 | Joining one more element gives the previous join, the separator and the new element. |
| Functions.AtoiOrZero | extensions/proxy-cache-s3/util/function.go:15-19 | The `Atoi` value, or 0 when `Atoi` fails. |
| Functions.CalculateTTL | extensions/proxy-cache-s3/util/function.go:10-53 | The lifetime is a 64-bit integer. |
| Functions.CalculateTTLIgnoresSpaces | extensions/proxy-cache-s3/util/function.go:11 | Spaces anywhere in the input do not change the lifetime. |
| Functions.PlainNumberIsSeconds | extensions/proxy-cache-s3/util/function.go:48-52 | A bare 64-bit integer is its own lifetime. |
| Functions.PlainCount | extensions/proxy-cache-s3/util/function.go:48-52 | A space-free lifetime whose last character is not a unit letter takes no unit branch: it is `Atoi`'s value of the whole string, or 0 on an error. |
| Functions.CountWithUnit | extensions/proxy-cache-s3/util/function.go:12-47 | A space-free count ending in a digit, followed by one of `sSmMhHdD`, gives `Atoi`'s value of the count (0 on an error) times 1, 60, 3600 or 86400, wrapped to 64 bits. |
| Functions.NumberWithUnit | extensions/proxy-cache-s3/util/function.go:12-47 | A 64-bit integer followed by one of `sSmMhHdD` gives that integer times 1, 60, 3600 or 86400, wrapped to 64 bits. |
| Functions.TrimmedNumber | extensions/proxy-cache-s3/util/function.go:13-19 | Trimming either case of the unit from a digit-ending count followed by that unit leaves the count, which is then parsed. |
| Functions.ScaleChains | extensions/proxy-cache-s3/util/function.go:37-46 | `n*60*60` and `n*60*60*24`, each step wrapped, equal `n*3600` and `n*86400` wrapped once. |
| Functions.NoDigitsNoLifetime | extensions/proxy-cache-s3/util/function.go:10-53 | An input without a digit always gives 0. |
| Functions.DefaultLifetime | extensions/proxy-cache-s3/main.go:23 | The default `300s` gives 300. |
| Functions.UnparsableLifetime | extensions/proxy-cache-s3/main_test.go:11 | `zzz` gives 0. |
| Functions.UnitBranch | extensions/proxy-cache-s3/util/function.go:12-47 | A space-free lifetime ending in either letter of `s`, `m`, `h` or `d` takes that unit's branch. It is the count left after trimming the lowercase and then the uppercase letter, times 1, 60, 3600 or 86400, wrapped to 64 bits. |
| Functions.SecondsSuffixTestedFirst | extensions/proxy-cache-s3/util/function.go:12-19 | Any number followed by `ms` takes the seconds branch. Its count then ends in `m` and does not parse, so it gives 0, not minutes. |
| Functions.BothCasesTrimmed | extensions/proxy-cache-s3/util/function.go:12-47 | Any 64-bit number followed by a unit's uppercase and then its lowercase letter (`Ss`, `Mm`, `Hh`, `Dd`) loses both letters and gives that number of units, in seconds. |
| Functions.OnlyLastCaseTrimmed | extensions/proxy-cache-s3/util/function.go:12-47 | Any number followed by a unit's lowercase and then its uppercase letter (`sS`, `mM`, `hH`, `dD`) loses only the last letter. The count then ends in a letter, so it gives 0. |
| Functions.GetCacheKey | extensions/proxy-cache-s3/util/function.go:55-61 | The key is 64 lowercase hex characters that decode to the SHA-256 of the input. |
| Functions.GetCacheKeyIsHashSHA256 | extensions/proxy-cache-s3/util/function.go:55-61 | The cache key of a string equals the signer's `hashSHA256` of it. |
| Functions.CacheKeysCollideOnlyWithDigests | extensions/proxy-cache-s3/util/function.go:55-61 | Two strings share a cache key only when their SHA-256 digests are equal. |
| ProxyCache.Validate | extensions/proxy-cache-s3/main.go:97-109 | The configuration is accepted iff the lifetime and all five S3 settings are non-empty. Otherwise the result is `ErrorStatusBadArgument`. |
| ProxyCache.W7ProxyCache.constructor | extensions/proxy-cache-s3/main.go:34-46 | A fresh plugin object has no tags and a zero setting. |
| ProxyCache.W7ProxyCache.ParseConfig | extensions/proxy-cache-s3/main.go:48-113 | The tags are the three defaults, plus `$cookie` when `cache_header` is true. Each present field overwrites its setting, with spaces removed from strings, and an absent field keeps the old value. The error is the validation of the new setting. A space-free setting stays space-free. |
| ProxyCache.ConfigureKeepsSpaceFree | extensions/proxy-cache-s3/main.go:57-95 | If no string setting of the record holds a space, none holds one after a configuration is read (all six strings together). |
| ProxyCache.FreshConfigAccepted | extensions/proxy-cache-s3/main.go:57-109 | A first configuration is accepted iff it gives all six string fields, each with a non-space character. |
| ProxyCache.BlankLifetimeRejected | extensions/proxy-cache-s3/main.go:58-100 | A `cache_ttl` of only spaces is rejected, whatever was configured before. |
| ProxyCache.CookieTagOnlyWhenEnabled | extensions/proxy-cache-s3/main.go:50-70 | `$cookie` is a tag iff `cache_header` is true, and then it is the fourth and last. The first three tags are always `$host`, `$path` and `$method`. |
| ProxyCache.TagPart | extensions/proxy-cache-s3/main.go:118-137 | `$host`, `$path`, `$method` and `$cookie` give the tag followed by the request's host, path, method or cookie. A tag fails only as `$cookie` on a request without a cookie. An unknown tag is kept as it is. |
| ProxyCache.KeyParts | extensions/proxy-cache-s3/main.go:116-139 | The walk fails iff `$cookie` is a tag and the request has no cookie. Otherwise it gives one part per tag, in order. |
| ProxyCache.W7ProxyCache.OnHttpRequestHeaders | extensions/proxy-cache-s3/main.go:115-140 | A `$cookie` tag with no cookie header gives `ActionContinue` and no key. Otherwise the key is `GetCacheKey` of the parts joined with `-`. |
| ProxyCache.KeyIgnoresUnconfiguredCookie | extensions/proxy-cache-s3/main.go:128-134 | Without a `$cookie` tag the cookie header does not affect the parts. |
| ProxyCache.DefaultParts | extensions/proxy-cache-s3/main.go:116-139 | The default tags give `$host<host>`, `$path<path>` and `$method<method>`. |
| ProxyCache.DefaultKeyJoin | extensions/proxy-cache-s3/main.go:140 | With the default tags, the hashed string is those three parts joined with `-`. |
| ProxyCache.DefaultKeyString | extensions/proxy-cache-s3/main_test.go:16 | Host `127.0.0.1:10000`, path `/get` and method `GET` give the hashed string `$host127.0.0.1:10000-$path/get-$methodGET`. |
| ProxyCache.DifferentRequestsShareKey | extensions/proxy-cache-s3/main.go:138-140 | Some different requests produce the same hashed string, because a path may contain `-$method`. |

## Left out

- SHA-256 and HMAC-SHA256 are not computed. They are parameters, about which only the 32-byte digest length is known. Signatures are therefore not compared with reference values.
- The string-to-bytes conversion and `url.Parse`, `Query().Encode()` and `url.QueryEscape` are parameters too. The model does not say which endpoints parse or how escaping works.
- `time.Now()` is the parameter `now`. Time zones other than UTC are not modelled.
- The model does not model overflow of `t.Add(expires)` past Go's representable times.
- S3.ExpiresSeconds: `expires.Seconds()` is a `float64`, and the model uses exact truncating integer division. The two agree unless rounding to a double changes the whole seconds, which needs durations of more than 2^53 nanoseconds (about 104 days).
- Functions.CalculateTTL: its own contract gives only the 64-bit range. What it computes is stated by the lemmas about it. `CalculateTTLIgnoresSpaces` removes the spaces. Then `UnitBranch` covers a last character that is a unit letter, and `PlainCount` covers every other space-free input.
- GoStrconv.Atoi: the model assumes Go's `int` is 64 bits wide. A 32-bit WebAssembly build would use a narrower `int`.
- The cluster client, the asynchronous `Get` after the key is computed, its callback, the response handling, the `main`/`SetCtx` registration and logging are not modelled. They run after the key is computed or have no effect on it.
- ProxyCache.W7ProxyCache.ParseConfig: it does not model how `gjson` parses JSON. The configuration arrives already split into optional fields, and `Bool()` is a boolean. The model builds the new setting in a local copy and writes it once. The Go code writes each field in place, and the observable result is the same.
- ProxyCache.W7ProxyCache.OnHttpRequestHeaders: the cookie header lookup is an `Option` in the request. A failing `GetHttpRequestHeader` is `None`.
- `ConfigMethodPURGE`, `CacheHttpStatusCodeOk` and `DefaultCacheTTL` are declared but not used by the modelled code. The default lifetime is never substituted for a missing `cache_ttl`, which is therefore rejected.

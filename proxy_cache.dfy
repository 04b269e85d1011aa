/**
 * The plugin object: its configuration, read from the plugin's JSON
 * settings, and the cache key it builds for each request from the tags
 * `$host`, `$path`, `$method` and `$cookie`.
 */
module ProxyCache {
  import opened Wrappers
  import opened GoStrings
  import opened Library
  import Functions

  const CacheKeyHost: string := "$host"
  const CacheKeyPath: string := "$path"
  const CacheKeyMethod: string := "$method"
  const CacheKeyCookie: string := "$cookie"

  /** The tags every configuration starts from. */
  const DefaultCacheKey: seq<string> := [CacheKeyHost, CacheKeyPath, CacheKeyMethod]

  /** The error status a rejected configuration returns. */
  datatype Status = ErrorStatusBadArgument

  /** What the request-header handler tells the host to do with the request. */
  datatype Action = ActionContinue | ActionPause

  /** The `setting` record of the plugin object. */
  datatype Setting = Setting(
    cacheTTL: string,
    cacheHeader: bool,
    s3SecretId: string,
    s3SecretKey: string,
    s3Region: string,
    s3Bucket: string,
    s3Endpoint: string)

  /** Go's zero value of the record. */
  const ZeroSetting: Setting := Setting("", false, "", "", "", "", "")

  /**
   * The plugin's JSON configuration as the handler reads it: each key is
   * present or absent, strings as `String()` gives them and `cache_header`
   * as `Bool()` gives it.
   */
  datatype ConfigJson = ConfigJson(
    cacheTtl: Option<string>,
    cacheHeader: Option<bool>,
    s3SecretId: Option<string>,
    s3SecretKey: Option<string>,
    s3Region: Option<string>,
    s3Bucket: Option<string>,
    s3Endpoint: Option<string>)

  /** What the handler reads of a request; `cookie` is `None` when reading the header fails. */
  datatype Request = Request(host: string, path: string, httpMethod: string, cookie: Option<string>)

  /** No stored string of the record holds a space. */
  predicate SpaceFree(s: Setting) {
    ' ' !in s.cacheTTL && ' ' !in s.s3SecretId && ' ' !in s.s3SecretKey
    && ' ' !in s.s3Region && ' ' !in s.s3Bucket && ' ' !in s.s3Endpoint
  }

  /** A string setting after reading its key: the value without spaces when present, the old value otherwise. */
  function StringField(prior: string, value: Option<string>): string {
    if value.Some? then RemoveSpaces(value.value) else prior
  }

  /** The record after reading every key of the configuration. */
  function Configure(prior: Setting, json: ConfigJson): Setting {
    Setting(
      StringField(prior.cacheTTL, json.cacheTtl),
      json.cacheHeader.GetOr(prior.cacheHeader),
      StringField(prior.s3SecretId, json.s3SecretId),
      StringField(prior.s3SecretKey, json.s3SecretKey),
      StringField(prior.s3Region, json.s3Region),
      StringField(prior.s3Bucket, json.s3Bucket),
      StringField(prior.s3Endpoint, json.s3Endpoint))
  }

  /** The checks at the end of configuration: a lifetime and all five S3 settings must be non-empty. */
  function Validate(s: Setting): (r: Option<Status>)
    ensures r.None? <==> s.cacheTTL != "" && s.s3SecretId != "" && s.s3SecretKey != ""
                         && s.s3Region != "" && s.s3Bucket != "" && s.s3Endpoint != ""
  {
    if s.cacheTTL == "" then Some(ErrorStatusBadArgument)
    else if s.s3SecretId == "" || s.s3SecretKey == "" || s.s3Region == "" || s.s3Bucket == "" || s.s3Endpoint == "" then
      Some(ErrorStatusBadArgument)
    else None
  }

  /** The tags a configuration yields: the defaults, and `$cookie` when `cache_header` is given as true. */
  function ConfiguredTags(json: ConfigJson): seq<string> {
    DefaultCacheKey + (if json.cacheHeader == Some(true) then [CacheKeyCookie] else [])
  }

  /** One part of the key: a known tag followed by what it names, an unknown tag as it is. */
  function TagPart(tag: string, req: Request): (r: Option<string>)
    ensures r.None? <==> tag == CacheKeyCookie && req.cookie.None?
    ensures r.Some? ==> |tag| <= |r.value| && r.value[..|tag|] == tag
    ensures tag == CacheKeyHost ==> r == Some(CacheKeyHost + req.host)
    ensures tag == CacheKeyPath ==> r == Some(CacheKeyPath + req.path)
    ensures tag == CacheKeyMethod ==> r == Some(CacheKeyMethod + req.httpMethod)
    ensures tag == CacheKeyCookie && req.cookie.Some? ==> r == Some(CacheKeyCookie + req.cookie.value)
    ensures tag != CacheKeyHost && tag != CacheKeyPath && tag != CacheKeyMethod && tag != CacheKeyCookie ==> r == Some(tag)
  {
    if tag == CacheKeyHost then Some(CacheKeyHost + req.host)
    else if tag == CacheKeyPath then Some(CacheKeyPath + req.path)
    else if tag == CacheKeyMethod then Some(CacheKeyMethod + req.httpMethod)
    else if tag == CacheKeyCookie then
      (match req.cookie
       case None => None
       case Some(cookie) => Some(CacheKeyCookie + cookie))
    else Some(tag)
  }

  /** The parts of the key, one per tag in order; `None` when a `$cookie` tag meets a request whose cookie cannot be read. */
  function KeyParts(tags: seq<string>, req: Request): (r: Option<seq<string>>)
    ensures r.None? <==> CacheKeyCookie in tags && req.cookie.None?
    ensures r.Some? ==> |r.value| == |tags| && forall i :: 0 <= i < |tags| ==> TagPart(tags[i], req) == Some(r.value[i])
  {
    if tags == [] then Some([])
    else
      var init := tags[..|tags| - 1];
      assert tags == init + [tags[|tags| - 1]];
      match KeyParts(init, req)
      case None => None
      case Some(parts) =>
        match TagPart(tags[|tags| - 1], req)
        case None => None
        case Some(part) => Some(parts + [part])
  }

  /** The plugin object: the tags of the cache key and the settings. */
  class W7ProxyCache {
    var cacheKey: seq<string>
    var setting: Setting

    /** A zero-valued plugin object, as the host creates it before configuration. */
    constructor()
      ensures cacheKey == [] && setting == ZeroSetting
    {
      cacheKey := [];
      setting := ZeroSetting;
    }

    /**
     * `parseConfig`: the tags start from the defaults and gain `$cookie` when
     * `cache_header` is true; every present key overwrites its setting, with
     * spaces removed from strings; the result is an error when the lifetime
     * or any S3 setting is empty.
     */
    method ParseConfig(json: ConfigJson) returns (err: Option<Status>)
      modifies this
      ensures cacheKey == ConfiguredTags(json)
      ensures setting == Configure(old(setting), json)
      ensures err == Validate(setting)
      ensures old(SpaceFree(setting)) ==> SpaceFree(setting)
    {
      var s := setting;
      cacheKey := [CacheKeyHost, CacheKeyPath, CacheKeyMethod];
      if json.cacheTtl.Some? {
        s := s.(cacheTTL := RemoveSpaces(json.cacheTtl.value));
      }
      if json.cacheHeader.Some? {
        s := s.(cacheHeader := json.cacheHeader.value);
        if s.cacheHeader {
          cacheKey := cacheKey + [CacheKeyCookie];
        }
      }
      if json.s3SecretId.Some? {
        s := s.(s3SecretId := RemoveSpaces(json.s3SecretId.value));
      }
      if json.s3SecretKey.Some? {
        s := s.(s3SecretKey := RemoveSpaces(json.s3SecretKey.value));
      }
      if json.s3Region.Some? {
        s := s.(s3Region := RemoveSpaces(json.s3Region.value));
      }
      if json.s3Bucket.Some? {
        s := s.(s3Bucket := RemoveSpaces(json.s3Bucket.value));
      }
      if json.s3Endpoint.Some? {
        s := s.(s3Endpoint := RemoveSpaces(json.s3Endpoint.value));
      }
      if SpaceFree(setting) {
        ConfigureKeepsSpaceFree(setting, json);
      }
      setting := s;
      err := Validate(setting);
    }

    /**
     * The key-building part of `onHttpRequestHeaders`: one part per tag, in
     * order; when a `$cookie` tag meets an unreadable cookie the request
     * continues uncached, otherwise it is paused and keyed by the hex
     * SHA-256 of the parts joined with `-`.
     */
    method OnHttpRequestHeaders(c: Crypto, req: Request) returns (action: Action, key: Option<string>)
      ensures KeyParts(cacheKey, req).None? ==> action == ActionContinue && key.None?
      ensures KeyParts(cacheKey, req).Some? ==>
        action == ActionPause && key == Some(Functions.GetCacheKey(c, Join(KeyParts(cacheKey, req).value, "-")))
    {
      var cacheKeyList: seq<string> := [];
      var i := 0;
      while i < |cacheKey|
        invariant 0 <= i <= |cacheKey|
        invariant KeyParts(cacheKey[..i], req) == Some(cacheKeyList)
      {
        var tag := cacheKey[i];
        var part := tag;
        if tag == CacheKeyHost {
          part := CacheKeyHost + req.host;
        } else if tag == CacheKeyPath {
          part := CacheKeyPath + req.path;
        } else if tag == CacheKeyMethod {
          part := CacheKeyMethod + req.httpMethod;
        } else if tag == CacheKeyCookie {
          if req.cookie.None? {
            assert CacheKeyCookie in cacheKey;
            return ActionContinue, None;
          }
          part := CacheKeyCookie + req.cookie.value;
        }
        assert cacheKey[..i + 1] == cacheKey[..i] + [tag];
        cacheKeyList := cacheKeyList + [part];
        i := i + 1;
      }
      assert cacheKey[..i] == cacheKey;
      return ActionPause, Some(Functions.GetCacheKey(c, Join(cacheKeyList, "-")));
    }
  }

  /** Reading a configuration never brings a space into a space-free record. */
  lemma ConfigureKeepsSpaceFree(prior: Setting, json: ConfigJson)
    requires SpaceFree(prior)
    ensures SpaceFree(Configure(prior, json))
  {
  }

  /** A value counts as given when it is present and holds something other than spaces. */
  predicate Given(value: Option<string>) {
    value.Some? && exists i :: 0 <= i < |value.value| && value.value[i] != ' '
  }

  /** A string setting read onto an empty one is non-empty exactly when the key gives a value. */
  lemma FreshField(value: Option<string>)
    ensures StringField("", value) != "" <==> Given(value)
  {
    if value.Some? {
      RemoveSpacesEmpty(value.value);
    }
  }

  /**
   * On a fresh plugin object a configuration is accepted exactly when the
   * lifetime and all five S3 settings are given with something other than
   * spaces.
   */
  lemma FreshConfigAccepted(json: ConfigJson)
    ensures Validate(Configure(ZeroSetting, json)).None? <==>
      Given(json.cacheTtl) && Given(json.s3SecretId) && Given(json.s3SecretKey)
      && Given(json.s3Region) && Given(json.s3Bucket) && Given(json.s3Endpoint)
  {
    FreshField(json.cacheTtl);
    FreshField(json.s3SecretId);
    FreshField(json.s3SecretKey);
    FreshField(json.s3Region);
    FreshField(json.s3Bucket);
    FreshField(json.s3Endpoint);
  }

  /** A lifetime given as nothing but spaces is rejected whatever was configured before. */
  lemma BlankLifetimeRejected(prior: Setting, json: ConfigJson)
    requires json.cacheTtl.Some? && forall i :: 0 <= i < |json.cacheTtl.value| ==> json.cacheTtl.value[i] == ' '
    ensures Validate(Configure(prior, json)) == Some(ErrorStatusBadArgument)
  {
    RemoveSpacesEmpty(json.cacheTtl.value);
  }

  /** The `$cookie` tag is configured exactly when `cache_header` is given as true, and always last. */
  lemma CookieTagOnlyWhenEnabled(json: ConfigJson)
    ensures CacheKeyCookie in ConfiguredTags(json) <==> json.cacheHeader == Some(true)
    ensures ConfiguredTags(json)[..3] == DefaultCacheKey
    ensures |ConfiguredTags(json)| == 3 + (if json.cacheHeader == Some(true) then 1 else 0)
  {
  }

  /** Without a `$cookie` tag the key does not depend on the request's cookie. */
  lemma KeyIgnoresUnconfiguredCookie(tags: seq<string>, req: Request, cookie: Option<string>)
    requires CacheKeyCookie !in tags
    ensures KeyParts(tags, req) == KeyParts(tags, req.(cookie := cookie))
  {
    var a := KeyParts(tags, req);
    var b := KeyParts(tags, req.(cookie := cookie));
    assert |a.value| == |b.value|;
    forall i | 0 <= i < |tags| ensures a.value[i] == b.value[i] {
      assert tags[i] in tags;
    }
  }

  /** The default tags give the host, the path and the method, each after its tag. */
  lemma DefaultParts(req: Request)
    ensures KeyParts(DefaultCacheKey, req) == Some([CacheKeyHost + req.host, CacheKeyPath + req.path, CacheKeyMethod + req.httpMethod])
  {
    var tags := DefaultCacheKey;
    assert CacheKeyCookie !in tags;
    var v := KeyParts(tags, req).value;
    assert TagPart(tags[0], req) == Some(v[0]) && TagPart(tags[1], req) == Some(v[1]) && TagPart(tags[2], req) == Some(v[2]);
    assert v == [v[0], v[1], v[2]];
  }

  /** With the default tags the key string is the tagged host, path and method, joined with `-`. */
  lemma DefaultKeyJoin(req: Request)
    ensures KeyParts(DefaultCacheKey, req).Some?
    ensures Join(KeyParts(DefaultCacheKey, req).value, "-")
      == CacheKeyHost + req.host + "-" + (CacheKeyPath + req.path) + "-" + (CacheKeyMethod + req.httpMethod)
  {
    DefaultParts(req);
    JoinThree(KeyParts(DefaultCacheKey, req).value, "-");
  }

  /** The key string of the plugin's test, assembled from its pieces. */
  lemma TestKeyPieces()
    ensures "$host" + "127.0.0.1:10000" + "-" + ("$path" + "/get") + "-" + ("$method" + "GET")
      == "$host127.0.0.1:10000-$path/get-$methodGET"
  {
    assert "$host" + "127.0.0.1:10000" == "$host127.0.0.1:10000";
    assert "$path" + "/get" == "$path/get";
    assert "$method" + "GET" == "$methodGET";
    assert "$host127.0.0.1:10000" + "-" == "$host127.0.0.1:10000-";
    assert "$host127.0.0.1:10000-" + "$path/get" == "$host127.0.0.1:10000-$path/get";
    assert "$host127.0.0.1:10000-$path/get" + "-" == "$host127.0.0.1:10000-$path/get-";
  }

  /** The key string of the plugin's test: the default tags on a GET of `/get` from 127.0.0.1:10000. */
  lemma DefaultKeyString(req: Request)
    requires req.host == "127.0.0.1:10000" && req.path == "/get" && req.httpMethod == "GET"
    ensures Join(KeyParts(DefaultCacheKey, req).value, "-") == "$host127.0.0.1:10000-$path/get-$methodGET"
  {
    DefaultKeyJoin(req);
    TestKeyPieces();
  }

  /**
   * The parts are joined with `-` and nothing is escaped, so two different
   * requests can share a key: a path ending in `-$method` and some text,
   * with an empty method, is not told apart from the shorter path with that
   * text and `-$method` as its method.
   */
  lemma DifferentRequestsShareKey(host: string, path: string, text: string, cookie: Option<string>)
    ensures Request(host, path + "-" + CacheKeyMethod + text, "", cookie) != Request(host, path, text + "-" + CacheKeyMethod, cookie)
    ensures Join(KeyParts(DefaultCacheKey, Request(host, path + "-" + CacheKeyMethod + text, "", cookie)).value, "-")
         == Join(KeyParts(DefaultCacheKey, Request(host, path, text + "-" + CacheKeyMethod, cookie)).value, "-")
  {
    var r1 := Request(host, path + "-" + CacheKeyMethod + text, "", cookie);
    var r2 := Request(host, path, text + "-" + CacheKeyMethod, cookie);
    assert |r1.path| > |r2.path|;
    DefaultKeyJoin(r1);
    DefaultKeyJoin(r2);
    SharedKeyRegroup(CacheKeyHost + host, CacheKeyPath, CacheKeyMethod, "-", path, text);
  }

  /** The two key strings of `DifferentRequestsShareKey`, regrouped with every piece a parameter. */
  lemma SharedKeyRegroup(hostPart: string, p: string, m: string, d: string, path: string, text: string)
    ensures hostPart + d + (p + (path + d + m + text)) + d + (m + "") == hostPart + d + (p + path) + d + (m + (text + d + m))
  {
    assert m + "" == m;
  }
}

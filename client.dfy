/**
 * lib/client.js: the `MQClient` holding the account credentials and the consumer
 * tuning options, the signing of every request (`sign`, `buildHeaders`), and the
 * shaping of every response (`request`): an XML `Error` document becomes a thrown
 * error, any other XML document becomes a body of extracted values.
 *
 * The HTTP exchange itself, the clock and the cryptographic primitives are not
 * modelled: the date, the HMAC-SHA1 and MD5 digests (in base64), the response and the
 * tree xml2js parses from it are parameters.
 */
module Client {
  import opened Wrappers
  import opened Strings
  import opened Dict
  import opened HelperHeaders
  import opened HelperExtract

  // ---------------------------------------------------------------------------
  // The client and its options
  // ---------------------------------------------------------------------------

  /** The consumer tuning options every client carries. */
  datatype Settings = Settings(
    pullInterval: int,
    pullBatchSize: int,
    pullTimeDelayMillsWhenFlowControl: int,
    pullThresholdForQueue: int)

  /** The defaults the constructor starts from. */
  const Defaults := Settings(3000, 16, 3000, 100)

  /** Options a caller passes: `None` for a key it does not give. */
  datatype Overrides = Overrides(
    pullInterval: Option<int>,
    pullBatchSize: Option<int>,
    pullTimeDelayMillsWhenFlowControl: Option<int>,
    pullThresholdForQueue: Option<int>)

  const NoOverrides := Overrides(None, None, None, None)

  /** `{ ...base, ...options }`: a key the caller gives replaces the one before it. */
  function Merge(base: Settings, o: Overrides): Settings
  {
    Settings(
      o.pullInterval.GetOr(base.pullInterval),
      o.pullBatchSize.GetOr(base.pullBatchSize),
      o.pullTimeDelayMillsWhenFlowControl.GetOr(base.pullTimeDelayMillsWhenFlowControl),
      o.pullThresholdForQueue.GetOr(base.pullThresholdForQueue))
  }

  /** The options of `b` where given, otherwise those of `a`. */
  function Layer(a: Overrides, b: Overrides): Overrides
  {
    Overrides(
      if b.pullInterval.Some? then b.pullInterval else a.pullInterval,
      if b.pullBatchSize.Some? then b.pullBatchSize else a.pullBatchSize,
      if b.pullTimeDelayMillsWhenFlowControl.Some? then b.pullTimeDelayMillsWhenFlowControl
      else a.pullTimeDelayMillsWhenFlowControl,
      if b.pullThresholdForQueue.Some? then b.pullThresholdForQueue else a.pullThresholdForQueue)
  }

  /** Merging nothing changes nothing, and merging the same options twice is merging them once. */
  lemma MergeNothing(base: Settings, o: Overrides)
    ensures Merge(base, NoOverrides) == base
    ensures Merge(Merge(base, o), o) == Merge(base, o)
  {
  }

  /** Key by key, an option the caller gives replaces the default, and one it omits keeps it. */
  lemma MergeOverrides(base: Settings, o: Overrides)
    ensures Merge(base, o).pullInterval == if o.pullInterval.Some? then o.pullInterval.value else base.pullInterval
    ensures Merge(base, o).pullBatchSize == if o.pullBatchSize.Some? then o.pullBatchSize.value else base.pullBatchSize
    ensures Merge(base, o).pullTimeDelayMillsWhenFlowControl ==
      if o.pullTimeDelayMillsWhenFlowControl.Some? then o.pullTimeDelayMillsWhenFlowControl.value
      else base.pullTimeDelayMillsWhenFlowControl
    ensures Merge(base, o).pullThresholdForQueue ==
      if o.pullThresholdForQueue.Some? then o.pullThresholdForQueue.value else base.pullThresholdForQueue
  {
  }

  /**
   * Spreading two option objects in turn, as `subscribe` does over the client's
   * options, is spreading their layering: the later one wins key by key.
   */
  lemma MergeLayered(base: Settings, a: Overrides, b: Overrides)
    ensures Merge(Merge(base, a), b) == Merge(base, Layer(a, b))
  {
  }

  /** A client: credentials, the optional STS token ("" when absent) and the merged options. */
  datatype MQClient = MQClient(
    endpoint: string,
    accessKeyId: string,
    accessKeySecret: string,
    securityToken: string,
    options: Settings)

  /** The constructor's three assertions. */
  datatype ClientError = MissingEndpoint | MissingAccessKeyId | MissingAccessKeySecret

  /**
   * `new MQClient(endpoint, accessKeyId, accessKeySecret, securityToken, options)`:
   * the first empty credential, in argument order, fails its assertion.
   */
  function NewClient(endpoint: string, accessKeyId: string, accessKeySecret: string,
                     securityToken: string, options: Overrides): (r: Result<MQClient, ClientError>)
    ensures r.Ok? <==> endpoint != "" && accessKeyId != "" && accessKeySecret != ""
    ensures r.Err? ==> (r.error == if endpoint == "" then MissingEndpoint
      else if accessKeyId == "" then MissingAccessKeyId
      else MissingAccessKeySecret)
    ensures r.Ok? ==> (r.value.endpoint == endpoint && r.value.accessKeyId == accessKeyId
      && r.value.accessKeySecret == accessKeySecret && r.value.securityToken == securityToken)
    ensures r.Ok? && options == NoOverrides ==> r.value.options == Defaults
  {
    if endpoint == "" then Err(MissingEndpoint)
    else if accessKeyId == "" then Err(MissingAccessKeyId)
    else if accessKeySecret == "" then Err(MissingAccessKeySecret)
    else Ok(MQClient(endpoint, accessKeyId, accessKeySecret, securityToken, Merge(Defaults, options)))
  }

  // ---------------------------------------------------------------------------
  // Signing
  // ---------------------------------------------------------------------------

  /** The primitives of pure-func/crypto the client uses, over the UTF-8 bytes of their input. */
  datatype Crypto = Crypto(
    /** `base64(hmac(key, text, 'sha1'))`. */
    hmacSha1Base64: (string, string) -> string,
    /** `base64(hash(text))`, the MD5 digest. */
    md5Base64: string -> string)

  /** `headers['content-md5'] || ''`. */
  function SignedMd5(headers: Dict<string>): string
  {
    Get(headers, "content-md5").GetOr("")
  }

  /** `headers['content-type'] || ''`. */
  function SignedType(headers: Dict<string>): string
  {
    Get(headers, "content-type").GetOr("")
  }

  /** `${headers.date}`, which prints a missing date as `undefined`. */
  function SignedDate(headers: Dict<string>): string
  {
    Get(headers, "date").GetOr("undefined")
  }

  /**
   * The string `sign` hands to HMAC-SHA1: the method, the MD5, the content type, the
   * date, then the canonical `x-mq-` headers directly followed by the resource, one
   * per line.
   */
  function StringToSign(verb: string, headers: Dict<string>, resource: string): string
  {
    Join([verb, SignedMd5(headers), SignedType(headers), SignedDate(headers),
          CanonicalizedMQHeaders(headers) + resource], '\n')
  }

  /**
   * The layout of the string to sign: when none of the first four fields has a line
   * break, its first four lines are the method, the MD5, the content type and the
   * date, and the rest is the canonical `x-mq-` headers followed by the resource.
   */
  lemma StringToSignLines(verb: string, headers: Dict<string>, resource: string)
    requires '\n' !in verb && '\n' !in SignedMd5(headers)
    requires '\n' !in SignedType(headers) && '\n' !in SignedDate(headers)
    ensures Split(StringToSign(verb, headers, resource), '\n')
      == [verb, SignedMd5(headers), SignedType(headers), SignedDate(headers)]
         + Split(CanonicalizedMQHeaders(headers) + resource, '\n')
  {
    var first := [verb, SignedMd5(headers), SignedType(headers), SignedDate(headers)];
    var last := CanonicalizedMQHeaders(headers) + resource;
    assert first + [last] == [verb, SignedMd5(headers), SignedType(headers), SignedDate(headers), last];
    SplitJoinLast(first, last, '\n');
  }

  /** `sign(method, headers, resource)`. */
  function Sign(client: MQClient, crypto: Crypto, verb: string, headers: Dict<string>, resource: string): string
  {
    crypto.hmacSha1Base64(client.accessKeySecret, StringToSign(verb, headers, resource))
  }

  lemma GetSnocOther<V>(d: Dict<V>, key: string, value: V, k: string)
    requires k != key
    ensures Get(d + [(key, value)], k) == Get(d, k)
  {
    KeysSnoc(d, (key, value));
    if k in Keys(d) {
      GetAppend(d, key, value, k);
    } else {
      GetKeys(d, k);
      GetKeys(d + [(key, value)], k);
    }
  }

  /** A header that is not `x-mq-` and is none of `content-md5`, `content-type` and `date` is not signed. */
  predicate Unsigned(key: string)
  {
    !IsMQHeader(key) && key != "content-md5" && key != "content-type" && key != "date"
  }

  /** Adding an unsigned header does not change the string to sign. */
  lemma SignIgnoresUnsigned(verb: string, headers: Dict<string>, resource: string, key: string, value: string)
    requires Unsigned(key)
    ensures StringToSign(verb, headers + [(key, value)], resource) == StringToSign(verb, headers, resource)
  {
    GetSnocOther(headers, key, value, "content-md5");
    GetSnocOther(headers, key, value, "content-type");
    GetSnocOther(headers, key, value, "date");
    CanonicalizedMQHeadersIgnoresOthers(headers, key, value);
  }

  // ---------------------------------------------------------------------------
  // Request headers
  // ---------------------------------------------------------------------------

  const ApiVersion := "2015-06-06"
  const RequestContentType := "text/xml;charset=utf-8"
  const UserAgent := "mq-nodejs-sdk/1.0.0"

  /** Requests other than `GET` and `HEAD` carry `content-length` and `content-md5`. */
  predicate HasBody(verb: string)
  {
    verb != "GET" && verb != "HEAD"
  }

  /** The number of bytes of `c` in UTF-8. */
  function CharBytes(c: char): nat
  {
    if c as int < 0x80 then 1 else if c as int < 0x800 then 2 else if c as int < 0x10000 then 3 else 4
  }

  /** `body.length` of the UTF-8 buffer holding `body`. */
  function ByteLength(body: string): (r: nat)
    ensures |body| <= r <= 4 * |body|
    ensures (forall i :: 0 <= i < |body| ==> body[i] as int < 0x80) ==> r == |body|
  {
    if |body| == 0 then 0 else CharBytes(body[0]) + ByteLength(body[1..])
  }

  /** The headers at the moment `buildHeaders` signs them. */
  function SignedHeaders(crypto: Crypto, date: string, verb: string, body: string): Dict<string>
  {
    [("date", date), ("x-mq-version", ApiVersion), ("content-type", RequestContentType), ("user-agent", UserAgent)]
    + if HasBody(verb)
      then [("content-length", IntToString(ByteLength(body))), ("content-md5", crypto.md5Base64(body))]
      else []
  }

  /** `MQ ${accessKeyId}:${signature}`. */
  function Authorization(client: MQClient, signature: string): string
  {
    "MQ " + client.accessKeyId + ":" + signature
  }

  /** The `security-token` header, present when the client has a token. */
  function TokenHeader(client: MQClient): Dict<string>
  {
    if client.securityToken != "" then [("security-token", client.securityToken)] else []
  }

  /** `buildHeaders(verb, body, resource)` with `date` the current time in GMT form. */
  function Headers(client: MQClient, crypto: Crypto, date: string, verb: string, body: string, resource: string): Dict<string>
  {
    var signed := SignedHeaders(crypto, date, verb, body);
    signed + [("authorization", Authorization(client, Sign(client, crypto, verb, signed, resource)))]
    + TokenHeader(client)
  }

  /**
   * `buildHeaders`: the four fixed headers, the content headers unless the method is
   * `GET` or `HEAD`, then the signature over those, then the token when there is one.
   */
  method BuildHeaders(client: MQClient, crypto: Crypto, date: string, verb: string, body: string, resource: string)
    returns (headers: Dict<string>)
    ensures headers == Headers(client, crypto, date, verb, body, resource)
  {
    headers := [("date", date), ("x-mq-version", ApiVersion), ("content-type", RequestContentType), ("user-agent", UserAgent)];
    if verb != "GET" && verb != "HEAD" {
      headers := headers + [("content-length", IntToString(ByteLength(body))), ("content-md5", crypto.md5Base64(body))];
    }
    assert headers == SignedHeaders(crypto, date, verb, body);
    var signature := Sign(client, crypto, verb, headers, resource);
    headers := headers + [("authorization", Authorization(client, signature))];
    if client.securityToken != "" {
      headers := headers + [("security-token", client.securityToken)];
    }
  }

  /** The keys of the built headers, in order. */
  function HeaderKeys(client: MQClient, verb: string): seq<string>
  {
    ["date", "x-mq-version", "content-type", "user-agent"]
    + (if HasBody(verb) then ["content-length", "content-md5"] else [])
    + ["authorization"]
    + (if client.securityToken != "" then ["security-token"] else [])
  }

  /**
   * The built headers have exactly the keys `HeaderKeys` lists, each once: the
   * content headers only on a request with a body, the token only when there is one.
   */
  lemma HeadersKeys(client: MQClient, crypto: Crypto, date: string, verb: string, body: string, resource: string)
    ensures Keys(Headers(client, crypto, date, verb, body, resource)) == HeaderKeys(client, verb)
    ensures UniqueKeys(Headers(client, crypto, date, verb, body, resource))
  {
    var h := Headers(client, crypto, date, verb, body, resource);
    var signed := SignedHeaders(crypto, date, verb, body);
    var auth := [("authorization", Authorization(client, Sign(client, crypto, verb, signed, resource)))];
    SignedKeys(crypto, date, verb, body);
    KeysAppend(signed, auth);
    KeysAppend(signed + auth, TokenHeader(client));
    assert Keys(h) == HeaderKeys(client, verb);
    DistinctHeaderKeys(client, verb);
    UniqueFromKeys(h);
  }

  lemma SignedKeys(crypto: Crypto, date: string, verb: string, body: string)
    ensures Keys(SignedHeaders(crypto, date, verb, body)) ==
      ["date", "x-mq-version", "content-type", "user-agent"]
      + (if HasBody(verb) then ["content-length", "content-md5"] else [])
  {
    var fixed := [("date", date), ("x-mq-version", ApiVersion), ("content-type", RequestContentType), ("user-agent", UserAgent)];
    var content := if HasBody(verb)
      then [("content-length", IntToString(ByteLength(body))), ("content-md5", crypto.md5Base64(body))] else [];
    KeysAppend(fixed, content);
  }

  lemma UniqueFromKeys<V>(d: Dict<V>)
    requires forall i, j :: 0 <= i < j < |Keys(d)| ==> Keys(d)[i] != Keys(d)[j]
    ensures UniqueKeys(d)
  {
    forall i, j | 0 <= i < j < |d| ensures d[i].0 != d[j].0 {
      assert Keys(d)[i] != Keys(d)[j];
    }
  }

  lemma KeysAppend<V>(a: Dict<V>, b: Dict<V>)
    ensures Keys(a + b) == Keys(a) + Keys(b)
  {
    assert |Keys(a + b)| == |Keys(a) + Keys(b)|;
    forall i | 0 <= i < |a + b| ensures Keys(a + b)[i] == (Keys(a) + Keys(b))[i] {
      if i >= |a| {
        assert (a + b)[i] == b[i - |a|];
      }
    }
  }

  lemma DistinctHeaderKeys(client: MQClient, verb: string)
    ensures forall i, j :: 0 <= i < j < |HeaderKeys(client, verb)| ==> HeaderKeys(client, verb)[i] != HeaderKeys(client, verb)[j]
  {
    var ks := HeaderKeys(client, verb);
    assert "x-mq-version"[0] != "content-type"[0] && "content-length"[0] != "security-token"[0];
    forall i, j | 0 <= i < j < |ks| ensures ks[i] != ks[j] {
      assert |ks[i]| != |ks[j]| || ks[i][0] != ks[j][0];
    }
  }

  lemma GetSnocNew<V>(d: Dict<V>, key: string, value: V)
    requires key !in Keys(d)
    ensures Get(d + [(key, value)], key) == Some(value)
  {
    if |d| > 0 {
      assert d[0].0 != key;
      assert (d + [(key, value)])[1..] == d[1..] + [(key, value)];
      assert Keys(d) == [d[0].0] + Keys(d[1..]);
      GetSnocNew(d[1..], key, value);
    }
  }

  /** What the signed headers read for the three headers `sign` looks at. */
  lemma SignedHeadersRead(crypto: Crypto, date: string, verb: string, body: string)
    ensures UniqueKeys(SignedHeaders(crypto, date, verb, body))
    ensures SignedDate(SignedHeaders(crypto, date, verb, body)) == date
    ensures SignedType(SignedHeaders(crypto, date, verb, body)) == RequestContentType
    ensures SignedMd5(SignedHeaders(crypto, date, verb, body)) == if HasBody(verb) then crypto.md5Base64(body) else ""
    ensures Get(SignedHeaders(crypto, date, verb, body), "x-mq-version") == Some(ApiVersion)
    ensures Get(SignedHeaders(crypto, date, verb, body), "content-length")
      == if HasBody(verb) then Some(IntToString(ByteLength(body))) else None
  {
    var signed := SignedHeaders(crypto, date, verb, body);
    SignedUnique(crypto, date, verb, body);
    GetUnique(signed, 0);
    GetUnique(signed, 1);
    GetUnique(signed, 2);
    if HasBody(verb) {
      GetUnique(signed, 4);
      GetUnique(signed, 5);
    } else {
      SignedKeys(crypto, date, verb, body);
      assert "content-md5" !in Keys(signed) && "content-length" !in Keys(signed);
      GetKeys(signed, "content-md5");
      GetKeys(signed, "content-length");
    }
  }

  lemma SignedUnique(crypto: Crypto, date: string, verb: string, body: string)
    ensures UniqueKeys(SignedHeaders(crypto, date, verb, body))
  {
    var signed := SignedHeaders(crypto, date, verb, body);
    SignedKeys(crypto, date, verb, body);
    var ks := Keys(signed);
    assert "x-mq-version"[0] != "content-type"[0];
    forall i, j | 0 <= i < j < |ks| ensures ks[i] != ks[j] {
      assert |ks[i]| != |ks[j]| || ks[i][0] != ks[j][0];
    }
    UniqueFromKeys(signed);
  }

  /** Of the signed headers only `x-mq-version` is an `x-mq-` header. */
  lemma SignedCanonicalHeaders(crypto: Crypto, date: string, verb: string, body: string)
    ensures CanonicalizedMQHeaders(SignedHeaders(crypto, date, verb, body)) == HeaderLine("x-mq-version", ApiVersion)
  {
    var signed := SignedHeaders(crypto, date, verb, body);
    SignedMQKeys(crypto, date, verb, body);
    SignedUnique(crypto, date, verb, body);
    GetUnique(signed, 1);
    CanonicalOneKey(signed, "x-mq-version", ApiVersion);
  }

  lemma SignedMQKeys(crypto: Crypto, date: string, verb: string, body: string)
    ensures MQKeys(Keys(SignedHeaders(crypto, date, verb, body))) == ["x-mq-version"]
  {
    SignedKeys(crypto, date, verb, body);
    var content := if HasBody(verb) then ["content-length", "content-md5"] else [];
    NotMQ("content-length");
    NotMQ("content-md5");
    assert forall k :: k in content ==> !IsMQHeader(k);
    VersionOnlyMQKey(content);
  }

  /** With a single `x-mq-` header, the canonical form is its line. */
  lemma CanonicalOneKey(d: Dict<string>, k: string, v: string)
    requires MQKeys(Keys(d)) == [k] && Get(d, k) == Some(v)
    ensures CanonicalizedMQHeaders(d) == HeaderLine(k, v)
  {
    assert SortStrings([k]) == [k];
    assert HeaderLines(d, [k]) == [HeaderLine(k, v)];
    assert Concat([HeaderLine(k, v)]) == HeaderLine(k, v);
  }

  lemma VersionOnlyMQKey(rest: seq<string>)
    requires forall k :: k in rest ==> !IsMQHeader(k)
    ensures MQKeys(["date", "x-mq-version", "content-type", "user-agent"] + rest) == ["x-mq-version"]
  {
    NotMQ("user-agent");
    NotMQ("content-type");
    NotMQ("date");
    var r3 := ["user-agent"] + rest;
    var r2 := ["content-type"] + r3;
    var r1 := ["x-mq-version"] + r2;
    assert ["date", "x-mq-version", "content-type", "user-agent"] + rest == ["date"] + r1;
    assert IsMQHeader("x-mq-version");
    MQKeysNone(rest);
    MQKeysCons("user-agent", rest);
    MQKeysCons("content-type", r3);
    MQKeysCons("x-mq-version", r2);
    MQKeysCons("date", r1);
  }

  lemma NotMQ(k: string)
    requires |k| > 0 && k[0] != 'x'
    ensures !IsMQHeader(k)
  {
    assert MQHeaderPrefix[0] == 'x';
  }

  lemma MQKeysCons(k: string, rest: seq<string>)
    ensures MQKeys([k] + rest) == (if IsMQHeader(k) then [k] else []) + MQKeys(rest)
  {
    assert ([k] + rest)[1..] == rest;
  }

  lemma {:induction false} MQKeysNone(keys: seq<string>)
    requires forall k :: k in keys ==> !IsMQHeader(k)
    ensures MQKeys(keys) == []
  {
    if |keys| > 0 {
      assert keys[0] in keys;
      MQKeysNone(keys[1..]);
    }
  }

  /**
   * The exact string `buildHeaders` signs: the method, the body's MD5 (empty for `GET`
   * and `HEAD`), the fixed content type, the date, the API version line and the resource.
   */
  lemma SignedString(client: MQClient, crypto: Crypto, date: string, verb: string, body: string, resource: string)
    ensures StringToSign(verb, SignedHeaders(crypto, date, verb, body), resource) ==
      Join([verb, if HasBody(verb) then crypto.md5Base64(body) else "", RequestContentType, date,
            HeaderLine("x-mq-version", ApiVersion) + resource], '\n')
  {
    SignedHeadersRead(crypto, date, verb, body);
    SignedCanonicalHeaders(crypto, date, verb, body);
  }

  /**
   * The headers sent carry a valid signature: the `authorization` header is the
   * signature of the string computed from the final headers, because neither
   * `authorization` nor `security-token` is signed.
   */
  lemma HeadersAuthorization(client: MQClient, crypto: Crypto, date: string, verb: string, body: string, resource: string)
    ensures var h := Headers(client, crypto, date, verb, body, resource);
      Get(h, "authorization") == Some(Authorization(client, Sign(client, crypto, verb, h, resource)))
    ensures var h := Headers(client, crypto, date, verb, body, resource);
      Get(h, "security-token") == if client.securityToken != "" then Some(client.securityToken) else None
  {
    var signed := SignedHeaders(crypto, date, verb, body);
    SignedKeys(crypto, date, verb, body);
    assert "authorization" !in Keys(signed) && "security-token" !in Keys(signed);
    FinalHeaders(signed, verb, resource, Authorization(client, Sign(client, crypto, verb, signed, resource)), client);
  }

  /** The authorization and token headers added after signing read back and leave the string to sign unchanged. */
  lemma FinalHeaders(d: Dict<string>, verb: string, resource: string, a: string, client: MQClient)
    requires "authorization" !in Keys(d) && "security-token" !in Keys(d)
    ensures var h := d + [("authorization", a)] + TokenHeader(client);
      && Get(h, "authorization") == Some(a)
      && Get(h, "security-token") == (if client.securityToken != "" then Some(client.securityToken) else None)
      && StringToSign(verb, h, resource) == StringToSign(verb, d, resource)
  {
    NotMQ("authorization");
    NotMQ("security-token");
    AppendUnsigned(d, verb, resource, "authorization", a);
    var withAuth := d + [("authorization", a)];
    if client.securityToken != "" {
      GetSnocOther(withAuth, "security-token", client.securityToken, "authorization");
      AppendUnsigned(withAuth, verb, resource, "security-token", client.securityToken);
    } else {
      assert withAuth + [] == withAuth;
      GetKeys(withAuth, "security-token");
    }
  }

  /** Adding an unsigned header under a new key: it reads back, and the string to sign is unchanged. */
  lemma AppendUnsigned(d: Dict<string>, verb: string, resource: string, key: string, value: string)
    requires Unsigned(key) && key !in Keys(d)
    ensures Get(d + [(key, value)], key) == Some(value)
    ensures Keys(d + [(key, value)]) == Keys(d) + [key]
    ensures StringToSign(verb, d + [(key, value)], resource) == StringToSign(verb, d, resource)
  {
    GetSnocNew(d, key, value);
    KeysSnoc(d, (key, value));
    SignIgnoresUnsigned(verb, d, resource, key, value);
  }

  // ---------------------------------------------------------------------------
  // The outgoing request
  // ---------------------------------------------------------------------------

  /** The arguments of `request`: method, resource path, expected root element, body. */
  datatype Call = Call(verb: string, resource: string, rootType: string, body: string)

  /** `get(resource, type)`: no body. */
  function GetCall(resource: string, rootType: string): Call
  {
    Call("GET", resource, rootType, "")
  }

  /** `post(resource, type, body)`. */
  function PostCall(resource: string, rootType: string, body: string): Call
  {
    Call("POST", resource, rootType, body)
  }

  /** `delete(resource, type, body)`. */
  function DeleteCall(resource: string, rootType: string, body: string): Call
  {
    Call("DELETE", resource, rootType, body)
  }

  /** What `request` hands to httpx. */
  datatype HttpRequest = HttpRequest(verb: string, url: string, headers: Dict<string>, body: string)

  /** The part of `request` before the exchange: the URL is the endpoint followed by the resource. */
  method Send(client: MQClient, crypto: Crypto, date: string, call: Call) returns (req: HttpRequest)
    ensures req.url == client.endpoint + call.resource
    ensures req.verb == call.verb && req.body == call.body
    ensures req.headers == Headers(client, crypto, date, call.verb, call.body, call.resource)
  {
    var headers := BuildHeaders(client, crypto, date, call.verb, call.body, call.resource);
    req := HttpRequest(call.verb, client.endpoint + call.resource, headers, call.body);
  }

  // ---------------------------------------------------------------------------
  // The response
  // ---------------------------------------------------------------------------

  /** What `request` resolves with; `body` is `None` when it stays `undefined`. */
  datatype Response = Response(code: int, requestId: Option<string>, body: Option<Dict<Extracted>>)

  /** Why `request` rejects. */
  datatype RequestError =
    | ParseFailed(reason: string)
      /** The error thrown for an `Error` document, with its `Code` and `RequestId` properties. */
    | ServiceError(message: string, errorCode: Extracted, requestId: Extracted)
      /** The TypeError of `extract` or `Object.keys` on a value without the expected shape. */
    | TypeError

  /** The response is parsed only when it is non-empty and declared XML. */
  predicate IsXmlResponse(contentType: string, responseBody: string)
  {
    responseBody != "" && (StartsWith(contentType, "text/xml") || StartsWith(contentType, "application/xml"))
  }

  /** JavaScript truthiness of a parsed value: only the empty string is falsy. */
  predicate Truthy(v: JsValue)
  {
    !v.Str? || v.s != ""
  }

  /** `responseData.Error` when it is truthy. */
  function ErrorElement(data: Dict<JsValue>): (r: Option<JsValue>)
    ensures r.Some? ==> r == Get(data, "Error") && Truthy(r.value)
    ensures r.None? ==> Get(data, "Error").None? || !Truthy(Get(data, "Error").value)
  {
    match Get(data, "Error")
    case Some(e) => if Truthy(e) then Some(e) else None
    case None => None
  }

  /** `e[name]`: only an object has the children of an error element. */
  function Member(e: JsValue, name: string): Option<JsValue>
  {
    if e.Record? then Get(e.entries, name) else None
  }

  /** `extract(x)` where `x` may be `undefined`. */
  function ExtractMember(x: Option<JsValue>): (r: Result<Extracted, RequestError>)
    ensures r.Ok? <==> x.Some? && Extract(x.value).Ok?
    ensures r.Ok? ==> r.value == Extract(x.value).value
    ensures r.Err? ==> r.error == TypeError
  {
    match x
    case None => Err(TypeError)
    case Some(v) =>
      match Extract(v)
      case Err(_) => Err(TypeError)
      case Ok(y) => Ok(y)
  }

  /** `${x}` for an extracted value: a string as itself, an array as its items' `[object Object]` joined by commas. */
  function TemplateText(x: Extracted): string
  {
    match x
    case EText(t) => t
    case EList(objs) => Join(seq(|objs|, _ => "[object Object]"), ',')
  }

  /** The message of the error thrown for an `Error` document. */
  function ErrorText(verb: string, url: string, code: int, requestId: Extracted, errorCode: Extracted, message: Extracted): string
  {
    verb + " " + url + " failed with " + IntToString(code) + ". "
    + "RequestId: " + TemplateText(requestId) + ", ErrorCode: " + TemplateText(errorCode)
    + ", ErrorMsg: " + TemplateText(message)
  }

  /**
   * What the `Error` branch throws: `Message`, `RequestId` and `Code` are extracted in
   * that order, and the first that cannot be throws a TypeError instead.
   */
  function ErrorOf(verb: string, url: string, code: int, e: JsValue): (r: RequestError)
    ensures r.ServiceError? <==>
      ExtractMember(Member(e, "Message")).Ok? && ExtractMember(Member(e, "RequestId")).Ok?
      && ExtractMember(Member(e, "Code")).Ok?
    ensures r.ServiceError? ==>
      && r.errorCode == ExtractMember(Member(e, "Code")).value
      && r.requestId == ExtractMember(Member(e, "RequestId")).value
      && r.message == ErrorText(verb, url, code, r.requestId, r.errorCode, ExtractMember(Member(e, "Message")).value)
    ensures !r.ServiceError? ==> r == TypeError
  {
    match ExtractMember(Member(e, "Message"))
    case Err(x) => x
    case Ok(message) =>
      match ExtractMember(Member(e, "RequestId"))
      case Err(x) => x
      case Ok(requestId) =>
        match ExtractMember(Member(e, "Code"))
        case Err(x) => x
        case Ok(errorCode) => ServiceError(ErrorText(verb, url, code, requestId, errorCode, message), errorCode, requestId)
  }

  /**
   * The keys `Object.keys` gives `responseData[type]` and the values indexing returns:
   * a string's indices and characters, an array's indices and items, an object's entries.
   */
  function Children(v: JsValue): (r: seq<(string, JsValue)>)
    ensures v.Record? ==> r == v.entries
    ensures v.Str? ==> |r| == |v.s|
    ensures v.List? ==> |r| == |v.items|
  {
    match v
    case Str(s) => seq(|s|, i requires 0 <= i < |s| => (IndexKey(i), Str([s[i]])))
    case List(items) => seq(|items|, i requires 0 <= i < |items| => (IndexKey(i), items[i]))
    case Record(entries) => entries
  }

  /** The body after the first `n` children: `$` skipped, the rest assigned through `extract`. */
  function BodyOf(children: seq<(string, JsValue)>, n: nat): Result<Dict<Extracted>, RequestError>
    requires n <= |children|
  {
    if n == 0 then Ok([])
    else
      match BodyOf(children, n - 1)
      case Err(e) => Err(e)
      case Ok(body) =>
        var (key, val) := children[n - 1];
        if key == "$" then Ok(body)
        else
          match Extract(val)
          case Err(_) => Err(TypeError)
          case Ok(x) => Ok(Set(body, key, x))
  }

  /** `Object.keys(root).forEach(...)`: builds the body key by key. */
  method ResponseBody(root: JsValue) returns (r: Result<Dict<Extracted>, RequestError>)
    ensures r == BodyOf(Children(root), |Children(root)|)
  {
    var children := Children(root);
    var body: Dict<Extracted> := [];
    var i := 0;
    while i < |children|
      invariant 0 <= i <= |children|
      invariant BodyOf(children, i) == Ok(body)
    {
      var (key, val) := children[i];
      if key != "$" {
        var x := Extract(val);
        if x.Err? {
          assert BodyOf(children, i + 1) == Err(TypeError);
          BodyOfErr(children, i + 1, |children|);
          return Err(TypeError);
        }
        BodyOfSnoc(children, i + 1, body, key, val, x.value);
        body := Set(body, key, x.value);
      } else {
        assert BodyOf(children, i + 1) == Ok(body);
      }
      i := i + 1;
    }
    return Ok(body);
  }

  /** Once a child fails, the body fails. */
  lemma {:induction false} BodyOfErr(children: seq<(string, JsValue)>, n: nat, m: nat)
    requires 0 < n <= m <= |children| && BodyOf(children, n).Err?
    ensures BodyOf(children, m) == BodyOf(children, n)
    decreases m - n
  {
    if n < m {
      BodyOfErr(children, n, m - 1);
      BodyOfKept(children, m);
    }
  }

  /**
   * The part of `request` after the exchange: `code`, the `content-type` header ("" when
   * absent), the text read, the tree xml2js parses from it (or its rejection), the
   * `x-mq-request-id` header and the root element name expected.
   */
  method Receive(verb: string, url: string, code: int, contentType: string, responseBody: string,
                 parsed: Result<Dict<JsValue>, string>, requestId: Option<string>, rootType: string)
    returns (r: Result<Response, RequestError>)
    ensures !IsXmlResponse(contentType, responseBody) ==> r == Ok(Response(code, requestId, None))
    ensures IsXmlResponse(contentType, responseBody) && parsed.Err? ==> r == Err(ParseFailed(parsed.error))
    ensures IsXmlResponse(contentType, responseBody) && parsed.Ok? && ErrorElement(parsed.value).Some? ==>
      r == Err(ErrorOf(verb, url, code, ErrorElement(parsed.value).value))
    ensures IsXmlResponse(contentType, responseBody) && parsed.Ok? && ErrorElement(parsed.value).None? ==>
      r == match Get(parsed.value, rootType)
           case None => Err(TypeError)
           case Some(root) =>
             match BodyOf(Children(root), |Children(root)|)
             case Err(e) => Err(e)
             case Ok(body) => Ok(Response(code, requestId, Some(body)))
  {
    if !(responseBody != "" && (StartsWith(contentType, "text/xml") || StartsWith(contentType, "application/xml"))) {
      return Ok(Response(code, requestId, None));
    }
    if parsed.Err? {
      return Err(ParseFailed(parsed.error));
    }
    var data := parsed.value;
    var e := Get(data, "Error");
    if e.Some? && Truthy(e.value) {
      return Err(ErrorOf(verb, url, code, e.value));
    }
    var root := Get(data, rootType);
    if root.None? {
      return Err(TypeError);
    }
    var body := ResponseBody(root.value);
    if body.Err? {
      return Err(body.error);
    }
    return Ok(Response(code, requestId, Some(body.value)));
  }

  /** The body can be built exactly when every child other than `$` can be extracted. */
  lemma {:induction false} BodyOfOk(children: seq<(string, JsValue)>, n: nat)
    requires n <= |children|
    ensures BodyOf(children, n).Ok? <==>
      forall i :: 0 <= i < n && children[i].0 != "$" ==> Extract(children[i].1).Ok?
  {
    if n > 0 {
      BodyOfOk(children, n - 1);
      BodyOfOkStep(children, n);
      if BodyOf(children, n).Ok? {
        forall i | 0 <= i < n && children[i].0 != "$" ensures Extract(children[i].1).Ok? {
        }
      } else if BodyOf(children, n - 1).Ok? {
        assert children[n - 1].0 != "$" && !Extract(children[n - 1].1).Ok?;
      } else {
        var i :| 0 <= i < n - 1 && children[i].0 != "$" && !Extract(children[i].1).Ok?;
      }
    }
  }

  /** One more child: a failure stays, and `$` is skipped. */
  lemma BodyOfKept(children: seq<(string, JsValue)>, n: nat)
    requires 0 < n <= |children|
    requires BodyOf(children, n - 1).Err? || children[n - 1].0 == "$"
    ensures BodyOf(children, n) == BodyOf(children, n - 1)
  {
  }

  /** One more child: a failure stays, `$` is skipped, any other child is extracted and assigned. */
  lemma BodyOfStep(children: seq<(string, JsValue)>, n: nat)
    requires 0 < n <= |children|
    ensures BodyOf(children, n - 1).Err? ==> BodyOf(children, n) == BodyOf(children, n - 1)
    ensures BodyOf(children, n - 1).Ok? && children[n - 1].0 == "$" ==> BodyOf(children, n) == BodyOf(children, n - 1)
    ensures BodyOf(children, n - 1).Ok? && children[n - 1].0 != "$" && Extract(children[n - 1].1).Err? ==>
      BodyOf(children, n) == Err(TypeError)
    ensures BodyOf(children, n - 1).Ok? && children[n - 1].0 != "$" && Extract(children[n - 1].1).Ok? ==>
      BodyOf(children, n) == Ok(Set(BodyOf(children, n - 1).value, children[n - 1].0, Extract(children[n - 1].1).value))
  {
  }

  lemma BodyOfOkStep(children: seq<(string, JsValue)>, n: nat)
    requires 0 < n <= |children|
    ensures BodyOf(children, n).Ok? <==>
      BodyOf(children, n - 1).Ok? && (children[n - 1].0 != "$" ==> Extract(children[n - 1].1).Ok?)
  {
    BodyOfStep(children, n);
  }

  /** The attribute entry `$` never reaches the body, and nothing but the children's keys does. */
  lemma {:induction false} BodyOfKeys(children: seq<(string, JsValue)>, n: nat, k: string)
    requires n <= |children| && BodyOf(children, n).Ok?
    requires k == "$" || forall i :: 0 <= i < n ==> children[i].0 != k
    ensures Get(BodyOf(children, n).value, k) == None
  {
    if n > 0 {
      BodyOfOther(children, n, k);
      BodyOfKeys(children, n - 1, k);
    }
  }

  /** A step that does not assign `k` leaves it as it was. */
  lemma BodyOfOther(children: seq<(string, JsValue)>, n: nat, k: string)
    requires 0 < n <= |children| && BodyOf(children, n).Ok? && (k == "$" || children[n - 1].0 != k)
    ensures BodyOf(children, n - 1).Ok?
    ensures Get(BodyOf(children, n).value, k) == Get(BodyOf(children, n - 1).value, k)
  {
    BodyOfOkStep(children, n);
    var (key, val) := children[n - 1];
    if key == "$" {
      BodyOfKept(children, n);
    } else {
      var prev := BodyOf(children, n - 1).value;
      var x := Extract(val).value;
      BodyOfSnoc(children, n, prev, key, val, x);
      assert Get(Set(prev, key, x), k) == Get(prev, k);
    }
  }

  /** A child other than `$` is in the body as `extract` returns it, unless a later child has its key. */
  lemma {:induction false} BodyOfChild(children: seq<(string, JsValue)>, n: nat, i: nat)
    requires i < n <= |children| && BodyOf(children, n).Ok? && children[i].0 != "$"
    requires forall j :: i < j < n ==> children[j].0 != children[i].0
    ensures Extract(children[i].1).Ok?
    ensures Get(BodyOf(children, n).value, children[i].0) == Some(Extract(children[i].1).value)
  {
    if i < n - 1 {
      BodyOfOther(children, n, children[i].0);
      BodyOfChild(children, n - 1, i);
    } else {
      BodyOfOkStep(children, n);
      var (key, val) := children[n - 1];
      BodyOfSnoc(children, n, BodyOf(children, n - 1).value, key, val, Extract(val).value);
    }
  }

  /** The children xml2js gives an element whose child elements are the entries of `d`. */
  function Embedded(d: Dict<Extracted>): (r: seq<(string, JsValue)>)
    ensures |r| == |d|
  {
    seq(|d|, i requires 0 <= i < |d| => (d[i].0, Embed(d[i].1)))
  }

  /**
   * The body recovers every field of the element: when the element's children are
   * the xml2js form of `d` (distinct keys, none of them `$`), the body is `d`.
   */
  lemma BodyOfEmbedded(d: Dict<Extracted>)
    requires UniqueKeys(d)
    requires forall i :: 0 <= i < |d| ==> d[i].0 != "$"
    ensures BodyOf(Embedded(d), |d|) == Ok(d)
  {
    var children := Embedded(d);
    forall i | 0 <= i < |d|
      ensures children[i].0 == d[i].0 && Extract(children[i].1) == Ok(d[i].1)
    {
      EmbeddedAt(d, i);
      ExtractEmbed(d[i].1);
    }
    BodyOfExtracted(children, d, |d|);
    assert d[..|d|] == d;
  }

  lemma EmbeddedAt(d: Dict<Extracted>, i: nat)
    requires i < |d|
    ensures Embedded(d)[i] == (d[i].0, Embed(d[i].1))
  {
  }

  /**
   * When child `i` has the key of entry `i` of `d` (never `$`) and extracts to its
   * value, and `d` has no repeated key, the body is `d`, in the same order.
   */
  lemma {:induction false} BodyOfExtracted(children: seq<(string, JsValue)>, d: Dict<Extracted>, n: nat)
    requires n <= |children| && n <= |d| && UniqueKeys(d)
    requires forall i :: 0 <= i < n ==> children[i].0 == d[i].0 && d[i].0 != "$"
    requires forall i :: 0 <= i < n ==> Extract(children[i].1) == Ok(d[i].1)
    ensures BodyOf(children, n) == Ok(d[..n])
  {
    if n > 0 {
      BodyOfExtracted(children, d, n - 1);
      BodyOfNext(children, d, n);
    }
  }

  lemma BodyOfNext(children: seq<(string, JsValue)>, d: Dict<Extracted>, n: nat)
    requires 0 < n <= |children| && n <= |d|
    requires children[n - 1].0 == d[n - 1].0 && d[n - 1].0 != "$" && Extract(children[n - 1].1) == Ok(d[n - 1].1)
    requires BodyOf(children, n - 1) == Ok(d[..n - 1]) && UniqueKeys(d)
    ensures BodyOf(children, n) == Ok(d[..n])
  {
    SetPrefix(d, n);
    BodyOfSnoc(children, n, d[..n - 1], d[n - 1].0, children[n - 1].1, d[n - 1].1);
  }

  /** One step of the body: a child other than `$` that extracts is assigned. */
  lemma BodyOfSnoc(children: seq<(string, JsValue)>, n: nat, body: Dict<Extracted>, key: string, val: JsValue, x: Extracted)
    requires 0 < n <= |children| && children[n - 1] == (key, val) && key != "$"
    requires BodyOf(children, n - 1) == Ok(body) && Extract(val) == Ok(x)
    ensures BodyOf(children, n) == Ok(Set(body, key, x))
  {
  }

  // ---------------------------------------------------------------------------
  // Acknowledgement responses
  // ---------------------------------------------------------------------------

  /** A response to a `DELETE` of receipt handles after `response.body = response.body.Error`. */
  datatype OperationResponse = OperationResponse(code: int, requestId: Option<string>, errors: Option<Extracted>)

  /**
   * `if (response.body) { response.body = response.body.Error }`: a response without a
   * body keeps none, and one with a body keeps only its `Error` entry (`None` when absent).
   */
  function UnwrapErrors(resp: Response): (r: OperationResponse)
    ensures r.code == resp.code && r.requestId == resp.requestId
    ensures resp.body.None? ==> r.errors.None?
    ensures resp.body.Some? ==> r.errors == Get(resp.body.value, "Error")
  {
    match resp.body
    case None => OperationResponse(resp.code, resp.requestId, None)
    case Some(body) => OperationResponse(resp.code, resp.requestId, Get(body, "Error"))
  }

  /**
   * Unwrapping the reply to a `DELETE`: for an `Errors` document whose children are the
   * xml2js form of `d`, what remains is `d`'s `Error` entry.
   */
  lemma UnwrapReply(code: int, requestId: Option<string>, d: Dict<Extracted>)
    requires UniqueKeys(d)
    requires forall i :: 0 <= i < |d| ==> d[i].0 != "$"
    ensures BodyOf(Embedded(d), |d|).Ok?
    ensures UnwrapErrors(Response(code, requestId, Some(BodyOf(Embedded(d), |d|).value))).errors == Get(d, "Error")
  {
    BodyOfEmbedded(d);
  }
}

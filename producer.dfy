/**
 * lib/MQProducer.js: a producer bound to one topic. It posts a `Message` document whose
 * fields are the body (wrapped in CDATA), the optional tag and the message properties
 * encoded as `k:v|k:v`; `sendMsg` builds the properties and keeps only the identifiers
 * of the created message.
 *
 * The message parameters and the property string are shared with the transactional
 * producer, which differs only in not wrapping the body.
 */
module Producer {
  import opened Wrappers
  import opened Strings
  import opened Dict
  import opened HelperXml
  import opened HelperExtract
  import opened HelperProperties
  import opened Properties
  import opened Resource
  import opened Client

  // ---------------------------------------------------------------------------
  // Paths
  // ---------------------------------------------------------------------------

  /** `/topics/${topic}/messages?ns=${instanceId}` for a truthy instance id, else `/topics/${topic}/messages`. */
  function TopicPath(topic: string, instanceId: string): (r: string)
    ensures r == WithQuery(TopicMessages(topic), NsParam(instanceId))
  {
    if instanceId != "" then
      TopicLiteral(topic, "/messages?ns=", "?ns=");
      FirstLiteral(TopicMessages(topic), "?ns=", "ns", instanceId);
      "/topics/" + topic + "/messages?ns=" + instanceId
    else
      "/topics/" + topic + "/messages"
  }

  // ---------------------------------------------------------------------------
  // The message parameters
  // ---------------------------------------------------------------------------

  /** One property as `${key}:${value}`. */
  function PropertyPiece(e: (string, string)): string
  {
    e.0 + ":" + e.1
  }

  /** `propKeys.map(key => `${key}:${props[key]}`)`. */
  function PropertyPieces(props: Dict<string>): (r: seq<string>)
    ensures |r| == |props|
    ensures forall i :: 0 <= i < |props| ==> r[i] == PropertyPiece(props[i])
  {
    seq(|props|, i requires 0 <= i < |props| => PropertyPiece(props[i]))
  }

  /** The `Properties` parameter: the pieces joined by `|`, in key order. */
  function PropertiesString(props: Dict<string>): string
  {
    Join(PropertyPieces(props), '|')
  }

  /** `<![CDATA[${body}]]>`. */
  function Cdata(body: string): string
  {
    "<![CDATA[" + body + "]]>"
  }

  /** `msgProps.getProperties()` when `msgProps` is given. */
  function PropsOf(msgProps: MessageProperties?): Option<Dict<string>>
    reads msgProps
  {
    if msgProps == null then None else Some(msgProps.properties)
  }

  /** `msgProps` is given and has at least one key. */
  predicate HasProperties(props: Option<Dict<string>>)
  {
    props.Some? && |props.value| > 0
  }

  /**
   * The `params` object `publishMessage` posts: `MessageBody` first, then `MessageTag`
   * exactly when the tag is truthy, then `Properties` exactly when there are properties.
   */
  function MessageFields(messageBody: string, tag: string, props: Option<Dict<string>>): (r: Dict<string>)
    ensures UniqueKeys(r)
    ensures Keys(r) == ["MessageBody"] + (if tag != "" then ["MessageTag"] else [])
      + (if HasProperties(props) then ["Properties"] else [])
    ensures Get(r, "MessageBody") == Some(messageBody)
    ensures Get(r, "MessageTag") == if tag != "" then Some(tag) else None
    ensures Get(r, "Properties") == if HasProperties(props) then Some(PropertiesString(props.value)) else None
  {
    var body := ("MessageBody", messageBody);
    FieldNamesDistinct();
    var r :=
      if tag != "" then
        if HasProperties(props) then [body, ("MessageTag", tag), ("Properties", PropertiesString(props.value))]
        else [body, ("MessageTag", tag)]
      else
        if HasProperties(props) then [body, ("Properties", PropertiesString(props.value))]
        else [body];
    GetKeys(r, "MessageTag");
    GetKeys(r, "Properties");
    r
  }

  lemma FieldNamesDistinct()
    ensures "MessageBody" != "MessageTag" && "MessageBody" != "Properties" && "MessageTag" != "Properties"
  {
    assert "MessageBody"[7] != "MessageTag"[7] && |"MessageBody"| != |"Properties"| && "MessageTag"[0] != "Properties"[0];
  }

  /** `publishMessage`'s filling of `params`, one conditional assignment at a time. */
  method MessageParams(messageBody: string, tag: string, msgProps: MessageProperties?) returns (params: Dict<string>)
    ensures params == MessageFields(messageBody, tag, PropsOf(msgProps))
  {
    FieldNamesDistinct();
    params := [("MessageBody", messageBody)];
    if tag != "" {
      SetAbsent(params, "MessageTag", tag);
      params := Set(params, "MessageTag", tag);
    }
    if msgProps != null {
      var props := msgProps.GetProperties();
      var propKeys := Keys(props);
      if |propKeys| > 0 {
        SetAbsent(params, "Properties", PropertiesString(props));
        params := Set(params, "Properties", PropertiesString(props));
      }
    }
  }

  /** The XML document posted for the parameters: `toXMLBuffer('Message', params)`. */
  function MessageDocument(params: Dict<string>): string
  {
    Document("Message", Single(TextFields(params)), "")
  }

  // ---------------------------------------------------------------------------
  // The property string reads back
  // ---------------------------------------------------------------------------

  /** An entry the `k:v|k:v` encoding carries intact: neither separator inside, and a value. */
  predicate Encodable(e: (string, string))
  {
    e.1 != "" && ':' !in e.0 && '|' !in e.0 && ':' !in e.1 && '|' !in e.1
  }

  /** `parseProperties` reads one piece back as the entry it was written from. */
  lemma SegmentOfPiece(e: (string, string))
    requires Encodable(e)
    ensures SegmentPair(PropertyPiece(e)) == Some(e)
  {
    SplitCons(e.0, ':', e.1);
    assert Split(e.1, ':') == [e.1];
  }

  lemma {:induction false} PiecesEntries(props: Dict<string>, n: nat)
    requires n <= |props| && UniqueKeys(props)
    requires forall i :: 0 <= i < |props| ==> Encodable(props[i])
    ensures PropertyEntries(PropertyPieces(props)[..n]) == props[..n]
  {
    if n > 0 {
      var pieces := PropertyPieces(props)[..n];
      PiecesEntries(props, n - 1);
      assert pieces[..n - 1] == PropertyPieces(props)[..n - 1];
      assert pieces[n - 1] == PropertyPiece(props[n - 1]);
      SegmentOfPiece(props[n - 1]);
      EntriesStep(pieces, props[n - 1]);
      SetPrefix(props, n);
    }
  }

  lemma EntriesStep(segments: seq<string>, e: (string, string))
    requires |segments| > 0 && SegmentPair(segments[|segments| - 1]) == Some(e)
    ensures PropertyEntries(segments) == Set(PropertyEntries(segments[..|segments| - 1]), e.0, e.1)
  {
  }

  /**
   * Joining the properties as `k:v` with `|` and parsing the result with
   * `parseProperties`' segment rules gives the same object back, in the same order,
   * when no key or value holds a separator and every value is non-empty.
   */
  lemma PropertiesRoundTrip(props: Dict<string>)
    requires UniqueKeys(props)
    requires forall i :: 0 <= i < |props| ==> Encodable(props[i])
    ensures PropertyMap(PropertiesString(props)) == props
  {
    var pieces := PropertyPieces(props);
    if |props| == 0 {
      assert Split("", '|') == [""];
    } else {
      forall i | 0 <= i < |pieces| ensures '|' !in pieces[i] {
        assert pieces[i] == props[i].0 + ":" + props[i].1;
      }
      SplitJoin(pieces, '|');
      PiecesEntries(props, |props|);
      assert props[..|props|] == props && pieces[..|props|] == pieces;
    }
  }

  /**
   * A properties object a `MessageProperties` can hold, with a message key that is
   * non-empty and free of the characters `check` forbids.
   */
  ghost predicate Publishable(props: Dict<string>)
  {
    ValidMap(props) && (Get(props, KeysProperty).Some? ==>
      Get(props, KeysProperty).value != "" && Allowed(Get(props, KeysProperty).value))
  }

  lemma AllowedSeparators(s: string)
    requires Allowed(s)
    ensures ':' !in s && '|' !in s && '<' !in s
  {
  }

  lemma KeysAllowed()
    ensures Allowed(KeysProperty)
  {
    assert forall j :: 0 <= j < |KeysProperty| ==> KeysProperty[j] in "KEYS";
  }

  /** Every entry of a publishable object is non-empty and free of forbidden characters. */
  lemma PublishableEntries(props: Dict<string>, i: int)
    requires Publishable(props) && 0 <= i < |props|
    ensures props[i].1 != "" && Allowed(props[i].0) && Allowed(props[i].1)
    ensures Encodable(props[i])
  {
    assert ValidEntry(props[i]);
    if props[i].0 == KeysProperty {
      GetUnique(props, i);
      KeysAllowed();
    }
    AllowedSeparators(props[i].0);
    AllowedSeparators(props[i].1);
  }

  /** The properties a producer publishes are the ones the consumer's `parseProperties` decodes. */
  lemma PublishedPropertiesReadBack(props: Dict<string>)
    requires Publishable(props)
    ensures PropertyMap(PropertiesString(props)) == props
    ensures CustomProperties(PropertiesString(props)) == Without(props, ReservedKeys)
  {
    forall i | 0 <= i < |props| ensures Encodable(props[i]) {
      PublishableEntries(props, i);
    }
    PropertiesRoundTrip(props);
  }

  /** The property string of a publishable object holds no `<`, so it cannot close its element. */
  lemma PropertiesStringNoTag(props: Dict<string>)
    requires Publishable(props)
    ensures '<' !in PropertiesString(props)
  {
    var pieces := PropertyPieces(props);
    forall i | 0 <= i < |pieces| ensures '<' !in pieces[i] {
      PublishableEntries(props, i);
      AllowedSeparators(props[i].0);
      AllowedSeparators(props[i].1);
      assert pieces[i] == props[i].0 + ":" + props[i].1;
    }
    JoinExcludes(pieces, '|', '<');
  }

  /**
   * The posted document reads back as the message's parameters in order, and its
   * `Properties` text decodes to the properties given, when the body and tag cannot
   * close their own elements.
   */
  lemma MessageDocumentReadsBack(messageBody: string, tag: string, props: Option<Dict<string>>)
    requires !Includes(messageBody, CloseTag("MessageBody"))
    requires tag != "" ==> !Includes(tag, CloseTag("MessageTag"))
    requires props.Some? ==> Publishable(props.value)
    ensures ReadDocument("Message", MessageDocument(MessageFields(messageBody, tag, props)))
         == Some(MessageFields(messageBody, tag, props))
    ensures HasProperties(props) ==>
      PropertyMap(Get(MessageFields(messageBody, tag, props), "Properties").value) == props.value
  {
    var fs := MessageFields(messageBody, tag, props);
    if HasProperties(props) {
      PropertiesStringNoTag(props.value);
      NoTagReadable("Properties", PropertiesString(props.value));
      PublishedPropertiesReadBack(props.value);
    }
    forall i | 0 <= i < |fs| ensures Readable(fs[i]) {
      assert Keys(fs)[i] == fs[i].0;
      GetUnique(fs, i);
    }
    DocumentOfFieldsReadsBack("Message", fs, "");
  }

  // ---------------------------------------------------------------------------
  // The producer
  // ---------------------------------------------------------------------------

  /** The constructor's two assertions. */
  datatype ProducerError = MissingClient | MissingTopic

  class MQProducer {
    const client: MQClient
    const instanceId: string
    const topic: string
    /** The resource path the constructor derives from the topic and instance. */
    const path := TopicPath(topic, instanceId)

    /** `new MQProducer(client, instanceId, topic)` once its assertions hold. */
    constructor (client: MQClient, instanceId: string, topic: string)
      requires topic != ""
      ensures this.client == client && this.instanceId == instanceId && this.topic == topic
      ensures path == WithQuery(TopicMessages(topic), NsParam(instanceId))
    {
      this.client := client;
      this.instanceId := instanceId;
      this.topic := topic;
    }

    /** The constructor with its assertions: a missing client, then a falsy topic, throws. */
    static method New(client: Option<MQClient>, instanceId: string, topic: string)
      returns (r: Result<MQProducer, ProducerError>)
      ensures r.Ok? <==> client.Some? && topic != ""
      ensures client.None? ==> r == Err(MissingClient)
      ensures client.Some? && topic == "" ==> r == Err(MissingTopic)
      ensures r.Ok? ==> (fresh(r.value) && r.value.client == client.value
        && r.value.instanceId == instanceId && r.value.topic == topic
        && r.value.path == WithQuery(TopicMessages(topic), NsParam(instanceId)))
    {
      if client.None? {
        return Err(MissingClient);
      }
      if topic == "" {
        return Err(MissingTopic);
      }
      var p := new MQProducer(client.value, instanceId, topic);
      return Ok(p);
    }

    /**
     * `publishMessage(body, tag, msgProps)` up to the exchange: a `POST` of the
     * `Message` document to the producer's path, the body wrapped in CDATA.
     */
    method PublishMessage(crypto: Crypto, date: string, body: string, tag: string, msgProps: MessageProperties?)
      returns (req: HttpRequest)
      ensures req.verb == "POST" && req.url == client.endpoint + path
      ensures req.body == MessageDocument(MessageFields(Cdata(body), tag, PropsOf(msgProps)))
      ensures req.headers == Headers(client, crypto, date, "POST", req.body, path)
    {
      var params := MessageParams(Cdata(body), tag, msgProps);
      var xml := ToXMLBuffer("Message", Single(TextFields(params)), "");
      req := Send(client, crypto, date, PostCall(path, "Message", xml));
    }

    /**
     * The request part of `sendMsg(msg, tag, msgProps)`: a given properties record is
     * first turned into a `MessageProperties`, whose constructor may throw.
     */
    method SendMsg(crypto: Crypto, date: string, msg: string, tag: string, msgProps: Option<PropertiesInit>)
      returns (r: Result<HttpRequest, PropertyError>)
      ensures msgProps.None? ==> r.Ok? && r.value.body == MessageDocument(MessageFields(Cdata(msg), tag, None))
      ensures msgProps.Some? ==> (r.Ok? <==> Initialised(msgProps.value).Ok?)
      ensures msgProps.Some? && r.Err? ==> r.error == Initialised(msgProps.value).error
      ensures msgProps.Some? && r.Ok? ==>
        r.value.body == MessageDocument(MessageFields(Cdata(msg), tag, Some(Initialised(msgProps.value).value)))
      ensures r.Ok? ==> r.value.verb == "POST" && r.value.url == client.endpoint + path
      ensures r.Ok? ==> r.value.headers == Headers(client, crypto, date, "POST", r.value.body, path)
    {
      if msgProps.None? {
        var req := PublishMessage(crypto, date, msg, tag, null);
        return Ok(req);
      }
      var init := msgProps.value;
      var mp := MessageProperties.New(init.startDeliverTime, init.transCheckImmunityTime, init.properties);
      if mp.Err? {
        return Err(mp.error);
      }
      var req := PublishMessage(crypto, date, msg, tag, mp.value);
      return Ok(req);
    }
  }

  /** The record `sendMsg` passes to `new MessageProperties(...)`. */
  datatype PropertiesInit = PropertiesInit(
    startDeliverTime: Option<int>,
    transCheckImmunityTime: Option<int>,
    properties: seq<(string, Option<string>)>)

  /** What `new MessageProperties(init)` holds, or what it throws. */
  function Initialised(init: PropertiesInit): Result<Dict<string>, PropertyError>
  {
    PutAll(InitialProperties(init.startDeliverTime, init.transCheckImmunityTime), init.properties)
  }

  /** An entry `putProperty` would store: key and value non-empty and free of forbidden characters. */
  ghost predicate Checked(e: (string, string))
  {
    e.0 != "" && e.1 != "" && Allowed(e.0) && Allowed(e.1)
  }

  ghost predicate CheckedMap(d: Dict<string>)
  {
    UniqueKeys(d) && forall i :: 0 <= i < |d| ==> Checked(d[i])
  }

  lemma CheckedPublishable(d: Dict<string>)
    requires CheckedMap(d)
    ensures Publishable(d)
  {
    if Get(d, KeysProperty).Some? {
      GetKeys(d, KeysProperty);
      var i :| 0 <= i < |d| && d[i] == (KeysProperty, Get(d, KeysProperty).value);
    }
  }

  lemma CheckedSet(d: Dict<string>, k: string, v: string)
    requires CheckedMap(d) && Checked((k, v))
    ensures CheckedMap(Set(d, k, v))
  {
    SetUniqueKeys(d, k, v);
    SetEntries(d, k, v);
  }

  lemma {:induction false} PutAllChecked(d: Dict<string>, entries: seq<(string, Option<string>)>)
    requires CheckedMap(d) && PutAll(d, entries).Ok?
    ensures CheckedMap(PutAll(d, entries).value)
    decreases |entries|
  {
    if |entries| > 0 {
      var prefix := entries[..|entries| - 1];
      var last := entries[|entries| - 1];
      PutAllChecked(d, prefix);
      if !Blank(Some(last.0), last.1) {
        CheckedSet(PutAll(d, prefix).value, last.0, last.1.value);
      }
    }
  }

  lemma MarkerChecked(marker: string, n: int)
    requires marker == StartDeliverTimeProperty || marker == TransCheckProperty
    ensures Checked((marker, IntToString(n)))
  {
    IntToStringAllowed(n);
    assert forall j :: 0 <= j < |marker| ==> marker[j] !in ForbiddenChars;
  }

  /**
   * Whatever `new MessageProperties(init)` builds without throwing can be published:
   * the message key can only come in through `putProperty`, which checks it like any
   * other property.
   */
  lemma InitialisedPublishable(init: PropertiesInit)
    requires Initialised(init).Ok?
    ensures Publishable(Initialised(init).value)
  {
    var s, t := init.startDeliverTime, init.transCheckImmunityTime;
    var d := if s.Some? && s.value != 0 then Set([], StartDeliverTimeProperty, IntToString(s.value)) else [];
    if s.Some? && s.value != 0 {
      MarkerChecked(StartDeliverTimeProperty, s.value);
      CheckedSet([], StartDeliverTimeProperty, IntToString(s.value));
    }
    if t.Some? && t.value != 0 {
      MarkerChecked(TransCheckProperty, t.value);
      CheckedSet(d, TransCheckProperty, IntToString(t.value));
    }
    PutAllChecked(InitialProperties(s, t), init.properties);
    CheckedPublishable(Initialised(init).value);
  }

  /** What `sendMsg` publishes from a properties record, `parseProperties` decodes unchanged. */
  lemma SentPropertiesReadBack(init: PropertiesInit)
    requires Initialised(init).Ok?
    ensures PropertyMap(PropertiesString(Initialised(init).value)) == Initialised(init).value
  {
    InitialisedPublishable(init);
    PublishedPropertiesReadBack(Initialised(init).value);
  }

  // ---------------------------------------------------------------------------
  // The result of sendMsg
  // ---------------------------------------------------------------------------

  /** `{ msgId, msgBodyMd5 }`; a field is `None` when the body lacks it. */
  datatype SentMessage = SentMessage(msgId: Option<Extracted>, msgBodyMd5: Option<Extracted>)

  /** Why `sendMsg` rejects after the request. */
  datatype SendError =
    | RequestFailed(cause: RequestError)
      /** `assert(ret.code === 201)` failed. */
    | NotCreated(code: int)
      /** `ret.body.MessageId` on an undefined body. */
    | NoBody

  /** `sendMsg`'s mapping of what `publishMessage` resolved or rejected with. */
  function SendResult(ret: Result<Response, RequestError>): (r: Result<SentMessage, SendError>)
    ensures r.Ok? <==> ret.Ok? && ret.value.code == 201 && ret.value.body.Some?
    ensures ret.Err? ==> r == Err(RequestFailed(ret.error))
    ensures ret.Ok? && ret.value.code != 201 ==> r == Err(NotCreated(ret.value.code))
    ensures r.Ok? ==> (r.value.msgId == Get(ret.value.body.value, "MessageId")
      && r.value.msgBodyMd5 == Get(ret.value.body.value, "MessageBodyMD5"))
  {
    match ret
    case Err(e) => Err(RequestFailed(e))
    case Ok(resp) =>
      if resp.code != 201 then Err(NotCreated(resp.code))
      else
        match resp.body
        case None => Err(NoBody)
        case Some(body) => Ok(SentMessage(Get(body, "MessageId"), Get(body, "MessageBodyMD5")))
  }

  /**
   * When the service answers 201 with a `Message` element whose children are the
   * xml2js form of `d`, `sendMsg` returns `d`'s `MessageId` and `MessageBodyMD5`.
   */
  lemma SendResultOfReply(d: Dict<Extracted>, requestId: Option<string>)
    requires UniqueKeys(d)
    requires forall i :: 0 <= i < |d| ==> d[i].0 != "$"
    ensures BodyOf(Embedded(d), |d|).Ok?
    ensures SendResult(Ok(Response(201, requestId, Some(BodyOf(Embedded(d), |d|).value))))
         == Ok(SentMessage(Get(d, "MessageId"), Get(d, "MessageBodyMD5")))
  {
    BodyOfEmbedded(d);
  }
}

/**
 * lib/MQConsumer.js: a consumer of one topic for one group, optionally filtered by a
 * tag. `consumeMessage` long-polls for messages, `ackMessage` acknowledges them by
 * receipt handle, and `subscribe` runs a flow-controlled loop: it pulls only while
 * fewer than `pullThresholdForQueue` messages are being handled, hands each message
 * to the callback, acknowledges it, and emits `ackFailed` and `done` events.
 *
 * JavaScript runs one thread and the fields change only between `await`s, so each
 * synchronous stretch of the library is one method here: the start of `subscribe`,
 * the delivery of a pulled batch, the end of one message's handling, `safeClose`, and
 * the handling of a pull's result. `Subscribe` runs the loop, taking what happens
 * while a pull is outstanding and what the service replies as parameters.
 */
module Consumer {
  import opened Wrappers
  import opened Strings
  import opened Dict
  import opened HelperXml
  import opened HelperExtract
  import opened HelperProperties
  import opened Resource
  import opened Client

  // ---------------------------------------------------------------------------
  // Paths and URLs
  // ---------------------------------------------------------------------------

  /** The `tag` parameter: present only for a truthy tag. */
  function TagParam(messageTag: string): seq<(string, string)>
  {
    if messageTag != "" then [("tag", messageTag)] else []
  }

  /**
   * The pull path of the constructor:
   * `/topics/${topic}/messages?consumer=${consumer}&ns=${instanceId}&tag=${messageTag}`,
   * with `ns` only for a truthy instance id and `tag` only for a truthy tag.
   */
  function PullPath(topic: string, consumer: string, instanceId: string, messageTag: string): string
  {
    if instanceId != "" then
      if messageTag != "" then
        "/topics/" + topic + "/messages?consumer=" + consumer + "&ns=" + instanceId + "&tag=" + messageTag
      else
        "/topics/" + topic + "/messages?consumer=" + consumer + "&ns=" + instanceId
    else
      if messageTag != "" then
        "/topics/" + topic + "/messages?consumer=" + consumer + "&tag=" + messageTag
      else
        "/topics/" + topic + "/messages?consumer=" + consumer
  }

  /** The pull path as a query: `consumer`, then `ns` only for a truthy instance id, then `tag` only for a truthy tag. */
  lemma PullPathQuery(topic: string, consumer: string, instanceId: string, messageTag: string)
    ensures PullPath(topic, consumer, instanceId, messageTag)
      == WithQuery(TopicMessages(topic), [("consumer", consumer)] + NsParam(instanceId) + TagParam(messageTag))
  {
    var base := TopicMessages(topic);
    TopicLiteral(topic, "/messages?consumer=", "?consumer=");
    FirstLiteral(base, "?consumer=", "consumer", consumer);
    var first := [("consumer", consumer)];
    if instanceId != "" {
      var withNs := "/topics/" + topic + "/messages?consumer=" + consumer + "&ns=" + instanceId;
      NextLiteral(WithQuery(base, first), "&ns=", "ns", instanceId);
      AppendParam(base, first, "ns", instanceId);
      if messageTag != "" {
        NextLiteral(withNs, "&tag=", "tag", messageTag);
        AppendParam(base, first + [("ns", instanceId)], "tag", messageTag);
      } else {
        assert first + NsParam(instanceId) + TagParam(messageTag) == first + [("ns", instanceId)];
      }
    } else if messageTag != "" {
      NextLiteral(WithQuery(base, first), "&tag=", "tag", messageTag);
      AppendParam(base, first, "tag", messageTag);
      assert first + NsParam(instanceId) + TagParam(messageTag) == first + [("tag", messageTag)];
    } else {
      assert first + NsParam(instanceId) + TagParam(messageTag) == first;
    }
  }

  /**
   * The pull path is the ack path with `&tag=${messageTag}` added for a truthy tag:
   * both carry the same consumer and instance, and the ack path never carries a tag.
   */
  lemma PullPathIsAckPathWithTag(topic: string, consumer: string, instanceId: string, messageTag: string)
    ensures PullPath(topic, consumer, instanceId, messageTag)
         == if messageTag != "" then AddParam(GroupPath(topic, consumer, instanceId), "tag", messageTag)
            else GroupPath(topic, consumer, instanceId)
    ensures GroupPath(topic, consumer, instanceId) == PullPath(topic, consumer, instanceId, "")
  {
    PullPathQuery(topic, consumer, instanceId, messageTag);
    PullPathQuery(topic, consumer, instanceId, "");
    var params := [("consumer", consumer)] + NsParam(instanceId);
    assert params + TagParam("") == params;
    if messageTag != "" {
      AppendParam(TopicMessages(topic), params, "tag", messageTag);
    } else {
      assert params + TagParam(messageTag) == params;
    }
  }

  /**
   * The URL of `consumeMessage(n, w)` on the pull path: the path's parameters, then
   * `numOfMessages`, then `waitseconds` only for a non-zero wait.
   */
  lemma PullUrlParams(topic: string, consumer: string, instanceId: string, messageTag: string,
                      numOfMessages: int, waitSeconds: int)
    ensures PullUrl(PullPath(topic, consumer, instanceId, messageTag), numOfMessages, waitSeconds)
         == WithQuery(TopicMessages(topic),
              [("consumer", consumer)] + NsParam(instanceId) + TagParam(messageTag) + PullParams(numOfMessages, waitSeconds))
  {
    PullPathQuery(topic, consumer, instanceId, messageTag);
    PullUrlQuery(TopicMessages(topic), [("consumer", consumer)] + NsParam(instanceId) + TagParam(messageTag),
      numOfMessages, waitSeconds);
  }

  /** `Math.floor(pullInterval / 1000)`. */
  function WaitSeconds(pullInterval: int): (r: int)
    ensures r * 1000 <= pullInterval < r * 1000 + 1000
    ensures r == 0 <==> 0 <= pullInterval < 1000
  {
    pullInterval / 1000
  }

  // ---------------------------------------------------------------------------
  // Pulled messages
  // ---------------------------------------------------------------------------

  /**
   * A message as `subscribe` sees it: the fields `extract` gave, with `Properties`
   * decoded by `parseProperties`, and the `MessageKey` and `StartDeliverTime` that
   * `parseProperties` wrote (`None` when it wrote none).
   */
  datatype Message = Message(
    entries: Dict<Extracted>,
    properties: Dict<string>,
    messageKey: Option<string>,
    startDeliverTime: Option<JsNumber>)

  /** `msg.Properties = parseProperties(msg)` for one freshly extracted message. */
  function DecodeMessage(o: Object): (r: Result<Message, PropertiesError>)
    ensures r.Err? <==> Get(o.entries, "Properties").Some? && Get(o.entries, "Properties").value.EList?
    ensures r.Ok? ==> r.value.entries == o.entries
    ensures r.Ok? ==> forall k :: k in ReservedKeys ==> Get(r.value.properties, k) == None
    ensures r.Ok? && Get(o.entries, "Properties").Some? && Get(o.entries, "Properties").value.EText? ==>
      var all := PropertyMap(Get(o.entries, "Properties").value.text);
      && (forall k :: k !in ReservedKeys ==> Get(r.value.properties, k) == Get(all, k))
      && r.value.messageKey == Get(all, KeysProperty)
  {
    var field: Option<Extracted> := Get(o.entries, "Properties");
    match field
    case None => Ok(Message(o.entries, [], None, None))
    case Some(EList(_)) => Err(NotAString)
    case Some(EText(text)) =>
      if text == "" then Ok(Message(o.entries, [], None, None))
      else
        var all := PropertyMap(text);
        var transCheck := Get(all, TransCheckProperty);
        var deliver := Get(all, StartDeliverTimeProperty);
        GetWithoutAll(all);
        Ok(Message(o.entries, Without(all, ReservedKeys), Get(all, KeysProperty),
          if transCheck.Some? then Some(ParseInt(transCheck.value))
          else if deliver.Some? then Some(ParseInt(deliver.value))
          else None))
  }
  /**
   * The start delivery time `parseProperties` writes: parsed from `__TransCheckT`
   * when the string has it, which wins since it is read last, otherwise from
   * `__STARTDELIVERTIME`, and absent when it has neither or the string is missing
   * or empty.
   */
  lemma DecodeStartDeliverTime(o: Object)
    requires DecodeMessage(o).Ok?
    ensures var field := Get(o.entries, "Properties");
      var all := if field.Some? && field.value.EText? && field.value.text != "" then PropertyMap(field.value.text) else [];
      var t := DecodeMessage(o).value.startDeliverTime;
      && (t.Some? <==> Get(all, TransCheckProperty).Some? || Get(all, StartDeliverTimeProperty).Some?)
      && (Get(all, TransCheckProperty).Some? ==> t == Some(ParseInt(Get(all, TransCheckProperty).value)))
      && (Get(all, TransCheckProperty).None? && Get(all, StartDeliverTimeProperty).Some? ==>
            t == Some(ParseInt(Get(all, StartDeliverTimeProperty).value)))
  {
  }


  lemma GetWithoutAll(d: Dict<string>)
    ensures forall k :: Get(Without(d, ReservedKeys), k) == if k in ReservedKeys then None else Get(d, k)
  {
    forall k ensures Get(Without(d, ReservedKeys), k) == if k in ReservedKeys then None else Get(d, k) {
      GetWithout(d, ReservedKeys, k);
    }
  }

  /** The `forEach` over the extracted messages; the first `parseProperties` that throws ends it. */
  function DecodeAll(objects: seq<Object>): (r: Result<seq<Message>, PropertiesError>)
    ensures r.Ok? ==> |r.value| == |objects|
  {
    if |objects| == 0 then Ok([])
    else
      var init := objects[..|objects| - 1];
      match DecodeAll(init)
      case Err(e) => Err(e)
      case Ok(prefix) =>
        match DecodeMessage(objects[|objects| - 1])
        case Err(e) => Err(e)
        case Ok(m) => Ok(prefix + [m])
  }

  /** A successful decoding decodes every message on its own. */
  lemma {:induction false} DecodeAllEach(objects: seq<Object>)
    ensures DecodeAll(objects).Ok? ==>
      forall i :: 0 <= i < |objects| ==> Ok(DecodeAll(objects).value[i]) == DecodeMessage(objects[i])
    decreases |objects|
  {
    if |objects| > 0 {
      var init := objects[..|objects| - 1];
      DecodeAllEach(init);
      assert forall i :: 0 <= i < |init| ==> init[i] == objects[i];
    }
  }

  /** The decoding fails exactly when one of the messages has an array-valued `Properties`. */
  lemma {:induction false} DecodeAllFails(objects: seq<Object>)
    ensures DecodeAll(objects).Err? <==> exists i :: 0 <= i < |objects| && DecodeMessage(objects[i]).Err?
    decreases |objects|
  {
    if |objects| > 0 {
      var last := |objects| - 1;
      var init := objects[..last];
      DecodeAllFails(init);
      if DecodeAll(objects).Err? {
        if DecodeAll(init).Err? {
          var i :| 0 <= i < |init| && DecodeMessage(init[i]).Err?;
          assert objects[i] == init[i];
        } else {
          assert DecodeMessage(objects[last]).Err?;
        }
      } else {
        forall i | 0 <= i < |objects| ensures DecodeMessage(objects[i]).Ok? {
          if i < last {
            assert objects[i] == init[i];
          }
        }
      }
    }
  }

  /** `response.body.forEach(msg => { msg.Properties = parseProperties(msg) })`, one message object at a time. */
  method DecodeMessages(objects: seq<Object>) returns (r: Result<seq<Message>, PropertiesError>)
    ensures r == DecodeAll(objects)
  {
    var messages: seq<Message> := [];
    var i := 0;
    while i < |objects|
      invariant 0 <= i <= |objects|
      invariant DecodeAll(objects[..i]) == Ok(messages)
    {
      var o := objects[i];
      var msg := new PulledMessage(Get(o.entries, "Properties"), None, None);
      var props := msg.ParseProperties();
      assert objects[..i + 1][..i] == objects[..i];
      if props.Err? {
        DecodeAllErr(objects, i + 1);
        return Err(props.error);
      }
      messages := messages + [Message(o.entries, props.value, msg.messageKey, msg.startDeliverTime)];
      i := i + 1;
    }
    assert objects[..i] == objects;
    return Ok(messages);
  }

  /** Once a message fails to decode, so does the whole reply. */
  lemma {:induction false} DecodeAllErr(objects: seq<Object>, n: nat)
    requires 0 < n <= |objects| && DecodeAll(objects[..n]).Err?
    ensures DecodeAll(objects) == DecodeAll(objects[..n])
    decreases |objects| - n
  {
    if n < |objects| {
      assert objects[..n + 1][..n] == objects[..n];
      DecodeAllErr(objects, n + 1);
    } else {
      assert objects[..n] == objects;
    }
  }

  /** What `subscribe` gets from one `consumeMessage`: a response with messages, or a rejection. */
  datatype PullResult = Pulled(code: int, messages: seq<Message>) | PullThrew(errorCode: Option<Extracted>)

  /** `err.Code`: only the error of an `Error` document has one. */
  function ErrorCodeOf(e: RequestError): Option<Extracted>
  {
    if e.ServiceError? then Some(e.errorCode) else None
  }

  /**
   * `consumeMessage` after the exchange: `response.body = response.body.Message` and the
   * decoding of each message. An undefined body, a missing `Message` entry or a single
   * text `Message` makes `forEach` throw a TypeError, which has no `Code`.
   */
  function ReplyOutcome(ret: Result<Response, RequestError>): (r: PullResult)
    ensures ret.Err? ==> r == PullThrew(ErrorCodeOf(ret.error))
    ensures r.Pulled? <==> (ret.Ok? && ret.value.body.Some? && Get(ret.value.body.value, "Message").Some?
      && Get(ret.value.body.value, "Message").value.EList?
      && DecodeAll(Get(ret.value.body.value, "Message").value.objects).Ok?)
    ensures r.Pulled? ==> (r.code == ret.value.code
      && r.messages == DecodeAll(Get(ret.value.body.value, "Message").value.objects).value)
  {
    match ret
    case Err(e) => PullThrew(ErrorCodeOf(e))
    case Ok(resp) =>
      if resp.body.None? then PullThrew(None)
      else
        var field: Option<Extracted> := Get(resp.body.value, "Message");
        match field
        case None => PullThrew(None)
        case Some(EText(_)) => PullThrew(None)
        case Some(EList(objs)) =>
          match DecodeAll(objs)
          case Err(_) => PullThrew(None)
          case Ok(ms) => Pulled(resp.code, ms)
  }

  /** The same, with the decoding loop. */
  method ConsumeReply(ret: Result<Response, RequestError>) returns (r: PullResult)
    ensures r == ReplyOutcome(ret)
  {
    if ret.Err? {
      return PullThrew(ErrorCodeOf(ret.error));
    }
    var resp := ret.value;
    if resp.body.None? {
      return PullThrew(None);
    }
    var body := Get(resp.body.value, "Message");
    if body.None? || body.value.EText? {
      return PullThrew(None);
    }
    var decoded := DecodeMessages(body.value.objects);
    if decoded.Err? {
      return PullThrew(None);
    }
    return Pulled(resp.code, decoded.value);
  }

  /**
   * The reply to a pull reaches the callback message by message: when the `Messages`
   * element holds the xml2js form of `d`, whose `Message` entry lists objects without
   * an array `Properties`, every object becomes one message with its own fields.
   */
  lemma ReplyDeliversEveryMessage(code: int, requestId: Option<string>, d: Dict<Extracted>, objs: seq<Object>)
    requires UniqueKeys(d)
    requires forall i :: 0 <= i < |d| ==> d[i].0 != "$"
    requires Get(d, "Message") == Some(EList(objs))
    requires forall i :: 0 <= i < |objs| ==> DecodeMessage(objs[i]).Ok?
    ensures BodyOf(Embedded(d), |d|).Ok?
    ensures var r := ReplyOutcome(Ok(Response(code, requestId, Some(BodyOf(Embedded(d), |d|).value))));
      && r.Pulled? && r.code == code && |r.messages| == |objs|
      && forall i :: 0 <= i < |objs| ==> r.messages[i].entries == objs[i].entries
  {
    BodyOfEmbedded(d);
    DecodeAllFails(objs);
    DecodeAllEach(objs);
    var all := DecodeAll(objs);
    assert all.Ok?;
    forall i | 0 <= i < |objs| ensures all.value[i].entries == objs[i].entries {
      assert Ok(all.value[i]) == DecodeMessage(objs[i]);
    }
  }

  /** A rejected pull is logged unless its `Code` is a string that includes `MessageNotExist`. */
  predicate QuietFailure(errorCode: Option<Extracted>)
  {
    errorCode.Some? && errorCode.value.EText? && Includes(errorCode.value.text, "MessageNotExist")
  }

  // ---------------------------------------------------------------------------
  // The consumer's state
  // ---------------------------------------------------------------------------

  /** The events the consumer emits. */
  datatype Event = Done | AckFailed(message: Message)

  /** What reaches `logger.error`. */
  datatype LogEntry =
    | PullRejected(code: int)
    | PullFailed(errorCode: Option<Extracted>)
    | AckNotAccepted(message: Message)
    | AckError
    | HandlerError

  /**
   * How the handling of one message ends: the callback throws, or it returns and the
   * acknowledgement resolves with a response or rejects.
   */
  datatype Outcome = HandlerThrew | HandlerReturned(ack: Result<Response, RequestError>)

  /** What can happen while `subscribe` waits: one message's handling ends, or `safeClose` is called. */
  datatype Step = Complete(message: Message, outcome: Outcome) | Close

  /**
   * One round of the loop as the environment plays it: what happens while the pull
   * (or the flow-control sleep) is outstanding, and whether a callback calls
   * `safeClose` in its synchronous part, before its first `await`, when the round
   * delivers messages.
   */
  datatype Round = Round(waiting: seq<Step>, closeInCallback: bool)

  /** Some step of `steps` is a `safeClose` call. */
  predicate Closes(steps: seq<Step>)
  {
    Close in steps
  }

  /** The round's callbacks close the consumer: the pull delivered at least one message to them. */
  predicate CallbackCloses(round: Round, result: PullResult)
  {
    round.closeInCallback && result.Pulled? && result.code == 200 && |result.messages| > 0
  }

  /** Neither the wait of a pulling round nor its callbacks close the consumer. */
  predicate RoundKeepsRunning(round: Round, result: PullResult)
  {
    !Closes(round.waiting) && !CallbackCloses(round, result)
  }

  /** `pullBatchSize`, or fewer when fewer are free: `checkedPullBatchSize`. */
  function CheckedBatch(freeCount: int, pullBatchSize: int): (r: int)
    ensures r <= freeCount && r <= pullBatchSize
    ensures r == freeCount || r == pullBatchSize
  {
    if freeCount < pullBatchSize then freeCount else pullBatchSize
  }

  /** The `consumeMessage` call of each pull size in turn. */
  function PullCalls(path: string, sizes: seq<int>, waitSeconds: int): (r: seq<Call>)
    ensures |r| == |sizes|
  {
    if |sizes| == 0 then []
    else PullCalls(path, sizes[..|sizes| - 1], waitSeconds) + [GetCall(PullUrl(path, sizes[|sizes| - 1], waitSeconds), "Messages")]
  }

  /** The `i`-th call pulls the `i`-th size. */
  lemma {:induction false} PullCallsEach(path: string, sizes: seq<int>, waitSeconds: int)
    ensures forall i :: 0 <= i < |sizes| ==> PullCalls(path, sizes, waitSeconds)[i] == GetCall(PullUrl(path, sizes[i], waitSeconds), "Messages")
  {
    if |sizes| > 0 {
      var init := sizes[..|sizes| - 1];
      PullCallsEach(path, init, waitSeconds);
      forall i | 0 <= i < |sizes| - 1
        ensures PullCalls(path, sizes, waitSeconds)[i] == GetCall(PullUrl(path, sizes[i], waitSeconds), "Messages")
      {
        assert init[i] == sizes[i];
      }
    }
  }

  /** Why `Subscribe` returns. */
  datatype Stop = Closed | FlowControlled | OutOfSteps

  /** The constructor's three assertions. */
  datatype ConsumerError = MissingClient | MissingTopic | MissingConsumer

  /** The text handle of a message, when it has one. */
  function ReceiptHandleOf(m: Message): Option<string>
  {
    var field: Option<Extracted> := Get(m.entries, "ReceiptHandle");
    match field
    case Some(EText(h)) => Some(h)
    case _ => None
  }

  /** The body of `ackMessage(receiptHandles)`. */
  function AckDocument(receiptHandles: seq<string>): string
  {
    Document("ReceiptHandles", Items(seq(|receiptHandles|, i requires 0 <= i < |receiptHandles| => Text(receiptHandles[i]))),
      "ReceiptHandle")
  }

  /** The acknowledgement of one message names exactly its handle. */
  lemma AckDocumentReadsBack(receiptHandle: string)
    requires !Includes(receiptHandle, CloseTag("ReceiptHandle"))
    ensures ReadDocument("ReceiptHandles", AckDocument([receiptHandle])) == Some([("ReceiptHandle", receiptHandle)])
  {
    var texts := [receiptHandle];
    assert seq(|texts|, i requires 0 <= i < |texts| => ("ReceiptHandle", texts[i])) == [("ReceiptHandle", receiptHandle)];
    DocumentOfItemsReadsBack("ReceiptHandles", texts, "ReceiptHandle");
  }

  /** Handling ends in `ackFailed`: the callback returned and the ack threw or did not answer 204. */
  predicate AckFails(m: Message, outcome: Outcome)
  {
    outcome.HandlerReturned? &&
    (ReceiptHandleOf(m).None? || outcome.ack.Err? || outcome.ack.value.code != 204)
  }

  /** What `logger.error` receives when one message's handling ends. */
  function FinishLog(m: Message, outcome: Outcome): seq<LogEntry>
  {
    if outcome.HandlerThrew? then [HandlerError]
    else if ReceiptHandleOf(m).None? || outcome.ack.Err? then [AckError]
    else if outcome.ack.value.code != 204 then [AckNotAccepted(m)]
    else []
  }

  function Max0(n: int): int
  {
    if n < 0 then 0 else n
  }

  class MQConsumer {
    const client: MQClient
    const instanceId: string
    const topic: string
    const consumer: string
    const messageTag: string
    /** The two resource paths the constructor derives. */
    const path := PullPath(topic, consumer, instanceId, messageTag)
    const ackPath := GroupPath(topic, consumer, instanceId)

    /** `subscribe` has assigned `pendingCount` (before that it is `undefined`). */
    var subscribed: bool
    /** Messages delivered to the callback whose handling has not ended. */
    var pendingCount: int
    /** The running flag: `Date.now()` of the last `subscribe`, `0` after `safeClose`. */
    var startedAt: int
    /** The message of every handler still running, one per delivery. */
    var inFlight: multiset<Message>
    /** Every event emitted, in order. */
    var events: seq<Event>
    /** Every `logger.error` call, in order. */
    var log: seq<LogEntry>
    /** `safeClose` promises waiting for the next `done`. */
    var closeWaiters: nat
    /** `safeClose` promises resolved by a `done`. */
    var closesResolved: nat

    /** `new MQConsumer(client, instanceId, topic, consumer, messageTag)` once its assertions hold. */
    constructor (client: MQClient, instanceId: string, topic: string, consumer: string, messageTag: string)
      requires topic != "" && consumer != ""
      ensures this.client == client && this.instanceId == instanceId && this.topic == topic
      ensures this.consumer == consumer && this.messageTag == messageTag
      ensures !subscribed && startedAt == 0 && inFlight == multiset{}
      ensures events == [] && log == [] && closeWaiters == 0 && closesResolved == 0
    {
      this.client := client;
      this.instanceId := instanceId;
      this.topic := topic;
      this.consumer := consumer;
      this.messageTag := messageTag;
      subscribed := false;
      pendingCount := 0;
      startedAt := 0;
      inFlight := multiset{};
      events := [];
      log := [];
      closeWaiters := 0;
      closesResolved := 0;
    }

    /** The constructor with its assertions, checked in argument order. */
    static method New(client: Option<MQClient>, instanceId: string, topic: string, consumer: string, messageTag: string)
      returns (r: Result<MQConsumer, ConsumerError>)
      ensures r.Ok? <==> client.Some? && topic != "" && consumer != ""
      ensures r.Err? ==> (r.error == if client.None? then MissingClient
        else if topic == "" then MissingTopic else MissingConsumer)
      ensures r.Ok? ==> (fresh(r.value) && r.value.client == client.value && r.value.topic == topic
        && r.value.consumer == consumer && r.value.instanceId == instanceId && r.value.messageTag == messageTag
        && !r.value.subscribed && r.value.inFlight == multiset{} && r.value.events == [])
    {
      if client.None? {
        return Err(MissingClient);
      }
      if topic == "" {
        return Err(MissingTopic);
      }
      if consumer == "" {
        return Err(MissingConsumer);
      }
      var c := new MQConsumer(client.value, instanceId, topic, consumer, messageTag);
      return Ok(c);
    }

    /** `consumeMessage(numOfMessages, waitSeconds)` up to the exchange. */
    method ConsumeMessage(crypto: Crypto, date: string, numOfMessages: int, waitSeconds: int) returns (req: HttpRequest)
      ensures req.verb == "GET" && req.body == ""
      ensures var resource := WithQuery(TopicMessages(topic),
        [("consumer", consumer)] + NsParam(instanceId) + TagParam(messageTag) + PullParams(numOfMessages, waitSeconds));
        req.url == client.endpoint + resource && req.headers == Headers(client, crypto, date, "GET", "", resource)
    {
      var url := path + "&numOfMessages=" + IntToString(numOfMessages);
      NextLiteral(path, "&numOfMessages=", "numOfMessages", IntToString(numOfMessages));
      if waitSeconds != 0 {
        NextLiteral(url, "&waitseconds=", "waitseconds", IntToString(waitSeconds));
        url := url + "&waitseconds=" + IntToString(waitSeconds);
      }
      PullUrlParams(topic, consumer, instanceId, messageTag, numOfMessages, waitSeconds);
      req := Send(client, crypto, date, GetCall(url, "Messages"));
    }

    /** `ackMessage(receiptHandles)` up to the exchange: a `DELETE` of the handles at the ack path. */
    method AckMessage(crypto: Crypto, date: string, receiptHandles: seq<string>) returns (req: HttpRequest)
      ensures req.verb == "DELETE" && req.body == AckDocument(receiptHandles)
      ensures var resource := WithQuery(TopicMessages(topic), [("consumer", consumer)] + NsParam(instanceId));
        req.url == client.endpoint + resource && req.headers == Headers(client, crypto, date, "DELETE", req.body, resource)
    {
      var body := ToXMLBuffer("ReceiptHandles",
        Items(seq(|receiptHandles|, i requires 0 <= i < |receiptHandles| => Text(receiptHandles[i]))), "ReceiptHandle");
      req := Send(client, crypto, date, DeleteCall(ackPath, "Errors", body));
    }

    /** The `ackMessage([ReceiptHandle])` a message's handling sends; `None` when the handle is missing and the ack throws. */
    function AckCall(m: Message): (r: Option<Call>)
      ensures r.Some? <==> ReceiptHandleOf(m).Some?
      ensures r.Some? ==> r.value == DeleteCall(ackPath, "Errors", AckDocument([ReceiptHandleOf(m).value]))
    {
      match ReceiptHandleOf(m)
      case None => None
      case Some(h) => Some(DeleteCall(ackPath, "Errors", AckDocument([h])))
    }

    /**
     * The start of `subscribe(onMsg, options)`: `pendingCount = 0`, the options merged
     * over the client's, and `startedAt = Date.now()`.
     */
    method BeginSubscribe(options: Overrides, now: int) returns (settings: Settings, waitSeconds: int)
      modifies this
      ensures settings == Merge(client.options, options) && waitSeconds == WaitSeconds(settings.pullInterval)
      ensures subscribed && pendingCount == 0 && startedAt == now
      ensures inFlight == old(inFlight) && events == old(events) && log == old(log)
      ensures closeWaiters == old(closeWaiters) && closesResolved == old(closesResolved)
    {
      subscribed := true;
      pendingCount := 0;
      settings := Merge(client.options, options);
      waitSeconds := settings.pullInterval / 1000;
      startedAt := now;
    }

    /**
     * `msgsRet.body.map(async message => { this.pendingCount += 1 ... })` up to each
     * handler's first `await`: every message is counted once and starts its handler.
     */
    method Deliver(messages: seq<Message>)
      modifies this
      ensures pendingCount == old(pendingCount) + |messages|
      ensures inFlight == old(inFlight) + multiset(messages)
      ensures subscribed == old(subscribed) && startedAt == old(startedAt)
      ensures events == old(events) && log == old(log)
      ensures closeWaiters == old(closeWaiters) && closesResolved == old(closesResolved)
    {
      var i := 0;
      while i < |messages|
        invariant 0 <= i <= |messages|
        invariant pendingCount == old(pendingCount) + i
        invariant inFlight == old(inFlight) + multiset(messages[..i])
        invariant subscribed == old(subscribed) && startedAt == old(startedAt)
        invariant events == old(events) && log == old(log)
        invariant closeWaiters == old(closeWaiters) && closesResolved == old(closesResolved)
      {
        assert messages[..i + 1] == messages[..i] + [messages[i]];
        pendingCount := pendingCount + 1;
        inFlight := inFlight + multiset{messages[i]};
        i := i + 1;
      }
      assert messages[..i] == messages;
    }

    /**
     * The rest of one message's handler once the callback and the ack have ended: no
     * ack after a throwing callback; `ackFailed` exactly when the ack threw or did not
     * answer 204; then the count goes down once, and `done` (which resolves every
     * waiting `safeClose`) is emitted exactly when it reaches 0.
     */
    method Finish(m: Message, outcome: Outcome) returns (ack: Option<Call>)
      requires m in inFlight
      modifies this
      ensures ack == if outcome.HandlerThrew? then None else AckCall(m)
      ensures events == old(events) + (if AckFails(m, outcome) then [AckFailed(m)] else [])
        + (if old(pendingCount) == 1 then [Done] else [])
      ensures log == old(log) + FinishLog(m, outcome)
      ensures pendingCount == old(pendingCount) - 1
      ensures inFlight == old(inFlight) - multiset{m}
      ensures subscribed == old(subscribed) && startedAt == old(startedAt)
      ensures closeWaiters == if old(pendingCount) == 1 then 0 else old(closeWaiters)
      ensures closesResolved == old(closesResolved) + if old(pendingCount) == 1 then old(closeWaiters) else 0
    {
      ack := Acknowledge(m, outcome);
      CountDown(m);
    }

    /** The callback's end and the ack's: what is sent, emitted and logged. */
    method Acknowledge(m: Message, outcome: Outcome) returns (ack: Option<Call>)
      modifies this
      ensures ack == if outcome.HandlerThrew? then None else AckCall(m)
      ensures events == old(events) + if AckFails(m, outcome) then [AckFailed(m)] else []
      ensures log == old(log) + FinishLog(m, outcome)
      ensures pendingCount == old(pendingCount) && inFlight == old(inFlight)
      ensures subscribed == old(subscribed) && startedAt == old(startedAt)
      ensures closeWaiters == old(closeWaiters) && closesResolved == old(closesResolved)
    {
      ack := None;
      if outcome.HandlerThrew? {
        log := log + [HandlerError];
      } else {
        ack := AckCall(m);
        if ack.None? || outcome.ack.Err? {
          events := events + [AckFailed(m)];
          log := log + [AckError];
        } else if outcome.ack.value.code != 204 {
          events := events + [AckFailed(m)];
          log := log + [AckNotAccepted(m)];
        }
      }
    }

    /** `this.pendingCount -= 1`, and `done` when it reaches 0. */
    method CountDown(m: Message)
      modifies this
      ensures pendingCount == old(pendingCount) - 1
      ensures inFlight == old(inFlight) - multiset{m}
      ensures events == old(events) + if old(pendingCount) == 1 then [Done] else []
      ensures closeWaiters == if old(pendingCount) == 1 then 0 else old(closeWaiters)
      ensures closesResolved == old(closesResolved) + if old(pendingCount) == 1 then old(closeWaiters) else 0
      ensures log == old(log) && subscribed == old(subscribed) && startedAt == old(startedAt)
    {
      pendingCount := pendingCount - 1;
      inFlight := inFlight - multiset{m};
      if pendingCount == 0 {
        events := events + [Done];
        closesResolved := closesResolved + closeWaiters;
        closeWaiters := 0;
      }
    }

    /**
     * `safeClose()`: clears the running flag, then resolves at once when the count is
     * 0 and otherwise waits for the next `done`. Before any `subscribe` the count is
     * `undefined`, which is not 0.
     */
    method SafeClose() returns (resolved: bool)
      modifies this
      ensures startedAt == 0
      ensures resolved <==> subscribed && pendingCount == 0
      ensures closeWaiters == if resolved then old(closeWaiters) else old(closeWaiters) + 1
      ensures subscribed == old(subscribed) && pendingCount == old(pendingCount) && inFlight == old(inFlight)
      ensures events == old(events) && log == old(log) && closesResolved == old(closesResolved)
    {
      startedAt := 0;
      resolved := subscribed && pendingCount == 0;
      if !resolved {
        closeWaiters := closeWaiters + 1;
      }
    }

    /**
     * What `subscribe` does with one pull's result: a 200 response delivers its
     * messages; any other response is logged; a rejection is logged unless it is the
     * quiet `MessageNotExist`. Only a delivery changes the count.
     */
    method HandlePull(result: PullResult)
      modifies this
      ensures result.Pulled? && result.code == 200 ==>
        pendingCount == old(pendingCount) + |result.messages|
        && inFlight == old(inFlight) + multiset(result.messages) && log == old(log)
      ensures !(result.Pulled? && result.code == 200) ==>
        pendingCount == old(pendingCount) && inFlight == old(inFlight)
      ensures result.Pulled? && result.code != 200 ==> log == old(log) + [PullRejected(result.code)]
      ensures result.PullThrew? ==>
        log == old(log) + if QuietFailure(result.errorCode) then [] else [PullFailed(result.errorCode)]
      ensures subscribed == old(subscribed) && startedAt == old(startedAt) && events == old(events)
      ensures closeWaiters == old(closeWaiters) && closesResolved == old(closesResolved)
    {
      match result
      case Pulled(code, messages) =>
        if code == 200 {
          Deliver(messages);
        } else {
          log := log + [PullRejected(code)];
        }
      case PullThrew(errorCode) =>
        if !(errorCode.Some? && errorCode.value.EText? && Includes(errorCode.value.text, "MessageNotExist")) {
          log := log + [PullFailed(errorCode)];
        }
    }

    /**
     * What happens while `subscribe` awaits: handlers ending (only those still
     * running) and `safeClose` calls, in the order given. The count only goes down.
     */
    method RunSteps(steps: seq<Step>)
      modifies this
      ensures pendingCount + |steps| >= old(pendingCount)
      ensures pendingCount <= old(pendingCount)
      ensures pendingCount - old(pendingCount) == |inFlight| - |old(inFlight)|
      ensures subscribed == old(subscribed)
      ensures Closes(steps) ==> startedAt == 0
      ensures !Closes(steps) ==> startedAt == old(startedAt)
    {
      var i := 0;
      while i < |steps|
        invariant 0 <= i <= |steps|
        invariant old(pendingCount) - i <= pendingCount <= old(pendingCount)
        invariant pendingCount - old(pendingCount) == |inFlight| - |old(inFlight)|
        invariant subscribed == old(subscribed)
        invariant Closes(steps[..i]) ==> startedAt == 0
        invariant !Closes(steps[..i]) ==> startedAt == old(startedAt)
      {
        assert steps[..i + 1][..i] == steps[..i];
        match steps[i] {
          case Close =>
            var _ := SafeClose();
          case Complete(m, outcome) =>
            if m in inFlight {
              var _ := Finish(m, outcome);
            }
        }
        assert steps[..i + 1][i] == steps[i];
        i := i + 1;
      }
      assert steps[..i] == steps;
    }

    /**
     * One pulling round after the pull is sent: what happens while it waits, then the
     * reply handled, then a `safeClose` from a callback when the round's callbacks close.
     */
    method PullRound(round: Round, reply: Result<Response, RequestError>) returns (result: PullResult)
      modifies this
      ensures result == ReplyOutcome(reply)
      ensures pendingCount <= old(pendingCount) + if result.Pulled? && result.code == 200 then |result.messages| else 0
      ensures pendingCount - old(pendingCount) == |inFlight| - |old(inFlight)|
      ensures subscribed == old(subscribed)
      ensures startedAt == if Closes(round.waiting) || CallbackCloses(round, result) then 0 else old(startedAt)
    {
      RunSteps(round.waiting);
      result := ConsumeReply(reply);
      HandlePull(result);
      if CallbackCloses(round, result) {
        var _ := SafeClose();
      }
    }

    /**
     * One round of `subscribe`'s loop, ahead of the check of the running flag:
     * `freeCount` from the count; when it is not positive only the wait happens (and
     * `size` is 0), otherwise a pull of the checked batch size whose reply is
     * `respond(r, size)`.
     */
    method Poll(round: Round, r: nat, threshold: int, batch: int, respond: (nat, int) -> Result<Response, RequestError>)
      returns (freeCount: int, size: int, result: PullResult)
      requires forall n :: ReplyOutcome(respond(r, n)).Pulled? ==> |ReplyOutcome(respond(r, n)).messages| <= Max0(n)
      requires pendingCount <= Max0(threshold)
      modifies this
      ensures freeCount == threshold - old(pendingCount)
      ensures freeCount <= 0 ==> size == 0
      ensures freeCount > 0 ==> size == CheckedBatch(freeCount, batch) && result == ReplyOutcome(respond(r, size))
      ensures pendingCount <= Max0(threshold)
      ensures pendingCount - old(pendingCount) == |inFlight| - |old(inFlight)|
      ensures subscribed == old(subscribed)
      ensures startedAt == if Closes(round.waiting) || (freeCount > 0 && CallbackCloses(round, result)) then 0 else old(startedAt)
    {
      freeCount := threshold - pendingCount;
      if freeCount <= 0 {
        // the code sleeps for the pull interval and then returns
        RunSteps(round.waiting);
        size, result := 0, Pulled(0, []);
      } else {
        size := CheckedBatch(freeCount, batch);
        result := PullRound(round, respond(r, size));
      }
    }

    /**
     * The loop of `subscribe` once its first test of the running flag has passed:
     * round after round while the flag stays set and `during` lasts, each round one
     * `Poll`.
     */
    method PullLoop(threshold: int, batch: int, during: seq<Round>,
                    respond: (nat, int) -> Result<Response, RequestError>)
      returns (stop: Stop, sizes: seq<int>, ghost frees: seq<int>)
      requires forall r, n :: ReplyOutcome(respond(r, n)).Pulled? ==> |ReplyOutcome(respond(r, n)).messages| <= Max0(n)
      requires subscribed && pendingCount == 0 && startedAt != 0
      modifies this
      ensures pendingCount <= Max0(threshold)
      ensures pendingCount + |old(inFlight)| == |inFlight|
      ensures old(inFlight) == multiset{} ==> forall i :: 0 <= i < |sizes| ==> sizes[i] <= threshold
      ensures subscribed
      ensures stop == Closed <==> startedAt == 0
      ensures stop != Closed ==> startedAt == old(startedAt)
      ensures |sizes| <= |frees| <= |sizes| + 1 && |frees| <= |during|
      ensures forall i :: 0 <= i < |sizes| ==> frees[i] > 0 && sizes[i] == CheckedBatch(frees[i], batch)
      ensures |frees| == |sizes| + 1 ==> frees[|sizes|] <= 0
      ensures |during| > 0 ==> |frees| > 0 && frees[0] == threshold
      ensures stop == FlowControlled <==> |frees| == |sizes| + 1 && startedAt != 0
      ensures stop == OutOfSteps ==> |sizes| == |frees| == |during|
      ensures stop == Closed ==> (0 < |frees| && (Closes(during[|frees| - 1].waiting)
        || (|frees| == |sizes| && CallbackCloses(during[|frees| - 1], ReplyOutcome(respond(|frees| - 1, sizes[|frees| - 1]))))))
      ensures forall r :: 0 <= r < |sizes| && (r < |frees| - 1 || stop != Closed) ==> RoundKeepsRunning(during[r], ReplyOutcome(respond(r, sizes[r])))
    {
      sizes, frees := [], [];
      var round := 0;
      var flowControlled := false;
      while startedAt != 0 && round < |during|
        invariant round <= |during| && |sizes| == |frees| == round
        invariant subscribed
        invariant pendingCount <= Max0(threshold)
        invariant pendingCount + |old(inFlight)| == |inFlight|
        invariant old(inFlight) == multiset{} ==> forall i :: 0 <= i < round ==> sizes[i] <= threshold
        invariant forall i :: 0 <= i < round ==> frees[i] > 0
        invariant forall i :: 0 <= i < round ==> sizes[i] == CheckedBatch(frees[i], batch)
        invariant round == 0 ==> startedAt != 0 && pendingCount == 0
        invariant round > 0 ==> frees[0] == threshold
        invariant startedAt == 0 || startedAt == old(startedAt)
        invariant startedAt == 0 ==> (0 < round
          && (Closes(during[round - 1].waiting) || CallbackCloses(during[round - 1], ReplyOutcome(respond(round - 1, sizes[round - 1])))))
        invariant forall r :: 0 <= r < round && (r < round - 1 || startedAt != 0) ==> RoundKeepsRunning(during[r], ReplyOutcome(respond(r, sizes[r])))
      {
        var freeCount, size, result := Poll(during[round], round, threshold, batch, respond);
        frees := frees + [freeCount];
        if freeCount <= 0 {
          flowControlled := true;
          break;
        }
        sizes := sizes + [size];
        round := round + 1;
      }
      stop := if startedAt == 0 then Closed else if flowControlled then FlowControlled else OutOfSteps;
    }

    /**
     * `subscribe(onMsg, options)`. Each round computes `freeCount =
     * pullThresholdForQueue - pendingCount`, recorded in `frees`; while it is positive
     * the round pulls `min(freeCount, pullBatchSize)` messages. `during[r]` is what
     * happens while round `r` waits, and `respond(r, n)` is what `client.get` resolves
     * or rejects with for a pull of `n`. The loop ends when `safeClose` has cleared the
     * running flag (while a pull waits, or in a callback right after a delivery), when
     * `freeCount` is not positive (after one wait, as the code returns there), or when
     * `during` runs out.
     *
     * Every promise below is made for replies that hold at most the messages asked
     * for. The count then never exceeds the threshold; started with no handler
     * running, it never goes negative. A second `subscribe` while handlers still run
     * resets the count to 0, and their decrements can take it below zero.
     */
    method Subscribe(options: Overrides, now: int, during: seq<Round>,
                     respond: (nat, int) -> Result<Response, RequestError>)
      returns (stop: Stop, sizes: seq<int>, pulls: seq<Call>, ghost frees: seq<int>)
      requires forall r, n :: ReplyOutcome(respond(r, n)).Pulled? ==> |ReplyOutcome(respond(r, n)).messages| <= Max0(n)
      modifies this
      ensures var settings := Merge(client.options, options);
        && pendingCount <= Max0(settings.pullThresholdForQueue)
        && pulls == PullCalls(path, sizes, WaitSeconds(settings.pullInterval))
        && (forall i :: 0 <= i < |sizes| ==> sizes[i] <= settings.pullBatchSize)
        && (old(inFlight) == multiset{} ==> (0 <= pendingCount
              && forall i :: 0 <= i < |sizes| ==> sizes[i] <= settings.pullThresholdForQueue))
      ensures pendingCount + |old(inFlight)| == |inFlight|
      ensures subscribed
      ensures stop == Closed <==> startedAt == 0
      // the pull rule: a round pulls exactly while its free count is positive, and asks for the checked batch
      ensures |sizes| <= |frees| <= |sizes| + 1 && |frees| <= |during|
      ensures forall i :: 0 <= i < |sizes| ==>
        frees[i] > 0 && sizes[i] == CheckedBatch(frees[i], Merge(client.options, options).pullBatchSize)
      ensures |frees| == |sizes| + 1 ==> frees[|sizes|] <= 0
      ensures now != 0 && |during| > 0 ==> |frees| > 0 && frees[0] == Merge(client.options, options).pullThresholdForQueue
      // why the loop ended
      ensures stop == FlowControlled <==> |frees| == |sizes| + 1 && startedAt != 0
      ensures stop == OutOfSteps ==> |sizes| == |frees| == |during|
      ensures now == 0 ==> stop == Closed && |frees| == 0
      // round `r`'s reply is `respond(r, sizes[r])`
      ensures stop == Closed && now != 0 ==> (0 < |frees| && (Closes(during[|frees| - 1].waiting)
        || (|frees| == |sizes| && CallbackCloses(during[|frees| - 1], ReplyOutcome(respond(|frees| - 1, sizes[|frees| - 1]))))))
      // no round before the last, and no round at all unless closed, closed the consumer
      ensures forall r :: 0 <= r < |sizes| && (r < |frees| - 1 || stop != Closed) ==> RoundKeepsRunning(during[r], ReplyOutcome(respond(r, sizes[r])))
    {
      var settings, waitSeconds := BeginSubscribe(options, now);
      if startedAt == 0 {
        // `while (this.startedAt)` fails at once: no round runs
        stop, sizes, frees := Closed, [], [];
      } else {
        stop, sizes, frees := PullLoop(settings.pullThresholdForQueue, settings.pullBatchSize, during, respond);
      }
      // the request of each pulling round, in order
      pulls := PullCalls(path, sizes, waitSeconds);
    }

    /**
     * `subscribe` with the default options through one round in which nothing else
     * happens: the threshold of 100 leaves room for a full batch, so exactly one pull
     * of 16 is made and the loop is still running when the rounds run out.
     */
    method SubscribeOneDefaultRound(now: int, respond: (nat, int) -> Result<Response, RequestError>)
      returns (stop: Stop, sizes: seq<int>)
      requires client.options == Defaults && now != 0
      requires forall r, n :: ReplyOutcome(respond(r, n)).Pulled? ==> |ReplyOutcome(respond(r, n)).messages| <= Max0(n)
      modifies this
      ensures sizes == [16] && stop == OutOfSteps
    {
      var pulls: seq<Call>;
      ghost var frees: seq<int>;
      stop, sizes, pulls, frees := Subscribe(NoOverrides, now, [Round([], false)], respond);
    }

    /**
     * `subscribe` with `pullThresholdForQueue: 0`: the first free count is 0, so the
     * loop waits once and returns under flow control without pulling.
     */
    method SubscribeWithoutRoom(now: int, respond: (nat, int) -> Result<Response, RequestError>)
      returns (stop: Stop, sizes: seq<int>)
      requires now != 0
      requires forall r, n :: ReplyOutcome(respond(r, n)).Pulled? ==> |ReplyOutcome(respond(r, n)).messages| <= Max0(n)
      modifies this
      ensures sizes == [] && stop == FlowControlled
    {
      var pulls: seq<Call>;
      ghost var frees: seq<int>;
      stop, sizes, pulls, frees := Subscribe(Overrides(None, None, None, Some(0)), now, [Round([], false)], respond);
    }
  }
}

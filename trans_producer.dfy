/**
 * lib/MQTransProducer.js: a transactional producer for one topic and one group. It
 * publishes half messages (the body is not wrapped in CDATA), pulls the half messages
 * the service asks it to check (`trans=pop`) and commits or rolls each back by its
 * receipt handle (`trans=commit`, `trans=rollback`).
 */
module TransProducer {
  import opened Wrappers
  import opened Strings
  import opened HelperXml
  import opened Properties
  import opened Resource
  import opened Client
  import opened Producer

  /**
   * `/topics/${topic}/messages?consumer=${groupId}&ns=${instanceId}&trans=pop`,
   * without the `ns` parameter when the instance id is falsy.
   */
  function TransPopPath(topic: string, groupId: string, instanceId: string): (r: string)
    ensures r == WithQuery(TopicMessages(topic), [("consumer", groupId)] + NsParam(instanceId) + [("trans", "pop")])
  {
    var base := TopicMessages(topic);
    var first := [("consumer", groupId)];
    TopicLiteral(topic, "/messages?consumer=", "?consumer=");
    FirstLiteral(base, "?consumer=", "consumer", groupId);
    if instanceId != "" then
      var withNs := "/topics/" + topic + "/messages?consumer=" + groupId + "&ns=" + instanceId;
      NextLiteral(WithQuery(base, first), "&ns=", "ns", instanceId);
      AppendParam(base, first, "ns", instanceId);
      FixedParamLiteral(withNs, "&trans=pop", "trans", "pop");
      AppendParam(base, first + [("ns", instanceId)], "trans", "pop");
      "/topics/" + topic + "/messages?consumer=" + groupId + "&ns=" + instanceId + "&trans=pop"
    else
      FixedParamLiteral(WithQuery(base, first), "&trans=pop", "trans", "pop");
      AppendParam(base, first, "trans", "pop");
      assert first + NsParam(instanceId) + [("trans", "pop")] == first + [("trans", "pop")];
      "/topics/" + topic + "/messages?consumer=" + groupId + "&trans=pop"
  }

  /** `${transOprPath}&trans=${operation}`: the operation comes last, after the group and instance. */
  lemma OperationPath(topic: string, groupId: string, instanceId: string, lit: string, operation: string)
    requires lit == "&trans=" + operation
    ensures GroupPath(topic, groupId, instanceId) + lit
         == WithQuery(TopicMessages(topic), [("consumer", groupId)] + NsParam(instanceId) + [("trans", operation)])
  {
    FixedParamLiteral(GroupPath(topic, groupId, instanceId), lit, "trans", operation);
    AppendParam(TopicMessages(topic), [("consumer", groupId)] + NsParam(instanceId), "trans", operation);
  }

  /** `toXMLBuffer('ReceiptHandles', [receiptHandle], 'ReceiptHandle')`. */
  function HandleDocument(receiptHandle: string): string
  {
    Document("ReceiptHandles", Items([Text(receiptHandle)]), "ReceiptHandle")
  }

  /** The body of a commit or rollback names exactly the one handle given. */
  lemma HandleDocumentReadsBack(receiptHandle: string)
    requires !Includes(receiptHandle, CloseTag("ReceiptHandle"))
    ensures ReadDocument("ReceiptHandles", HandleDocument(receiptHandle)) == Some([("ReceiptHandle", receiptHandle)])
  {
    var texts := [receiptHandle];
    assert seq(|texts|, i requires 0 <= i < |texts| => Text(texts[i])) == [Text(receiptHandle)];
    assert seq(|texts|, i requires 0 <= i < |texts| => ("ReceiptHandle", texts[i])) == [("ReceiptHandle", receiptHandle)];
    DocumentOfItemsReadsBack("ReceiptHandles", texts, "ReceiptHandle");
  }

  /** The constructor's three assertions. */
  datatype TransProducerError = MissingClient | MissingTopic | MissingGroupId

  class MQTransProducer {
    const client: MQClient
    const instanceId: string
    const topic: string
    const groupId: string
    /** The three resource paths the constructor derives from the topic, group and instance. */
    const path := TopicPath(topic, instanceId)
    const transPopPath := TransPopPath(topic, groupId, instanceId)
    const transOprPath := GroupPath(topic, groupId, instanceId)

    /** `new MQTransProducer(client, instanceId, topic, groupId)` once its assertions hold. */
    constructor (client: MQClient, instanceId: string, topic: string, groupId: string)
      requires topic != "" && groupId != ""
      ensures this.client == client && this.instanceId == instanceId
      ensures this.topic == topic && this.groupId == groupId
      ensures path == WithQuery(TopicMessages(topic), NsParam(instanceId))
      ensures transPopPath == WithQuery(TopicMessages(topic), [("consumer", groupId)] + NsParam(instanceId) + [("trans", "pop")])
      ensures transOprPath == WithQuery(TopicMessages(topic), [("consumer", groupId)] + NsParam(instanceId))
    {
      this.client := client;
      this.instanceId := instanceId;
      this.topic := topic;
      this.groupId := groupId;
    }

    /** The constructor with its assertions, checked in argument order. */
    static method New(client: Option<MQClient>, instanceId: string, topic: string, groupId: string)
      returns (r: Result<MQTransProducer, TransProducerError>)
      ensures r.Ok? <==> client.Some? && topic != "" && groupId != ""
      ensures r.Err? ==> (r.error == if client.None? then TransProducerError.MissingClient
        else if topic == "" then TransProducerError.MissingTopic else MissingGroupId)
      ensures r.Ok? ==> (fresh(r.value) && r.value.client == client.value
        && r.value.instanceId == instanceId && r.value.topic == topic && r.value.groupId == groupId
        && r.value.transOprPath == GroupPath(topic, groupId, instanceId))
    {
      if client.None? {
        return Err(TransProducerError.MissingClient);
      }
      if topic == "" {
        return Err(TransProducerError.MissingTopic);
      }
      if groupId == "" {
        return Err(MissingGroupId);
      }
      var p := new MQTransProducer(client.value, instanceId, topic, groupId);
      return Ok(p);
    }

    /** `publishMessage(body, tag, msgProps)`: as the plain producer's, but the body goes out as given. */
    method PublishMessage(crypto: Crypto, date: string, body: string, tag: string, msgProps: MessageProperties?)
      returns (req: HttpRequest)
      ensures req.verb == "POST" && req.url == client.endpoint + path
      ensures req.body == MessageDocument(MessageFields(body, tag, PropsOf(msgProps)))
      ensures req.headers == Headers(client, crypto, date, "POST", req.body, path)
    {
      var params := MessageParams(body, tag, msgProps);
      var xml := ToXMLBuffer("Message", Single(TextFields(params)), "");
      req := Send(client, crypto, date, PostCall(path, "Message", xml));
    }

    /**
     * `consumeHalfMessage(numOfMessages, waitSeconds)` up to the exchange: a `GET` of
     * the pop path with the pull parameters after its own.
     */
    method ConsumeHalfMessage(crypto: Crypto, date: string, numOfMessages: int, waitSeconds: int)
      returns (req: HttpRequest)
      ensures req.verb == "GET" && req.body == ""
      ensures var resource := WithQuery(TopicMessages(topic),
        [("consumer", groupId)] + NsParam(instanceId) + [("trans", "pop")] + PullParams(numOfMessages, waitSeconds));
        req.url == client.endpoint + resource && req.headers == Headers(client, crypto, date, "GET", "", resource)
    {
      var url := transPopPath + "&numOfMessages=" + IntToString(numOfMessages);
      NextLiteral(transPopPath, "&numOfMessages=", "numOfMessages", IntToString(numOfMessages));
      if waitSeconds != 0 {
        NextLiteral(url, "&waitseconds=", "waitseconds", IntToString(waitSeconds));
        url := url + "&waitseconds=" + IntToString(waitSeconds);
      }
      assert url == PullUrl(transPopPath, numOfMessages, waitSeconds);
      PullUrlQuery(TopicMessages(topic), [("consumer", groupId)] + NsParam(instanceId) + [("trans", "pop")],
        numOfMessages, waitSeconds);
      req := Send(client, crypto, date, GetCall(url, "Messages"));
    }

    /** `commit(receiptHandle)` and `rollback(receiptHandle)` up to the exchange. */
    method Operate(crypto: Crypto, date: string, lit: string, operation: string, receiptHandle: string)
      returns (req: HttpRequest)
      requires lit == "&trans=" + operation
      ensures req.verb == "DELETE" && req.body == HandleDocument(receiptHandle)
      ensures var resource := WithQuery(TopicMessages(topic), [("consumer", groupId)] + NsParam(instanceId) + [("trans", operation)]);
        req.url == client.endpoint + resource && req.headers == Headers(client, crypto, date, "DELETE", req.body, resource)
    {
      var body := ToXMLBuffer("ReceiptHandles", Items([Text(receiptHandle)]), "ReceiptHandle");
      OperationPath(topic, groupId, instanceId, lit, operation);
      req := Send(client, crypto, date, DeleteCall(transOprPath + lit, "Errors", body));
    }

    /** `commit(receiptHandle)`: a `DELETE` of the one handle at the operation path with `trans=commit`. */
    method Commit(crypto: Crypto, date: string, receiptHandle: string) returns (req: HttpRequest)
      ensures req.verb == "DELETE" && req.body == HandleDocument(receiptHandle)
      ensures var resource := WithQuery(TopicMessages(topic), [("consumer", groupId)] + NsParam(instanceId) + [("trans", "commit")]);
        req.url == client.endpoint + resource && req.headers == Headers(client, crypto, date, "DELETE", req.body, resource)
    {
      req := Operate(crypto, date, "&trans=commit", "commit", receiptHandle);
    }

    /** `rollback(receiptHandle)`: the same request with `trans=rollback`. */
    method Rollback(crypto: Crypto, date: string, receiptHandle: string) returns (req: HttpRequest)
      ensures req.verb == "DELETE" && req.body == HandleDocument(receiptHandle)
      ensures var resource := WithQuery(TopicMessages(topic), [("consumer", groupId)] + NsParam(instanceId) + [("trans", "rollback")]);
        req.url == client.endpoint + resource && req.headers == Headers(client, crypto, date, "DELETE", req.body, resource)
    {
      req := Operate(crypto, date, "&trans=rollback", "rollback", receiptHandle);
    }
  }
}

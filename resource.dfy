/**
 * The resource strings the producers and the consumer address: a topic's message
 * collection, `/topics/<topic>/messages`, followed by query parameters in a fixed order.
 * Each path the library writes out as a template literal is shown equal to this
 * reference form, so what a path carries is read off its parameter list.
 */
module Resource {
  import opened Strings

  /** `/topics/${topic}/messages`. */
  function TopicMessages(topic: string): string
  {
    "/topics/" + topic + "/messages"
  }

  /** One `key=value` query parameter. */
  function QueryPair(p: (string, string)): string
  {
    p.0 + "=" + p.1
  }

  /** The parameters joined by `&`, in order. */
  function QueryString(params: seq<(string, string)>): string
    requires |params| > 0
  {
    if |params| == 1 then QueryPair(params[0])
    else QueryPair(params[0]) + "&" + QueryString(params[1..])
  }

  /** `base?k1=v1&k2=v2…`, or `base` alone when there are no parameters. */
  function WithQuery(base: string, params: seq<(string, string)>): string
  {
    if |params| == 0 then base else base + "?" + QueryString(params)
  }

  /** The `ns` parameter: present only for a truthy (non-empty) instance id. */
  function NsParam(instanceId: string): seq<(string, string)>
  {
    if instanceId != "" then [("ns", instanceId)] else []
  }

  /** Appending `&key=value` to a string that already has a parameter adds that parameter last. */
  lemma {:induction false} QueryStringSnoc(params: seq<(string, string)>, p: (string, string))
    requires |params| > 0
    ensures QueryString(params + [p]) == QueryString(params) + "&" + QueryPair(p)
    decreases |params|
  {
    if |params| > 1 {
      QueryStringSnoc(params[1..], p);
      assert (params + [p])[1..] == params[1..] + [p];
    }
  }

  /** `${url}&${key}=${value}`. */
  function AddParam(url: string, key: string, value: string): string
  {
    url + "&" + QueryPair((key, value))
  }

  lemma AppendParam(base: string, params: seq<(string, string)>, key: string, value: string)
    requires |params| > 0
    ensures AddParam(WithQuery(base, params), key, value) == WithQuery(base, params + [(key, value)])
  {
    var q, amp, p := QueryString(params), "&", QueryPair((key, value));
    QueryStringSnoc(params, (key, value));
    Assoc(base + "?", q, amp + p);
    Assoc(base + "?" + q, amp, p);
    Assoc(q, amp, p);
  }

  lemma Assoc(a: string, b: string, c: string)
    ensures a + (b + c) == a + b + c
  {
  }

  // The template literals of the library spell a key and its `=` (and sometimes the
  // value) as one text; these lemmas cut such a text into the reference form.

  lemma TopicLiteral(topic: string, lit: string, rest: string)
    requires lit == "/messages" + rest
    ensures "/topics/" + topic + lit == TopicMessages(topic) + rest
  {
  }

  lemma FirstLiteral(base: string, lit: string, key: string, value: string)
    requires lit == "?" + key + "="
    ensures base + lit + value == WithQuery(base, [(key, value)])
  {
  }

  lemma NextLiteral(url: string, lit: string, key: string, value: string)
    requires lit == "&" + key + "="
    ensures url + lit + value == AddParam(url, key, value)
  {
  }

  lemma FixedParamLiteral(url: string, lit: string, key: string, value: string)
    requires lit == "&" + key + "=" + value
    ensures url + lit == AddParam(url, key, value)
  {
  }

  /**
   * `/topics/${topic}/messages?consumer=${group}&ns=${instanceId}`, without the `ns`
   * parameter when the instance id is falsy: the consumer's ack path and the
   * transactional producer's operation path.
   */
  function GroupPath(topic: string, group: string, instanceId: string): (r: string)
    ensures r == WithQuery(TopicMessages(topic), [("consumer", group)] + NsParam(instanceId))
  {
    var base := TopicMessages(topic);
    var first := [("consumer", group)];
    TopicLiteral(topic, "/messages?consumer=", "?consumer=");
    FirstLiteral(base, "?consumer=", "consumer", group);
    if instanceId != "" then
      NextLiteral(WithQuery(base, first), "&ns=", "ns", instanceId);
      AppendParam(base, first, "ns", instanceId);
      "/topics/" + topic + "/messages?consumer=" + group + "&ns=" + instanceId
    else
      assert first + NsParam(instanceId) == first;
      "/topics/" + topic + "/messages?consumer=" + group
  }

  /**
   * The URL the long-polling pulls use: `${path}&numOfMessages=${n}`, followed by
   * `&waitseconds=${w}` only when `w` is truthy (non-zero).
   */
  function PullUrl(path: string, numOfMessages: int, waitSeconds: int): string
  {
    var url := AddParam(path, "numOfMessages", IntToString(numOfMessages));
    if waitSeconds != 0 then AddParam(url, "waitseconds", IntToString(waitSeconds)) else url
  }

  /** The parameters `PullUrl` adds to those of the path. */
  function PullParams(numOfMessages: int, waitSeconds: int): seq<(string, string)>
  {
    [("numOfMessages", IntToString(numOfMessages))]
      + if waitSeconds != 0 then [("waitseconds", IntToString(waitSeconds))] else []
  }

  /**
   * On a path that already has a query, the pull URL adds `numOfMessages` and then,
   * only for a non-zero wait, `waitseconds`, after the path's own parameters.
   */
  lemma PullUrlQuery(base: string, params: seq<(string, string)>, numOfMessages: int, waitSeconds: int)
    requires |params| > 0
    ensures PullUrl(WithQuery(base, params), numOfMessages, waitSeconds)
         == WithQuery(base, params + PullParams(numOfMessages, waitSeconds))
  {
    var n := IntToString(numOfMessages);
    AppendParam(base, params, "numOfMessages", n);
    var withN := params + [("numOfMessages", n)];
    if waitSeconds != 0 {
      var w := IntToString(waitSeconds);
      AppendParam(base, withN, "waitseconds", w);
      assert withN + [("waitseconds", w)] == params + PullParams(numOfMessages, waitSeconds);
    } else {
      assert withN == params + PullParams(numOfMessages, waitSeconds);
    }
  }
}

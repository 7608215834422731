# A Dafny model of the core of mq-http-nodejs-sdk

This is a model of the Node.js SDK for the HTTP interface of a message queue service. In that service:

- a **producer** posts messages to a topic;
- a **transactional producer** posts half messages and then commits or rolls them back;
- a **consumer** long-polls a topic for one consumer group and acknowledges each message it receives by its receipt handle.

Every request is a small XML document. It is signed with an HMAC over a canonical string. Every response is XML, which the SDK flattens into a record.

The model follows six source files.

- **Wire-format helpers** (`lib/helper.js`):
  - XML serialisation (`format`, `toXMLBuffer`) is modelled as methods with loops, proved against reference functions.
  - Unwrapping of the xml2js tree (`extract`) is a function, with its inverse on well-formed trees.
  - The canonical `x-mq-` header block is a filter followed by an insertion sort.
  - `parseProperties` is a method that mutates the pulled message it is given.
- **Message property builder** (`lib/MessageProperties.js`): a class whose `properties` map changes in place. The separator characters are forbidden in custom keys and values, so the property string the producers build parses back to the same map.
- **Producers** (`lib/MQProducer.js`, `lib/MQTransProducer.js`):
  - classes whose constructors derive their resource paths;
  - the ordered message record (body, tag, joined properties);
  - the half-message, commit and rollback requests;
  - the mapping of `sendMsg` results.
- **Client** (`lib/client.js`):
  - option defaulting;
  - the string to sign;
  - the header set, which depends on the HTTP method;
  - the `authorization` header;
  - the logic after parsing: either a thrown service error or a flat body record.
- **Consumer** (`lib/MQConsumer.js`): a class with `pendingCount` (the number of in-flight messages), `startedAt` (the running flag), an event log and a log of `logger.error` calls.

JavaScript runs one thread, so each synchronous stretch of `subscribe` is one method. These are:

- the start of `subscribe`;
- the delivery of a pulled batch;
- the end of one message's handling;
- `safeClose`;
- the handling of a pull's result.

A bounded driver (`Subscribe`) runs the loop over a given interleaving of these steps.

The model has the following modules:

- `Wrappers`: Option and Result.
- `Strings`: `indexOf`, `split`, `join`, `includes`, `${n}` and `parseInt`.
- `Dict`: an insertion-ordered JavaScript object, as a sequence of pairs.
- One module per source concern:
  - `HelperXml`, `HelperExtract`, `HelperHeaders` and `HelperProperties`, from `lib/helper.js`;
  - `Properties`, from `lib/MessageProperties.js`;
  - `Client`, from `lib/client.js`;
  - `Producer`, from `lib/MQProducer.js`;
  - `TransProducer`, from `lib/MQTransProducer.js`;
  - `Consumer`, from `lib/MQConsumer.js`.
- `Resource`: the `/topics/<topic>/messages?...` path grammar that every path-building template literal is proved equal to.

Values follow JavaScript:

- A string that only matters for its truthiness (instance id, tag, topic, security token) is `""` when falsy.
- `undefined` is `None`.
- Integers are unbounded. `NaN` is a separate `JsNumber` case.
- The HMAC-SHA1, MD5 and base64 functions are a record of function values (`Crypto`) passed in.
- The date (`new Date().toGMTString()`) and the clock (`Date.now()`) are parameters.
- The tree returned by xml2js is an input datatype.
- A request is returned as an `HttpRequest` value: verb, URL, headers and body. The reply comes back as a parameter.

## Model

| member | source | states |
|---|---|---|
| Strings.IndexOfChar | lib/MessageProperties.js:3-6 | `indexOf` of one character: -1 exactly when absent, otherwise the first position holding it |
| Strings.Includes | lib/MQConsumer.js:223 | `includes` holds exactly when the text occurs at some position |
| Strings.Split | lib/helper.js:73 | `split` gives pieces free of the separator that join back to the input |
| Strings.SplitJoin | lib/helper.js:73 | splitting a join of separator-free pieces gives the pieces back |
| Strings.IntToString | lib/MessageProperties.js:46-73 | `${n}` of an integer is a non-empty string of digits with an optional leading `-` |
| Strings.ParseIntOfIntToString | lib/helper.js:91 | `parseInt(`${n}`, 10)` gives `n` back for every integer |
| Dict.Set | lib/helper.js:79 | assigning a key keeps its position if it was present and appends it otherwise; the other keys keep their values |
| Dict.Without | lib/helper.js:83-101 | deleting a set of keys keeps, in order, only entries of the dictionary whose key is not deleted (that every other key still reads as before is `Dict.GetWithout`) |
| Dict.GetWithout | lib/helper.js:86 | reading a deleted key gives undefined; every other key reads as before |
| HelperXml.Format | lib/helper.js:29-44 | the loop builds exactly `Formatted`: a string is itself, an object is `<k>v</k>` for each key in order, recursing into objects |
| HelperXml.ToXMLBuffer | lib/helper.js:46-60 | the loop builds the declaration, the namespaced root element, each array item wrapped in the sub-element, and the closing tag |
| HelperXml.TextFields | lib/MQProducer.js:66-77 | a record of strings becomes the object parameter with the same keys and values in order |
| HelperXml.FormattedTextFields | lib/helper.js:34-43 | formatting a record of strings is the concatenation of its `<k>v</k>` elements |
| HelperXml.ItemsAsFields | lib/helper.js:49-54 | an array of strings is formatted like a record whose every key is the sub-element name |
| HelperXml.NoTagReadable | lib/helper.js:40 | a value without `<` cannot contain the closing tag of its element |
| HelperXml.ReadElementsOfElements | lib/helper.js:34-43 | reading back a sequence of `<k>v</k>` elements recovers the record when no value holds its own closing tag |
| HelperXml.DocumentOfFieldsReadsBack | lib/helper.js:46-60 | a document built from a record of strings reads back to that record |
| HelperXml.DocumentOfItemsReadsBack | lib/helper.js:49-54 | a document built from an array of strings reads back to one sub-element per item, in order |
| HelperExtract.ExtractObject | lib/helper.js:20-24 | an object item keeps its keys in order; an array item is indexed by position; a string item gives one entry per character |
| HelperExtract.ExtractEach | lib/helper.js:20 | mapping the items keeps the array's length |
| HelperExtract.ExtractEmbed | lib/helper.js:15-25 | `extract` inverts the xml2js shape: every extracted value, put back into xml2js form, extracts to itself |
| HelperExtract.ExtractKeepsShape | lib/helper.js:15-25 | any array other than a one-string array extracts to a list of the same length whose object items keep their keys |
| HelperExtract.ExtractEachAt | lib/helper.js:20-24 | the i-th extracted object is the extraction of the i-th item |
| HelperHeaders.MQKeys | lib/helper.js:63-64 | the filter keeps exactly the keys that start with `x-mq-` |
| HelperHeaders.SortStrings | lib/helper.js:65 | the sort is a permutation and is ascending |
| HelperHeaders.SortedUnique | lib/helper.js:65 | two ascending permutations of the same keys are equal, so the sorted order is unique |
| HelperHeaders.HeaderLines | lib/helper.js:66 | one `key:value\n` line per key, in the order given |
| HelperHeaders.CanonicalizedMQHeaders | lib/helper.js:62-68 | the result is empty exactly when no key starts with `x-mq-` |
| HelperHeaders.CanonicalizedMQHeadersLines | lib/helper.js:62-68 | the result is the lines of the `x-mq-` keys in ascending order, each holding its value |
| HelperHeaders.CanonicalizedMQHeadersIgnoresOthers | lib/helper.js:63-64 | adding a header that is not `x-mq-` leaves the canonical block unchanged |
| HelperHeaders.SortedMQKeys | lib/helper.js:63-65 | every sorted key is an `x-mq-` key of the headers, and there are none exactly when no header is one |
| HelperProperties.SegmentPair | lib/helper.js:74-81 | a kept segment has a non-empty value, and neither its key nor its value contains `:` |
| HelperProperties.PropertyEntries | lib/helper.js:73-82 | the reduced map has unique keys and no empty value |
| HelperProperties.PropertyEntriesLastWins | lib/helper.js:79 | the value of a key is that of its last kept segment |
| HelperProperties.PropertyEntriesAbsent | lib/helper.js:74-81 | a key that no kept segment assigns is absent |
| HelperProperties.PropertyEntriesFromSegments | lib/helper.js:73-82 | every key and value of the result comes from a kept segment |
| HelperProperties.CustomProperties | lib/helper.js:83-101 | the returned map never holds `KEYS`, `__STARTDELIVERTIME` or `__TransCheckT`, and holds every other parsed key with its value |
| HelperProperties.PulledMessage.ParseProperties | lib/helper.js:70-104 | no or empty `Properties` gives `{}`; a non-string `Properties` fails; otherwise it gives the parsed map without the three markers, copies `KEYS` to `MessageKey`, and sets `StartDeliverTime` to the parsed `__TransCheckT` if present, else to the parsed `__STARTDELIVERTIME` |
| HelperProperties.PulledMessage.TakeMessageKey | lib/helper.js:83-87 | `KEYS`, when present, moves to the message key and is removed |
| HelperProperties.PulledMessage.TakeDeliverTime | lib/helper.js:89-101 | a time marker, when present, is parsed into the delivery time and removed |
| Properties.Check | lib/MessageProperties.js:2-9 | passes exactly when none of `' " & < > \| :` occurs, and otherwise fails naming the string |
| Properties.Put | lib/MessageProperties.js:82-93 | a null or empty key or value leaves the map unchanged; otherwise it is set exactly when both pass `check`, and the error names the key before the value |
| Properties.PutValid | lib/MessageProperties.js:88-91 | `putProperty` keeps every custom entry non-empty and free of forbidden characters |
| Properties.PutAllValid | lib/MessageProperties.js:22-26 | so does the constructor's loop over the entries |
| Properties.PutAllErr | lib/MessageProperties.js:23-25 | the first entry that throws ends the constructor with that error |
| Properties.IntToStringAllowed | lib/MessageProperties.js:60 | `${n}` of a time never contains a forbidden character and is never empty |
| Properties.MessageProperties.New | lib/MessageProperties.js:14-27 | the map is the time markers (only for truthy times) followed by the entries put in order, or the first `check` error |
| Properties.MessageProperties.GetProperties | lib/MessageProperties.js:34-36 | returns the current map |
| Properties.MessageProperties.MessageKey | lib/MessageProperties.js:42-47 | null leaves the map unchanged; otherwise `KEYS` is set to the key, unchecked |
| Properties.MessageProperties.StartDeliverTime | lib/MessageProperties.js:55-61 | null leaves the map unchanged; otherwise `__STARTDELIVERTIME` is set to `${timeMillis}` |
| Properties.MessageProperties.TransCheckImmunityTime | lib/MessageProperties.js:68-74 | null leaves the map unchanged; otherwise `__TransCheckT` is set to `${timeSeconds}` |
| Properties.MessageProperties.PutProperty | lib/MessageProperties.js:82-93 | the new map is `Put` of the old one, and a throw leaves the map unchanged |
| Resource.AppendParam | lib/MQConsumer.js:102-105 | appending `&k=v` to a path with a query adds the parameter last |
| Resource.GroupPath | lib/MQConsumer.js:40 | the ack path carries `consumer`, then `ns` only for a truthy instance id |
| Resource.PullUrlQuery | lib/MQConsumer.js:102-105 | the pull URL is the path's parameters, then `numOfMessages`, then `waitseconds` only for a non-zero wait |
| Client.NewClient | lib/client.js:37-54 | construction fails exactly when the endpoint, access key id or secret is falsy, in that order; without options the settings are the defaults |
| Client.MergeNothing | lib/client.js:47-53 | merging no options changes nothing, and merging the same options twice is merging them once |
| Client.MergeOverrides | lib/client.js:47-53 | key by key, a caller option that is given replaces the default, and one that is not given leaves the default |
| Client.MergeLayered | lib/MQConsumer.js:157-159 | spreading `subscribe`'s options over the client's options, which were spread over the defaults, is one merge of the combined options |
| Client.StringToSignLines | lib/client.js:192-198 | the string to sign splits into the method, md5, type and date lines followed by the canonical headers and resource |
| Client.SignIgnoresUnsigned | lib/client.js:231-237 | a header outside the signed set does not change the string to sign |
| Client.ByteLength | lib/client.js:226 | `content-length` is the UTF-8 byte length: at least the character count, at most four times it, equal for ASCII |
| Client.BuildHeaders | lib/client.js:214-240 | the header record built in place is `Headers` |
| Client.HeadersKeys | lib/client.js:217-237 | the keys in order: `date`, `x-mq-version`, `content-type`, `user-agent`, then `content-length` and `content-md5` except for GET and HEAD, then `authorization`, then `security-token` only for a truthy token; all distinct |
| Client.SignedHeadersRead | lib/client.js:217-229 | the signed headers carry the date, version, content type, and the body's length and MD5 exactly for methods with a body |
| Client.SignedCanonicalHeaders | lib/client.js:193 | the only `x-mq-` header signed is the API version |
| Client.SignedString | lib/client.js:192-198 | the signed string is the method, the MD5 or nothing, the content type, the date, the version line and the resource |
| Client.HeadersAuthorization | lib/client.js:231-237 | `authorization` is `MQ id:signature` of the final headers' string to sign; `security-token` is present exactly for a truthy token |
| Client.Send | lib/client.js:73-84 | the request goes to endpoint plus resource, with the call's method and body and the built headers |
| Client.ErrorElement | lib/client.js:98 | the error branch is taken exactly for a truthy `Error` element |
| Client.ExtractMember | lib/client.js:99-103 | a member is extracted when present and extractable, and a TypeError otherwise |
| Client.ErrorOf | lib/client.js:98-108 | the thrown error carries the extracted `Code`, `RequestId` and message text, or is a TypeError when one of them cannot be extracted |
| Client.Children | lib/client.js:112 | `Object.keys` of an object element is its entries in order |
| Client.ResponseBody | lib/client.js:111-116 | the loop builds exactly `BodyOf` the root's children |
| Client.Receive | lib/client.js:88-123 | non-XML or empty text gives no body; a parse failure rejects; a truthy `Error` throws the service error; a missing root element is a TypeError; otherwise the body |
| Client.BodyOfOk | lib/client.js:111-116 | the body exists exactly when every child other than `$` extracts |
| Client.BodyOfKeys | lib/client.js:113 | `$` and keys that are not children are absent from the body |
| Client.BodyOfChild | lib/client.js:112-116 | a child that is the last of its key is in the body with its extracted value |
| Client.BodyOfEmbedded | lib/client.js:111-116 | a body put into xml2js form reads back unchanged |
| Client.UnwrapErrors | lib/MQConsumer.js:146-150 | the code and request id pass through; a body is replaced by its `Error` entry; no body stays absent |
| Client.UnwrapReply | lib/MQTransProducer.js:184-188 | an operation reply's unwrapped body is the `Error` entry of the document sent |
| Producer.TopicPath | lib/MQProducer.js:26-30 | `/topics/T/messages?ns=I` for a truthy instance id, else `/topics/T/messages` |
| Producer.PropertyPieces | lib/MQProducer.js:74-75 | one `k:v` piece per property, in key order |
| Producer.MessageFields | lib/MQProducer.js:66-77 | the keys are `MessageBody`, then `MessageTag` exactly for a truthy tag, then `Properties` exactly when there are properties, with the joined string as its value |
| Producer.MessageParams | lib/MQProducer.js:66-77 | the record filled in place is `MessageFields` |
| Producer.SegmentOfPiece | lib/helper.js:77-80 | parsing one `k:v` piece of separator-free non-empty strings gives that pair |
| Producer.PiecesEntries | lib/helper.js:73-82 | parsing the pieces of a map with unique keys rebuilds it prefix by prefix |
| Producer.PropertiesRoundTrip | lib/MQProducer.js:74-75 | parsing the joined property string gives the map back when no key or value holds `:` or `\|` |
| Producer.PublishableEntries | lib/MessageProperties.js:88-91 | every entry of a map built by the property builder can be encoded |
| Producer.PublishedPropertiesReadBack | lib/helper.js:73-101 | the published property string of a built map parses back to the map, and to the map without the markers once they are removed |
| Producer.PropertiesStringNoTag | lib/MessageProperties.js:2-9 | the property string of a built map contains no `<`, so it cannot break its XML element |
| Producer.MessageDocumentReadsBack | lib/MQProducer.js:66-81 | the posted document reads back to the record, and its `Properties` element decodes to the map |
| Producer.MQProducer.New | lib/MQProducer.js:20-31 | construction fails on a missing client, then on a falsy topic; otherwise it sets the path |
| Producer.MQProducer.PublishMessage | lib/MQProducer.js:65-83 | a POST to the path of the `Message` document of the CDATA-wrapped body, the tag and the joined properties, signed |
| Producer.MQProducer.SendMsg | lib/MQProducer.js:85-92 | properties given as an init record are built first, and the first `check` error aborts; otherwise the request is `publishMessage`'s: a POST to the path, with the signed headers of that body |
| Producer.PutAllChecked | lib/MessageProperties.js:22-26 | the constructor's entries keep every entry encodable |
| Producer.InitialisedPublishable | lib/MessageProperties.js:14-27 | a constructed property map is publishable |
| Producer.SentPropertiesReadBack | lib/MQProducer.js:86 | the properties `sendMsg` sends parse back to the map its builder made |
| Producer.SendResult | lib/MQProducer.js:87-91 | fails unless the reply has code 201 and a body; then gives `MessageId` and `MessageBodyMD5` |
| Producer.SendResultOfReply | lib/MQProducer.js:87-91 | a 201 reply whose body holds the two entries gives them back |
| TransProducer.TransPopPath | lib/MQTransProducer.js:29-37 | the pop path carries `consumer`, then `ns` only for a truthy instance id, then `trans=pop` |
| TransProducer.OperationPath | lib/MQTransProducer.js:182 | the operation path with `&trans=op` adds `trans` after `consumer` and `ns` |
| TransProducer.HandleDocumentReadsBack | lib/MQTransProducer.js:181 | the commit and rollback body names exactly the one handle |
| TransProducer.MQTransProducer.New | lib/MQTransProducer.js:21-38 | construction fails on a missing client, then a falsy topic, then a falsy group; otherwise it derives the three paths |
| TransProducer.MQTransProducer.PublishMessage | lib/MQTransProducer.js:74-90 | as the producer's request, but the body is posted without CDATA |
| TransProducer.MQTransProducer.ConsumeHalfMessage | lib/MQTransProducer.js:138-145 | a GET of the pop path's parameters, then `numOfMessages`, then `waitseconds` only for a non-zero wait, sent with the signed headers of a GET with an empty body at that resource |
| TransProducer.MQTransProducer.Operate | lib/MQTransProducer.js:180-182 | a DELETE of the one-handle document at the operation path with `trans` set to the operation, sent with the signed headers of that verb, body and resource |
| TransProducer.MQTransProducer.Commit | lib/MQTransProducer.js:180-182 | a DELETE of the one-handle document at the path with `consumer`, `ns` and `trans=commit`, with the signed headers of that request |
| TransProducer.MQTransProducer.Rollback | lib/MQTransProducer.js:218-220 | the same request with `trans=rollback`, with the signed headers of that request |
| Consumer.PullPathQuery | lib/MQConsumer.js:34-47 | the pull path carries `consumer`, then `ns` only for a truthy instance id, then `tag` only for a truthy tag |
| Consumer.PullPathIsAckPathWithTag | lib/MQConsumer.js:34-48 | the pull path is the ack path plus the tag parameter for a truthy tag; the ack path never has a tag |
| Consumer.PullUrlParams | lib/MQConsumer.js:102-105 | the pull URL's parameters: the path's, `numOfMessages`, then `waitseconds` only for a non-zero wait |
| Consumer.WaitSeconds | lib/MQConsumer.js:160 | the floor of `pullInterval / 1000`; it is 0, so the wait is omitted, exactly for an interval in [0, 1000) |
| Consumer.DecodeMessage | lib/MQConsumer.js:110-113 | a message keeps its fields; decoding fails exactly for an array `Properties`; reserved keys never appear; the others and `KEYS` are read from the string |
| Consumer.DecodeStartDeliverTime | lib/helper.js:89-101 | the start delivery time is parsed from `__TransCheckT` when the string has it, which wins over `__STARTDELIVERTIME`; it is absent when the string has neither, or is missing or empty |
| Consumer.DecodeAllEach | lib/MQConsumer.js:110-113 | each decoded message is the decoding of its own object |
| Consumer.DecodeAllFails | lib/MQConsumer.js:110-113 | decoding the batch fails exactly when one message fails |
| Consumer.DecodeMessages | lib/MQConsumer.js:110-113 | the loop decodes each message with `parseProperties`, and the first failure ends it |
| Consumer.ReplyOutcome | lib/MQConsumer.js:108-114 | a rejection keeps only its `Code`; a reply delivers exactly when its body has a `Message` list that decodes, with the same code |
| Consumer.ConsumeReply | lib/MQConsumer.js:108-113 | computes `ReplyOutcome` by the decoding loop; `consumeHalfMessage` runs the same loop (`lib/MQTransProducer.js`, lines 145-151) |
| Consumer.ReplyDeliversEveryMessage | lib/MQConsumer.js:108-114 | a reply listing decodable messages delivers one message per object, with its fields |
| Consumer.AckDocumentReadsBack | lib/MQConsumer.js:143 | the ack body for one handle names exactly that handle |
| Consumer.MQConsumer.New | lib/MQConsumer.js:24-49 | construction fails on a missing client, then a falsy topic, then a falsy consumer; otherwise it starts with nothing in flight |
| Consumer.MQConsumer.ConsumeMessage | lib/MQConsumer.js:101-108 | a GET of the pull path with `numOfMessages` and, for a non-zero wait, `waitseconds`, sent with the signed headers of a GET with an empty body at that resource |
| Consumer.MQConsumer.AckMessage | lib/MQConsumer.js:142-144 | a DELETE at the ack path of the document listing the handles, sent with the signed headers of that verb, body and resource |
| Consumer.MQConsumer.AckCall | lib/MQConsumer.js:201 | a message's ack is `ackMessage([ReceiptHandle])`, and there is none when the handle is missing |
| Consumer.MQConsumer.BeginSubscribe | lib/MQConsumer.js:156-162 | the count becomes 0, the settings are the merged options, the wait is the floor of the interval in seconds, and the running flag is the start time |
| Consumer.MQConsumer.Deliver | lib/MQConsumer.js:181-182 | every delivered message raises the count exactly once and starts one handler |
| Consumer.MQConsumer.Finish | lib/MQConsumer.js:186-217 | no ack after a throwing handler; otherwise an ack of the one handle, with `ackFailed` exactly when it throws or does not answer 204; the count drops once, and `done` fires, resolving waiting closes, exactly when it reaches 0 |
| Consumer.MQConsumer.SafeClose | lib/MQConsumer.js:230-241 | clears the running flag; resolves at once exactly when the count is 0, and otherwise waits for the next `done` |
| Consumer.MQConsumer.HandlePull | lib/MQConsumer.js:180-225 | a 200 reply delivers; any other code is logged; a rejection is logged unless its `Code` includes `MessageNotExist`; only a delivery changes the count |
| Consumer.MQConsumer.RunSteps | lib/MQConsumer.js:214-217 | the count only goes down while a pull waits, in step with the handlers ending; the running flag is cleared exactly when some step is a close, and is otherwise unchanged |
| Consumer.CheckedBatch | lib/MQConsumer.js:171-173 | the checked batch size is the smaller of the free count and `pullBatchSize` |
| Consumer.PullCallsEach | lib/MQConsumer.js:176-179 | the list of pull requests holds, at each position, the `consumeMessage` GET for that round's size and the fixed wait |
| Consumer.MQConsumer.PullRound | lib/MQConsumer.js:174-226 | one pull: the waits, then the reply's outcome handled; the running flag ends cleared exactly when a wait closed or the round's callbacks closed after a delivery |
| Consumer.MQConsumer.Poll | lib/MQConsumer.js:165-226 | one round, for a service whose reply to it holds at most the messages asked for (a precondition of every clause here) and a count within the threshold: `freeCount` is the threshold minus the count; a pull of the checked batch happens exactly when it is positive; the count stays within the threshold |
| Consumer.MQConsumer.PullLoop | lib/MQConsumer.js:164-227 | the loop from a set running flag, under the same precondition on replies: the same properties as `Subscribe`, for a given threshold and batch size |
| Consumer.MQConsumer.Subscribe | lib/MQConsumer.js:154-227 | every clause holds for a service whose replies hold at most the messages asked for (a precondition of the whole method): round `i` pulls exactly when its free count (threshold minus count, the first one the whole threshold) is positive, asking for min(free count, `pullBatchSize`) with the fixed wait; `FlowControlled` means the last free count was not positive, `OutOfSteps` that every given round pulled, `Closed` that the running flag is cleared, and then the last round closed while waiting or in its callbacks while no earlier round closed; the count stays at or below the threshold; started with no handler running, it never goes negative. A second `subscribe` while handlers still run resets the count to 0 (lib/MQConsumer.js:156), and their decrements can then drive it below zero, so no bound from below is stated for that case |
| Consumer.MQConsumer.SubscribeOneDefaultRound | lib/MQConsumer.js:164-173 | under the default options one quiet round pulls exactly once, a full batch of 16, and the loop is still running |
| Consumer.MQConsumer.SubscribeWithoutRoom | lib/MQConsumer.js:164-170 | with a threshold of 0 the loop returns under flow control before any pull |

## Left out

- HTTP transport is not modelled: the `httpx` request and read, the timeouts and the DNS cache are network I/O. A request is returned as a value, and the reply is a parameter.
- HMAC-SHA1, MD5 and base64 are opaque functions supplied in `Crypto`. `Buffer.from(..., 'utf8')` is modelled only through the byte length it gives `content-length`.
- `parseXML` and xml2js are not modelled. Their output tree is an input datatype, and a parse failure is an input error.
- The date header and `Date.now()` are parameters.
- EventEmitter, `process.nextTick`, `sleep` and the logger are not modelled: events and log calls are appended to sequences.
- The per-message callbacks are not run concurrently. `Subscribe` takes an interleaving of handler ends and closes per pull (`Round`). A handler that throws before its first `await` is treated as one that ends later.
- A `safeClose` that a callback calls before its first `await` is modelled as one close just after the batch's last message is counted (a round with `closeInCallback`, and only when the pull delivered at least one message). That is the next point at which the loop tests the flag, so the round order is the same; the flag is cleared in the middle of the batch in the library, but nothing in between reads it.
- String order: `LessEq` compares characters by code point. `Array.prototype.sort` compares UTF-16 code units, so two keys that differ at a character above U+FFFF can sort differently.
- Consumer.MQConsumer.Subscribe, Consumer.MQConsumer.PullLoop, Consumer.MQConsumer.Poll: proved only for a service whose pull replies hold at most `numOfMessages` messages. This is a precondition of the whole contract, so the pull rule, the stop reasons and the close semantics are not promised for a service that returns more.
- Consumer.MQConsumer.Subscribe: runs at most as many rounds as the interleaving provides and then stops with `OutOfSteps`, so it does not model a loop that never ends.
- Consumer.MQConsumer.Subscribe: takes the `onMsg` callback's effect only through the outcomes in the interleaving; the assertion that `onMsg` is given is not modelled.
- The `freeCount <= 0` branch of `subscribe` sleeps once and then returns, which ends the loop. The library's own comments and option name describe a delay followed by another pull; the model follows the code.
- Consumer.MQConsumer.AckCall: a `ReceiptHandle` given as nested elements (not a string) is treated like a missing handle. In the library such a handle would be formatted into the ack body.
- Message keys are set without `check` (`lib/MessageProperties.js:42-47`), so a key containing `:` or `|` does not round-trip through the property string. The round-trip lemmas require such keys to be free of separators (`Publishable`).
- Producer.MQProducer.SendMsg: the properties are taken as the record `new MessageProperties` is built from. Passing an existing `MessageProperties` instance (whose own fields would be read as that record) is not modelled.
- Object key order is insertion order. JavaScript orders integer-like keys first; this is not modelled.
- Numbers are integers, plus `NaN` from `parseInt`. Floating point and the string forms of non-integers are not modelled.
- `getConsumer`, `getProducer` and `getTransProducer` (`lib/client.js:251-279`) only call the constructors, which are modelled.
- The `opts` argument of `request` (timeouts and extra headers) is not modelled.

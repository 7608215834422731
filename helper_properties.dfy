/**
 * `parseProperties` in lib/helper.js: decodes the `k:v|k:v` property string of a
 * pulled message, moves the message key and the delivery time onto the message and
 * returns the remaining user properties.
 */
module HelperProperties {
  import opened Wrappers
  import opened Strings
  import opened Dict
  import opened HelperExtract

  /** The property names the library reserves for itself. */
  const KeysProperty := "KEYS"
  const StartDeliverTimeProperty := "__STARTDELIVERTIME"
  const TransCheckProperty := "__TransCheckT"
  const ReservedKeys: set<string> := {KeysProperty, StartDeliverTimeProperty, TransCheckProperty}

  /**
   * What one `|`-separated segment contributes: its first `:`-field as key and its second
   * as value, or nothing when the segment is empty or the second field is empty or missing.
   */
  function SegmentPair(kv: string): (r: Option<(string, string)>)
    ensures r.Some? ==> r.value.1 != "" && ':' !in r.value.0 && ':' !in r.value.1
  {
    if kv == "" then None
    else
      var fields := Split(kv, ':');
      if |fields| >= 2 && fields[1] != "" then Some((fields[0], fields[1])) else None
  }

  /** The `reduce` over the segments, each kept pair assigned into the accumulated object. */
  function PropertyEntries(segments: seq<string>): (r: Dict<string>)
    ensures UniqueKeys(r)
    ensures NonEmptyValues(r)
  {
    if |segments| == 0 then []
    else
      var ret := PropertyEntries(segments[..|segments| - 1]);
      match SegmentPair(segments[|segments| - 1])
      case None => ret
      case Some((k, v)) =>
        SetUniqueKeys(ret, k, v);
        SetEntries(ret, k, v);
        Set(ret, k, v)
  }

  /** Every value is a non-empty string, so a present key is also truthy. */
  ghost predicate NonEmptyValues(d: Dict<string>)
  {
    forall i :: 0 <= i < |d| ==> d[i].1 != ""
  }

  lemma NonEmptyGet(d: Dict<string>, k: string)
    requires NonEmptyValues(d)
    ensures Get(d, k).Some? ==> Get(d, k).value != ""
  {
    if Get(d, k).Some? {
      GetKeys(d, k);
      var i :| 0 <= i < |d| && d[i] == (k, Get(d, k).value);
    }
  }

  lemma NonEmptyRemove(d: Dict<string>, k: string)
    requires NonEmptyValues(d)
    ensures NonEmptyValues(Remove(d, k))
  {
  }

  /** All pairs of the property string `s`, reserved ones included. */
  function PropertyMap(s: string): Dict<string>
  {
    PropertyEntries(Split(s, '|'))
  }

  /** The user properties `parseProperties` returns for the property string `s`. */
  function CustomProperties(s: string): (r: Dict<string>)
    ensures forall k :: k in ReservedKeys ==> Get(r, k) == None
    ensures forall k :: k !in ReservedKeys ==> Get(r, k) == Get(PropertyMap(s), k)
  {
    var r := Without(PropertyMap(s), ReservedKeys);
    forall k ensures Get(r, k) == if k in ReservedKeys then None else Get(PropertyMap(s), k) {
      GetWithout(PropertyMap(s), ReservedKeys, k);
    }
    r
  }

  /** Segment `i` assigns key `k`. */
  ghost predicate AssignsKey(segments: seq<string>, i: int, k: string)
    requires 0 <= i < |segments|
  {
    SegmentPair(segments[i]).Some? && SegmentPair(segments[i]).value.0 == k
  }

  /**
   * Independent of the fold: a key is absent when no segment assigns it, and otherwise
   * has the value of the last segment that does.
   */
  lemma {:induction false} PropertyEntriesLastWins(segments: seq<string>, k: string, i: int)
    requires 0 <= i < |segments| && AssignsKey(segments, i, k)
    requires forall j :: i < j < |segments| ==> !AssignsKey(segments, j, k)
    ensures Get(PropertyEntries(segments), k) == Some(SegmentPair(segments[i]).value.1)
    decreases |segments|
  {
    var n := |segments| - 1;
    var prefix := segments[..n];
    if i < n {
      assert !AssignsKey(segments, n, k);
      forall j | i < j < |prefix| ensures !AssignsKey(prefix, j, k) {
        assert prefix[j] == segments[j] && !AssignsKey(segments, j, k);
      }
      assert prefix[i] == segments[i];
      PropertyEntriesLastWins(prefix, k, i);
    }
  }

  lemma {:induction false} PropertyEntriesAbsent(segments: seq<string>, k: string)
    requires forall j :: 0 <= j < |segments| ==> !AssignsKey(segments, j, k)
    ensures Get(PropertyEntries(segments), k) == None
    decreases |segments|
  {
    if |segments| > 0 {
      var n := |segments| - 1;
      var prefix := segments[..n];
      assert !AssignsKey(segments, n, k);
      forall j | 0 <= j < |prefix| ensures !AssignsKey(prefix, j, k) {
        assert prefix[j] == segments[j] && !AssignsKey(segments, j, k);
      }
      PropertyEntriesAbsent(prefix, k);
    }
  }

  /** Every pair in the result comes from some segment. */
  lemma {:induction false} PropertyEntriesFromSegments(segments: seq<string>, k: string)
    requires Get(PropertyEntries(segments), k).Some?
    ensures exists i :: 0 <= i < |segments| && SegmentPair(segments[i]) == Some((k, Get(PropertyEntries(segments), k).value))
    decreases |segments|
  {
    var n := |segments| - 1;
    var prefix := segments[..n];
    var pair := SegmentPair(segments[n]);
    if pair.Some? && pair.value.0 == k {
    } else {
      assert Get(PropertyEntries(segments), k) == Get(PropertyEntries(prefix), k);
      PropertyEntriesFromSegments(prefix, k);
      var i :| 0 <= i < |prefix| && SegmentPair(prefix[i]) == Some((k, Get(PropertyEntries(prefix), k).value));
      assert prefix[i] == segments[i];
    }
  }

  lemma ReservedDistinct()
    ensures KeysProperty != StartDeliverTimeProperty && KeysProperty != TransCheckProperty
    ensures StartDeliverTimeProperty != TransCheckProperty
  {
    assert |KeysProperty| == 4 && |StartDeliverTimeProperty| == 18 && |TransCheckProperty| == 13;
  }

  /** Deleting the three reserved keys one after another leaves the user properties. */
  lemma RemoveReserved(d: Dict<string>)
    ensures Remove(Remove(Remove(d, KeysProperty), StartDeliverTimeProperty), TransCheckProperty)
      == Without(d, ReservedKeys)
  {
    var none: set<string> := {};
    var one := none + {KeysProperty};
    var two := one + {StartDeliverTimeProperty};
    WithoutNothing(d);
    RemoveWithout(d, none, KeysProperty);
    RemoveWithout(d, one, StartDeliverTimeProperty);
    RemoveWithout(d, two, TransCheckProperty);
    assert two + {TransCheckProperty} == ReservedKeys;
  }

  /** Why reading `msg.Properties` can fail: an element with children has no `split`. */
  datatype PropertiesError = NotAString

  /** The fields of a pulled message that `parseProperties` reads and writes. */
  class PulledMessage {
    /** `msg.Properties` as `extract` returned it; `None` when the element is missing. */
    var properties: Option<Extracted>
    /** `msg.MessageKey`. */
    var messageKey: Option<string>
    /** `msg.StartDeliverTime`. */
    var startDeliverTime: Option<JsNumber>

    constructor (properties: Option<Extracted>, messageKey: Option<string>, startDeliverTime: Option<JsNumber>)
      ensures this.properties == properties
      ensures this.messageKey == messageKey
      ensures this.startDeliverTime == startDeliverTime
    {
      this.properties := properties;
      this.messageKey := messageKey;
      this.startDeliverTime := startDeliverTime;
    }

    /**
     * `parseProperties(msg)`. A missing or empty `Properties` gives no properties and
     * changes nothing; otherwise `KEYS` becomes the message key, `__STARTDELIVERTIME` and
     * then `__TransCheckT` (which therefore wins) become the delivery time, and those
     * three are removed from the properties returned.
     */
    method ParseProperties() returns (r: Result<Dict<string>, PropertiesError>)
      modifies this
      ensures properties == old(properties)
      ensures (old(properties).None? || old(properties) == Some(EText(""))) ==>
        r == Ok([]) && messageKey == old(messageKey) && startDeliverTime == old(startDeliverTime)
      ensures old(properties).Some? && old(properties).value.EList? ==>
        r == Err(NotAString) && messageKey == old(messageKey) && startDeliverTime == old(startDeliverTime)
      ensures old(properties).Some? && old(properties).value.EText? && old(properties).value.text != "" ==>
        var all := PropertyMap(old(properties).value.text);
        && r == Ok(Without(all, ReservedKeys))
        && messageKey == (if Get(all, KeysProperty).Some? then Get(all, KeysProperty) else old(messageKey))
        && startDeliverTime == (
             if Get(all, TransCheckProperty).Some? then Some(ParseInt(Get(all, TransCheckProperty).value))
             else if Get(all, StartDeliverTimeProperty).Some? then Some(ParseInt(Get(all, StartDeliverTimeProperty).value))
             else old(startDeliverTime))
    {
      if properties.None? || properties.value == EText("") {
        return Ok([]);
      }
      if properties.value.EList? {
        return Err(NotAString);
      }
      var all := PropertyMap(properties.value.text);
      ReservedDistinct();
      var props := TakeMessageKey(all);
      props := TakeDeliverTime(props, StartDeliverTimeProperty);
      props := TakeDeliverTime(props, TransCheckProperty);
      RemoveReserved(all);
      return Ok(props);
    }

    /** `if (props.KEYS) { msg.MessageKey = props.KEYS; delete props.KEYS }`. */
    method TakeMessageKey(props: Dict<string>) returns (rest: Dict<string>)
      requires NonEmptyValues(props)
      modifies this
      ensures rest == Remove(props, KeysProperty) && NonEmptyValues(rest)
      ensures messageKey == if Get(props, KeysProperty).Some? then Get(props, KeysProperty) else old(messageKey)
      ensures properties == old(properties) && startDeliverTime == old(startDeliverTime)
    {
      NonEmptyGet(props, KeysProperty);
      NonEmptyRemove(props, KeysProperty);
      var keys := Get(props, KeysProperty);
      rest := props;
      if keys.Some? && keys.value != "" {
        messageKey := keys;
        rest := Remove(rest, KeysProperty);
      } else {
        GetKeys(props, KeysProperty);
        RemoveAbsent(props, KeysProperty);
      }
    }

    /**
     * `if (props[marker]) { msg.StartDeliverTime = parseInt(props[marker], 10); delete props[marker] }`,
     * for the two time markers in turn.
     */
    method TakeDeliverTime(props: Dict<string>, marker: string) returns (rest: Dict<string>)
      requires NonEmptyValues(props)
      modifies this
      ensures rest == Remove(props, marker) && NonEmptyValues(rest)
      ensures startDeliverTime ==
        if Get(props, marker).Some? then Some(ParseInt(Get(props, marker).value)) else old(startDeliverTime)
      ensures properties == old(properties) && messageKey == old(messageKey)
    {
      NonEmptyGet(props, marker);
      NonEmptyRemove(props, marker);
      var time := Get(props, marker);
      rest := props;
      if time.Some? && time.value != "" {
        startDeliverTime := Some(ParseInt(time.value));
        rest := Remove(rest, marker);
      } else {
        GetKeys(props, marker);
        RemoveAbsent(props, marker);
      }
    }
  }
}

/**
 * `getCanonicalizedMQHeaders` in lib/helper.js: the `x-mq-` headers, sorted by key,
 * one `key:value` line each, as they enter the string to sign.
 */
module HelperHeaders {
  import opened Strings
  import opened Dict

  const MQHeaderPrefix := "x-mq-"

  predicate IsMQHeader(key: string)
  {
    StartsWith(key, MQHeaderPrefix)
  }

  /** `keys.filter(key => key.startsWith('x-mq-'))`. */
  function MQKeys(keys: seq<string>): (r: seq<string>)
    ensures forall k :: k in r <==> k in keys && IsMQHeader(k)
  {
    if |keys| == 0 then []
    else
      assert keys == [keys[0]] + keys[1..];
      if IsMQHeader(keys[0]) then [keys[0]] + MQKeys(keys[1..]) else MQKeys(keys[1..])
  }

  /** Ascending in `LessEq`, the model of `Array.prototype.sort`'s default string order. */
  ghost predicate Sorted(s: seq<string>)
  {
    forall i, j :: 0 <= i < j < |s| ==> LessEq(s[i], s[j])
  }

  /** Puts `x` into the sorted `s` before the first element it does not follow. */
  function Insert(x: string, s: seq<string>): (r: seq<string>)
    requires Sorted(s)
    ensures multiset(r) == multiset(s) + multiset{x}
    ensures Sorted(r)
  {
    if |s| == 0 then [x]
    else if LessEq(x, s[0]) then
      assert forall j :: 0 < j < |s| ==> LessEq(x, s[j]) by {
        forall j | 0 < j < |s| ensures LessEq(x, s[j]) { LessEqTransitive(x, s[0], s[j]); }
      }
      [x] + s
    else
      LessEqTotal(x, s[0]);
      assert s == [s[0]] + s[1..];
      var t := Insert(x, s[1..]);
      assert forall j :: 0 <= j < |t| ==> LessEq(s[0], t[j]) by {
        forall j | 0 <= j < |t| ensures LessEq(s[0], t[j]) {
          assert t[j] in multiset(t);
          if t[j] != x {
            assert t[j] in multiset(s[1..]);
            var k :| 0 <= k < |s[1..]| && s[1..][k] == t[j];
            assert s[k + 1] == t[j];
          }
        }
      }
      [s[0]] + t
  }

  /** `keys.sort()`. */
  function SortStrings(s: seq<string>): (r: seq<string>)
    ensures multiset(r) == multiset(s)
    ensures Sorted(r)
  {
    if |s| == 0 then []
    else
      assert s == [s[0]] + s[1..];
      Insert(s[0], SortStrings(s[1..]))
  }

  /** `${key}:${headers[key]}\n`. */
  function HeaderLine(key: string, value: string): string
  {
    key + ":" + value + "\n"
  }

  /** The lines for `keys`, in the order given. */
  function HeaderLines(headers: Dict<string>, keys: seq<string>): (r: seq<string>)
    requires forall i :: 0 <= i < |keys| ==> Get(headers, keys[i]).Some?
    ensures |r| == |keys|
    ensures forall i :: 0 <= i < |keys| ==> r[i] == HeaderLine(keys[i], Get(headers, keys[i]).value)
  {
    seq(|keys|, i requires 0 <= i < |keys| => HeaderLine(keys[i], Get(headers, keys[i]).value))
  }

  /** `getCanonicalizedMQHeaders(headers)`: empty exactly when there is no `x-mq-` header. */
  function CanonicalizedMQHeaders(headers: Dict<string>): (r: string)
    ensures r == "" <==> forall k :: k in Keys(headers) ==> !IsMQHeader(k)
  {
    var keys := SortStrings(MQKeys(Keys(headers)));
    SortedMQKeys(headers);
    var lines := HeaderLines(headers, keys);
    ConcatEmpty(lines);
    Concat(lines)
  }

  /** The sorted `x-mq-` keys are keys of `headers`, and there are none only when no key is one. */
  lemma SortedMQKeys(headers: Dict<string>)
    ensures forall i :: 0 <= i < |SortStrings(MQKeys(Keys(headers)))| ==>
      SortStrings(MQKeys(Keys(headers)))[i] in Keys(headers) && Get(headers, SortStrings(MQKeys(Keys(headers)))[i]).Some?
    ensures |SortStrings(MQKeys(Keys(headers)))| == 0 <==> forall k :: k in Keys(headers) ==> !IsMQHeader(k)
  {
    var filtered := MQKeys(Keys(headers));
    var keys := SortStrings(filtered);
    forall i | 0 <= i < |keys| ensures keys[i] in Keys(headers) && Get(headers, keys[i]).Some? {
      assert keys[i] in multiset(filtered);
      GetKeys(headers, keys[i]);
    }
    assert forall k :: k in Keys(headers) && IsMQHeader(k) ==> k in multiset(keys);
    if |keys| > 0 {
      assert keys[0] in multiset(filtered);
    }
  }

  /** A concatenation of lines that all end in a newline is empty only when there are none. */
  lemma {:induction false} ConcatEmpty(lines: seq<string>)
    requires forall i :: 0 <= i < |lines| ==> |lines[i]| > 0
    ensures Concat(lines) == "" <==> |lines| == 0
  {
    if |lines| > 0 {
      assert |Concat(lines)| >= |lines[0]|;
    }
  }

  /** Two ascending sequences holding the same strings are the same sequence. */
  lemma {:induction false} SortedUnique(a: seq<string>, b: seq<string>)
    requires Sorted(a) && Sorted(b) && multiset(a) == multiset(b)
    ensures a == b
    decreases |a|
  {
    if |a| == 0 {
      assert |b| == |multiset(b)| == 0;
    } else {
      SortedHeads(a, b);
      SortedTail(a);
      SortedTail(b);
      assert a == [a[0]] + a[1..] && b == [b[0]] + b[1..];
      assert multiset(a[1..]) == multiset(a) - multiset{a[0]};
      assert multiset(b[1..]) == multiset(b) - multiset{b[0]};
      SortedUnique(a[1..], b[1..]);
    }
  }

  lemma SortedHeads(a: seq<string>, b: seq<string>)
    requires Sorted(a) && Sorted(b) && multiset(a) == multiset(b) && |a| > 0
    ensures |b| > 0 && a[0] == b[0]
  {
    assert |b| == |multiset(b)| == |multiset(a)| == |a|;
    assert a[0] in multiset(b) && b[0] in multiset(a);
    var i :| 0 <= i < |b| && b[i] == a[0];
    var j :| 0 <= j < |a| && a[j] == b[0];
    LessEqReflexive(a[0]);
    assert LessEq(b[0], a[0]) by { if i > 0 { } }
    assert LessEq(a[0], b[0]) by { if j > 0 { } }
    LessEqAntisymmetric(a[0], b[0]);
  }

  lemma SortedTail(a: seq<string>)
    requires Sorted(a) && |a| > 0
    ensures Sorted(a[1..])
  {
    forall i, j | 0 <= i < j < |a[1..]| ensures LessEq(a[1..][i], a[1..][j]) {
      assert a[1..][i] == a[i + 1] && a[1..][j] == a[j + 1];
    }
  }

  /**
   * The canonical headers are the lines of the `x-mq-` keys, and of no other key, in
   * ascending key order, however those keys are arranged before sorting: any ascending
   * arrangement of exactly those keys gives the same text.
   */
  lemma CanonicalizedMQHeadersLines(headers: Dict<string>, keys: seq<string>)
    requires Sorted(keys)
    requires multiset(keys) == multiset(MQKeys(Keys(headers)))
    ensures forall i :: 0 <= i < |keys| ==> keys[i] in Keys(headers) && IsMQHeader(keys[i])
    ensures forall i :: 0 <= i < |keys| ==> Get(headers, keys[i]).Some?
    ensures CanonicalizedMQHeaders(headers) == Concat(HeaderLines(headers, keys))
  {
    forall i | 0 <= i < |keys| ensures keys[i] in Keys(headers) && IsMQHeader(keys[i]) && Get(headers, keys[i]).Some? {
      assert keys[i] in multiset(MQKeys(Keys(headers)));
      GetKeys(headers, keys[i]);
    }
    SortedUnique(keys, SortStrings(MQKeys(Keys(headers))));
  }

  /** Headers outside `x-mq-` do not affect the canonical form. */
  lemma CanonicalizedMQHeadersIgnoresOthers(headers: Dict<string>, key: string, value: string)
    requires !IsMQHeader(key)
    ensures CanonicalizedMQHeaders(headers + [(key, value)]) == CanonicalizedMQHeaders(headers)
  {
    var h := headers + [(key, value)];
    KeysSnoc(headers, (key, value));
    MQKeysAppendOther(Keys(headers), key);
    var keys := SortStrings(MQKeys(Keys(headers)));
    SortedMQKeys(headers);
    SortedMQKeys(h);
    forall i | 0 <= i < |keys| ensures Get(h, keys[i]) == Get(headers, keys[i]) {
      GetAppend(headers, key, value, keys[i]);
    }
    assert HeaderLines(h, keys) == HeaderLines(headers, keys);
  }

  lemma {:induction false} MQKeysAppendOther(keys: seq<string>, key: string)
    requires !IsMQHeader(key)
    ensures MQKeys(keys + [key]) == MQKeys(keys)
  {
    if |keys| > 0 {
      assert (keys + [key])[0] == keys[0];
      assert (keys + [key])[1..] == keys[1..] + [key];
      MQKeysAppendOther(keys[1..], key);
    } else {
      assert MQKeys([key]) == MQKeys([]);
    }
  }

  lemma {:induction false} GetAppend<V>(d: Dict<V>, key: string, value: V, k: string)
    requires k in Keys(d)
    ensures Get(d + [(key, value)], k) == Get(d, k)
  {
    if d[0].0 != k {
      assert (d + [(key, value)])[1..] == d[1..] + [(key, value)];
      assert Keys(d) == [d[0].0] + Keys(d[1..]);
      GetAppend(d[1..], key, value, k);
    }
  }
}

/**
 * A JavaScript plain object with string keys, as the library uses it: its own keys
 * in insertion order, each with one value. `Object.keys` gives `Keys`, `obj[k]`
 * gives `Get`, `obj[k] = v` gives `Set` and `delete obj[k]` gives `Remove`.
 */
module Dict {
  import opened Wrappers

  type Dict<V> = seq<(string, V)>

  /** `Object.keys(d)`. */
  function Keys<V>(d: Dict<V>): (ks: seq<string>)
    ensures |ks| == |d|
    ensures forall i :: 0 <= i < |d| ==> ks[i] == d[i].0
  {
    if |d| == 0 then [] else [d[0].0] + Keys(d[1..])
  }

  /** Every key occurs once, as in a JavaScript object. */
  ghost predicate UniqueKeys<V>(d: Dict<V>)
  {
    forall i, j :: 0 <= i < j < |d| ==> d[i].0 != d[j].0
  }

  /** `d[k]`, with `None` for `undefined`. */
  function Get<V>(d: Dict<V>, k: string): Option<V>
  {
    if |d| == 0 then None
    else if d[0].0 == k then Some(d[0].1)
    else Get(d[1..], k)
  }

  /** A key reads `undefined` exactly when it is not among the keys, and otherwise one of its entries. */
  lemma {:induction false} GetKeys<V>(d: Dict<V>, k: string)
    ensures Get(d, k).None? <==> k !in Keys(d)
    ensures Get(d, k).Some? ==> (k, Get(d, k).value) in d
  {
    if |d| > 0 {
      assert Keys(d) == [d[0].0] + Keys(d[1..]);
      if d[0].0 != k {
        GetKeys(d[1..], k);
        if Get(d, k).Some? {
          assert (k, Get(d, k).value) in d[1..];
        }
      }
    }
  }

  /** `d[k] = v`: an existing key keeps its place, a new key goes last (`SetKeys`). */
  function Set<V>(d: Dict<V>, k: string, v: V): (r: Dict<V>)
    ensures Get(r, k) == Some(v)
    ensures forall j :: j != k ==> Get(r, j) == Get(d, j)
  {
    if |d| == 0 then [(k, v)]
    else if d[0].0 == k then [(k, v)] + d[1..]
    else
      var t := Set(d[1..], k, v);
      var r := [d[0]] + t;
      assert r[1..] == t;
      assert forall j :: Get(r, j) == if d[0].0 == j then Some(d[0].1) else Get(t, j);
      assert forall j :: Get(d, j) == if d[0].0 == j then Some(d[0].1) else Get(d[1..], j);
      r
  }

  lemma {:induction false} SetKeys<V>(d: Dict<V>, k: string, v: V)
    ensures k in Keys(d) ==> Keys(Set(d, k, v)) == Keys(d)
    ensures k !in Keys(d) ==> Keys(Set(d, k, v)) == Keys(d) + [k]
  {
    if |d| > 0 {
      var t := d[1..];
      assert d == [d[0]] + t;
      KeysCons(d[0], t);
      if d[0].0 == k {
        assert Set(d, k, v) == [(k, v)] + t;
        KeysCons((k, v), t);
      } else {
        SetKeys(t, k, v);
        var st := Set(t, k, v);
        assert Set(d, k, v) == [d[0]] + st;
        KeysCons(d[0], st);
        assert k in Keys(d) <==> k in Keys(t);
      }
    }
  }

  lemma KeysSnoc<V>(d: Dict<V>, x: (string, V))
    ensures Keys(d + [x]) == Keys(d) + [x.0]
  {
  }

  lemma KeysCons<V>(x: (string, V), t: Dict<V>)
    ensures Keys([x] + t) == [x.0] + Keys(t)
  {
    assert ([x] + t)[1..] == t;
  }

  /** Every entry after `d[k] = v` is the new one or was already there. */
  lemma {:induction false} SetEntries<V>(d: Dict<V>, k: string, v: V)
    ensures forall i :: 0 <= i < |Set(d, k, v)| ==> Set(d, k, v)[i] == (k, v) || Set(d, k, v)[i] in d
  {
    if |d| > 0 && d[0].0 != k {
      SetEntries(d[1..], k, v);
      var t := Set(d[1..], k, v);
      assert Set(d, k, v) == [d[0]] + t;
      forall i | 0 < i < |Set(d, k, v)| ensures Set(d, k, v)[i] == (k, v) || Set(d, k, v)[i] in d {
        assert Set(d, k, v)[i] == t[i - 1];
        if t[i - 1] in d[1..] {
          var j :| 0 <= j < |d[1..]| && d[1..][j] == t[i - 1];
          assert d[j + 1] == t[i - 1];
        }
      }
    }
  }

  /** `delete d[k]`. */
  function Remove<V>(d: Dict<V>, k: string): (r: Dict<V>)
    ensures Get(r, k) == None
    ensures forall j :: j != k ==> Get(r, j) == Get(d, j)
    ensures forall i :: 0 <= i < |r| ==> r[i] in d
  {
    if |d| == 0 then []
    else if d[0].0 == k then Remove(d[1..], k)
    else
      var r := [d[0]] + Remove(d[1..], k);
      assert r[1..] == Remove(d[1..], k);
      assert Keys(r) == [d[0].0] + Keys(r[1..]);
      r
  }

  /** The entries of `d` whose key is not in `ks`, in order. */
  function Without<V>(d: Dict<V>, ks: set<string>): (r: Dict<V>)
    ensures forall i :: 0 <= i < |r| ==> r[i] in d && r[i].0 !in ks
  {
    if |d| == 0 then []
    else if d[0].0 in ks then Without(d[1..], ks)
    else [d[0]] + Without(d[1..], ks)
  }

  lemma {:induction false} SetUniqueKeys<V>(d: Dict<V>, k: string, v: V)
    requires UniqueKeys(d)
    ensures UniqueKeys(Set(d, k, v))
  {
    var r := Set(d, k, v);
    SetKeys(d, k, v);
    assert Keys(r) == Keys(d) || Keys(r) == Keys(d) + [k];
    forall i, j | 0 <= i < j < |r| ensures r[i].0 != r[j].0 {
      assert Keys(r)[i] == r[i].0 && Keys(r)[j] == r[j].0;
      if j == |d| {
        assert Keys(d)[i] == d[i].0;
      } else {
        assert Keys(d)[i] == d[i].0 && Keys(d)[j] == d[j].0;
      }
    }
  }

  lemma {:induction false} WithoutUniqueKeys<V>(d: Dict<V>, ks: set<string>)
    requires UniqueKeys(d)
    ensures UniqueKeys(Without(d, ks))
  {
    if |d| > 0 {
      WithoutUniqueKeys(d[1..], ks);
      var w := Without(d[1..], ks);
      forall i | 0 <= i < |w| ensures w[i].0 != d[0].0 {
        var j :| 0 <= j < |d[1..]| && d[1..][j] == w[i];
        assert d[j + 1] == w[i];
      }
    }
  }

  /** Removing one key after the others is removing them all at once. */
  lemma {:induction false} RemoveWithout<V>(d: Dict<V>, ks: set<string>, k: string)
    ensures Remove(Without(d, ks), k) == Without(d, ks + {k})
  {
    if |d| > 0 {
      RemoveWithout(d[1..], ks, k);
    }
  }

  /** `delete d[k]` of an absent key changes nothing. */
  lemma {:induction false} RemoveAbsent<V>(d: Dict<V>, k: string)
    requires k !in Keys(d)
    ensures Remove(d, k) == d
  {
    if |d| > 0 {
      AbsentTail(d, k);
      RemoveAbsent(d[1..], k);
      assert d == [d[0]] + d[1..];
    }
  }

  lemma {:induction false} WithoutNothing<V>(d: Dict<V>)
    ensures Without(d, {}) == d
  {
    if |d| > 0 {
      WithoutNothing(d[1..]);
      assert d == [d[0]] + d[1..];
    }
  }

  /** Looking up a key after dropping a set of keys. */
  lemma {:induction false} GetWithout<V>(d: Dict<V>, ks: set<string>, k: string)
    ensures Get(Without(d, ks), k) == if k in ks then None else Get(d, k)
  {
    if |d| > 0 {
      GetWithout(d[1..], ks, k);
      var w := Without(d[1..], ks);
      if d[0].0 !in ks {
        assert ([d[0]] + w)[1..] == w;
      }
    }
  }

  /** Assigning a key the object does not have appends it. */
  lemma {:induction false} SetAbsent<V>(d: Dict<V>, k: string, v: V)
    requires k !in Keys(d)
    ensures Set(d, k, v) == d + [(k, v)]
  {
    if |d| > 0 {
      var t := d[1..];
      AbsentTail(d, k);
      SetAbsent(t, k, v);
      SetOther(d, k, v);
      assert d == [d[0]] + t;
    }
  }

  lemma AbsentTail<V>(d: Dict<V>, k: string)
    requires |d| > 0 && k !in Keys(d)
    ensures d[0].0 != k && k !in Keys(d[1..])
  {
    assert Keys(d)[0] == d[0].0;
    forall i | 0 <= i < |d| - 1 ensures Keys(d[1..])[i] != k {
      assert Keys(d[1..])[i] == Keys(d)[i + 1];
    }
  }

  lemma SetOther<V>(d: Dict<V>, k: string, v: V)
    requires |d| > 0 && d[0].0 != k
    ensures Set(d, k, v) == [d[0]] + Set(d[1..], k, v)
  {
  }

  /** Assigning the next entry of an object without repeated keys extends the prefix. */
  lemma SetPrefix<V>(d: Dict<V>, n: nat)
    requires 0 < n <= |d| && UniqueKeys(d)
    ensures Set(d[..n - 1], d[n - 1].0, d[n - 1].1) == d[..n]
  {
    PrefixKeyAbsent(d, n - 1);
    SetAbsent(d[..n - 1], d[n - 1].0, d[n - 1].1);
    assert d[..n] == d[..n - 1] + [d[n - 1]];
  }

  lemma PrefixKeyAbsent<V>(d: Dict<V>, n: nat)
    requires n < |d| && UniqueKeys(d)
    ensures d[n].0 !in Keys(d[..n])
  {
    var prefix := d[..n];
    forall i | 0 <= i < |prefix| ensures Keys(prefix)[i] != d[n].0 {
      assert prefix[i] == d[i];
    }
  }

  /** In an object without repeated keys, each entry is what its key reads. */
  lemma GetUnique<V>(d: Dict<V>, i: int)
    requires UniqueKeys(d) && 0 <= i < |d|
    ensures Get(d, d[i].0) == Some(d[i].1)
  {
    var k := d[i].0;
    assert k in Keys(d);
    GetKeys(d, k);
    var m :| 0 <= m < |d| && d[m] == (k, Get(d, k).value);
  }
}

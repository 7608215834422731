/**
 * `extract` in lib/helper.js: flattens the tree xml2js builds (every child element is
 * an array; a text-only element is an array holding one string) into strings and
 * arrays of plain objects.
 */
module HelperExtract {
  import opened Wrappers
  import opened Strings
  import opened Dict

  /**
   * A value of the tree xml2js returns: a string, an array, or an object (its own
   * entries in order; JavaScript objects never repeat a key).
   */
  datatype JsValue = Str(s: string) | List(items: seq<JsValue>) | Record(entries: seq<(string, JsValue)>)

  /** What `extract` returns: a string, or an array of plain objects. */
  datatype Extracted = EText(text: string) | EList(objects: seq<Object>)

  /** A plain object `extract` builds. */
  datatype Object = Object(entries: Dict<Extracted>)

  /** The JavaScript TypeError raised when `extract` calls `map` on a value without one. */
  datatype ExtractError = NotAnArray

  /** `extract(v)`. */
  function Extract(v: JsValue): Result<Extracted, ExtractError>
    decreases v, 3
  {
    match v
    // a one-character string passes the one-element test; any other string has no `map`
    case Str(s) => if |s| == 1 then Ok(EText(s)) else Err(NotAnArray)
    case Record(_) => Err(NotAnArray)
    case List(items) =>
      if |items| == 1 && items[0].Str? then Ok(EText(items[0].s))
      else
        match ExtractEach(v, |items|)
        case Err(e) => Err(e)
        case Ok(objs) => Ok(EList(objs))
  }

  /** `arr.map(...)` over the first `n` items: each becomes an object; the first error wins. */
  function ExtractEach(v: JsValue, n: nat): (r: Result<seq<Object>, ExtractError>)
    requires v.List? && n <= |v.items|
    ensures r.Ok? ==> |r.value| == n
    decreases v, 1, n
  {
    if n == 0 then Ok([])
    else
      match ExtractEach(v, n - 1)
      case Err(e) => Err(e)
      case Ok(prefix) =>
        match ExtractObject(v.items[n - 1])
        case Err(e) => Err(e)
        case Ok(o) => Ok(prefix + [Object(o)])
  }

  /** The keys `Object.entries` gives an array or a string: its indices in decimal. */
  function IndexKey(i: nat): string
  {
    NatToString(i)
  }

  /**
   * `Object.entries(item).reduce((ret, [key, val]) => ({ ...ret, [key]: extract(val) }), {})`.
   * Entries of a string are its characters, each of which `extract` returns unchanged.
   */
  function ExtractObject(item: JsValue): (r: Result<Dict<Extracted>, ExtractError>)
    ensures r.Ok? && item.Record? ==> Keys(r.value) == Keys(item.entries)
    ensures r.Ok? && item.List? ==> |r.value| == |item.items|
    ensures item.Str? ==> r.Ok? && |r.value| == |item.s|
    decreases item, 2
  {
    match item
    case Str(s) => Ok(seq(|s|, i requires 0 <= i < |s| => (IndexKey(i), EText([s[i]]))))
    case List(xs) => ExtractIndexed(item, |xs|)
    case Record(es) => ExtractEntries(item, |es|)
  }

  function ExtractEntries(item: JsValue, n: nat): (r: Result<Dict<Extracted>, ExtractError>)
    requires item.Record? && n <= |item.entries|
    ensures r.Ok? ==> Keys(r.value) == Keys(item.entries[..n])
    decreases item, 1, n
  {
    if n == 0 then Ok([])
    else
      match ExtractEntries(item, n - 1)
      case Err(e) => Err(e)
      case Ok(prefix) =>
        var (key, val) := item.entries[n - 1];
        match Extract(val)
        case Err(e) => Err(e)
        case Ok(x) =>
          assert item.entries[..n] == item.entries[..n - 1] + [(key, val)];
          KeysSnoc(item.entries[..n - 1], (key, val));
          KeysSnoc(prefix, (key, x));
          Ok(prefix + [(key, x)])
  }

  function ExtractIndexed(item: JsValue, n: nat): (r: Result<Dict<Extracted>, ExtractError>)
    requires item.List? && n <= |item.items|
    ensures r.Ok? ==> |r.value| == n
    decreases item, 1, n
  {
    if n == 0 then Ok([])
    else
      match ExtractIndexed(item, n - 1)
      case Err(e) => Err(e)
      case Ok(prefix) =>
        match Extract(item.items[n - 1])
        case Err(e) => Err(e)
        case Ok(x) => Ok(prefix + [(IndexKey(n - 1), x)])
  }

  // ---------------------------------------------------------------------------
  // The tree xml2js builds for an extracted value
  // ---------------------------------------------------------------------------

  /**
   * The xml2js tree from which `extract` yields `x`: a string is a text-only element,
   * an array of objects is a list of elements with children.
   */
  function Embed(x: Extracted): JsValue
    decreases x, 1
  {
    match x
    case EText(t) => List([Str(t)])
    case EList(objs) => List(EmbedObjects(x, |objs|))
  }

  function EmbedObjects(x: Extracted, n: nat): (r: seq<JsValue>)
    requires x.EList? && n <= |x.objects|
    ensures |r| == n
    decreases x, 0, n
  {
    if n == 0 then [] else EmbedObjects(x, n - 1) + [Record(EmbedEntries(x, n - 1, |x.objects[n - 1].entries|))]
  }

  function EmbedEntries(x: Extracted, i: nat, n: nat): (r: seq<(string, JsValue)>)
    requires x.EList? && i < |x.objects| && n <= |x.objects[i].entries|
    ensures |r| == n
    decreases x, 0, i, n
  {
    if n == 0 then []
    else
      var entry := x.objects[i].entries[n - 1];
      assert x.objects[i] in x.objects;
      assert entry in x.objects[i].entries;
      EmbedEntries(x, i, n - 1) + [(entry.0, Embed(entry.1))]
  }

  lemma {:induction false} EmbedObjectsAt(x: Extracted, n: nat, i: nat)
    requires x.EList? && i < n <= |x.objects|
    ensures EmbedObjects(x, n)[i] == Record(EmbedEntries(x, i, |x.objects[i].entries|))
    decreases n
  {
    if i < n - 1 {
      EmbedObjectsAt(x, n - 1, i);
    }
  }

  lemma {:induction false} EmbedEntriesAt(x: Extracted, i: nat, n: nat, j: nat)
    requires x.EList? && i < |x.objects| && j < n <= |x.objects[i].entries|
    ensures EmbedEntries(x, i, n)[j] == (x.objects[i].entries[j].0, Embed(x.objects[i].entries[j].1))
    decreases n
  {
    if j < n - 1 {
      EmbedEntriesAt(x, i, n - 1, j);
    }
  }

  /** `extract` recovers every value from the tree xml2js builds for it. */
  lemma {:induction false} ExtractEmbed(x: Extracted)
    ensures Extract(Embed(x)) == Ok(x)
    decreases x, 1
  {
    match x
    case EText(t) =>
    case EList(objs) =>
      var v := Embed(x);
      ExtractEachEmbed(x, |objs|);
      assert objs[..|objs|] == objs;
      if |objs| == 1 {
        EmbedObjectsAt(x, 1, 0);
      }
  }

  lemma {:induction false} ExtractEachEmbed(x: Extracted, n: nat)
    requires x.EList? && n <= |x.objects|
    ensures ExtractEach(Embed(x), n) == Ok(x.objects[..n])
    decreases x, 0, n
  {
    if n > 0 {
      ExtractEachEmbed(x, n - 1);
      ExtractObjectEmbed(x, n - 1);
      assert x.objects[..n] == x.objects[..n - 1] + [x.objects[n - 1]];
    }
  }

  /** Each object of the embedded tree is extracted back to itself. */
  lemma ExtractObjectEmbed(x: Extracted, i: nat)
    requires x.EList? && i < |x.objects|
    ensures ExtractObject(Embed(x).items[i]) == Ok(x.objects[i].entries)
    ensures Object(x.objects[i].entries) == x.objects[i]
    decreases x, 0, i, |x.objects[i].entries| + 1
  {
    var obj := x.objects[i].entries;
    EmbedObjectsAt(x, |x.objects|, i);
    assert Embed(x).items[i] == Record(EmbedEntries(x, i, |obj|));
    ExtractEntriesEmbed(x, i, |obj|);
    assert obj[..|obj|] == obj;
  }

  lemma {:induction false} ExtractEntriesEmbed(x: Extracted, i: nat, n: nat)
    requires x.EList? && i < |x.objects| && n <= |x.objects[i].entries|
    ensures ExtractEntries(Record(EmbedEntries(x, i, |x.objects[i].entries|)), n) == Ok(x.objects[i].entries[..n])
    decreases x, 0, i, n
  {
    if n > 0 {
      ExtractEntriesEmbed(x, i, n - 1);
      var obj := x.objects[i].entries;
      EmbedEntriesAt(x, i, |obj|, n - 1);
      assert x.objects[i] in x.objects;
      assert obj[n - 1] in obj;
      ExtractEmbed(obj[n - 1].1);
      assert obj[..n] == obj[..n - 1] + [obj[n - 1]];
    }
  }

  /**
   * Outside the one-string case, `extract` keeps the array's length and turns each
   * object item into an object with the same keys whose values are extracted.
   */
  lemma ExtractKeepsShape(items: seq<JsValue>, i: nat)
    requires !(|items| == 1 && items[0].Str?)
    requires Extract(List(items)).Ok?
    requires i < |items|
    ensures Extract(List(items)).value.EList?
    ensures |Extract(List(items)).value.objects| == |items|
    ensures items[i].Record? ==> Keys(Extract(List(items)).value.objects[i].entries) == Keys(items[i].entries)
  {
    ExtractEachAt(List(items), |items|, i);
  }

  lemma {:induction false} ExtractEachAt(v: JsValue, n: nat, i: nat)
    requires v.List? && i < n <= |v.items|
    requires ExtractEach(v, n).Ok?
    ensures ExtractObject(v.items[i]).Ok?
    ensures ExtractEach(v, n).value[i] == Object(ExtractObject(v.items[i]).value)
    decreases n
  {
    if i < n - 1 {
      ExtractEachAt(v, n - 1, i);
    }
  }
}

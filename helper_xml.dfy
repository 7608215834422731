/**
 * XML serialisation of request bodies (`format` and `toXMLBuffer` in lib/helper.js),
 * and a reader for the flat documents the library produces, which shows that the
 * serialisation loses nothing.
 */
module HelperXml {
  import opened Wrappers
  import opened Strings

  /**
   * A value handed to `format`: a string, or an object whose values are either
   * primitives (held in their `${value}` form) or nested objects.
   */
  datatype Param = Text(text: string) | Fields(fields: seq<(string, Param)>)

  /** The second argument of `toXMLBuffer`: an array of items, or a single value. */
  datatype XmlParams = Items(items: seq<Param>) | Single(param: Param)

  lemma AppendOpenTag(before: string, entityType: string)
    ensures before + "<" + entityType + " xmlns=\"" + Namespace + "\">" == before + OpenTag(entityType)
  {
  }

  lemma AppendCloseTag(before: string, entityType: string)
    ensures before + "</" + entityType + ">" == before + CloseTag(entityType)
  {
  }

  /** `<key>inner</key>`. */
  function Element(key: string, inner: string): string
  {
    "<" + key + ">" + inner + "</" + key + ">"
  }

  /** Appending the pieces of an element one by one appends the element. */
  lemma AppendElement(before: string, key: string, inner: string)
    ensures before + "<" + key + ">" + inner + "</" + key + ">" == before + Element(key, inner)
  {
  }

  /** What `format(p)` returns. */
  function Formatted(p: Param): string
    decreases p, 1
  {
    match p
    case Text(s) => s
    case Fields(fs) => FormattedFields(p, |fs|)
  }

  /** The elements of the first `n` fields of `p`, in key order. */
  function FormattedFields(p: Param, n: nat): string
    requires p.Fields? && n <= |p.fields|
    decreases p, 0, n
  {
    if n == 0 then ""
    else FormattedFields(p, n - 1) + Element(p.fields[n - 1].0, Formatted(p.fields[n - 1].1))
  }

  /** `format(params)`: appends one element per key, recursing into object values. */
  method Format(p: Param) returns (xml: string)
    ensures xml == Formatted(p)
    decreases p
  {
    if p.Text? {
      return p.text;
    }
    xml := "";
    var i := 0;
    while i < |p.fields|
      invariant 0 <= i <= |p.fields|
      invariant xml == FormattedFields(p, i)
    {
      var (key, value) := p.fields[i];
      if value.Fields? {
        var inner := Format(value);
        AppendElement(xml, key, inner);
        xml := xml + "<" + key + ">" + inner + "</" + key + ">";
      } else {
        AppendElement(xml, key, value.text);
        xml := xml + "<" + key + ">" + value.text + "</" + key + ">";
      }
      i := i + 1;
    }
  }

  const Declaration := "<?xml version=\"1.0\" encoding=\"UTF-8\"?>"
  const Namespace := "http://mq.aliyuncs.com/doc/v1/"

  function OpenTag(entityType: string): string
  {
    "<" + entityType + " xmlns=\"" + Namespace + "\">"
  }

  function CloseTag(entityType: string): string
  {
    "</" + entityType + ">"
  }

  /** The first `n` items, each wrapped in `<subType>...</subType>`. */
  function ItemsXml(items: seq<Param>, subType: string, n: nat): string
    requires n <= |items|
  {
    if n == 0 then ""
    else ItemsXml(items, subType, n - 1) + Element(subType, Formatted(items[n - 1]))
  }

  function DocumentBody(params: XmlParams, subType: string): string
  {
    match params
    case Items(xs) => ItemsXml(xs, subType, |xs|)
    case Single(p) => Formatted(p)
  }

  /** The text `toXMLBuffer(entityType, params, subType)` encodes. */
  function Document(entityType: string, params: XmlParams, subType: string): string
  {
    Declaration + OpenTag(entityType) + DocumentBody(params, subType) + CloseTag(entityType)
  }

  /** `toXMLBuffer`, without the final UTF-8 encoding into a Buffer. */
  method ToXMLBuffer(entityType: string, params: XmlParams, subType: string) returns (xml: string)
    ensures xml == Document(entityType, params, subType)
  {
    ghost var head := Declaration + OpenTag(entityType);
    xml := Declaration;
    AppendOpenTag(xml, entityType);
    xml := xml + "<" + entityType + " xmlns=\"" + Namespace + "\">";
    if params.Items? {
      var i := 0;
      while i < |params.items|
        invariant 0 <= i <= |params.items|
        invariant xml == head + ItemsXml(params.items, subType, i)
      {
        var item := Format(params.items[i]);
        AppendElement(xml, subType, item);
        xml := xml + "<" + subType + ">";
        xml := xml + item;
        xml := xml + "</" + subType + ">";
        i := i + 1;
      }
    } else {
      var body := Format(params.param);
      xml := xml + body;
    }
    assert xml == head + DocumentBody(params, subType);
    AppendCloseTag(xml, entityType);
    xml := xml + "</" + entityType + ">";
  }

  // ---------------------------------------------------------------------------
  // Structure of the serialisation
  // ---------------------------------------------------------------------------

  /** An object whose values are all primitives. */
  function TextFields(fs: seq<(string, string)>): (p: Param)
    ensures p.Fields? && |p.fields| == |fs|
    ensures forall i :: 0 <= i < |fs| ==> p.fields[i] == (fs[i].0, Text(fs[i].1))
  {
    Fields(seq(|fs|, i requires 0 <= i < |fs| => (fs[i].0, Text(fs[i].1))))
  }

  /** The elements of `fs`, left to right. */
  function Elements(fs: seq<(string, string)>): string
  {
    if |fs| == 0 then "" else Element(fs[0].0, fs[0].1) + Elements(fs[1..])
  }

  lemma {:induction false} FormattedFieldsPrefix(p: Param, q: Param, n: nat)
    requires p.Fields? && q.Fields? && n <= |p.fields| && n <= |q.fields|
    requires p.fields[..n] == q.fields[..n]
    ensures FormattedFields(p, n) == FormattedFields(q, n)
  {
    if n > 0 {
      assert p.fields[n - 1] == p.fields[..n][n - 1];
      assert q.fields[n - 1] == q.fields[..n][n - 1];
      assert p.fields[..n - 1] == p.fields[..n][..n - 1];
      assert q.fields[..n - 1] == q.fields[..n][..n - 1];
      FormattedFieldsPrefix(p, q, n - 1);
    }
  }

  lemma {:induction false} FormattedFieldsCons(x: (string, Param), rest: seq<(string, Param)>, n: nat)
    requires n <= |rest|
    ensures FormattedFields(Fields([x] + rest), n + 1)
         == Element(x.0, Formatted(x.1)) + FormattedFields(Fields(rest), n)
  {
    if n > 0 {
      FormattedFieldsCons(x, rest, n - 1);
      assert ([x] + rest)[n] == rest[n - 1];
    }
  }

  /**
   * `format` of an object of primitives writes one `<k>v</k>` element per key, in
   * key order, with the value unchanged.
   */
  lemma {:induction false} FormattedTextFields(fs: seq<(string, string)>)
    ensures Formatted(TextFields(fs)) == Elements(fs)
  {
    if |fs| > 0 {
      FormattedTextFields(fs[1..]);
      var x := (fs[0].0, Text(fs[0].1));
      var rest := TextFields(fs[1..]).fields;
      assert TextFields(fs).fields == [x] + rest;
      FormattedFieldsCons(x, rest, |rest|);
    }
  }

  /** An array of primitives is written as if it were an object whose keys are all `subType`. */
  lemma {:induction false} ItemsAsFields(texts: seq<string>, subType: string, n: nat)
    requires n <= |texts|
    ensures ItemsXml(seq(|texts|, i requires 0 <= i < |texts| => Text(texts[i])), subType, n)
         == FormattedFields(TextFields(seq(|texts|, i requires 0 <= i < |texts| => (subType, texts[i]))), n)
  {
    if n > 0 {
      ItemsAsFields(texts, subType, n - 1);
    }
  }

  // ---------------------------------------------------------------------------
  // Reading the serialisation back
  // ---------------------------------------------------------------------------

  /** A key that can be written as a tag name and found again. */
  predicate PlainKey(k: string)
  {
    '<' !in k && '>' !in k
  }

  /** A field that survives being written and read back. */
  predicate Readable(f: (string, string))
  {
    PlainKey(f.0) && !Includes(f.1, CloseTag(f.0))
  }

  /** A value without `<` cannot hold a closing tag. */
  lemma NoTagReadable(k: string, v: string)
    requires PlainKey(k) && '<' !in v
    ensures Readable((k, v))
  {
    var close := CloseTag(k);
    assert close[0] == '<';
    forall i ensures !OccursAt(v, close, i) {
    }
  }

  /** Reads a sequence of `<k>v</k>` elements; the value ends at its first closing tag. */
  function ReadElements(s: string): Option<seq<(string, string)>>
    decreases |s|
  {
    if |s| == 0 then Some([])
    else if s[0] != '<' then None
    else
      var g := IndexOfChar(s[1..], '>');
      if g < 0 then None
      else
        var key := s[1..][..g];
        var after := s[1..][g + 1..];
        var c := FindSub(after, CloseTag(key));
        if c < 0 then None
        else
          match ReadElements(after[c + |CloseTag(key)|..])
          case None => None
          case Some(tail) => Some([(key, after[..c])] + tail)
  }

  /** The only `<` in a closing tag of a plain key is its first character. */
  lemma CloseTagOneOpen(k: string, m: int)
    requires PlainKey(k) && 0 < m < |CloseTag(k)|
    ensures CloseTag(k)[m] != '<'
  {
    if 2 <= m < 2 + |k| {
      assert CloseTag(k)[m] == k[m - 2];
    }
  }

  /** In `v + </k> + t` the first `</k>` is the one after `v`. */
  lemma {:induction false} FindCloseTag(k: string, v: string, t: string)
    requires PlainKey(k) && !Includes(v, CloseTag(k))
    ensures FindSub(v + CloseTag(k) + t, CloseTag(k)) == |v|
  {
    var close := CloseTag(k);
    var s := v + close + t;
    assert s[|v|..|v| + |close|] == close;
    assert OccursAt(s, close, |v|);
    var r := FindSub(s, close);
    if r < |v| {
      assert OccursAt(s, close, r);
      if r + |close| <= |v| {
        assert s[r..r + |close|] == v[r..r + |close|];
        assert OccursAt(v, close, r);
        assert false;
      } else {
        var m := |v| - r;
        assert s[r..r + |close|][m] == s[|v|] == '<';
        CloseTagOneOpen(k, m);
        assert false;
      }
    }
  }

  /** Reading one element off the front of a text. */
  /** Where the parts of `<k>v</k>t` are. */
  lemma ElementParts(k: string, v: string, t: string)
    requires PlainKey(k)
    ensures var s := Element(k, v) + t;
      && |s| > 0 && s[0] == '<'
      && IndexOfChar(s[1..], '>') == |k|
      && s[1..][..|k|] == k
      && s[1..][|k| + 1..] == v + CloseTag(k) + t
  {
    var s := Element(k, v) + t;
    var u := s[1..];
    assert u == k + ">" + (v + CloseTag(k) + t);
    assert u[..|k|] == k;
    IndexOfCharAt(u, '>', |k|);
    assert u[|k| + 1..] == v + CloseTag(k) + t;
  }

  lemma SliceParts(v: string, close: string, t: string)
    ensures (v + close + t)[..|v|] == v
    ensures (v + close + t)[|v| + |close|..] == t
  {
  }

  /** Reading one element off the front of a text. */
  lemma {:induction false} ReadOneElement(k: string, v: string, t: string, tail: seq<(string, string)>)
    requires PlainKey(k) && !Includes(v, CloseTag(k))
    requires ReadElements(t) == Some(tail)
    ensures ReadElements(Element(k, v) + t) == Some([(k, v)] + tail)
  {
    ElementParts(k, v, t);
    FindCloseTag(k, v, t);
    SliceParts(v, CloseTag(k), t);
  }

  /** Reading undoes writing, for fields whose value does not contain its own closing tag. */
  lemma {:induction false} ReadElementsOfElements(fs: seq<(string, string)>)
    requires forall i :: 0 <= i < |fs| ==> Readable(fs[i])
    ensures ReadElements(Elements(fs)) == Some(fs)
  {
    if |fs| > 0 {
      var rest := fs[1..];
      ReadableTail(fs);
      ReadElementsOfElements(rest);
      ReadOneElement(fs[0].0, fs[0].1, Elements(rest), rest);
      assert [(fs[0].0, fs[0].1)] + rest == fs;
    }
  }

  lemma ReadableTail(fs: seq<(string, string)>)
    requires |fs| > 0
    requires forall i :: 0 <= i < |fs| ==> Readable(fs[i])
    ensures forall i :: 0 <= i < |fs[1..]| ==> Readable(fs[1..][i])
    ensures Readable(fs[0])
  {
  }

  /** Reads a document written by `toXMLBuffer(entityType, ...)`: header, root, flat elements. */
  function ReadDocument(entityType: string, xml: string): Option<seq<(string, string)>>
  {
    var head := Declaration + OpenTag(entityType);
    var tail := CloseTag(entityType);
    if |head| + |tail| <= |xml| && xml[..|head|] == head && xml[|xml| - |tail|..] == tail then
      ReadElements(xml[|head|..|xml| - |tail|])
    else None
  }

  lemma ReadDocumentFrame(entityType: string, body: string)
    ensures ReadDocument(entityType, Declaration + OpenTag(entityType) + body + CloseTag(entityType))
         == ReadElements(body)
  {
    var head := Declaration + OpenTag(entityType);
    var xml := head + body + CloseTag(entityType);
    assert xml[..|head|] == head;
    assert xml[|xml| - |CloseTag(entityType)|..] == CloseTag(entityType);
    assert xml[|head|..|xml| - |CloseTag(entityType)|] == body;
  }

  /**
   * A document written from an object of primitives starts with the XML declaration
   * and the namespaced root element, ends with the root's closing tag, and between
   * them reads back as exactly the object's fields in order.
   */
  lemma DocumentOfFieldsReadsBack(entityType: string, fs: seq<(string, string)>, subType: string)
    requires forall i :: 0 <= i < |fs| ==> Readable(fs[i])
    ensures ReadDocument(entityType, Document(entityType, Single(TextFields(fs)), subType)) == Some(fs)
  {
    FormattedTextFields(fs);
    ReadDocumentFrame(entityType, Elements(fs));
    ReadElementsOfElements(fs);
  }

  /**
   * A document written from an array of strings reads back as one `subType` element
   * per item, in array order.
   */
  lemma DocumentOfItemsReadsBack(entityType: string, texts: seq<string>, subType: string)
    requires PlainKey(subType)
    requires forall i :: 0 <= i < |texts| ==> !Includes(texts[i], CloseTag(subType))
    ensures ReadDocument(entityType,
        Document(entityType, Items(seq(|texts|, i requires 0 <= i < |texts| => Text(texts[i]))), subType))
      == Some(seq(|texts|, i requires 0 <= i < |texts| => (subType, texts[i])))
  {
    var fs := seq(|texts|, i requires 0 <= i < |texts| => (subType, texts[i]));
    ItemsAsFields(texts, subType, |texts|);
    assert forall i :: 0 <= i < |fs| ==> Readable(fs[i]);
    DocumentOfFieldsReadsBack(entityType, fs, subType);
  }
}

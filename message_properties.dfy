/**
 * lib/MessageProperties.js: the property map a producer attaches to a message. User
 * properties go through `check`, which forbids the characters the wire encoding
 * `k:v|k:v` uses; the message key and the two time markers are stored unchecked.
 */
module Properties {
  import opened Wrappers
  import opened Strings
  import opened Dict
  import opened HelperProperties

  /** The characters `check` rejects. */
  const ForbiddenChars := "'\"&<>|:"

  /** `s` has none of the characters `check` rejects. */
  predicate Allowed(s: string)
  {
    forall i :: 0 <= i < |s| ==> s[i] !in ForbiddenChars
  }

  /** The error `check` throws, naming the offending string. */
  datatype PropertyError = ForbiddenCharacter(text: string)

  /** `check(key)`: throws exactly when `key` holds one of `' " & < > | :`. */
  function Check(key: string): (r: Result<(), PropertyError>)
    ensures r.Ok? <==> Allowed(key)
    ensures r.Err? ==> r.error == ForbiddenCharacter(key)
  {
    if IndexOfChar(key, '\'') > -1 || IndexOfChar(key, '"') > -1
       || IndexOfChar(key, '&') > -1 || IndexOfChar(key, '<') > -1
       || IndexOfChar(key, '>') > -1 || IndexOfChar(key, '|') > -1
       || IndexOfChar(key, ':') > -1
    then Err(ForbiddenCharacter(key))
    else Ok(())
  }

  /** `putProperty` is a no-op for a `null`/`undefined` or empty key or value. */
  predicate Blank(key: Option<string>, value: Option<string>)
  {
    key.None? || value.None? || key.value == "" || value.value == ""
  }

  /**
   * The effect of `putProperty(key, value)` on the map `d`, with `key` and `value`
   * already in their template-literal form (`None` for `null`/`undefined`).
   */
  function Put(d: Dict<string>, key: Option<string>, value: Option<string>): (r: Result<Dict<string>, PropertyError>)
    ensures Blank(key, value) ==> r == Ok(d)
    ensures !Blank(key, value) ==> (r.Ok? <==> Allowed(key.value) && Allowed(value.value))
    ensures !Blank(key, value) && r.Ok? ==>
      Get(r.value, key.value) == value && forall k :: k != key.value ==> Get(r.value, k) == Get(d, k)
    ensures r.Err? ==> r.error == ForbiddenCharacter(if Allowed(key.value) then value.value else key.value)
  {
    if key.None? || value.None? then Ok(d)
    else if key.value != "" && value.value != "" then
      match Check(key.value)
      case Err(e) => Err(e)
      case Ok(_) =>
        match Check(value.value)
        case Err(e) => Err(e)
        case Ok(_) => Ok(Set(d, key.value, value.value))
    else Ok(d)
  }

  /** The constructor's `Object.entries(properties).forEach(... putProperty ...)`, stopping at the first throw. */
  function PutAll(d: Dict<string>, entries: seq<(string, Option<string>)>): Result<Dict<string>, PropertyError>
  {
    if |entries| == 0 then Ok(d)
    else
      match PutAll(d, entries[..|entries| - 1])
      case Err(e) => Err(e)
      case Ok(d') => Put(d', Some(entries[|entries| - 1].0), entries[|entries| - 1].1)
  }

  /** The map after the constructor's two time markers: applied only when truthy, so 0 is ignored. */
  function InitialProperties(startDeliverTime: Option<int>, transCheckImmunityTime: Option<int>): Dict<string>
  {
    var d := if startDeliverTime.Some? && startDeliverTime.value != 0
      then Set([], StartDeliverTimeProperty, IntToString(startDeliverTime.value)) else [];
    if transCheckImmunityTime.Some? && transCheckImmunityTime.value != 0
    then Set(d, TransCheckProperty, IntToString(transCheckImmunityTime.value)) else d
  }

  /**
   * What every map a `MessageProperties` holds satisfies: keys are distinct and
   * non-empty, and every entry other than `KEYS` has a non-empty value and neither key
   * nor value holds a forbidden character.
   */
  ghost predicate ValidEntry(e: (string, string))
  {
    e.0 == KeysProperty || (e.0 != "" && e.1 != "" && Allowed(e.0) && Allowed(e.1))
  }

  ghost predicate ValidMap(d: Dict<string>)
  {
    UniqueKeys(d) && forall i :: 0 <= i < |d| ==> ValidEntry(d[i])
  }

  lemma SetValid(d: Dict<string>, k: string, v: string)
    requires ValidMap(d) && ValidEntry((k, v))
    ensures ValidMap(Set(d, k, v))
  {
    SetUniqueKeys(d, k, v);
    SetEntries(d, k, v);
  }

  /** A successful `putProperty` keeps the map valid. */
  lemma PutValid(d: Dict<string>, key: Option<string>, value: Option<string>)
    requires ValidMap(d) && Put(d, key, value).Ok?
    ensures ValidMap(Put(d, key, value).value)
  {
    if !Blank(key, value) {
      SetValid(d, key.value, value.value);
    }
  }

  lemma {:induction false} PutAllValid(d: Dict<string>, entries: seq<(string, Option<string>)>)
    requires ValidMap(d) && PutAll(d, entries).Ok?
    ensures ValidMap(PutAll(d, entries).value)
    decreases |entries|
  {
    if |entries| > 0 {
      var prefix := entries[..|entries| - 1];
      PutAllValid(d, prefix);
      PutValid(PutAll(d, prefix).value, Some(entries[|entries| - 1].0), entries[|entries| - 1].1);
    }
  }

  /** `new MessageProperties(...)` and its methods; `properties` is the object `getProperties` hands out. */
  class MessageProperties {
    var properties: Dict<string>

    ghost predicate Valid()
      reads this
    {
      ValidMap(properties)
    }

    /** `this.properties = {}`. */
    constructor Empty()
      ensures properties == []
      ensures Valid()
    {
      properties := [];
    }

    /**
     * `new MessageProperties({ startDeliverTime, transCheckImmunityTime, properties })`:
     * the two markers when truthy, then every entry through `putProperty`; the first
     * entry `check` rejects makes the constructor throw.
     */
    static method New(startDeliverTime: Option<int>, transCheckImmunityTime: Option<int>,
                      entries: seq<(string, Option<string>)>)
      returns (r: Result<MessageProperties, PropertyError>)
      ensures r.Ok? ==> fresh(r.value) && r.value.Valid()
      ensures PutAll(InitialProperties(startDeliverTime, transCheckImmunityTime), entries)
        == if r.Ok? then Ok(r.value.properties) else Err(r.error)
    {
      var mp := new MessageProperties.Empty();
      if startDeliverTime.Some? && startDeliverTime.value != 0 {
        mp.StartDeliverTime(startDeliverTime);
      }
      if transCheckImmunityTime.Some? && transCheckImmunityTime.value != 0 {
        mp.TransCheckImmunityTime(transCheckImmunityTime);
      }
      ghost var initial := mp.properties;
      assert initial == InitialProperties(startDeliverTime, transCheckImmunityTime);
      var i := 0;
      while i < |entries|
        invariant 0 <= i <= |entries|
        invariant PutAll(initial, entries[..i]) == Ok(mp.properties)
        invariant mp.Valid()
      {
        var (key, value) := entries[i];
        var res := mp.PutProperty(Some(key), value);
        PutAllSnoc(initial, entries, i);
        if res.Err? {
          PutAllErr(initial, entries, i + 1);
          return Err(res.error);
        }
        i := i + 1;
      }
      assert entries[..i] == entries;
      return Ok(mp);
    }

    /** `getProperties()`: the live map itself. */
    method GetProperties() returns (r: Dict<string>)
      ensures r == properties
    {
      return properties;
    }

    /** `messageKey(key)`: `KEYS` set to the key's string form, unchecked; nothing for `null`. */
    method MessageKey(key: Option<string>)
      requires Valid()
      modifies this
      ensures Valid()
      ensures properties == if key.None? then old(properties) else Set(old(properties), KeysProperty, key.value)
    {
      if key.None? {
        return;
      }
      SetValid(properties, KeysProperty, key.value);
      properties := Set(properties, KeysProperty, key.value);
    }

    /** `startDeliverTime(timeMillis)`: `__STARTDELIVERTIME` set to `${timeMillis}`; nothing for `null`. */
    method StartDeliverTime(timeMillis: Option<int>)
      requires Valid()
      modifies this
      ensures Valid()
      ensures properties == if timeMillis.None? then old(properties)
        else Set(old(properties), StartDeliverTimeProperty, IntToString(timeMillis.value))
    {
      if timeMillis.None? {
        return;
      }
      IntToStringAllowed(timeMillis.value);
      SetValid(properties, StartDeliverTimeProperty, IntToString(timeMillis.value));
      properties := Set(properties, StartDeliverTimeProperty, IntToString(timeMillis.value));
    }

    /** `transCheckImmunityTime(timeSeconds)`: `__TransCheckT` set to `${timeSeconds}`; nothing for `null`. */
    method TransCheckImmunityTime(timeSeconds: Option<int>)
      requires Valid()
      modifies this
      ensures Valid()
      ensures properties == if timeSeconds.None? then old(properties)
        else Set(old(properties), TransCheckProperty, IntToString(timeSeconds.value))
    {
      if timeSeconds.None? {
        return;
      }
      IntToStringAllowed(timeSeconds.value);
      SetValid(properties, TransCheckProperty, IntToString(timeSeconds.value));
      properties := Set(properties, TransCheckProperty, IntToString(timeSeconds.value));
    }

    /**
     * `putProperty(key, value)`: both strings are checked before the assignment, so a
     * throw leaves the map as it was.
     */
    method PutProperty(key: Option<string>, value: Option<string>) returns (r: Result<(), PropertyError>)
      requires Valid()
      modifies this
      ensures Valid()
      ensures Put(old(properties), key, value) == if r.Ok? then Ok(properties) else Err(r.error)
      ensures r.Err? ==> properties == old(properties)
    {
      if key.None? || value.None? {
        return Ok(());
      }
      var keyStr := key.value;
      var valueStr := value.value;
      if keyStr != "" && valueStr != "" {
        var c := Check(keyStr);
        if c.Err? {
          return Err(c.error);
        }
        c := Check(valueStr);
        if c.Err? {
          return Err(c.error);
        }
        PutValid(properties, key, value);
        properties := Set(properties, keyStr, valueStr);
      }
      return Ok(());
    }
  }

  lemma IntToStringAllowed(n: int)
    ensures Allowed(IntToString(n))
    ensures IntToString(n) != ""
  {
    var s := IntToString(n);
    forall i | 0 <= i < |s| ensures s[i] !in ForbiddenChars {
      assert IsDigit(s[i]) || s[i] == '-';
    }
  }

  lemma PutAllSnoc(d: Dict<string>, entries: seq<(string, Option<string>)>, i: nat)
    requires i < |entries|
    ensures PutAll(d, entries[..i + 1]) ==
      match PutAll(d, entries[..i])
      case Err(e) => Err(e)
      case Ok(d') => Put(d', Some(entries[i].0), entries[i].1)
  {
    assert entries[..i + 1][..i] == entries[..i];
  }

  /** Once an entry is rejected, the later ones do not matter. */
  lemma {:induction false} PutAllErr(d: Dict<string>, entries: seq<(string, Option<string>)>, n: nat)
    requires 0 < n <= |entries| && PutAll(d, entries[..n]).Err?
    ensures PutAll(d, entries) == PutAll(d, entries[..n])
    decreases |entries| - n
  {
    if n < |entries| {
      assert entries[..n + 1][..n] == entries[..n];
      PutAllErr(d, entries, n + 1);
    } else {
      assert entries[..n] == entries;
    }
  }
}

/**
 * The browser's localStorage as the client uses it through `load`, `save`
 * and `remove`: a map from keys to stored text, written through
 * `JSON.stringify` and read back through `JSON.parse`.
 */
module Storage {
  import opened Js

  /** Stored or received text, seen through `JSON.parse`: either the text
      `JSON.stringify` wrote for a JSON value, or text `JSON.parse` rejects
      (the empty string among them). */
  datatype Text = Encoded(value: Value) | Unparseable(raw: string)

  /** A value `JSON.parse` can return: no undefined and no NaN anywhere in it. */
  predicate IsJson(v: Value) {
    match v
    case Undefined => false
    case NaN => false
    case Arr(items) => forall i :: 0 <= i < |items| ==> IsJson(items[i])
    case Obj(m) => forall k :: k in m ==> IsJson(m[k])
    case _ => true
  }

  /** What survives `JSON.stringify` then `JSON.parse`: NaN becomes null,
      undefined array elements become null, undefined properties are dropped. */
  function JsonImage(v: Value): Value {
    match v
    case NaN => Null
    case Arr(items) =>
      Arr(seq(|items|, i requires 0 <= i < |items| =>
        if items[i].Undefined? then Null else JsonImage(items[i])))
    case Obj(m) => Obj(map k | k in m && !m[k].Undefined? :: JsonImage(m[k]))
    case _ => v
  }

  /** `JSON.stringify(v)` as stored by `localStorage.setItem`: the top-level
      undefined is stored as the text "undefined", which does not parse. */
  function Stringify(v: Value): (t: Text)
    ensures t.Encoded? <==> !v.Undefined?
    ensures t.Encoded? ==> IsJson(t.value)
    ensures IsJson(v) ==> t == Encoded(v)
  {
    if v.Undefined? then Unparseable("undefined")
    else
      JsonImageIsJson(v);
      if IsJson(v) then JsonImageOfJson(v); Encoded(JsonImage(v)) else Encoded(JsonImage(v))
  }

  /** The body of a JSON string literal: quotes and backslashes are escaped. */
  function JsonEscape(s: string): (r: string)
    ensures |r| >= |s|
  {
    if s == [] then []
    else (if s[0] == '"' || s[0] == '\\' then ['\\', s[0]] else [s[0]]) + JsonEscape(s[1..])
  }

  /** The text `JSON.stringify` writes for the string s: it is quoted, so it
      is never s itself. */
  function QuotedJson(s: string): (r: string)
    ensures |r| >= |s| + 2 && r[0] == '"' && r[|r| - 1] == '"'
  {
    "\"" + JsonEscape(s) + "\""
  }

  /** `JSON.parse(text)`; None stands for the SyntaxError it throws. */
  function Parse(t: Text): Option<Value> {
    match t
    case Encoded(v) => Some(v)
    case Unparseable(_) => None
  }

  /** `load(key)` over the map `items`: a missing key reads as `JSON.parse(null)`,
      which is null; text that does not parse is caught and gives undefined. */
  function LoadFrom(items: map<string, Text>, key: string): Value {
    if key !in items then Null
    else match Parse(items[key])
      case Some(v) => v
      case None => Undefined
  }

  class LocalStore {
    var items: map<string, Text>

    constructor (initial: map<string, Text>)
      ensures items == initial
    {
      items := initial;
    }

    /** `load(key)`: reads the store and never throws. */
    method Load(key: string) returns (v: Value)
      ensures v == LoadFrom(items, key)
      ensures key !in items ==> v.Null?
      ensures key in items && items[key].Unparseable? ==> v.Undefined?
    {
      if key in items {
        match items[key]
        case Encoded(w) => v := w;
        case Unparseable(_) => v := Undefined;
      } else {
        v := Null;
      }
    }

    /** `save(key, value)`: only the named key changes, and reading it back
        gives the value as JSON preserves it. */
    method Save(key: string, value: Value)
      modifies this
      ensures items == old(items)[key := Stringify(value)]
      ensures LoadFrom(items, key) == JsonImage(value)
    {
      items := items[key := Stringify(value)];
      LoadAfterSave(old(items), key, value);
    }

    /** `remove(key)`: only the named key changes, and it then reads as null. */
    method Remove(key: string)
      modifies this
      ensures items == old(items) - {key}
      ensures LoadFrom(items, key) == Null
    {
      items := items - {key};
    }
  }

  // ---------------------------------------------------------------------
  // Lemmas

  /** JSON values pass through stringify and parse unchanged. */
  lemma {:induction false} JsonImageOfJson(v: Value)
    requires IsJson(v)
    ensures JsonImage(v) == v
  {
    match v
    case Arr(items) =>
      var r := JsonImage(v).items;
      assert |r| == |items|;
      forall i | 0 <= i < |items|
        ensures r[i] == items[i]
      {
        JsonImageOfJson(items[i]);
      }
      assert r == items;
    case Obj(m) =>
      var r := JsonImage(v).props;
      assert r.Keys == m.Keys;
      forall k | k in m
        ensures r[k] == m[k]
      {
        JsonImageOfJson(m[k]);
      }
      assert r == m;
    case _ =>
  }

  /** What stringify then parse yields is itself a JSON value. */
  lemma {:induction false} JsonImageIsJson(v: Value)
    requires !v.Undefined?
    ensures IsJson(JsonImage(v))
  {
    match v
    case Arr(items) =>
      var r := JsonImage(v).items;
      forall i | 0 <= i < |items|
        ensures IsJson(r[i])
      {
        if !items[i].Undefined? {
          JsonImageIsJson(items[i]);
        }
      }
    case Obj(m) =>
      var r := JsonImage(v).props;
      forall k | k in r
        ensures IsJson(r[k])
      {
        JsonImageIsJson(m[k]);
      }
    case _ =>
  }

  /** `save(k, v)` then `load(k)` gives back v for every JSON value v, and
      undefined for undefined. */
  lemma LoadAfterSave(items: map<string, Text>, key: string, value: Value)
    ensures LoadFrom(items[key := Stringify(value)], key) == JsonImage(value)
    ensures IsJson(value) ==> LoadFrom(items[key := Stringify(value)], key) == value
  {
    if IsJson(value) {
      JsonImageOfJson(value);
    }
  }

  /** `save` and `remove` leave every other key reading as before. */
  lemma OtherKeysUnchanged(items: map<string, Text>, key: string, other: string, t: Text)
    requires other != key
    ensures LoadFrom(items[key := t], other) == LoadFrom(items, other)
    ensures LoadFrom(items - {key}, other) == LoadFrom(items, other)
  {
  }
}

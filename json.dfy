/** Decoded JSON values, and the Python operations the pipeline applies to them.

    An object is an ordered association list, because Python dicts keep insertion order and
    that order shows in the rendered output. Integers stand for all JSON numbers. */
module JsonValue {
  import opened Wrappers
  import opened PyStrings

  datatype Member = Member(key: string, value: Json)

  datatype Json =
    | JNull
    | JBool(b: bool)
    | JInt(i: int)
    | JString(s: string)
    | JArray(items: seq<Json>)
    | JObject(fields: seq<Member>)

  function Keys(fields: seq<Member>): (ks: seq<string>)
    ensures |ks| == |fields|
    ensures forall k :: 0 <= k < |fields| ==> ks[k] == fields[k].key
  {
    if fields == [] then [] else [fields[0].key] + Keys(fields[1..])
  }

  /** The value stored under `key`: a Python dict holds each key once, so the first match is it. */
  function Lookup(fields: seq<Member>, key: string): (r: Option<Json>)
    ensures r.None? <==> key !in Keys(fields)
    ensures r.Some? ==> Member(key, r.value) in fields
  {
    if fields == [] then None
    else if fields[0].key == key then Some(fields[0].value)
    else Lookup(fields[1..], key)
  }

  /** Each key at most once, as in every object `json.loads` returns (a repeated key in the
      text keeps only its last value). */
  predicate DistinctKeys(fields: seq<Member>) {
    forall i, j :: 0 <= i < j < |fields| ==> fields[i].key != fields[j].key
  }

  /** In an object holding each key once, the lookup finds the one member with that key. */
  lemma {:induction false} LookupUnique(fields: seq<Member>, key: string, v: Json)
    requires DistinctKeys(fields) && Member(key, v) in fields
    ensures Lookup(fields, key) == Some(v)
  {
    if fields[0] != Member(key, v) {
      assert fields == [fields[0]] + fields[1..];
      var k :| 0 <= k < |fields| && fields[k] == Member(key, v);
      assert fields[0].key != key;
      assert fields[1..][k - 1] == fields[k];
      LookupUnique(fields[1..], key, v);
    }
  }

  /** Assignment keeps an object's keys distinct. */
  lemma {:induction false} PutKeepsDistinct(fields: seq<Member>, key: string, v: Json)
    requires DistinctKeys(fields)
    ensures DistinctKeys(Put(fields, key, v))
  {
    var r := Put(fields, key, v);
    var ks := Keys(r);
    if Lookup(fields, key).Some? {
      forall i, j | 0 <= i < j < |r| ensures r[i].key != r[j].key {
        assert ks[i] == Keys(fields)[i] && ks[j] == Keys(fields)[j];
      }
    } else {
      forall i, j | 0 <= i < j < |r| ensures r[i].key != r[j].key {
        assert ks[i] == (Keys(fields) + [key])[i] && ks[j] == (Keys(fields) + [key])[j];
        if j == |fields| {
          assert Keys(fields)[i] in Keys(fields);
        }
      }
    }
  }

  /** `d[key] = v`: an existing key keeps its position, a new key is appended. */
  function Put(fields: seq<Member>, key: string, v: Json): (r: seq<Member>)
    ensures Lookup(r, key) == Some(v)
    ensures Lookup(fields, key).Some? ==> Keys(r) == Keys(fields)
    ensures Lookup(fields, key).None? ==> Keys(r) == Keys(fields) + [key]
  {
    if fields == [] then [Member(key, v)]
    else if fields[0].key == key then
      PutHere(fields, key, v);
      [Member(key, v)] + fields[1..]
    else
      var rest := Put(fields[1..], key, v);
      PutFurther(fields, key, v, rest);
      [fields[0]] + rest
  }

  lemma {:induction false} PutHere(fields: seq<Member>, key: string, v: Json)
    requires fields != [] && fields[0].key == key
    ensures Lookup([Member(key, v)] + fields[1..], key) == Some(v)
    ensures Lookup(fields, key).Some? && Keys([Member(key, v)] + fields[1..]) == Keys(fields)
  {
    assert ([Member(key, v)] + fields[1..])[1..] == fields[1..];
  }

  lemma {:induction false} PutFurther(fields: seq<Member>, key: string, v: Json, rest: seq<Member>)
    requires fields != [] && fields[0].key != key
    requires Lookup(rest, key) == Some(v)
    requires Lookup(fields[1..], key).Some? ==> Keys(rest) == Keys(fields[1..])
    requires Lookup(fields[1..], key).None? ==> Keys(rest) == Keys(fields[1..]) + [key]
    ensures Lookup([fields[0]] + rest, key) == Some(v)
    ensures Lookup(fields, key).Some? ==> Keys([fields[0]] + rest) == Keys(fields)
    ensures Lookup(fields, key).None? ==> Keys([fields[0]] + rest) == Keys(fields) + [key]
  {
    assert ([fields[0]] + rest)[1..] == rest;
    assert Lookup(fields, key) == Lookup(fields[1..], key);
    KeysAfterPut(fields, key, rest, Lookup(fields[1..], key).Some?);
  }

  lemma {:induction false} KeysAfterPut(fields: seq<Member>, key: string, rest: seq<Member>, present: bool)
    requires fields != []
    requires present ==> Keys(rest) == Keys(fields[1..])
    requires !present ==> Keys(rest) == Keys(fields[1..]) + [key]
    ensures present ==> Keys([fields[0]] + rest) == Keys(fields)
    ensures !present ==> Keys([fields[0]] + rest) == Keys(fields) + [key]
  {
    assert ([fields[0]] + rest)[1..] == rest;
    var a, tail := fields[0].key, Keys(fields[1..]);
    assert Keys([fields[0]] + rest) == [a] + Keys(rest);
    assert Keys(fields) == [a] + tail;
    if !present {
      assert [a] + (tail + [key]) == ([a] + tail) + [key];
    }
  }

  lemma {:induction false} PutKeepsOthers(fields: seq<Member>, key: string, v: Json, other: string)
    requires other != key
    ensures Lookup(Put(fields, key, v), other) == Lookup(fields, other)
  {
    if fields != [] && fields[0].key != key {
      PutKeepsOthers(fields[1..], key, v, other);
    }
  }

  /** Python truthiness of a decoded value. */
  predicate Truthy(j: Json) {
    match j
    case JNull => false
    case JBool(b) => b
    case JInt(i) => i != 0
    case JString(s) => s != []
    case JArray(items) => items != []
    case JObject(fields) => fields != []
  }

  /** Python's `key in container`: key test on a dict, substring test on a str, element test
      on a list, TypeError on anything else. */
  function PyIn(key: string, container: Json): (r: Result<bool>)
    ensures container.JObject? ==> r == Ok(key in Keys(container.fields))
    ensures r.Err? <==> !(container.JObject? || container.JString? || container.JArray?)
  {
    match container
    case JObject(fields) => Ok(key in Keys(fields))
    case JString(s) => Ok(Contains(s, key))
    case JArray(items) => Ok(JString(key) in items)
    case _ => Err(TypeError)
  }

  /** Python's `container[key]` with a string key. */
  function PyIndex(container: Json, key: string): (r: Result<Json>)
    ensures r.Ok? <==> container.JObject? && key in Keys(container.fields)
    ensures r.Ok? ==> Lookup(container.fields, key) == Some(r.value)
  {
    match container
    case JObject(fields) =>
      (match Lookup(fields, key)
       case Some(v) => Ok(v)
       case None => Err(KeyError(key)))
    case _ => Err(TypeError)
  }

  /** Python's `container.get(key, default)`: only dicts have `get`. */
  function PyGet(container: Json, key: string, default: Json): (r: Result<Json>)
    ensures r.Ok? <==> container.JObject?
    ensures container.JObject? && key !in Keys(container.fields) ==> r == Ok(default)
    ensures container.JObject? && key in Keys(container.fields) ==> Ok(Lookup(container.fields, key).value) == r
  {
    match container
    case JObject(fields) =>
      (match Lookup(fields, key)
       case Some(v) => Ok(v)
       case None => Ok(default))
    case _ => Err(AttributeError)
  }

  /** `d.get(key, default)` on a dict. */
  function Get(fields: seq<Member>, key: string, default: Json): (r: Json)
    ensures r == PyGet(JObject(fields), key, default).value
  {
    match Lookup(fields, key)
    case Some(v) => v
    case None => default
  }

  function Chars(s: string): (r: seq<Json>)
    ensures |r| == |s| && forall k :: 0 <= k < |s| ==> r[k] == JString([s[k]])
  {
    if s == [] then [] else [JString([s[0]])] + Chars(s[1..])
  }

  function KeyStrings(fields: seq<Member>): (r: seq<Json>)
    ensures |r| == |fields| && forall k :: 0 <= k < |fields| ==> r[k] == JString(fields[k].key)
  {
    if fields == [] then [] else [JString(fields[0].key)] + KeyStrings(fields[1..])
  }

  /** What `for x in value` visits: list items, dict keys, or one-character strings. */
  function PyIter(j: Json): (r: Result<seq<Json>>)
    ensures j.JArray? ==> r == Ok(j.items)
    ensures r.Err? <==> (j.JNull? || j.JBool? || j.JInt?)
  {
    match j
    case JArray(items) => Ok(items)
    case JObject(fields) => Ok(KeyStrings(fields))
    case JString(s) => Ok(Chars(s))
    case _ => Err(TypeError)
  }

  /** `value[:n]`: a prefix of a list, or the first characters of a str. */
  function PyPrefix(j: Json, n: nat): (r: Result<seq<Json>>)
    ensures j.JArray? ==> r == Ok(j.items[..if |j.items| < n then |j.items| else n])
    ensures r.Err? <==> !(j.JArray? || j.JString?)
    ensures r.Ok? ==> |r.value| <= n
  {
    match j
    case JArray(items) => Ok(items[..if |items| < n then |items| else n])
    case JString(s) => Ok(Chars(s[..if |s| < n then |s| else n]))
    case _ => Err(TypeError)
  }

  /** Python's `str(value)`. Inside containers Python shows strings by their `repr`, which this
      model writes as the text between single quotes. */
  function PyStr(j: Json): string {
    Render(j, false)
  }

  function Render(j: Json, quoted: bool): string {
    match j
    case JNull => "None"
    case JBool(b) => if b then "True" else "False"
    case JInt(i) => IntToString(i)
    case JString(s) => if quoted then "'" + s + "'" else s
    case JArray(items) =>
      "[" + Join(", ", seq(|items|, k requires 0 <= k < |items| => Render(items[k], true))) + "]"
    case JObject(fields) =>
      "{" + Join(", ", seq(|fields|, k requires 0 <= k < |fields| =>
                                 "'" + fields[k].key + "': " + Render(fields[k].value, true))) + "}"
  }
}

/**
 * The JSON values the launcher reads (serde_json's `Value`) and the typed accessors of
 * its `util::json` module: a missing key and a value of the wrong type are errors.
 * An object is the sequence of its members in iteration order.
 */
module Json {
  import opened Wrappers

  datatype Json =
    | JNull
    | JBool(b: bool)
    | JNum(n: int)
    | JStr(s: string)
    | JArr(items: seq<Json>)
    | JObj(members: seq<Member>)

  datatype Member = Member(key: string, value: Json)

  type Object = seq<Member>

  /** The kinds a value is checked against. */
  datatype JsonType = Obj | Arr | Str | Num | Bool | Null

  datatype JsonError =
    | MissingKey(key: string)
    | WrongType(expected: JsonType)

  /** `Map::get`: the value under a key, if any. */
  function Get(obj: Object, key: string): (r: Option<Json>)
    ensures r.Some? <==> exists i :: 0 <= i < |obj| && obj[i].key == key
    ensures r.Some? ==> exists i :: 0 <= i < |obj| && obj[i].key == key && obj[i].value == r.value
  {
    if |obj| == 0 then None
    else if obj[0].key == key then
      assert obj[0].key == key;
      Some(obj[0].value)
    else
      var r := Get(obj[1..], key);
      assert forall i :: 0 <= i < |obj[1..]| ==> obj[1..][i] == obj[i + 1];
      r
  }

  /** `Value::as_object`. */
  function AsObject(v: Json): (r: Option<Object>)
    ensures r.Some? <==> v.JObj?
    ensures r.Some? ==> r.value == v.members
  {
    if v.JObj? then Some(v.members) else None
  }

  /** `Value::as_array`. */
  function AsArray(v: Json): (r: Option<seq<Json>>)
    ensures r.Some? <==> v.JArr?
    ensures r.Some? ==> r.value == v.items
  {
    if v.JArr? then Some(v.items) else None
  }

  /** `Value::as_str`. */
  function AsStr(v: Json): (r: Option<string>)
    ensures r.Some? <==> v.JStr?
    ensures r.Some? ==> r.value == v.s
  {
    if v.JStr? then Some(v.s) else None
  }

  /** `json::ensure_type`: a missing cast result is a type error naming the expected kind. */
  function EnsureType<T>(o: Option<T>, t: JsonType): (r: Result<T, JsonError>)
    ensures r.Ok? <==> o.Some?
    ensures r.Ok? ==> r.value == o.value
    ensures r.Err? ==> r.error == WrongType(t)
  {
    match o
    case Some(x) => Ok(x)
    case None => Err(WrongType(t))
  }

  /** `json::access_object`: the object under a key. */
  function AccessObject(obj: Object, key: string): (r: Result<Object, JsonError>)
    ensures Get(obj, key).None? ==> r == Err(MissingKey(key))
    ensures Get(obj, key).Some? ==> r == EnsureType(AsObject(Get(obj, key).value), Obj)
  {
    match Get(obj, key)
    case None => Err(MissingKey(key))
    case Some(v) => EnsureType(AsObject(v), Obj)
  }

  /** `json::access_array`: the array under a key. */
  function AccessArray(obj: Object, key: string): (r: Result<seq<Json>, JsonError>)
    ensures Get(obj, key).None? ==> r == Err(MissingKey(key))
    ensures Get(obj, key).Some? ==> r == EnsureType(AsArray(Get(obj, key).value), Arr)
  {
    match Get(obj, key)
    case None => Err(MissingKey(key))
    case Some(v) => EnsureType(AsArray(v), Arr)
  }

  /** `json::access_str`: the string under a key. */
  function AccessStr(obj: Object, key: string): (r: Result<string, JsonError>)
    ensures Get(obj, key).None? ==> r == Err(MissingKey(key))
    ensures Get(obj, key).Some? ==> r == EnsureType(AsStr(Get(obj, key).value), Str)
  {
    match Get(obj, key)
    case None => Err(MissingKey(key))
    case Some(v) => EnsureType(AsStr(v), Str)
  }

  /** A string accessor succeeds exactly on a key whose first value is a string. */
  lemma AccessStrOk(obj: Object, key: string)
    ensures AccessStr(obj, key).Ok? <==> Get(obj, key).Some? && Get(obj, key).value.JStr?
    ensures AccessStr(obj, key).Ok? ==> AccessStr(obj, key).value == Get(obj, key).value.s
  {
  }

  /** The first member with a key is the one a lookup finds, whatever follows it. */
  lemma {:induction false} GetFirst(obj: Object, i: nat, key: string)
    requires i < |obj| && obj[i].key == key
    requires forall j :: 0 <= j < i ==> obj[j].key != key
    ensures Get(obj, key) == Some(obj[i].value)
  {
    if i > 0 {
      GetFirst(obj[1..], i - 1, key);
    }
  }
}

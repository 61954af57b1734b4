/** JSON values as `serde_json::Value` holds them. An object is the sequence of
    its fields in iteration order; a parsed object has each key once. */
module Json {

  datatype Value =
    | Null
    | Bool(b: bool)
    | Number(n: int)
    | Float(r: real)
    | String(s: string)
    | Array(items: seq<Value>)
    | Object(fields: Fields)

  type Field = (string, Value)
  type Fields = seq<(string, Value)>

  datatype Option<+T> = None | Some(value: T)

  /** The field an object holds under a key, or nothing. */
  function Find(fields: Fields, key: string): Option<Value>
  {
    if fields == [] then None
    else if fields[0].0 == key then Some(fields[0].1)
    else Find(fields[1..], key)
  }

  /** `Value::get` with a string key: only an object answers. */
  function Get(v: Value, key: string): Option<Value>
  {
    if v.Object? then Find(v.fields, key) else None
  }

  function AsStr(v: Option<Value>): Option<string>
  {
    if v.Some? && v.value.String? then Some(v.value.s) else None
  }

  function GetStr(v: Value, key: string): Option<string>
  {
    AsStr(Get(v, key))
  }

  function AsArray(v: Option<Value>): Option<seq<Value>>
  {
    if v.Some? && v.value.Array? then Some(v.value.items) else None
  }

  /** `Value::as_u64`. */
  function AsU64(v: Option<Value>): Option<nat>
  {
    if v.Some? && v.value.Number? && 0 <= v.value.n < 0x1_0000_0000_0000_0000 then Some(v.value.n) else None
  }

  /** `pointer("/key/index")` on an array: serde accepts a decimal index without
      sign or leading zero. Only the token "0" is used as an index here. */
  function Child(v: Value, token: string): Option<Value>
  {
    match v
    case Object(fields) => Find(fields, token)
    case Array(items) => if token == "0" && |items| > 0 then Some(items[0]) else None
    case _ => None
  }

  function Then(v: Option<Value>, token: string): Option<Value>
  {
    if v.Some? then Child(v.value, token) else None
  }

  function GetOr<T>(v: Option<T>, default: T): T
  {
    if v.Some? then v.value else default
  }

  function OrElse<T>(v: Option<T>, other: Option<T>): Option<T>
  {
    if v.Some? then v else other
  }

  /** `Map::insert`: replaces the value of a present key, else adds the field. */
  function Insert(fields: Fields, key: string, value: Value): (r: Fields)
    ensures Find(r, key) == Some(value)
    ensures r != []
  {
    if fields == [] then [(key, value)]
    else if fields[0].0 == key then [(key, value)] + fields[1..]
    else
      var rest := Insert(fields[1..], key, value);
      assert ([fields[0]] + rest)[1..] == rest;
      [fields[0]] + rest
  }

  lemma {:induction false} InsertKeepsOthers(fields: Fields, key: string, value: Value, other: string)
    requires other != key
    ensures Find(Insert(fields, key, value), other) == Find(fields, other)
  {
    if fields != [] && fields[0].0 != key {
      InsertKeepsOthers(fields[1..], key, value, other);
      var rest := Insert(fields[1..], key, value);
      assert ([fields[0]] + rest)[1..] == rest;
    } else if fields != [] {
      assert ([(key, value)] + fields[1..])[1..] == fields[1..];
    }
  }

  lemma {:induction false} InsertTwice(fields: Fields, key: string, x: Value, y: Value)
    ensures Insert(Insert(fields, key, x), key, y) == Insert(fields, key, y)
  {
    if fields == [] {
    } else if fields[0].0 == key {
      assert Insert(fields, key, x)[1..] == fields[1..];
    } else {
      InsertTwice(fields[1..], key, x, y);
      assert Insert(fields, key, x)[1..] == Insert(fields[1..], key, x);
    }
  }

  ghost predicate UniqueKeys(fields: Fields)
  {
    forall i, j :: 0 <= i < j < |fields| ==> fields[i].0 != fields[j].0
  }

  /** Each object, at every depth, has each key once. */
  ghost predicate WellFormed(v: Value)
  {
    match v
    case Array(items) => forall i :: 0 <= i < |items| ==> WellFormed(items[i])
    case Object(fields) => UniqueKeys(fields) && forall i :: 0 <= i < |fields| ==> WellFormed(fields[i].1)
    case _ => true
  }
}

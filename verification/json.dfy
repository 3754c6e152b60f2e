/**
  Values exchanged with the conversation service, as the app sees them after
  Foundation's JSON decoding (`[String: AnyObject]` dictionaries), and the
  conditional casts (`as? String`, `as? [JSONDictionary]`, ...) the app applies.
 */
module Json {

  datatype Option<+T> = None | Some(value: T)

  /** A decoded JSON value, plus one value that is not JSON: a Swift tuple
      boxed by `as AnyObject` (the `Event` pair of an event name and its
      parameters). */
  datatype Value =
    | Str(s: string)
    | Num(n: real)
    | Bool(b: bool)
    | Null
    | Arr(items: seq<Value>)
    | Obj(fields: map<string, Value>)
    | Boxed(name: string, payload: map<string, Value>)

  /** `JSONDictionary`, that is `[String: AnyObject]`. */
  type JsonObject = map<string, Value>

  /** A transport error handed back by the session (`Error?`). */
  datatype Error = Error(description: string)

  /** What `JSONSerialization.data(withJSONObject:)` accepts: every nested value
      is a JSON value; a boxed tuple is not. */
  predicate Serializable(v: Value)
  {
    match v
    case Boxed(_, _) => false
    case Arr(items) => forall i | 0 <= i < |items| :: Serializable(items[i])
    case Obj(fields) => forall k | k in fields :: Serializable(fields[k])
    case _ => true
  }

  predicate SerializableObject(m: JsonObject)
  {
    forall k | k in m :: Serializable(m[k])
  }

  /** `json[key] as? String`. */
  function StringField(json: JsonObject, key: string): (r: Option<string>)
    ensures r.Some? <==> key in json && json[key].Str?
    ensures r.Some? ==> json[key] == Str(r.value)
  {
    if key in json && json[key].Str? then Some(json[key].s) else None
  }

  /** `json[key] as? JSONDictionary`. */
  function ObjectField(json: JsonObject, key: string): (r: Option<JsonObject>)
    ensures r.Some? <==> key in json && json[key].Obj?
    ensures r.Some? ==> json[key] == Obj(r.value)
  {
    if key in json && json[key].Obj? then Some(json[key].fields) else None
  }

  /** `json[key] as? Double`: any JSON number. */
  function NumberField(json: JsonObject, key: string): (r: Option<real>)
    ensures r.Some? <==> key in json && json[key].Num?
    ensures r.Some? ==> json[key] == Num(r.value)
  {
    if key in json && json[key].Num? then Some(json[key].n) else None
  }

  /** `json[key] as? [JSONDictionary]`: the cast of an array succeeds only when
      every element is a dictionary; one element of another kind makes the
      whole cast fail. */
  function ObjectArrayField(json: JsonObject, key: string): (r: Option<seq<JsonObject>>)
    ensures r.Some? <==> key in json && json[key].Arr?
                         && forall i | 0 <= i < |json[key].items| :: json[key].items[i].Obj?
    ensures r.Some? ==> |r.value| == |json[key].items|
                        && forall i | 0 <= i < |r.value| :: json[key].items[i] == Obj(r.value[i])
  {
    if key in json && json[key].Arr? && forall i | 0 <= i < |json[key].items| :: json[key].items[i].Obj?
    then
      var items := json[key].items;
      Some(seq(|items|, i requires 0 <= i < |items| && items[i].Obj? => items[i].fields))
    else None
  }
}

/**
 * `_parse` and the ways the builders read fields out of its result:
 * `data[key]`, `data.get(key, default)` and iteration.
 */
module Payload {
  import opened Values
  import opened Errors

  /** What `_parse` returns: a dict, or a pre-decoded list passed through. */
  datatype Payload = ObjectPayload(entries: seq<(string, Value)>) | ListPayload(items: seq<Value>) {
    function AsValue(): Value {
      match this
      case ObjectPayload(es) => Dict(es)
      case ListPayload(xs) => List(xs)
    }
  }

  /** `_parse(content)`. */
  function Parse(content: Value, py: Builtins): (r: Result<Payload>)
    // None and the empty string are refused before anything is decoded.
    ensures content == Null || content == Str("") ==> r == Err(EmptyContent)
    // A pre-decoded dict or list is returned unchanged, even an empty one.
    ensures content.Dict? || content.List? ==> r.Ok? && r.value.AsValue() == content
    // A text must decode to an object; any other value refuses the content.
    ensures content.Str? && r.Ok? ==> r.value.ObjectPayload? && py.loads(content.s) == Decoded(r.value.AsValue())
    ensures content.Str? && content.s != "" && py.loads(content.s).Decoded? && !py.loads(content.s).value.Dict?
      ==> r == Err(ContentNotObject)
    ensures content.Str? && content.s != "" && py.loads(content.s).Decoded? && py.loads(content.s).value.Dict?
      ==> r == Ok(ObjectPayload(py.loads(content.s).value.entries))
    // A text json.loads cannot decode raises its JSONDecodeError.
    ensures content.Str? && content.s != "" && py.loads(content.s).Malformed?
      ==> r == Err(MalformedJson(py.loads(content.s).detail))
    // Numbers and booleans reach json.loads, which refuses them.
    ensures content.Bool? || content.Int? || content.Float? ==> r == Err(LoadsTypeError(content))
  {
    if content == Null || content == Str("") then Err(EmptyContent)
    else if content.Dict? then Ok(ObjectPayload(content.entries))
    else if content.List? then Ok(ListPayload(content.items))
    else if !content.Str? then Err(LoadsTypeError(content))
    else
      match py.loads(content.s)
      case Malformed(detail) => Err(MalformedJson(detail))
      case Decoded(v) => if v.Dict? then Ok(ObjectPayload(v.entries)) else Err(ContentNotObject)
  }

  /** `data[key]`. */
  function Index(data: Payload, key: string): (r: Result<Value>)
    ensures data.ObjectPayload? && r.Ok? ==> (key, r.value) in data.entries
    ensures data.ObjectPayload? && r.Err? ==>
              r.error == KeyMissing(key) && forall i | 0 <= i < |data.entries| :: data.entries[i].0 != key
    ensures data.ListPayload? ==> r == Err(ListIndexedByKey)
  {
    match data
    case ListPayload(_) => Err(ListIndexedByKey)
    case ObjectPayload(es) =>
      match Lookup(es, key)
      case Some(v) => Ok(v)
      case None => Err(KeyMissing(key))
  }

  /** `data.get(key, fallback)`: never raises on a dict. */
  function Get(data: Payload, key: string, fallback: Value): (r: Result<Value>)
    ensures data.ObjectPayload? ==> r.Ok?
    ensures data.ObjectPayload? ==>
      if forall i | 0 <= i < |data.entries| :: data.entries[i].0 != key
      then r.value == fallback
      else (key, r.value) in data.entries
    ensures data.ListPayload? ==> r == Err(NoAttribute(data.AsValue(), "get"))
  {
    match data
    case ListPayload(_) => Err(NoAttribute(data.AsValue(), "get"))
    case ObjectPayload(es) =>
      match Lookup(es, key)
      case Some(v) => Ok(v)
      case None => Ok(fallback)
  }

  /** `for c in v`: a string yields its characters, a list its items and a
      dict its keys; numbers, booleans and None are not iterable. */
  function Iterate(v: Value): (r: Result<seq<Value>>)
    ensures r.Err? <==> v.Null? || v.Bool? || v.Int? || v.Float?
    ensures r.Err? ==> r.error == NotIterable(v)
    ensures v.Str? ==> r.Ok? && |r.value| == |v.s| && forall i | 0 <= i < |v.s| :: r.value[i] == Str([v.s[i]])
    ensures v.List? ==> r == Ok(v.items)
    ensures v.Dict? ==> r.Ok? && |r.value| == |v.entries| && forall i | 0 <= i < |v.entries| :: r.value[i] == Str(v.entries[i].0)
  {
    match v
    case Str(s) => Ok(seq(|s|, i requires 0 <= i < |s| => Str([s[i]])))
    case List(xs) => Ok(xs)
    case Dict(es) => Ok(KeysOf(es))
    case _ => Err(NotIterable(v))
  }
}

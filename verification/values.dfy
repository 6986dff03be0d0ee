/**
 * Python values as the tool layer receives them: either decoded from the
 * JSON text of a tool argument, or handed over already decoded by the
 * language-model client.
 */
module Values {

  datatype Option<+T> = None | Some(value: T)

  /** A Python value built from JSON: None, bool, int, float, str, list or dict.
      A dict is its items in insertion order. Python never repeats a key in a
      dict, so a lookup takes the first item with the key it asks for. */
  datatype Value =
    | Null
    | Bool(b: bool)
    | Int(i: int)
    | Float(r: real)
    | Str(s: string)
    | List(items: seq<Value>)
    | Dict(entries: seq<(string, Value)>)

  /** Python truthiness, as `bool(v)`, `if v:` and `if not v:` use it. */
  predicate Truthy(v: Value) {
    match v
    case Null => false
    case Bool(b) => b
    case Int(i) => i != 0
    case Float(r) => r != 0.0
    case Str(s) => s != ""
    case List(xs) => xs != []
    case Dict(es) => es != []
  }

  /** `type(v).__name__`, as Python's own error messages print it. */
  function TypeName(v: Value): string {
    match v
    case Null => "NoneType"
    case Bool(_) => "bool"
    case Int(_) => "int"
    case Float(_) => "float"
    case Str(_) => "str"
    case List(_) => "list"
    case Dict(_) => "dict"
  }

  /** What `json.loads` makes of a text: a value, or the message of the
      JSONDecodeError it raises. */
  datatype Decoded = Decoded(value: Value) | Malformed(detail: string)

  /** The parts of the Python runtime that the core calls but does not define:
      `json.loads`, `str()` of values that are not strings, and `repr()`. */
  datatype Builtins = Builtins(
    loads: string -> Decoded,
    show: Value -> string,
    repr: Value -> string)

  /** `str(v)`, which is also what `f"{v}"` inserts: a string is itself. */
  function Show(v: Value, py: Builtins): string {
    if v.Str? then v.s else py.show(v)
  }

  /** The keys of a dict, as strings, in insertion order. */
  function KeysOf(es: seq<(string, Value)>): seq<Value>
  {
    seq(|es|, i requires 0 <= i < |es| => Str(es[i].0))
  }

  /** `list(d.values())`. */
  function ValuesOf(es: seq<(string, Value)>): seq<Value>
  {
    seq(|es|, i requires 0 <= i < |es| => es[i].1)
  }

  /** `d[key]` / `d.get(key)` on a dict given by its items. */
  function Lookup(es: seq<(string, Value)>, key: string): (r: Option<Value>)
    ensures r.None? <==> forall i | 0 <= i < |es| :: es[i].0 != key
    ensures r.Some? ==> (key, r.value) in es
  {
    if es == [] then None
    else if es[0].0 == key then Some(es[0].1)
    else
      var rest := Lookup(es[1..], key);
      assert forall i | 1 <= i < |es| :: es[i] == es[1..][i - 1];
      rest
  }
}

/**
  Decoded JSON values as Python sees them after `json.loads`, with the
  `dict.get` chains the relay uses to dig into flow events. Numbers are
  integers only; floating-point values are not part of this model.
 */
module Json {
  import opened Results

  datatype Json =
    | JNull
    | JBool(b: bool)
    | JInt(i: int)
    | JStr(s: string)
    | JArr(items: seq<Json>)
    | JObj(fields: map<string, Json>)

  /** `type(j).__name__` */
  function TypeName(j: Json): string {
    match j
    case JNull => "NoneType"
    case JBool(_) => "bool"
    case JInt(_) => "int"
    case JStr(_) => "str"
    case JArr(_) => "list"
    case JObj(_) => "dict"
  }

  /** Python truthiness: `None`, `False`, `0`, `""`, `[]` and `{}` are false. */
  predicate Truthy(j: Json) {
    match j
    case JNull => false
    case JBool(b) => b
    case JInt(i) => i != 0
    case JStr(s) => s != ""
    case JArr(items) => items != []
    case JObj(fields) => fields != map[]
  }

  /** `m.get(key, default)` on a dict. */
  function Lookup(m: map<string, Json>, key: string, default: Json): Json {
    if key in m then m[key] else default
  }

  /**
    `j.get(key, default)`: only a dict has `get`; on anything else Python raises
    AttributeError.
   */
  function Get(j: Json, key: string, default: Json): (r: Result<Json, string>)
    ensures r.Ok? <==> j.JObj?
    ensures j.JObj? ==> r.value == Lookup(j.fields, key, default)
  {
    if j.JObj? then Ok(Lookup(j.fields, key, default))
    else Err("'" + TypeName(j) + "' object has no attribute 'get'")
  }

  /** One `.get(name, default)` link of a chain. */
  datatype Link = Link(name: string, default: Json)

  /** `j.get(k1, d1).get(k2, d2)...`: the first link applied to a non-dict raises. */
  function GetPath(j: Json, path: seq<Link>): Result<Json, string>
    decreases |path|
  {
    if path == [] then Ok(j)
    else
      match Get(j, path[0].name, path[0].default)
      case Err(e) => Err(e)
      case Ok(next) => GetPath(next, path[1..])
  }

  function Names(path: seq<Link>): (r: seq<string>)
    ensures |r| == |path|
    ensures forall i :: 0 <= i < |path| ==> r[i] == path[i].name
  {
    if path == [] then [] else [path[0].name] + Names(path[1..])
  }

  /** The object holding `leaf` under the keys `names`, one nesting level per key. */
  function Nest(names: seq<string>, leaf: Json): Json
    decreases |names|
  {
    if names == [] then leaf else JObj(map[names[0] := Nest(names[1..], leaf)])
  }

  /** A chain of `get`s finds the value nested under exactly its keys. */
  lemma {:induction false} GetPathNest(path: seq<Link>, leaf: Json)
    ensures GetPath(Nest(Names(path), leaf), path) == Ok(leaf)
    decreases |path|
  {
    if path != [] {
      var names := Names(path);
      assert names[1..] == Names(path[1..]);
      var inner := Nest(names[1..], leaf);
      assert Nest(names, leaf) == JObj(map[path[0].name := inner]);
      assert Get(Nest(names, leaf), path[0].name, path[0].default) == Ok(inner);
      GetPathNest(path[1..], leaf);
    }
  }

  /**
    `acc += part` on a str accumulator: adding anything but a str raises
    TypeError.
   */
  function AppendText(acc: string, part: Json): (r: Result<string, string>)
    ensures r.Ok? <==> part.JStr?
    ensures part.JStr? ==> r.value == acc + part.s
  {
    if part.JStr? then Ok(acc + part.s)
    else Err("can only concatenate str (not \"" + TypeName(part) + "\") to str")
  }
}

/** JavaScript values as the xAPI handler sees them: JSON-shaped data, property
    access that yields `undefined` for a missing property, truthiness, and the
    guarded access chains `a && a.b && a.b.c` the handler is written with. */
module Js {

  datatype Option<+T> = None | Some(value: T)

  /** A JavaScript value of the kinds a parsed xAPI event can hold.
      Numbers are represented by integers: only whether a number is zero
      matters to the handler. */
  datatype Json =
    | Undefined
    | Null
    | Bool(b: bool)
    | Num(n: int)
    | Str(s: string)
    | Arr(items: seq<Json>)
    | Obj(fields: map<string, Json>)

  /** A property key: `.name` / `["name"]`, or the index `[0]`. */
  datatype Key = Name(name: string) | First

  /** JavaScript truthiness: `undefined`, `null`, `false`, `0` and `""` are falsy. */
  predicate Truthy(v: Json)
    ensures Truthy(v) <==> !(v == Undefined || v == Null || v == Bool(false) || v == Num(0) || v == Str(""))
  {
    match v
    case Undefined => false
    case Null => false
    case Bool(b) => b
    case Num(n) => n != 0
    case Str(s) => s != ""
    case Arr(_) => true
    case Obj(_) => true
  }

  /** `v[k]` for a value that is not `undefined` or `null`: the property of an
      object, the first element of an array, the first character of a string;
      `undefined` when there is none. JavaScript throws a TypeError for a
      property of `undefined` or `null`; here those give `undefined`, like
      `v?.[k]`. The handler's guards never read a property of either. */
  function Get(v: Json, k: Key): (r: Json)
    ensures !Truthy(v) ==> r == Undefined
  {
    match k
    case Name(n) =>
      if v.Obj? && n in v.fields then v.fields[n] else Undefined
    case First =>
      match v
      case Obj(f) => if "0" in f then f["0"] else Undefined
      case Arr(items) => if |items| > 0 then items[0] else Undefined
      case Str(s) => if |s| > 0 then Str(s[..1]) else Undefined
      case _ => Undefined
  }

  /** The value at a property path, read like the optional chain
      `v?.k1?.k2...`: once a step finds nothing, the rest of the path is
      `undefined`. Where every step but the last yields an object, this is
      the plain access `v.k1.k2...`. */
  function Walk(v: Json, path: seq<Key>): (r: Json)
    decreases |path|
    ensures !Truthy(v) && path != [] ==> r == Undefined
  {
    if path == [] then v else Walk(Get(v, path[0]), path[1..])
  }

  /** The guarded chain `v && v.k1 && v.k1.k2 && ...`: evaluation stops at
      the first falsy value and yields it. */
  function Chain(v: Json, path: seq<Key>): (r: Json)
    decreases |path|
    ensures Truthy(r) <==> Truthy(Walk(v, path))
    ensures Truthy(r) ==> r == Walk(v, path)
  {
    if path == [] || !Truthy(v) then v else Chain(Get(v, path[0]), path[1..])
  }
}

/** The untyped (`any`) values that the pages read from HTTP response bodies,
    with the JavaScript operations the pages apply to them. */
module Json {
  import opened Wrappers

  /** A parsed JSON body. Numbers are restricted to integers. */
  datatype Value =
    | Undefined
    | Null
    | Bool(b: bool)
    | Num(n: int)
    | Str(s: string)
    | Arr(elems: seq<Value>)
    | Obj(fields: map<string, Value>)

  /** JavaScript truthiness: `undefined`, `null`, `false`, `0` and `""` are falsy. */
  predicate Truthy(v: Value) {
    match v
    case Undefined => false
    case Null => false
    case Bool(b) => b
    case Num(n) => n != 0
    case Str(s) => s != ""
    case Arr(_) => true
    case Obj(_) => true
  }

  /** `a || b`. */
  function Or(a: Value, b: Value): Value {
    if Truthy(a) then a else b
  }

  /** `v.key`: `None` when `v` is `null` or `undefined` (a TypeError is thrown);
      a missing key reads as `undefined`. */
  function Member(v: Value, key: string): Option<Value> {
    match v
    case Undefined => None
    case Null => None
    case Obj(m) => Some(if key in m then m[key] else Undefined)
    case _ => Some(Undefined)
  }

  /** `v?.key`: like `v.key`, except that it is `undefined` where `v.key` throws. */
  function OptMember(v: Value, key: string): (r: Value)
    ensures Member(v, key).Some? ==> r == Member(v, key).value
    ensures Member(v, key).None? ==> r == Undefined
  {
    match v
    case Obj(m) => if key in m then m[key] else Undefined
    case _ => Undefined
  }

  /** `v[0]`: `None` when `v` is `null` or `undefined` (a TypeError is thrown);
      an empty array, or a value without an element 0, reads as `undefined`. */
  function First(v: Value): (r: Option<Value>)
    ensures r.None? <==> Member(v, "0").None?
    ensures v.Arr? ==> r == Some(if |v.elems| > 0 then v.elems[0] else Undefined)
    ensures v.Obj? ==> r == Member(v, "0")
  {
    match v
    case Undefined => None
    case Null => None
    case Arr(elems) => Some(if |elems| > 0 then elems[0] else Undefined)
    case Str(s) => Some(if |s| > 0 then Str([s[0]]) else Undefined)
    case Obj(m) => Some(if "0" in m then m["0"] else Undefined)
    case _ => Some(Undefined)
  }

  /** `a === b`. Arrays and objects compare by reference; two values parsed
      from a body are always distinct references, so they are never equal. */
  predicate StrictEquals(a: Value, b: Value) {
    match a
    case Arr(_) => false
    case Obj(_) => false
    case _ => a == b
  }

  /** `{ ...v }`: the own enumerable fields of an object; `null`, `undefined`,
      booleans and numbers contribute none. */
  function Spread(v: Value): map<string, Value> {
    match v
    case Obj(m) => m
    case _ => map[]
  }
}

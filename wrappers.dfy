/** Optional values: `None` stands for JavaScript's `undefined`/`null` results,
    for "no error" in the validation records, and for a render that throws. */
module Wrappers {
  datatype Option<+T> = None | Some(value: T)

  /** `xs.map(f)` where `f` may throw (`None`): the whole map throws iff one call does. */
  function MapAll<A, B>(f: A -> Option<B>, xs: seq<A>): (r: Option<seq<B>>)
    ensures r.Some? <==> forall i :: 0 <= i < |xs| ==> f(xs[i]).Some?
    ensures r.Some? ==> |r.value| == |xs| && forall i :: 0 <= i < |xs| ==> f(xs[i]) == Some(r.value[i])
  {
    if xs == [] then Some([])
    else match (f(xs[0]), MapAll(f, xs[1..]))
      case (Some(y), Some(ys)) => Some([y] + ys)
      case _ => None
  }

  function Min(a: int, b: int): int {
    if a < b then a else b
  }
}

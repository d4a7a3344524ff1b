/** The home page (app/page.tsx): fetch all hostels and feature the first eight. */
module Home {
  import opened Wrappers
  import opened Json
  import opened Api

  /** `Array.isArray(data?.hostels) ? data.hostels : []`. */
  function HostelsOf(data: Value): (hostels: seq<Value>)
    ensures OptMember(data, "hostels").Arr? ==> hostels == OptMember(data, "hostels").elems
    ensures !OptMember(data, "hostels").Arr? ==> hostels == []
  {
    match OptMember(data, "hostels")
    case Arr(list) => list
    case _ => []
  }

  /** Unlike the owner's list, a top-level array body is not accepted. */
  lemma TopLevelArrayIgnored(list: seq<Value>)
    ensures HostelsOf(Arr(list)) == []
    ensures HostelsOf(Obj(map["hostels" := Arr(list)])) == list
    ensures HostelsOf(Null) == [] && HostelsOf(Undefined) == []
  {
  }

  class HomePage {
    var hostels: seq<Value>
    var loading: bool

    constructor ()
      ensures hostels == [] && loading
    {
      hostels := [];
      loading := true;
    }

    /** `fetchHostels`: a resolved reply sets the list, a rejected one keeps it;
        `loading` ends false either way. */
    method FetchHostels(reply: Reply)
      modifies this
      ensures !loading
      ensures hostels == if reply.Resolved? then HostelsOf(reply.data) else old(hostels)
    {
      if reply.Resolved? {
        var hostelsArray := HostelsOf(reply.data);
        hostels := hostelsArray;
      }
      loading := false;
    }

    /** The cards rendered once loading ends: `hostels.slice(0, 8)`. */
    function Featured(): (shown: seq<Value>)
      reads this
      ensures |shown| == Min(|hostels|, 8)
      ensures forall i :: 0 <= i < |shown| ==> shown[i] == hostels[i]
    {
      hostels[..Min(|hostels|, 8)]
    }
  }
}

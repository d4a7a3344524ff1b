/** The owner's hostel list (app/owner/hostels/page.tsx): accept either an
    array body or an object holding `hostels`, and fall back to placeholders
    for missing images, ratings and room counts. */
module OwnerHostels {
  import opened Wrappers
  import opened Json
  import opened Api

  /** `Array.isArray(data) ? data : data.hostels || []`; `None` when reading
      `.hostels` of a null body throws. */
  function Normalize(data: Value): (r: Option<Value>)
    ensures data.Arr? ==> r == Some(data)
    ensures !data.Arr? && Member(data, "hostels").None? ==> r.None?
    ensures !data.Arr? && Member(data, "hostels").Some? ==>
      var hostels := Member(data, "hostels").value;
      r == Some(if Truthy(hostels) then hostels else Arr([]))
  {
    if data.Arr? then Some(data)
    else match Member(data, "hostels")
      case None => None
      case Some(hostels) => Some(Or(hostels, Arr([])))
  }

  /** An object body gives its `hostels` array; one without `hostels`, `[]`. */
  lemma NormalizeShapes(list: seq<Value>, fields: map<string, Value>)
    ensures Normalize(Arr(list)) == Some(Arr(list))
    ensures Normalize(Obj(fields["hostels" := Arr(list)])) == Some(Arr(list))
    ensures "hostels" !in fields ==> Normalize(Obj(fields)) == Some(Arr([]))
    ensures Normalize(Null) == None
  {
  }

  class OwnerHostelsPage {
    var ownerHostels: Value

    constructor ()
      ensures ownerHostels == Arr([])
    {
      ownerHostels := Arr([]);
    }

    /** `fetchHostels`: the normalised body replaces the list; a rejected
        request, or a null body, leaves it as it was. */
    method FetchHostels(reply: Reply)
      modifies this
      ensures reply.Rejected? ==> ownerHostels == old(ownerHostels)
      ensures reply.Resolved? ==>
        ownerHostels == match Normalize(reply.data)
                        case Some(list) => list
                        case None => old(ownerHostels)
    {
      if reply.Resolved? {
        var hostelsArray := Normalize(reply.data);
        if hostelsArray.Some? {
          ownerHostels := hostelsArray.value;
        }
      }
    }
  }

  /** The list renders rows iff it is a non-empty array; otherwise "No hostels found.". */
  predicate ShowsRows(ownerHostels: Value) {
    ownerHostels.Arr? && |ownerHostels.elems| > 0
  }

  lemma EmptyFetchShowsNoHostels(fields: map<string, Value>, status: int)
    requires "hostels" !in fields
    ensures Normalize(Obj(fields)) == Some(Arr([])) && !ShowsRows(Arr([]))
  {
  }

  const Placeholder := "/placeholder.svg?height=80&width=80"

  /** `hostel.image_url?.[0]?.url || placeholder`; `None` when reading
      `hostel.image_url` of a null hostel throws. */
  function ImageSource(hostel: Value): (src: Option<Value>)
    ensures src.None? <==> Member(hostel, "image_url").None?
    ensures src.Some? ==>
      var images := OptMember(hostel, "image_url");
      var first := if First(images).Some? then First(images).value else Undefined;
      src.value == (if Truthy(OptMember(first, "url")) then OptMember(first, "url") else Str(Placeholder))
  {
    match Member(hostel, "image_url")
    case None => None
    case Some(images) =>
      var first := match First(images) case Some(f) => f case None => Undefined;
      Some(Or(OptMember(first, "url"), Str(Placeholder)))
  }

  /** `hostel.rating || "N/A"`; `None` for a null hostel. */
  function RatingText(hostel: Value): (r: Option<Value>)
    ensures r.None? <==> Member(hostel, "rating").None?
    ensures r.Some? && Truthy(OptMember(hostel, "rating")) ==> r.value == OptMember(hostel, "rating")
    ensures r.Some? && !Truthy(OptMember(hostel, "rating")) ==> r.value == Str("N/A")
  {
    match Member(hostel, "rating")
    case None => None
    case Some(rating) => Some(Or(rating, Str("N/A")))
  }

  /** `hostel.available_rooms || 0`; `None` for a null hostel. */
  function RoomsText(hostel: Value): (r: Option<Value>)
    ensures r.None? <==> Member(hostel, "available_rooms").None?
    ensures r.Some? && Truthy(OptMember(hostel, "available_rooms")) ==> r.value == OptMember(hostel, "available_rooms")
    ensures r.Some? && !Truthy(OptMember(hostel, "available_rooms")) ==> r.value == Num(0)
  {
    match Member(hostel, "available_rooms")
    case None => None
    case Some(rooms) => Some(Or(rooms, Num(0)))
  }

  /** A hostel without images, rating or rooms shows the placeholder, "N/A" and 0. */
  lemma BareHostelFallbacks(fields: map<string, Value>)
    requires "image_url" !in fields && "rating" !in fields && "available_rooms" !in fields
    ensures ImageSource(Obj(fields)) == Some(Str(Placeholder))
    ensures RatingText(Obj(fields)) == Some(Str("N/A"))
    ensures RoomsText(Obj(fields)) == Some(Num(0))
  {
  }

  /** One row of the list. */
  datatype Row = Row(id: Value, image: Value, name: Value, location: Value, rating: Value, rooms: Value)

  /** A hostel's row; `None` when reading `hostel.id` throws (a null or
      undefined entry), which is also when every other read throws. */
  function RowOf(hostel: Value): (r: Option<Row>)
    ensures r.Some? <==> Member(hostel, "id").Some?
    ensures r.Some? ==>
      Some(r.value.image) == ImageSource(hostel) && Some(r.value.rating) == RatingText(hostel)
      && Some(r.value.rooms) == RoomsText(hostel)
  {
    match (ImageSource(hostel), RatingText(hostel), RoomsText(hostel))
    case (Some(image), Some(rating), Some(rooms)) =>
      Some(Row(OptMember(hostel, "id"), image, OptMember(hostel, "name"), OptMember(hostel, "location"), rating, rooms))
    case _ => None
  }

  datatype View = NoHostels | Rows(rows: seq<Row>)

  /** The card body: "No hostels found." unless the list is a non-empty array,
      otherwise one row per hostel; `None` when some entry is null or undefined. */
  function Render(ownerHostels: Value): (v: Option<View>)
    ensures v == Some(NoHostels) <==> !ShowsRows(ownerHostels)
    ensures v.None? <==> ShowsRows(ownerHostels) && exists h :: h in ownerHostels.elems && Member(h, "id").None?
    ensures v.Some? && v.value.Rows? ==>
      |v.value.rows| == |ownerHostels.elems|
      && forall i :: 0 <= i < |v.value.rows| ==> RowOf(ownerHostels.elems[i]) == Some(v.value.rows[i])
  {
    if !ShowsRows(ownerHostels) then Some(NoHostels)
    else match MapAll(RowOf, ownerHostels.elems)
      case None => None
      case Some(rows) => Some(Rows(rows))
  }

  /** A null entry in the list makes the page throw. */
  lemma NullEntryThrows(hostels: seq<Value>)
    ensures Render(Arr(hostels + [Null])).None?
  {
    assert Null in hostels + [Null];
  }
}

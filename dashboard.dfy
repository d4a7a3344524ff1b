/** The owner dashboard (app/owner/dashboard/page.tsx): fetch the dashboard
    summary, show the hostel and booking counts and the three most recent
    bookings, each joined to its hostel by id. */
module OwnerDashboard {
  import opened Wrappers
  import opened Json
  import opened Text
  import opened Api

  /** The initial `dashboardData`. */
  const InitialData := Obj(map[
    "hostels" := Arr([]),
    "bookings" := Arr([]),
    "total_revenue" := Num(0),
    "total_rooms" := Num(0)])

  predicate HasToken(token: Option<string>) {
    token.Some? && token.value != ""
  }

  class DashboardPage {
    var dashboardData: Value
    var loading: bool

    constructor ()
      ensures dashboardData == InitialData && loading
    {
      dashboardData := InitialData;
      loading := true;
    }

    /** `fetchOwnerData`. Without a token it throws before the `try`, so no
        request is made and neither the data nor `loading` changes. With one,
        a resolved reply replaces the data, a rejected one keeps it, and
        `loading` ends false. */
    method FetchOwnerData(token: Option<string>, reply: Reply) returns (requested: bool)
      modifies this
      ensures requested <==> HasToken(token)
      ensures !requested ==> dashboardData == old(dashboardData) && loading == old(loading)
      ensures requested ==>
        !loading && dashboardData == (if reply.Resolved? then reply.data else old(dashboardData))
    {
      requested := HasToken(token);
      if !requested {
        return;
      }
      if reply.Resolved? {
        dashboardData := reply.data;
      }
      loading := false;
    }
  }

  /** `bookings.slice(0, 3)`: the first three bookings, in order. */
  function Recent(bookings: seq<Value>): (r: seq<Value>)
    ensures |r| == Min(|bookings|, 3)
    ensures forall i :: 0 <= i < |r| ==> r[i] == bookings[i]
  {
    bookings[..Min(|bookings|, 3)]
  }

  /** `h.id === id`. */
  predicate IdMatches(hostel: Value, id: Value) {
    StrictEquals(OptMember(hostel, "id"), id)
  }

  /** `hostels.find(h => h.id === id)`, as the index of the hostel found. */
  function FindHostel(hostels: seq<Value>, id: Value): (r: Option<nat>)
    ensures r.Some? ==> r.value < |hostels| && IdMatches(hostels[r.value], id)
    ensures r.Some? ==> forall k :: 0 <= k < r.value ==> !IdMatches(hostels[k], id)
    ensures r.None? ==> forall k :: 0 <= k < |hostels| ==> !IdMatches(hostels[k], id)
  {
    if hostels == [] then None
    else if IdMatches(hostels[0], id) then Some(0)
    else
      match FindHostel(hostels[1..], id)
      case None => None
      case Some(k) => Some(k + 1)
  }

  /** `hostel?.name || 'Unknown Hostel'`, where `hostel` is the first hostel
      whose id equals the booking's `hostel_id`. */
  function HostelLabel(hostels: seq<Value>, booking: Value): (shown: Value)
    ensures Truthy(shown)
    ensures var id := OptMember(booking, "hostel_id");
      forall k ::
        (0 <= k < |hostels| && IdMatches(hostels[k], id)
         && forall j :: 0 <= j < k ==> !IdMatches(hostels[j], id))
        ==> shown == Or(OptMember(hostels[k], "name"), Str("Unknown Hostel"))
    ensures var id := OptMember(booking, "hostel_id");
      (forall j :: 0 <= j < |hostels| ==> !IdMatches(hostels[j], id)) ==> shown == Str("Unknown Hostel")
  {
    var found := FindHostel(hostels, OptMember(booking, "hostel_id"));
    var name := if found.Some? then OptMember(hostels[found.value], "name") else Undefined;
    Or(name, Str("Unknown Hostel"))
  }

  datatype Colour = GreenText | YellowText

  /** Green iff the status is exactly 'confirmed'. */
  function StatusColour(status: Value): (c: Colour)
    ensures c == GreenText <==> status == Str("confirmed")
  {
    if StrictEquals(status, Str("confirmed")) then GreenText else YellowText
  }

  /** One recent-booking row. */
  datatype Row = Row(id: Value, hostelLabel: Value, statusLabel: string, colour: Colour)

  /** A row; `None` when `booking.status.charAt` throws. */
  function RowOf(hostels: seq<Value>, booking: Value): (r: Option<Row>)
    ensures r.Some? <==> OptMember(booking, "status").Str?
    ensures r.Some? ==>
      r.value.statusLabel == Capitalize(OptMember(booking, "status").s)
      && r.value.colour == StatusColour(OptMember(booking, "status"))
      && r.value.hostelLabel == HostelLabel(hostels, booking)
  {
    match OptMember(booking, "status")
    case Str(status) =>
      Some(Row(OptMember(booking, "id"), HostelLabel(hostels, booking), Capitalize(status), StatusColour(Str(status))))
    case _ => None
  }

  const TilePlaceholder := "/placeholder.svg?height=64&width=64"

  /** One tile of the "Your Hostels" tab. */
  datatype Tile = Tile(id: Value, image: Value, name: Value, location: Value, availableRooms: Value)

  /** A hostel's tile: `key={hostel.id}` and `hostel.image_url[0]?.url || placeholder`.
      `None` when reading `hostel.id` or `hostel.image_url[0]` throws: a null
      hostel, or one whose `image_url` is missing or null. */
  function TileOf(hostel: Value): (t: Option<Tile>)
    ensures t.Some? <==> Member(hostel, "id").Some? && First(OptMember(hostel, "image_url")).Some?
    ensures t.Some? ==>
      var url := OptMember(First(OptMember(hostel, "image_url")).value, "url");
      t.value.image == (if Truthy(url) then url else Str(TilePlaceholder))
      && t.value.id == OptMember(hostel, "id") && t.value.name == OptMember(hostel, "name")
  {
    match Member(hostel, "image_url")
    case None => None
    case Some(images) =>
      match First(images)
      case None => None
      case Some(first) =>
        Some(Tile(OptMember(hostel, "id"), Or(OptMember(first, "url"), Str(TilePlaceholder)),
                  OptMember(hostel, "name"), OptMember(hostel, "location"),
                  OptMember(hostel, "available_rooms")))
  }

  /** The figures, rows and tiles the dashboard shows. Both tabs' contents are
      built on every render, whichever tab is open. */
  datatype View = View(hostelCount: nat, bookingCount: nat, recent: seq<Row>, tiles: seq<Tile>)

  /** The dashboard body; `None` when rendering throws. It renders iff
      `hostels` and `bookings` are arrays, every hostel has a tile, and every
      one of the first three bookings has a row. */
  function Render(data: Value): (v: Option<View>)
    ensures v.Some? <==>
      OptMember(data, "hostels").Arr? && OptMember(data, "bookings").Arr?
      && (forall h :: h in OptMember(data, "hostels").elems ==> TileOf(h).Some?)
      && (forall b :: b in Recent(OptMember(data, "bookings").elems) ==>
            RowOf(OptMember(data, "hostels").elems, b).Some?)
    ensures v.Some? ==>
      var hostels := OptMember(data, "hostels").elems;
      var bookings := OptMember(data, "bookings").elems;
      v.value.hostelCount == |hostels| && v.value.bookingCount == |bookings|
      && |v.value.recent| == Min(|bookings|, 3)
      && (forall i :: 0 <= i < |v.value.recent| ==> RowOf(hostels, bookings[i]) == Some(v.value.recent[i]))
      && |v.value.tiles| == |hostels|
      && (forall i :: 0 <= i < |hostels| ==> TileOf(hostels[i]) == Some(v.value.tiles[i]))
  {
    match (Member(data, "hostels"), Member(data, "bookings"))
    case (Some(Arr(hostels)), Some(Arr(bookings))) =>
      var rowOf := (b: Value) => RowOf(hostels, b);
      var recent := Recent(bookings);
      (match (MapAll(rowOf, recent), MapAll(TileOf, hostels))
       case (Some(rows), Some(tiles)) =>
         Some(View(|hostels|, |bookings|, rows, tiles))
       case _ => None)
    case _ => None
  }

  /** Before the fetch, or without a token, the dashboard shows zero hostels,
      zero bookings, no rows and no tiles. */
  lemma InitialRender()
    ensures Render(InitialData) == Some(View(0, 0, [], []))
  {
    assert OptMember(InitialData, "hostels") == Arr([]);
    assert OptMember(InitialData, "bookings") == Arr([]);
  }

  /** A hostel without `image_url` makes the whole dashboard throw, since
      `hostel.image_url[0]` is read with `.` where the owner's hostel list uses `?.`. */
  lemma HostelWithoutImagesThrows()
    ensures Render(Obj(map[
      "hostels" := Arr([Obj(map["id" := Num(1), "name" := Str("A")])]),
      "bookings" := Arr([])])) == None
  {
    var hostel := Obj(map["id" := Num(1), "name" := Str("A")]);
    assert TileOf(hostel).None?;
    assert hostel in [hostel];
  }

  /** A hostel whose `image_url` is an empty array renders with the placeholder. */
  lemma EmptyImageListShowsPlaceholder(fields: map<string, Value>)
    ensures TileOf(Obj(fields["image_url" := Arr([])])).Some?
    ensures TileOf(Obj(fields["image_url" := Arr([])])).value.image == Str(TilePlaceholder)
  {
  }
}

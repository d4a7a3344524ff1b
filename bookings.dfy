/** The owner bookings page (app/owner/bookings/page.tsx): fetch the owner's
    hostels with their bookings, flatten them into one list that names each
    booking's hostel, and label each booking's status. */
module OwnerBookings {
  import opened Wrappers
  import opened Json
  import opened Text
  import opened Api

  // ---------------------------------------------------------------------------
  // Fetching

  /** The `hostelsData` a fetch leaves: `response.data.hostels || []`, or the
      current list when the request or the read of `.hostels` threw. */
  function AfterFetch(current: Value, reply: Reply): (r: Value)
    ensures reply.Rejected? || Member(reply.data, "hostels").None? ==> r == current
    ensures reply.Resolved? && Member(reply.data, "hostels").Some? ==>
      var hostels := OptMember(reply.data, "hostels");
      r == (if Truthy(hostels) then hostels else Arr([]))
  {
    match reply
    case Rejected => current
    case Resolved(_, data) =>
      match Member(data, "hostels")
      case None => current
      case Some(hostels) => Or(hostels, Arr([]))
  }

  /** `!token` for `localStorage.getItem("token")`: null or empty. */
  predicate HasToken(token: Option<string>) {
    token.Some? && token.value != ""
  }

  class BookingsPage {
    var hostelsData: Value
    var loading: bool

    constructor ()
      ensures hostelsData == Arr([]) && loading
    {
      hostelsData := Arr([]);
      loading := true;
    }

    /** `fetchBookings`: without a token it throws before the request; the throw
        is caught. Every path ends with `loading` false. */
    method FetchBookings(token: Option<string>, reply: Reply) returns (requested: bool)
      modifies this
      ensures requested <==> HasToken(token)
      ensures !loading
      ensures hostelsData == if requested then AfterFetch(old(hostelsData), reply) else old(hostelsData)
    {
      requested := HasToken(token);
      if requested {
        hostelsData := AfterFetch(hostelsData, reply);
      }
      loading := false;
    }
  }

  /** A body without a truthy `hostels` leaves an empty list. */
  lemma MissingHostelsGivesEmptyList(fields: map<string, Value>, current: Value, status: int)
    requires "hostels" !in fields || !Truthy(fields["hostels"])
    ensures AfterFetch(current, Resolved(status, Obj(fields))) == Arr([])
  {
  }

  // ---------------------------------------------------------------------------
  // Flattening

  /** `{ ...booking, hostel_name: name }`: the booking's own fields, with
      `hostel_name` set (or replaced) and nothing else changed. */
  function Tagged(booking: Value, name: Value): (r: Value)
    ensures r.Obj? && "hostel_name" in r.fields && r.fields["hostel_name"] == name
    ensures forall k :: k in Spread(booking) ==> k in r.fields
    ensures forall k :: k in r.fields && k != "hostel_name" ==> k in Spread(booking) && r.fields[k] == Spread(booking)[k]
  {
    Obj(Spread(booking)["hostel_name" := name])
  }

  /** `hostel.bookings` holds an array, so `.map` does not throw. */
  predicate Shaped(hostel: Value) {
    match Member(hostel, "bookings")
    case Some(Arr(_)) => true
    case _ => false
  }

  function BookingsOf(hostel: Value): seq<Value>
    requires Shaped(hostel)
  {
    Member(hostel, "bookings").value.elems
  }

  function NameOf(hostel: Value): Value {
    OptMember(hostel, "hostel_name")
  }

  /** `hostel.bookings.map(b => ({ ...b, hostel_name: hostel.hostel_name }))`. */
  function HostelRows(hostel: Value): (rows: Option<seq<Value>>)
    ensures rows.Some? <==> Shaped(hostel)
  {
    if Shaped(hostel) then
      var bookings := BookingsOf(hostel);
      Some(seq(|bookings|, i requires 0 <= i < |bookings| => Tagged(bookings[i], NameOf(hostel))))
    else None
  }

  /** The number of bookings over all hostels. */
  function Total(hostels: seq<Value>): nat
    requires forall i :: 0 <= i < |hostels| ==> Shaped(hostels[i])
  {
    if hostels == [] then 0 else |BookingsOf(hostels[0])| + Total(hostels[1..])
  }

  /** `hostelsData.flatMap(...)`. The list exists iff every hostel has an array
      of bookings (otherwise the page throws), and then it holds as many entries
      as the hostels have bookings. */
  function Flatten(hostels: seq<Value>): (all: Option<seq<Value>>)
    ensures all.Some? <==> forall i :: 0 <= i < |hostels| ==> Shaped(hostels[i])
    ensures all.Some? ==> |all.value| == Total(hostels)
  {
    if hostels == [] then Some([])
    else
      var rest := Flatten(hostels[1..]);
      assert forall i :: 0 < i < |hostels| ==> hostels[i] == hostels[1..][i - 1];
      match (HostelRows(hostels[0]), rest)
      case (Some(rows), Some(more)) => Some(rows + more)
      case _ => None
  }

  /** Booking `j` of hostel `i` sits after the bookings of the hostels before
      it, and is that booking tagged with hostel `i`'s name: hostels in order,
      and each hostel's bookings in order. */
  lemma {:induction false} FlattenAt(hostels: seq<Value>, i: nat, j: nat)
    requires forall k :: 0 <= k < |hostels| ==> Shaped(hostels[k])
    requires i < |hostels| && j < |BookingsOf(hostels[i])|
    ensures Flatten(hostels).Some?
    ensures Total(hostels[..i]) + j < |Flatten(hostels).value|
    ensures Flatten(hostels).value[Total(hostels[..i]) + j] == Tagged(BookingsOf(hostels[i])[j], NameOf(hostels[i]))
  {
    var rows := HostelRows(hostels[0]).value;
    var rest := Flatten(hostels[1..]).value;
    assert Flatten(hostels).value == rows + rest;
    if i > 0 {
      FlattenAt(hostels[1..], i - 1, j);
      assert hostels[1..][i - 1] == hostels[i];
      assert hostels[..i][1..] == hostels[1..][..i - 1];
      assert hostels[..i][0] == hostels[0];
      assert Total(hostels[..i]) == |rows| + Total(hostels[1..][..i - 1]);
    }
  }

  // ---------------------------------------------------------------------------
  // Rendering

  datatype Badge = Yellow | Green

  /** The badge is yellow iff the status is exactly 'pending'. */
  function BadgeFor(status: Value): (b: Badge)
    ensures b == Yellow <==> status == Str("pending")
  {
    if StrictEquals(status, Str("pending")) then Yellow else Green
  }

  /** One booking card: its number, its status label and badge, its hostel. */
  datatype Card = Card(id: Value, statusLabel: string, badge: Badge, hostelName: Value)

  /** A card; `None` when `booking.status.charAt` throws (the status is not a string). */
  function CardOf(booking: Value): (c: Option<Card>)
    ensures c.Some? <==> OptMember(booking, "status").Str?
    ensures c.Some? ==>
      var status := OptMember(booking, "status").s;
      c.value.statusLabel == Capitalize(status) && c.value.badge == BadgeFor(Str(status))
      && c.value.hostelName == OptMember(booking, "hostel_name")
  {
    match OptMember(booking, "status")
    case Str(status) =>
      Some(Card(OptMember(booking, "id"), Capitalize(status), BadgeFor(Str(status)), OptMember(booking, "hostel_name")))
    case _ => None
  }

  datatype View = NoBookings | Cards(cards: seq<Card>)

  /** The page body once loading ends; `None` when rendering throws: the list
      is not an array, some hostel has no array of bookings, or some booking's
      status is not a string. "No active bookings found." shows iff the list
      flattens to no booking; otherwise one card per booking, in order. */
  function Render(hostelsData: Value): (v: Option<View>)
    ensures v.Some? <==>
      hostelsData.Arr? && Flatten(hostelsData.elems).Some?
      && forall b :: b in Flatten(hostelsData.elems).value ==> CardOf(b).Some?
    ensures v == Some(NoBookings) <==> hostelsData.Arr? && Flatten(hostelsData.elems) == Some([])
    ensures v.Some? && v.value.Cards? ==>
      var all := Flatten(hostelsData.elems).value;
      |v.value.cards| == |all| > 0
      && forall i :: 0 <= i < |all| ==> CardOf(all[i]) == Some(v.value.cards[i])
  {
    match hostelsData
    case Arr(hostels) =>
      (match Flatten(hostels)
       case None => None
       case Some(all) =>
         if all == [] then Some(NoBookings)
         else match MapAll(CardOf, all)
           case None => None
           case Some(cards) => Some(Cards(cards)))
    case _ => None
  }

  /** A response without hostels, or with none that has a booking, renders
      "No active bookings found.". */
  lemma EmptyListRendersMessage(fields: map<string, Value>, status: int)
    requires "hostels" !in fields || !Truthy(fields["hostels"])
    ensures Render(AfterFetch(Arr([]), Resolved(status, Obj(fields)))) == Some(NoBookings)
  {
  }

  /** Without a token the page shows the empty list. */
  lemma NoTokenRendersMessage()
    ensures Render(Arr([])) == Some(NoBookings)
  {
  }
}

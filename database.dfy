/** An optional value, for lookups that may find nothing. */
module Wrappers {
  datatype Option<+T> = None | Some(value: T)
}

/**
 * The persistent state the hotels service reads, as one immutable value, and
 * the read queries it issues against it. Enrollments and tickets are keyed
 * lookups; hotels and rooms are tables kept in storage order, because
 * `findMany` returns an ordered array and `findFirst` returns the first row
 * that matches.
 */
module Database {
  import opened Wrappers

  /** Status of a ticket purchase. */
  datatype TicketStatus = Reserved | Paid

  /** Whether a kind of ticket is for remote attendance and includes accommodation. */
  datatype TicketType = TicketType(isRemote: bool, includesHotel: bool)

  /** A ticket together with the ticket type it references. */
  datatype Ticket = Ticket(id: int, status: TicketStatus, ticketType: TicketType)

  /** A user's registration for the event (its address is irrelevant here). */
  datatype Enrollment = Enrollment(id: int, userId: int)

  /** A hotel row: its scalar columns, timestamps as plain numbers. */
  datatype Hotel = Hotel(id: int, name: string, image: string, createdAt: int, updatedAt: int)

  /** A room row; `hotelId` is the foreign key to the hotel owning it. */
  datatype Room = Room(id: int, name: string, capacity: int, hotelId: int, createdAt: int, updatedAt: int)

  /** What the hotel listing projects a hotel to: id, name and image only. */
  datatype HotelSummary = HotelSummary(id: int, name: string, image: string)

  /** A hotel with its rooms relation included. */
  datatype HotelWithRooms = HotelWithRooms(hotel: Hotel, rooms: seq<Room>)

  datatype Db = Db(
    enrollments: map<int, Enrollment>,  // by user id
    tickets: map<int, Ticket>,          // by enrollment id; a missing key is "no ticket"
    hotels: seq<Hotel>,                 // the hotel table, in storage order
    rooms: seq<Room>)                   // the room table, in storage order

  /** The enrollment of a user, if there is one. */
  function FindEnrollmentByUserId(db: Db, userId: int): Option<Enrollment>
  {
    if userId in db.enrollments then Some(db.enrollments[userId]) else None
  }

  /** The ticket attached to an enrollment, if there is one. */
  function FindTicketByEnrollmentId(db: Db, enrollmentId: int): Option<Ticket>
  {
    if enrollmentId in db.tickets then Some(db.tickets[enrollmentId]) else None
  }

  function Summary(h: Hotel): HotelSummary
  {
    HotelSummary(h.id, h.name, h.image)
  }

  /** Projects every row of a hotel table, keeping the table's order. */
  function Project(hotels: seq<Hotel>): (r: seq<HotelSummary>)
    ensures |r| == |hotels|
    ensures forall i :: 0 <= i < |r| ==>
      r[i].id == hotels[i].id && r[i].name == hotels[i].name && r[i].image == hotels[i].image
  {
    if hotels == [] then [] else [Summary(hotels[0])] + Project(hotels[1..])
  }

  /** All hotels, each projected to id, name and image. */
  function ListHotels(db: Db): seq<HotelSummary>
  {
    Project(db.hotels)
  }

  /** The first row of a hotel table whose id is `id`, if any. */
  function FindFirstHotel(hotels: seq<Hotel>, id: int): (r: Option<Hotel>)
    ensures r.Some? <==> exists i :: 0 <= i < |hotels| && hotels[i].id == id
    ensures r.Some? ==> exists i :: 0 <= i < |hotels| && hotels[i] == r.value && r.value.id == id
                          && forall j :: 0 <= j < i ==> hotels[j].id != id
  {
    if hotels == [] then None
    else if hotels[0].id == id then Some(hotels[0])
    else
      var r := FindFirstHotel(hotels[1..], id);
      assert forall i :: 0 < i < |hotels| ==> hotels[i] == hotels[1..][i - 1];
      r
  }

  /** The hotel whose id is `id`, without its rooms. */
  function FindHotelById(db: Db, id: int): Option<Hotel>
  {
    FindFirstHotel(db.hotels, id)
  }

  /**
   * The rows of a room table that belong to hotel `hotelId`, in table order:
   * each such row as many times as the table holds it, and no other row.
   */
  function RoomsOf(rooms: seq<Room>, hotelId: int): (r: seq<Room>)
    ensures |r| <= |rooms|
    ensures forall x :: x in r <==> x in rooms && x.hotelId == hotelId
    ensures forall x :: multiset(r)[x] == if x.hotelId == hotelId then multiset(rooms)[x] else 0
  {
    if rooms == [] then []
    else
      assert rooms == [rooms[0]] + rooms[1..];
      if rooms[0].hotelId == hotelId then [rooms[0]] + RoomsOf(rooms[1..], hotelId)
      else RoomsOf(rooms[1..], hotelId)
  }

  /** The hotel whose id is `hotelId` with its rooms included, if the hotel exists. */
  function FindRoomsByHotelId(db: Db, hotelId: int): Option<HotelWithRooms>
  {
    match FindHotelById(db, hotelId)
    case None => None
    case Some(h) => Some(HotelWithRooms(h, RoomsOf(db.rooms, hotelId)))
  }

  /**
   * Read from one state, the hotel-with-rooms query finds a hotel exactly when
   * the plain hotel query does, the same hotel, and the rooms it includes
   * are exactly the stored rooms of that hotel, each as often as it is stored.
   */
  lemma RoomsQueryAgreesWithHotelQuery(db: Db, hotelId: int)
    ensures FindRoomsByHotelId(db, hotelId).Some? <==> FindHotelById(db, hotelId).Some?
    ensures FindRoomsByHotelId(db, hotelId).Some? ==>
      var hr := FindRoomsByHotelId(db, hotelId).value;
      && hr.hotel == FindHotelById(db, hotelId).value
      && hr.hotel.id == hotelId
      && (forall x :: x in hr.rooms <==> x in db.rooms && x.hotelId == hotelId)
      && (forall x :: multiset(hr.rooms)[x] == if x.hotelId == hotelId then multiset(db.rooms)[x] else 0)
  {
  }

  /** Every hotel of the table is listed, under its own id, name and image. */
  lemma EveryHotelListed(hotels: seq<Hotel>, h: Hotel)
    requires h in hotels
    ensures Summary(h) in Project(hotels)
  {
  }

  /** Every listed entry comes from a row of the table. */
  lemma {:induction false} OnlyHotelsListed(hotels: seq<Hotel>, s: HotelSummary)
    requires s in Project(hotels)
    ensures exists h :: h in hotels && Summary(h) == s
  {
    if s != Summary(hotels[0]) {
      OnlyHotelsListed(hotels[1..], s);
      var h :| h in hotels[1..] && Summary(h) == s;
      assert h in hotels;
    }
  }
}

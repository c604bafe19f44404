/**
 * The HTTP handlers for the hotel routes. `GetHotels` calls the service and
 * turns its result into a reply: the data with status 200, or the status
 * its catch block picks from the thrown error's `name` and `statusText`.
 * Sending the reply is I/O and is left out; a reply is a status and an
 * optional body, and `None` stands for "nothing is sent".
 */
module HotelsController {
  import opened Wrappers
  import opened Database
  import Service = HotelsService

  const OK := 200
  const BAD_REQUEST := 400
  const UNAUTHORIZED := 401
  const NOT_FOUND := 404

  /** A thrown error as the catch block sees it. */
  datatype Thrown = Thrown(name: string, statusText: Option<string>)

  /** A reply: a status code and, for a success, the data sent with it. */
  datatype Reply<T> = Reply(status: int, body: Option<T>)

  /** The error the service throws for each failure. */
  function Raised<T>(o: Service.Outcome<T>): Thrown
    requires !o.Ok?
  {
    match o
    case Unauthorized => Thrown("UnauthorizedError", None)
    case NotFound => Thrown("NotFoundError", None)
    case BadRequest => Thrown("RequestError", Some("BAD_REQUEST"))
  }

  /**
   * The catch block: the error's name is tested before its statusText, and
   * an error that matches none of the three tests gets no status at all.
   */
  function StatusForError(e: Thrown): (s: Option<int>)
    ensures s.Some? ==> s.value in {UNAUTHORIZED, NOT_FOUND, BAD_REQUEST}
    ensures e.name == "UnauthorizedError" ==> s == Some(UNAUTHORIZED)
    ensures s == Some(NOT_FOUND) <==> e.name == "NotFoundError"
    ensures s == Some(BAD_REQUEST) <==>
              e.name != "UnauthorizedError" && e.name != "NotFoundError" && e.statusText == Some("BAD_REQUEST")
    ensures s.None? <==>
              e.name != "UnauthorizedError" && e.name != "NotFoundError" && e.statusText != Some("BAD_REQUEST")
  {
    if e.name == "UnauthorizedError" then Some(UNAUTHORIZED)
    else if e.name == "NotFoundError" then Some(NOT_FOUND)
    else if e.statusText == Some("BAD_REQUEST") then Some(BAD_REQUEST)
    else None
  }

  /**
   * The try/catch around a service call: the service's result goes out
   * unchanged with 200; each of its failures gets the status of its kind,
   * with no data, so every service outcome is answered.
   */
  function Respond<T>(o: Service.Outcome<T>): (r: Option<Reply<T>>)
    ensures r.Some?
    ensures o.Ok? ==> r == Some(Reply(OK, Some(o.value)))
    ensures o.Unauthorized? ==> r == Some(Reply(UNAUTHORIZED, None))
    ensures o.NotFound? ==> r == Some(Reply(NOT_FOUND, None))
    ensures o.BadRequest? ==> r == Some(Reply(BAD_REQUEST, None))
  {
    match o
    case Ok(v) => Some(Reply(OK, Some(v)))
    case _ =>
      match StatusForError(Raised(o))
      case None => None
      case Some(s) => Some(Reply(s, None))
  }

  /** What a client reads back from a reply: the outcome it reports, if any. */
  function Recover<T>(r: Reply<T>): Option<Service.Outcome<T>>
  {
    if r.status == OK && r.body.Some? then Some(Service.Ok(r.body.value))
    else if r.status == UNAUTHORIZED then Some(Service.Unauthorized)
    else if r.status == NOT_FOUND then Some(Service.NotFound)
    else if r.status == BAD_REQUEST then Some(Service.BadRequest)
    else None
  }

  /** The reply determines the service's outcome: no two outcomes share a reply. */
  lemma RespondLosesNothing<T>(o: Service.Outcome<T>)
    ensures Recover(Respond(o).value) == Some(o)
  {
  }

  /** An error the service does not raise, such as a TypeError, gets no reply. */
  lemma UnknownErrorUnanswered(message: Option<string>)
    requires message != Some("BAD_REQUEST")
    ensures StatusForError(Thrown("TypeError", message)).None?
  {
  }

  /** GET /hotels. */
  function GetHotels(db: Db, userId: int): (r: Option<Reply<seq<HotelSummary>>>)
    ensures r.Some?
    ensures r.value.status == OK <==> Service.Entitled(db, userId)
    ensures r.value.status == OK ==> r.value.body == Some(ListHotels(db))
    ensures r.value.status != OK ==> r.value.body.None?
    ensures r.value.status == UNAUTHORIZED <==> Service.Eligibility(db, userId).Unauthorized?
    ensures r.value.status == NOT_FOUND <==> Service.Eligibility(db, userId).NotFound?
    ensures r.value.status == BAD_REQUEST <==> Service.Eligibility(db, userId).BadRequest?
  {
    Respond(Service.GetHotels(db, userId))
  }

  /**
   * GET /hotels/:hotelId as written: it reads the user and hotel ids and
   * answers 200 without calling the service.
   */
  function GetRooms(db: Db, userId: int, hotelId: int): (r: Reply<HotelWithRooms>)
    ensures r.status == OK && r.body.None?
  {
    Reply(OK, None)
  }

  /** The reply of GET /hotels/:hotelId depends on nothing it is given. */
  lemma GetRoomsIgnoresRequest(db1: Db, userId1: int, hotelId1: int, db2: Db, userId2: int, hotelId2: int)
    ensures GetRooms(db1, userId1, hotelId1) == GetRooms(db2, userId2, hotelId2)
  {
  }

  /**
   * A user with no enrollment, who the room service refuses with NotFound,
   * still gets 200 from GET /hotels/:hotelId as written.
   */
  lemma GetRoomsAnswersRefusedUser()
    ensures var db := Db(map[], map[], [], []);
      && Service.GetRoomsByHotelId(db, 1, 1) == Service.NotFound
      && GetRooms(db, 1, 1).status == OK
  {
  }

  /**
   * GET /hotels/:hotelId as it evidently should answer: the room service's
   * outcome, answered by the same try/catch as GET /hotels.
   */
  function GetRoomsChecked(db: Db, userId: int, hotelId: int): (r: Option<Reply<HotelWithRooms>>)
    ensures r.Some?
    ensures !Service.Entitled(db, userId) ==> r.value.status == GetHotels(db, userId).value.status
    ensures r.value.status == UNAUTHORIZED <==> Service.Eligibility(db, userId).Unauthorized?
    ensures r.value.status == NOT_FOUND <==> Service.Eligibility(db, userId).NotFound?
    ensures r.value.status == BAD_REQUEST <==>
              || Service.Eligibility(db, userId).BadRequest?
              || (Service.Entitled(db, userId) && FindHotelById(db, hotelId).None?)
    ensures Service.Entitled(db, userId) && FindHotelById(db, hotelId).None? ==> r.value == Reply(BAD_REQUEST, None)
    ensures Service.Entitled(db, userId) && FindHotelById(db, hotelId).Some? ==>
              && r.value.status == OK
              && r.value.body.Some?
              && r.value.body.value.hotel == FindHotelById(db, hotelId).value
              && (forall x :: x in r.value.body.value.rooms <==> x in db.rooms && x.hotelId == hotelId)
              && (forall x :: multiset(r.value.body.value.rooms)[x] ==
                    if x.hotelId == hotelId then multiset(db.rooms)[x] else 0)
    ensures r.value.status == OK <==> Service.Entitled(db, userId) && FindHotelById(db, hotelId).Some?
    ensures r.value.status == OK ==> r.value.body == Some(Service.GetRoomsByHotelId(db, userId, hotelId).value)
    ensures r.value.status != OK ==> r.value.body.None?
  {
    Respond(Service.GetRoomsByHotelId(db, userId, hotelId))
  }
}

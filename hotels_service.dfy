/**
 * The hotels service: two entry points that each walk the chain
 * user -> enrollment -> ticket -> ticket type, fail at the first rule that is
 * broken, and only then read hotels. A thrown error becomes a tagged
 * `Outcome`; the database is a value the functions read and cannot change.
 */
module HotelsService {
  import opened Wrappers
  import opened Database

  /** Exactly one result per call: one of the three failures, or the data. */
  datatype Outcome<+T> = Unauthorized | NotFound | BadRequest | Ok(value: T)

  /** Both outcomes are failures, and of the same kind. */
  predicate SameFailure<T, U>(a: Outcome<T>, b: Outcome<U>)
  {
    || (a.Unauthorized? && b.Unauthorized?)
    || (a.NotFound? && b.NotFound?)
    || (a.BadRequest? && b.BadRequest?)
  }

  /** A numeric user id is falsy when it is zero. */
  predicate Falsy(userId: int)
  {
    userId == 0
  }

  /**
   * The entitlement to see accommodation, stated as a conjunction of facts
   * about the stored records, with no order between them.
   */
  predicate Entitled(db: Db, userId: int)
  {
    && userId != 0
    && userId in db.enrollments
    && db.enrollments[userId].id in db.tickets
    && var t := db.tickets[db.enrollments[userId].id];
    && t.id != 0
    && !t.ticketType.isRemote
    && t.ticketType.includesHotel
    && t.status == Paid
  }

  /**
   * The checks both entry points repeat, done once, in the same order. The
   * first failing check decides the failure: a falsy id, then a missing
   * enrollment, then a missing ticket, then the ticket type, then payment.
   */
  function Eligibility(db: Db, userId: int): (r: Outcome<()>)
    ensures r.Ok? <==> Entitled(db, userId)
    ensures r == NotFound <==> !Falsy(userId) && userId !in db.enrollments
    ensures r == Unauthorized <==>
              || Falsy(userId)
              || (userId in db.enrollments
                  && (db.enrollments[userId].id !in db.tickets || db.tickets[db.enrollments[userId].id].id == 0))
    ensures !Falsy(userId) && userId in db.enrollments && db.enrollments[userId].id in db.tickets ==>
              var t := db.tickets[db.enrollments[userId].id];
              (t.id != 0 && (t.ticketType.isRemote || !t.ticketType.includesHotel || t.status != Paid))
              ==> r == BadRequest
  {
    if Falsy(userId) then Unauthorized
    else match FindEnrollmentByUserId(db, userId)
      case None => NotFound
      case Some(enrollment) =>
        match FindTicketByEnrollmentId(db, enrollment.id)
        case None => Unauthorized
        case Some(ticket) =>
          if ticket.id == 0 then Unauthorized
          else if ticket.ticketType.isRemote || !ticket.ticketType.includesHotel then BadRequest
          else if ticket.status != Paid then BadRequest
          else Ok(())
  }

  /**
   * The hotel listing. Its checks are written out again, as the service
   * writes them; the contract ties the result to `Eligibility`.
   */
  function GetHotels(db: Db, userId: int): (r: Outcome<seq<HotelSummary>>)
    ensures !Eligibility(db, userId).Ok? ==> SameFailure(r, Eligibility(db, userId))
    ensures r.Ok? <==> Entitled(db, userId)
    ensures r.Ok? ==> r.value == ListHotels(db)
  {
    if Falsy(userId) then Unauthorized
    else match FindEnrollmentByUserId(db, userId)
      case None => NotFound
      case Some(enrollment) =>
        match FindTicketByEnrollmentId(db, enrollment.id)
        case None => Unauthorized
        case Some(ticket) =>
          if ticket.id == 0 then Unauthorized
          else if ticket.ticketType.isRemote || !ticket.ticketType.includesHotel then BadRequest
          else if ticket.status != Paid then BadRequest
          else Ok(ListHotels(db))
  }

  /**
   * The room listing, with the eligibility checks and the first hotel lookup
   * reading `db` and the hotel-with-rooms lookup reading `later`, the state
   * at the moment of that second query.
   */
  function GetRoomsByHotelIdBetween(db: Db, later: Db, userId: int, hotelId: int): (r: Outcome<HotelWithRooms>)
    ensures !Eligibility(db, userId).Ok? ==> SameFailure(r, Eligibility(db, userId))
    ensures Eligibility(db, userId).Ok? && FindHotelById(db, hotelId).None? ==> r == BadRequest
    ensures Eligibility(db, userId).Ok? && FindHotelById(db, hotelId).Some? ==>
              r == (if FindHotelById(later, hotelId).Some? then Ok(FindRoomsByHotelId(later, hotelId).value) else NotFound)
  {
    if Falsy(userId) then Unauthorized
    else match FindEnrollmentByUserId(db, userId)
      case None => NotFound
      case Some(enrollment) =>
        match FindTicketByEnrollmentId(db, enrollment.id)
        case None => Unauthorized
        case Some(ticket) =>
          if ticket.id == 0 then Unauthorized
          else if ticket.ticketType.isRemote || !ticket.ticketType.includesHotel then BadRequest
          else if ticket.status != Paid then BadRequest
          else match FindHotelById(db, hotelId)
            case None => BadRequest
            case Some(_) =>
              match FindRoomsByHotelId(later, hotelId)
              case None => NotFound
              case Some(hotelWithRooms) => Ok(hotelWithRooms)
  }

  /** The room listing with every query reading the same state. */
  function GetRoomsByHotelId(db: Db, userId: int, hotelId: int): (r: Outcome<HotelWithRooms>)
    ensures !Eligibility(db, userId).Ok? ==> SameFailure(r, Eligibility(db, userId))
    ensures !Entitled(db, userId) ==> SameFailure(r, GetHotels(db, userId))
    ensures Entitled(db, userId) && FindHotelById(db, hotelId).None? ==> r == BadRequest
    ensures Entitled(db, userId) && FindHotelById(db, hotelId).Some? ==>
              && r.Ok?
              && r.value.hotel == FindHotelById(db, hotelId).value
              && r.value.hotel.id == hotelId
              && (forall x :: x in r.value.rooms <==> x in db.rooms && x.hotelId == hotelId)
              && (forall x :: multiset(r.value.rooms)[x] == if x.hotelId == hotelId then multiset(db.rooms)[x] else 0)
    ensures r == NotFound <==> !Falsy(userId) && userId !in db.enrollments
  {
    RoomsQueryAgreesWithHotelQuery(db, hotelId);
    GetRoomsByHotelIdBetween(db, db, userId, hotelId)
  }

  /**
   * The not-found branch after the hotel check is reachable only when the
   * hotel disappears between the two queries.
   */
  lemma NotFoundNeedsHotelRemovedBetween(db: Db, later: Db, userId: int, hotelId: int)
    requires Entitled(db, userId)
    ensures GetRoomsByHotelIdBetween(db, later, userId, hotelId) == NotFound <==>
              FindHotelById(db, hotelId).Some? && FindHotelById(later, hotelId).None?
  {
  }

  /** A falsy user id is refused by both entry points before any lookup. */
  lemma FalsyUserUnauthorized(db: Db, userId: int, hotelId: int)
    requires Falsy(userId)
    ensures GetHotels(db, userId) == Unauthorized
    ensures GetRoomsByHotelId(db, userId, hotelId) == Unauthorized
  {
  }

  /** With no enrollment, the answer is NotFound whatever tickets and hotels exist. */
  lemma NoEnrollmentNotFound(db: Db, userId: int, hotelId: int, tickets: map<int, Ticket>, hotels: seq<Hotel>, rooms: seq<Room>)
    requires !Falsy(userId) && userId !in db.enrollments
    ensures GetHotels(db.(tickets := tickets, hotels := hotels, rooms := rooms), userId) == NotFound
    ensures GetRoomsByHotelId(db.(tickets := tickets, hotels := hotels, rooms := rooms), userId, hotelId) == NotFound
  {
  }

  /** An enrollment without a ticket is Unauthorized, not NotFound. */
  lemma NoTicketUnauthorized(db: Db, userId: int, hotelId: int)
    requires !Falsy(userId) && userId in db.enrollments
    requires db.enrollments[userId].id !in db.tickets
    ensures GetHotels(db, userId) == Unauthorized
    ensures GetRoomsByHotelId(db, userId, hotelId) == Unauthorized
  {
  }

  /** A remote ticket type, or one without accommodation, is a bad request even when paid. */
  lemma IneligibleTicketTypeBadRequest(db: Db, userId: int, hotelId: int)
    requires !Falsy(userId) && userId in db.enrollments
    requires db.enrollments[userId].id in db.tickets
    requires var t := db.tickets[db.enrollments[userId].id];
      t.id != 0 && t.status == Paid && (t.ticketType.isRemote || !t.ticketType.includesHotel)
    ensures GetHotels(db, userId) == BadRequest
    ensures GetRoomsByHotelId(db, userId, hotelId) == BadRequest
  {
  }

  /** An unpaid ticket is a bad request whatever its type. */
  lemma UnpaidTicketBadRequest(db: Db, userId: int, hotelId: int)
    requires !Falsy(userId) && userId in db.enrollments
    requires db.enrollments[userId].id in db.tickets
    requires var t := db.tickets[db.enrollments[userId].id]; t.id != 0 && t.status == Reserved
    ensures GetHotels(db, userId) == BadRequest
    ensures GetRoomsByHotelId(db, userId, hotelId) == BadRequest
  {
  }
}

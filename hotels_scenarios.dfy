/**
 * The replies the integration tests of GET /hotels expect, stated for every
 * database rather than for one seeded state, and the seeded hotels and room
 * as one concrete state. Token and session checks happen before the
 * handlers run and are not part of this model.
 */
module HotelsScenarios {
  import opened Wrappers
  import opened Database
  import Service = HotelsService
  import opened HotelsController

  /** A user with a valid session but no enrollment gets 404. */
  lemma NoEnrollmentReplies404(db: Db, userId: int)
    requires userId != 0 && userId !in db.enrollments
    ensures GetHotels(db, userId) == Some(Reply(NOT_FOUND, None))
  {
  }

  /** An enrolled user without a ticket gets 401. */
  lemma NoTicketReplies401(db: Db, userId: int)
    requires userId != 0 && userId in db.enrollments
    requires db.enrollments[userId].id !in db.tickets
    ensures GetHotels(db, userId) == Some(Reply(UNAUTHORIZED, None))
  {
  }

  /** A RESERVED ticket gets 400 whatever its ticket type. */
  lemma ReservedTicketReplies400(db: Db, userId: int)
    requires userId != 0 && userId in db.enrollments
    requires db.enrollments[userId].id in db.tickets
    requires var t := db.tickets[db.enrollments[userId].id]; t.id != 0 && t.status == Reserved
    ensures GetHotels(db, userId) == Some(Reply(BAD_REQUEST, None))
  {
  }

  /** A PAID ticket of a remote type without accommodation gets 400. */
  lemma PaidRemoteTicketReplies400(db: Db, userId: int)
    requires userId != 0 && userId in db.enrollments
    requires db.enrollments[userId].id in db.tickets
    requires var t := db.tickets[db.enrollments[userId].id];
      t.id != 0 && t.status == Paid && t.ticketType == TicketType(true, false)
    ensures GetHotels(db, userId) == Some(Reply(BAD_REQUEST, None))
  {
  }

  /**
   * A PAID, in-person ticket with accommodation gets 200, and the body lists
   * every stored hotel by id, name and image, and nothing else.
   */
  lemma EntitledUserReplies200(db: Db, userId: int)
    requires userId != 0 && userId in db.enrollments
    requires db.enrollments[userId].id in db.tickets
    requires var t := db.tickets[db.enrollments[userId].id];
      t.id != 0 && t.status == Paid && t.ticketType == TicketType(false, true)
    ensures GetHotels(db, userId).value.status == OK
    ensures forall h :: h in db.hotels ==> HotelSummary(h.id, h.name, h.image) in GetHotels(db, userId).value.body.value
    ensures forall s :: s in GetHotels(db, userId).value.body.value ==>
              exists h :: h in db.hotels && s == HotelSummary(h.id, h.name, h.image)
  {
  }

  const Maneiro := Hotel(1, "Hotel Maneiro", "maneiro.jpg", 0, 0)
  const Fasano := Hotel(2, "Fasano", "fasano.jpg", 0, 0)
  const Room101 := Room(1, "101", 1, 1, 0, 0)

  /** User 1, enrolled, holding a PAID in-person ticket with accommodation; two hotels, one room. */
  const Seeded := Db(
    map[1 := Enrollment(1, 1)],
    map[1 := Ticket(1, Paid, TicketType(false, true))],
    [Maneiro, Fasano],
    [Room101])

  /** The seeded state: both hotels listed; the first hotel's one room, of capacity 1. */
  lemma SeededRepliesWithHotelsAndRoom()
    ensures GetHotels(Seeded, 1) == Some(Reply(OK, Some([
      HotelSummary(1, "Hotel Maneiro", "maneiro.jpg"), HotelSummary(2, "Fasano", "fasano.jpg")])))
    ensures GetRoomsChecked(Seeded, 1, 1) == Some(Reply(OK, Some(HotelWithRooms(Maneiro, [Room101]))))
    ensures GetRoomsChecked(Seeded, 1, 3) == Some(Reply(BAD_REQUEST, None))
  {
    assert [Maneiro, Fasano][1..] == [Fasano];
    assert Project([Fasano]) == [Summary(Fasano)];
    assert Project(Seeded.hotels) == [Summary(Maneiro)] + Project([Fasano]);
    assert Service.Entitled(Seeded, 1);
    assert ListHotels(Seeded) == [Summary(Maneiro), Summary(Fasano)];
    assert GetHotels(Seeded, 1) == Some(Reply(OK, Some(ListHotels(Seeded))));
    assert RoomsOf([Room101], 1) == [Room101];
  }
}

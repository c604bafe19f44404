# Hotels eligibility: a Dafny model

This project models the accommodation part of an event-ticketing REST API.
An authenticated attendee may list hotels, or one hotel with its rooms,
only when all of these hold:

- the user id is set;
- the user has an enrollment;
- the enrollment has a ticket;
- the ticket type is in-person and includes accommodation;
- the ticket is PAID.

The service checks these rules in that order. The first rule that fails decides the error:
Unauthorized, NotFound or BadRequest. The controller turns that error into an HTTP status.

Modules:

- `Database` (`database.dfy`): the records the service reads, as one immutable value.
  - Enrollments are looked up by user id.
  - Tickets are looked up by enrollment id. A missing key means there is no ticket.
  - Hotels and rooms are tables in storage order.
  - The file also has the three hotel queries: list every hotel projected to id, name and image; find the first hotel with an id; and find that hotel with the rooms whose `hotelId` is its id.
- `HotelsService` (`hotels_service.dfy`): the two entry points. A thrown error becomes the datatype `Outcome = Unauthorized | NotFound | BadRequest | Ok(value)`.
  - Each entry point repeats the checks, as the source does.
  - One shared function, `Eligibility`, states the chain once. Both entry points are proved to agree with it.
  - `Entitled` is the declarative reference: a conjunction of the five facts, with no order between them.
- `HotelsController` (`hotels_controller.dfy`): the controller's catch block, as a partial map from a thrown error's `name` and `statusText` to a status; the try/catch around a service call; and the two handlers.
- `HotelsScenarios` (`hotels_scenarios.dfy`): the statuses the integration tests expect, proved for every database. It also has one concrete state built from the seeding factory's hotels and room.

## Model

| member | source | states |
|---|---|---|
| `Database.Project` | src/repositories/hotels-repository/index.ts:3-11 | the hotel listing has one entry per stored hotel, in table order, each carrying that hotel's id, name and image |
| `Database.EveryHotelListed` | src/repositories/hotels-repository/index.ts:3-11 | every stored hotel appears in the listing |
| `Database.OnlyHotelsListed` | src/repositories/hotels-repository/index.ts:3-11 | every listed entry is the projection of a stored hotel |
| `Database.FindFirstHotel` | src/repositories/hotels-repository/index.ts:13-17 | a hotel is found exactly when some row has the id; the result is the first such row |
| `Database.RoomsOf` | src/repositories/hotels-repository/index.ts:19-28 | the included rooms are exactly the stored rooms whose hotelId is the hotel's id, each as many times as the table holds it, and no other room |
| `Database.RoomsQueryAgreesWithHotelQuery` | src/repositories/hotels-repository/index.ts:13-28 | on one state, the hotel-with-rooms query finds a hotel exactly when the hotel query does, the same hotel, with exactly the stored rooms whose hotelId is its id, each once per stored row |
| `HotelsService.Eligibility` | src/services/hotels-service/index.ts:7-23 | Ok exactly when `Entitled`; NotFound exactly when the id is set and there is no enrollment; Unauthorized exactly when the id is falsy, or there is no ticket, or the stored ticket's id is 0; an ineligible type or unpaid ticket is BadRequest |
| `HotelsService.GetHotels` | src/services/hotels-service/index.ts:6-26 | fails with the same failure as `Eligibility`; Ok exactly when `Entitled`, and then the payload is the unmodified hotel listing with one entry per hotel |
| `HotelsService.GetRoomsByHotelIdBetween` | src/services/hotels-service/index.ts:28-56 | fails as `Eligibility` does; for an eligible user, a missing hotel is BadRequest, and otherwise the result is what the second query reads: the hotel with rooms, or NotFound |
| `HotelsService.GetRoomsByHotelId` | src/services/hotels-service/index.ts:28-56 | an ineligible user gets the same failure as from `GetHotels`; an eligible user gets BadRequest for a missing hotel and otherwise Ok with that hotel and exactly the stored rooms whose hotelId is its id, each once per stored row; NotFound only for a missing enrollment |
| `HotelsService.NotFoundNeedsHotelRemovedBetween` | src/services/hotels-service/index.ts:46-55 | for an eligible user, the NotFound branch is taken exactly when the hotel exists at the first query and is gone at the second |
| `HotelsService.FalsyUserUnauthorized` | src/services/hotels-service/index.ts:7-31 | a zero user id is Unauthorized in both entry points |
| `HotelsService.NoEnrollmentNotFound` | src/services/hotels-service/index.ts:10-35 | with no enrollment, both entry points give NotFound whatever tickets, hotels and rooms exist |
| `HotelsService.NoTicketUnauthorized` | src/services/hotels-service/index.ts:14-39 | an enrollment without a ticket gives Unauthorized, not NotFound, in both entry points |
| `HotelsService.IneligibleTicketTypeBadRequest` | src/services/hotels-service/index.ts:18-42 | a PAID ticket whose type is remote or excludes hotels gives BadRequest in both entry points |
| `HotelsService.UnpaidTicketBadRequest` | src/services/hotels-service/index.ts:21-44 | a RESERVED ticket gives BadRequest in both entry points, whatever its type |
| `HotelsController.StatusForError` | src/controllers/hotels-controller.ts:11-21 | the name "UnauthorizedError" gives 401, "NotFoundError" 404, otherwise the statusText "BAD_REQUEST" gives 400, and any other error gets no status |
| `HotelsController.UnknownErrorUnanswered` | src/controllers/hotels-controller.ts:11-21 | a TypeError, which the mapping does not know, gets no reply |
| `HotelsController.Respond` | src/controllers/hotels-controller.ts:8-21 | a success goes out with 200 and the service's result unchanged; each service failure gets 401, 404 or 400 with no data; every service outcome gets a reply |
| `HotelsController.RespondLosesNothing` | src/controllers/hotels-controller.ts:8-21 | the service outcome can be read back from the reply, so no two outcomes share a reply |
| `HotelsController.GetHotels` | src/controllers/hotels-controller.ts:6-22 | always replies; 200 exactly when the user is entitled, with the hotel listing as body; 401, 404 and 400 exactly when the eligibility chain fails with Unauthorized, NotFound and BadRequest; every other reply carries no data |
| `HotelsController.GetRooms` | src/controllers/hotels-controller.ts:24-28 | always answers 200 with no data |
| `HotelsController.GetRoomsIgnoresRequest` | src/controllers/hotels-controller.ts:24-28 | the reply is the same whatever the database, user id or hotel id |
| `HotelsController.GetRoomsAnswersRefusedUser` | src/controllers/hotels-controller.ts:24-28 | a user whom the room service refuses with NotFound still gets 200 |
| `HotelsController.GetRoomsChecked` | src/controllers/hotels-controller.ts:24-28 | the room service's outcome behind the same catch block: 401 and 404 exactly when the eligibility chain fails with Unauthorized and NotFound; 400 exactly for a BadRequest from the chain or a missing hotel; 200 exactly for an eligible user and an existing hotel, with that hotel and exactly its stored rooms, each once per stored row; every other reply carries no data |
| `HotelsScenarios.NoEnrollmentReplies404` | tests/integration/hotels.test.ts:55-62 | no enrollment gives 404 with no data |
| `HotelsScenarios.NoTicketReplies401` | tests/integration/hotels.test.ts:64-72 | an enrollment without a ticket gives 401 |
| `HotelsScenarios.ReservedTicketReplies400` | tests/integration/hotels.test.ts:74-84 | a RESERVED ticket gives 400 |
| `HotelsScenarios.PaidRemoteTicketReplies400` | tests/integration/hotels.test.ts:86-96 | a PAID remote ticket without accommodation gives 400 |
| `HotelsScenarios.EntitledUserReplies200` | tests/integration/hotels.test.ts:98-118 | a PAID, in-person ticket with accommodation gives 200 with every stored hotel's id, name and image, and nothing else |
| `HotelsScenarios.SeededRepliesWithHotelsAndRoom` | tests/factories/hotels-factory.ts:4-32 | with "Hotel Maneiro" and "Fasano" seeded, the listing holds both in order; the room query for the first hotel returns its room "101" of capacity 1; an unknown hotel id gives 400 |

## Left out

- Routing and the authentication middleware run before the handlers. They turn a missing, invalid or sessionless token into 401, and they are not modelled. This is also why the test "401 when given ticket doesnt exist" would pass: it sends an unawaited token, so the middleware refuses it. The model still gives 401 for that case through the service.
- The user id and the hotel id are integers, and only a user id of 0 is falsy. `Number(...)` can also give NaN or a fraction for either id; these are not modelled.
- The ticket repository is not part of this model. A missing ticket is an absent key and maps to Unauthorized, as the `!ticket.id` check intends. If the repository returned `null`, reading `ticket.id` would throw a TypeError. The controller does not map that error (see `UnknownErrorUnanswered`). A stored ticket whose id is 0 is also Unauthorized, following `!ticket.id`.
- The error constructors are not part of this model. The error for a bad request is modelled with the name "RequestError" and the statusText "BAD_REQUEST". The mapping only depends on that name being neither "UnauthorizedError" nor "NotFoundError".
- Ticket statuses are RESERVED and PAID only. Any other status would take the same branch as RESERVED.
- The ORM's query semantics are reduced to lookups on a value:
  - the listing is in table order;
  - `findFirst` returns the first row with the id;
  - the included rooms are in table order.
  No ordering is specified in the source. The plain hotel lookup is modelled as returning the hotel without its rooms.
- async/await and exceptions become sequential functions that return an `Outcome`.
  - The database is one immutable value, so no call can change it.
  - Only the room query is given its own later state (`GetRoomsByHotelIdBetween`). The earlier lookups of one call are taken to read the same state.
- Addresses, timestamps' meaning and any other columns are left out. Timestamps are plain numbers.
- Sending the reply (`res.status`, `res.send`, `res.sendStatus`) is I/O. A reply is a status and an optional body, and `None` stands for no reply.

## Findings

| source | as written | input that shows it | evidently intended | confidence | as-written member | corrected member |
|---|---|---|---|---|---|---|
| src/controllers/hotels-controller.ts:24-28 | the GET /hotels/:hotelId handler reads the user and hotel ids, ignores them, and always answers 200 without calling the room service | a user with no enrollment (empty database, user 1, hotel 1): the room service gives NotFound, the handler answers 200 | answer with the room service's outcome through the same catch block as GET /hotels (401/404/400, or 200 with the hotel and its rooms) | medium, not executed | `HotelsController.GetRoomsAnswersRefusedUser` | `HotelsController.GetRoomsChecked` |

`HotelsController.GetRooms` models the handler as written. The concrete scenario uses `GetRoomsChecked`.

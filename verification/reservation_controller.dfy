/** The reservation controller (controllers/reservationController.js): role
    scoping of the listing, the access rule shared by read, update and
    delete, price computation on create, the provider whitelist and the
    admin price recalculation on update, and the defaults of the
    availability route. Database reads are evaluated on the in-memory
    tables; writes are returned as the statement or the new tables. */
module ReservationController {
  import opened Js
  import opened Sql
  import opened Store
  import opened Http
  import RM = ReservationModel

  // ---------------------------------------------------------------------
  // Listing

  /** `Place.getAllByProvider(id)` */
  function ProviderPlaces(places: seq<Place>, id: Value): (ps: seq<Place>)
    ensures forall p :: p in ps <==> p in places && SqlEq(p.providerId, id)
  {
    if places == [] then []
    else
      assert forall p :: p in places <==> p == places[0] || p in places[1..];
      (if SqlEq(places[0].providerId, id) then [places[0]] else []) + ProviderPlaces(places[1..], id)
  }

  /** `providerPlaces.map(place => place.id)` */
  function PlaceIds(ps: seq<Place>): (ids: seq<Value>)
    ensures |ids| == |ps| && forall i :: 0 <= i < |ps| ==> ids[i] == IntNum(ps[i].id)
  {
    seq(|ps|, i requires 0 <= i < |ps| => IntNum(ps[i].id))
  }

  /** `req.query` after the role scoping of `getAllReservations`. */
  function ScopedQuery(q: seq<Field>, caller: Caller, owned: seq<Value>): seq<Field>
  {
    if HasRole(caller, "user") then Put(q, "userId", caller.id)
    else if HasRole(caller, "provider") && |owned| > 0 then
      var requested := Get(q, "placeId");
      if Truthy(requested) && ParseInt(requested) in owned then q
      else Put(q, "placeIds", Arr(owned))
    else q
  }

  method ScopeListing(query: JsObject, caller: Caller, db: Db)
    modifies query
    ensures query.fields == ScopedQuery(old(query.fields), caller, PlaceIds(ProviderPlaces(db.places, caller.id)))
  {
    if HasRole(caller, "user") {
      query.Assign("userId", caller.id);
    } else if HasRole(caller, "provider") {
      var placeIds := PlaceIds(ProviderPlaces(db.places, caller.id));
      if |placeIds| > 0 {
        var requested := Get(query.fields, "placeId");
        if Truthy(requested) && ParseInt(requested) in placeIds {
        } else {
          query.Assign("placeIds", Arr(placeIds));
        }
      }
    }
  }

  /** The rows `getAllReservations` answers with. */
  function ListReservations(db: Db, q: seq<Field>, caller: Caller): seq<Reservation>
  {
    RM.Listing(db.reservations, ScopedQuery(q, caller, PlaceIds(ProviderPlaces(db.places, caller.id))))
  }

  /** A user sees only reservations whose `userId` is their own id, whatever
      `userId` the query asked for. */
  lemma UserSeesOwnOnly(db: Db, q: seq<Field>, caller: Caller)
    requires HasRole(caller, "user") && Truthy(caller.id)
    ensures forall r :: r in ListReservations(db, q, caller) ==> SqlEq(r.userId, caller.id)
  {
    var f := ScopedQuery(q, caller, PlaceIds(ProviderPlaces(db.places, caller.id)));
    assert Get(f, "userId") == caller.id;
  }

  /** A user whose id is falsy (`protect` gives a found user with `user_id`
      0 an undefined id) gets no `userId` filter at all: the listing is that
      of the query without `userId`, so an empty query shows every
      reservation. */
  lemma UserWithoutIdSeesAll(db: Db, q: seq<Field>, caller: Caller)
    requires HasRole(caller, "user") && !Truthy(caller.id)
    ensures ListReservations(db, q, caller) == RM.Listing(db.reservations, Remove(q, "userId"))
    ensures forall r :: r in db.reservations ==> r in ListReservations(db, [], caller)
  {
    var owned := PlaceIds(ProviderPlaces(db.places, caller.id));
    var f, g := ScopedQuery(q, caller, owned), Remove(q, "userId");
    assert f == Put(q, "userId", caller.id);
    GetAbsent(g, "userId");
    SameFilters(q, f, g);
    RM.ListingSame(db.reservations, g, f);
    var f0 := ScopedQuery([], caller, owned);
    assert f0 == Put([], "userId", caller.id);
    SameFilters([], f0, []);
    RM.ListingSame(db.reservations, [], f0);
    EmptyFilterLists(db.reservations);
  }

  /** Two filter objects that both lack a truthy `userId` and agree with `q`
      on every other key select the same rows. */
  lemma SameFilters(q: seq<Field>, f: seq<Field>, g: seq<Field>)
    requires !Truthy(Get(f, "userId")) && !Truthy(Get(g, "userId"))
    requires forall k :: k != "userId" ==> Get(f, k) == Get(q, k) && Get(g, k) == Get(q, k)
    ensures forall x :: RM.ListingMatch(x, g) == RM.ListingMatch(x, f)
  {
    assert Get(f, "placeId") == Get(g, "placeId") && Get(f, "eventId") == Get(g, "eventId");
    assert Get(f, "status") == Get(g, "status");
    assert Get(f, "fromDate") == Get(g, "fromDate") && Get(f, "toDate") == Get(g, "toDate");
  }

  /** Without filters every row is listed. */
  lemma {:induction false} EmptyFilterLists(rows: seq<Reservation>)
    ensures forall r :: r in rows ==> r in RM.Listing(rows, [])
  {
    forall r | r in rows
      ensures RM.ListingMatch(r, [])
    {
    }
  }

  /** As written, the `placeIds` a provider's query receives is ignored by the
      listing: a provider owning place 1 is shown a reservation of place 2. */
  lemma ProviderSeesOtherPlaces()
    ensures var db := Db([Reservation(5, IntNum(3), Null, IntNum(2), Null, IntNum(2), Null,
                                      Str("pending"), Null, Str("2024-01-01 10:00:00"))],
                         [], [Place(1, IntNum(7), NoFee)], [], []);
      var caller := Caller(IntNum(7), Str("provider"));
      db.reservations[0] in ListReservations(db, [], caller)
      && !SqlEq(db.reservations[0].placeId, IntNum(1))
  {
    var db := Db([Reservation(5, IntNum(3), Null, IntNum(2), Null, IntNum(2), Null,
                              Str("pending"), Null, Str("2024-01-01 10:00:00"))],
                 [], [Place(1, IntNum(7), NoFee)], [], []);
    var caller := Caller(IntNum(7), Str("provider"));
    var owned := PlaceIds(ProviderPlaces(db.places, caller.id));
    assert ProviderPlaces(db.places, caller.id) == db.places;
    assert owned == [IntNum(1)];
    var f := ScopedQuery([], caller, owned);
    assert f == [Field("placeIds", Arr([IntNum(1)]))];
    assert RM.ListingMatch(db.reservations[0], f);
  }

  /** The listing as evidently intended: `placeIds`, when present, restricts
      the rows to those places (`AND placeId IN (?, ...)`). */
  predicate ListingMatchFixed(r: Reservation, f: seq<Field>)
  {
    RM.ListingMatch(r, f)
    && (Get(f, "placeIds").Arr? ==> exists id :: id in Get(f, "placeIds").items && SqlEq(r.placeId, id))
  }

  function ListingFixed(rows: seq<Reservation>, f: seq<Field>): (r: seq<Reservation>)
    ensures forall x :: x in r <==> x in rows && ListingMatchFixed(x, f)
  {
    if rows == [] then []
    else
      assert forall x :: x in rows <==> x == rows[0] || x in rows[1..];
      (if ListingMatchFixed(rows[0], f) then [rows[0]] else []) + ListingFixed(rows[1..], f)
  }

  /** The clause the fixed listing adds for `placeIds`. */
  function PlaceIdsClause(f: seq<Field>): seq<Clause>
  {
    var ids := Get(f, "placeIds");
    When(ids.Arr? && |ids.items| > 0,
      Clause([Lit(" AND placeId IN (")] + HoleList(if ids.Arr? then |ids.items| else 0) + [Lit(")")],
             if ids.Arr? then ids.items else []))
  }

  /** The fixed listing statement still has one placeholder per parameter. */
  lemma FixedListingBalanced(f: seq<Field>)
    ensures var cs := RM.ListingClauses(f) + PlaceIdsClause(f);
      Holes(SqlOf(cs)) == |ParamsOf(cs)|
  {
    var cs := RM.ListingClauses(f) + PlaceIdsClause(f);
    RM.ListingClausesBalanced(f);
    var ids := Get(f, "placeIds");
    if ids.Arr? && |ids.items| > 0 {
      InsertBalanced(" AND placeId IN (", |ids.items|, ")", ids.items);
    }
    ConcatBalanced(cs);
  }

  /** With the fix, a provider owning places sees only reservations of the
      place it asked for (when it owns it) or of one of its places. */
  lemma ProviderSeesOwnPlacesFixed(db: Db, q: seq<Field>, caller: Caller)
    requires HasRole(caller, "provider")
    requires |ProviderPlaces(db.places, caller.id)| > 0
    ensures var owned := PlaceIds(ProviderPlaces(db.places, caller.id));
      var requested := Get(q, "placeId");
      forall r :: r in ListingFixed(db.reservations, ScopedQuery(q, caller, owned)) ==>
        if Truthy(requested) && ParseInt(requested) in owned then SqlEq(r.placeId, requested)
        else exists p :: p in db.places && SqlEq(p.providerId, caller.id) && SqlEq(r.placeId, IntNum(p.id))
  {
    var ps := ProviderPlaces(db.places, caller.id);
    var owned := PlaceIds(ps);
    var requested := Get(q, "placeId");
    var f := ScopedQuery(q, caller, owned);
    assert !HasRole(caller, "user");
    if !(Truthy(requested) && ParseInt(requested) in owned) {
      assert Get(f, "placeIds") == Arr(owned);
      forall r | r in ListingFixed(db.reservations, f)
        ensures exists p :: p in db.places && SqlEq(p.providerId, caller.id) && SqlEq(r.placeId, IntNum(p.id))
      {
        var id :| id in owned && SqlEq(r.placeId, id);
        OwnedRow(db, caller, r, id);
      }
    }
  }

  /** A row matching one of a provider's place ids is a row of one of its
      places. */
  lemma OwnedRow(db: Db, caller: Caller, r: Reservation, id: Value)
    requires id in PlaceIds(ProviderPlaces(db.places, caller.id)) && SqlEq(r.placeId, id)
    ensures exists p :: p in db.places && SqlEq(p.providerId, caller.id) && SqlEq(r.placeId, IntNum(p.id))
  {
    var ps := ProviderPlaces(db.places, caller.id);
    var owned := PlaceIds(ps);
    var i :| 0 <= i < |owned| && owned[i] == id;
    assert ps[i] in ps;
  }

  // ---------------------------------------------------------------------
  // Access

  /** `checkProviderAccess(providerId, reservation)`: the provider owns the
      reservation's place or its event. */
  predicate CheckProviderAccess(db: Db, providerId: Value, r: Reservation)
  {
    (Truthy(r.placeId) && PlaceById(db, r.placeId).Some? && StrictEq(PlaceById(db, r.placeId).value.providerId, providerId))
    || (Truthy(r.eventId) && EventById(db, r.eventId).Some? && StrictEq(EventById(db, r.eventId).value.providerId, providerId))
  }

  predicate UniqueIds(db: Db)
  {
    (forall i, j :: 0 <= i < j < |db.places| ==> db.places[i].id != db.places[j].id)
    && (forall i, j :: 0 <= i < j < |db.events| ==> db.events[i].id != db.events[j].id)
  }

  /** A parameter matches at most one integer id. */
  lemma SqlEqIdUnique(a: int, b: int, v: Value)
    requires SqlEq(IntNum(a), v) && SqlEq(IntNum(b), v)
    ensures a == b
  {
  }

  lemma {:induction false} FirstMatchUnique<R>(rows: seq<R>, key: R -> Value, v: Value, x: R)
    requires x in rows && SqlEq(key(x), v)
    requires forall i, j :: 0 <= i < j < |rows| && SqlEq(key(rows[i]), v) ==> !SqlEq(key(rows[j]), v)
    ensures FirstMatch(rows, key, v) == Some(x)
  {
    if rows[0] != x {
      var j :| 0 <= j < |rows| && rows[j] == x;
      assert 0 < j && SqlEq(key(rows[j]), v);
      assert !SqlEq(key(rows[0]), v);
      assert x in rows[1..];
      FirstMatchUnique(rows[1..], key, v, x);
    }
  }

  /** With unique ids, a provider has access exactly when it owns the
      reservation's place or event. */
  lemma ProviderAccessIff(db: Db, providerId: Value, r: Reservation)
    requires UniqueIds(db)
    ensures CheckProviderAccess(db, providerId, r) <==>
      (Truthy(r.placeId) && exists p :: p in db.places && SqlEq(IntNum(p.id), r.placeId) && StrictEq(p.providerId, providerId))
      || (Truthy(r.eventId) && exists e :: e in db.events && SqlEq(IntNum(e.id), r.eventId) && StrictEq(e.providerId, providerId))
  {
    forall p | p in db.places && SqlEq(IntNum(p.id), r.placeId)
      ensures PlaceById(db, r.placeId) == Some(p)
    {
      forall i, j | 0 <= i < j < |db.places| && SqlEq(IntNum(db.places[i].id), r.placeId)
        ensures !SqlEq(IntNum(db.places[j].id), r.placeId)
      {
        if SqlEq(IntNum(db.places[j].id), r.placeId) {
          SqlEqIdUnique(db.places[i].id, db.places[j].id, r.placeId);
        }
      }
      FirstMatchUnique(db.places, (p: Place) => IntNum(p.id), r.placeId, p);
    }
    forall e | e in db.events && SqlEq(IntNum(e.id), r.eventId)
      ensures EventById(db, r.eventId) == Some(e)
    {
      forall i, j | 0 <= i < j < |db.events| && SqlEq(IntNum(db.events[i].id), r.eventId)
        ensures !SqlEq(IntNum(db.events[j].id), r.eventId)
      {
        if SqlEq(IntNum(db.events[j].id), r.eventId) {
          SqlEqIdUnique(db.events[i].id, db.events[j].id, r.eventId);
        }
      }
      FirstMatchUnique(db.events, (e: Event) => IntNum(e.id), r.eventId, e);
    }
  }

  /** The 403 rule shared by read, update and delete. */
  predicate Denied(db: Db, caller: Caller, r: Reservation)
  {
    (HasRole(caller, "user") && !StrictEq(r.userId, caller.id))
    || (HasRole(caller, "provider") && !CheckProviderAccess(db, caller.id, r))
  }

  const NotFound := "Reservation not found"
  const AccessDenied := "Access denied"

  /** `getReservationById` */
  function GetReservation(db: Db, caller: Caller, id: Value): (reply: Reply)
    ensures reply.status == 404 <==> ReservationById(db, id).None?
    ensures reply.status == 200 ==>
      var r := ReservationById(db, id).value;
      && (HasRole(caller, "user") ==> StrictEq(r.userId, caller.id))
      && (HasRole(caller, "provider") ==> CheckProviderAccess(db, caller.id, r))
    ensures ReservationById(db, id).Some? && !HasRole(caller, "user") && !HasRole(caller, "provider") ==> reply.status == 200
    ensures reply.status in {200, 403, 404}
  {
    match ReservationById(db, id)
    case None => Reply(404, NotFound)
    case Some(r) => if Denied(db, caller, r) then Reply(403, AccessDenied) else Reply(200, "")
  }

  /** `deleteReservation`: the reply and the tables afterwards. */
  function DeleteReservation(db: Db, caller: Caller, id: Value): (out: (Reply, Db))
    ensures out.0.status == 204 <==> ReservationById(db, id).Some? && !Denied(db, caller, ReservationById(db, id).value)
    ensures out.0.status == 204 ==> out.1 == RM.Delete(db, id)
    ensures out.0.status != 204 ==> out.1 == db
    ensures ReservationById(db, id).Some? && HasRole(caller, "admin") ==> out.0.status == 204
  {
    match ReservationById(db, id)
    case None => (Reply(404, NotFound), db)
    case Some(r) =>
      if Denied(db, caller, r) then (Reply(403, AccessDenied), db)
      else (Reply(204, "Reservation cancelled and deleted successfully"), RM.Delete(db, id))
  }

  // ---------------------------------------------------------------------
  // Create

  /** `entranceFee` in the place price: `fees.adult || 10`, and 10 when the
      column is empty or does not parse. */
  function EntranceFee(f: Fee): (v: Value)
    ensures Truthy(v)
    ensures f.Parsed? && Truthy(f.adult) ==> v == f.adult
    ensures !(f.Parsed? && Truthy(f.adult)) ==> v == IntNum(10)
  {
    match f
    case Parsed(adult) => Or(adult, IntNum(10))
    case _ => IntNum(10)
  }

  datatype CreateOutcome =
    | Invalid
    | CreateRejected(status: int, message: string)
    | Created(data: seq<Field>)

  predicate EventPath(data: seq<Field>)
  {
    Truthy(Get(data, "eventId")) && Truthy(Get(data, "numberOfTickets"))
  }

  predicate PlacePath(data: seq<Field>)
  {
    Truthy(Get(data, "placeId")) && Truthy(Get(data, "numberOfPersons"))
  }

  /** The event step of create: refused, or the data priced by the event. */
  function EventStep(db: Db, data: seq<Field>): CreateOutcome
  {
    if !EventPath(data) then Created(data)
    else
      var eventId, tickets := Get(data, "eventId"), Get(data, "numberOfTickets");
      match EventById(db, eventId)
      case None => CreateRejected(404, "Event not found")
      case Some(e) =>
        if RM.CheckAvailability(db, Str("event"), eventId, Null, tickets) != Ok(true)
        then CreateRejected(400, "Not enough tickets available")
        else Created(Put(data, "totalPrice", Mul(e.ticketPrice, tickets)))
  }

  /** The place step of create: refused, or the data priced by the place. */
  function PlaceStep(db: Db, data: seq<Field>): CreateOutcome
  {
    if !PlacePath(data) then Created(data)
    else
      var placeId, persons, visitDate := Get(data, "placeId"), Get(data, "numberOfPersons"), Get(data, "visitDate");
      match PlaceById(db, placeId)
      case None => CreateRejected(404, "Place not found")
      case Some(p) =>
        if Truthy(visitDate) && RM.CheckAvailability(db, Str("place"), placeId, visitDate, IntNum(1)) != Ok(true)
        then CreateRejected(400, "Place not available on this date")
        else Created(Put(data, "totalPrice", Mul(EntranceFee(p.entranceFee), persons)))
  }

  /** What `createReservation` does with a request: the data it hands to
      `Reservation.create`, or the reason it refuses. */
  function CreateResult(db: Db, caller: Caller, body: seq<Field>, valid: bool): CreateOutcome
  {
    if !valid then Invalid
    else
      var data := Put(body, "userId", Or(Get(body, "userId"), caller.id));
      var priced := EventStep(db, data);
      if !priced.Created? then priced else PlaceStep(db, priced.data)
  }

  /** `createReservation` on a local copy of the body that it fills in step by step. */
  method CreateReservation(db: Db, caller: Caller, body: seq<Field>, valid: bool) returns (out: CreateOutcome)
    ensures out == CreateResult(db, caller, body, valid)
  {
    if !valid {
      return Invalid;
    }
    var data := new JsObject(body);
    data.Assign("userId", Or(Get(body, "userId"), caller.id));
    ghost var d0 := data.fields;
    var eventId, tickets := Get(data.fields, "eventId"), Get(data.fields, "numberOfTickets");
    if Truthy(eventId) && Truthy(tickets) {
      var event := EventById(db, eventId);
      if event.None? {
        return CreateRejected(404, "Event not found");
      }
      var isAvailable := RM.CheckAvailability(db, Str("event"), eventId, Null, tickets);
      if isAvailable != Ok(true) {
        return CreateRejected(400, "Not enough tickets available");
      }
      data.Assign("totalPrice", Mul(event.value.ticketPrice, tickets));
    }
    assert EventStep(db, d0) == Created(data.fields);
    ghost var d1 := data.fields;
    var placeId, persons := Get(data.fields, "placeId"), Get(data.fields, "numberOfPersons");
    if Truthy(placeId) && Truthy(persons) {
      var place := PlaceById(db, placeId);
      if place.None? {
        return CreateRejected(404, "Place not found");
      }
      var visitDate := Get(data.fields, "visitDate");
      if Truthy(visitDate) {
        var isAvailable := RM.CheckAvailability(db, Str("place"), placeId, visitDate, IntNum(1));
        if isAvailable != Ok(true) {
          return CreateRejected(400, "Place not available on this date");
        }
      }
      data.Assign("totalPrice", Mul(EntranceFee(place.value.entranceFee), persons));
    }
    assert PlaceStep(db, d1) == Created(data.fields);
    return Created(data.fields);
  }

  /** The event step keeps every field but the price; it prices exactly
      the requests naming an event and a ticket count, and refuses an
      unknown event or one without enough tickets. */
  lemma EventStepFacts(db: Db, data: seq<Field>)
    ensures var e := EventStep(db, data);
      && (e.Created? ==> forall k :: k != "totalPrice" ==> Get(e.data, k) == Get(data, k))
      && (!EventPath(data) ==> e == Created(data))
      && (e.Created? && EventPath(data) ==>
            EventById(db, Get(data, "eventId")).Some?
            && Get(e.data, "totalPrice") == Mul(EventById(db, Get(data, "eventId")).value.ticketPrice, Get(data, "numberOfTickets")))
      && (EventPath(data) && EventById(db, Get(data, "eventId")).None? ==> e == CreateRejected(404, "Event not found"))
      && ((EventPath(data) && EventById(db, Get(data, "eventId")).Some?
           && !RM.EnoughTickets(EventById(db, Get(data, "eventId")).value.capacity,
                RM.Booked(db.reservations, EventById(db, Get(data, "eventId")).value.id), Get(data, "numberOfTickets")))
          ==> e == CreateRejected(400, "Not enough tickets available"))
      && ((EventPath(data) && EventById(db, Get(data, "eventId")).Some?
           && RM.EnoughTickets(EventById(db, Get(data, "eventId")).value.capacity,
                RM.Booked(db.reservations, EventById(db, Get(data, "eventId")).value.id), Get(data, "numberOfTickets")))
          ==> e.Created?)
  {
  }

  /** The place step likewise: it keeps every field but the price, prices by
      the entrance fee, and refuses an unknown place or a booked day. */
  lemma PlaceStepFacts(db: Db, data: seq<Field>)
    ensures var e := PlaceStep(db, data);
      && (e.Created? ==> forall k :: k != "totalPrice" ==> Get(e.data, k) == Get(data, k))
      && (!PlacePath(data) ==> e == Created(data))
      && (e.Created? && PlacePath(data) ==>
            PlaceById(db, Get(data, "placeId")).Some?
            && Get(e.data, "totalPrice") == Mul(EntranceFee(PlaceById(db, Get(data, "placeId")).value.entranceFee), Get(data, "numberOfPersons")))
      && (e == CreateRejected(404, "Place not found") ==> PlacePath(data) && PlaceById(db, Get(data, "placeId")).None?)
      && (e == CreateRejected(400, "Place not available on this date") ==>
            PlacePath(data) && Truthy(Get(data, "visitDate"))
            && RM.DayCount(db.reservations, Get(data, "placeId"), Get(data, "visitDate")) != 0)
      && (PlacePath(data) && PlaceById(db, Get(data, "placeId")).None? ==> e == CreateRejected(404, "Place not found"))
      && (PlacePath(data) && PlaceById(db, Get(data, "placeId")).Some? && Truthy(Get(data, "visitDate"))
          && RM.DayCount(db.reservations, Get(data, "placeId"), Get(data, "visitDate")) != 0
          ==> e == CreateRejected(400, "Place not available on this date"))
      && (e.Created? && PlacePath(data) && Truthy(Get(data, "visitDate"))
          ==> RM.DayCount(db.reservations, Get(data, "placeId"), Get(data, "visitDate")) == 0)
  {
  }

  /** Neither step touches a field other than the price. */
  lemma EventStepKeeps(db: Db, data: seq<Field>, k: string)
    requires k != "totalPrice"
    ensures EventStep(db, data).Created? ==> Get(EventStep(db, data).data, k) == Get(data, k)
  {
  }

  lemma PlaceStepKeeps(db: Db, data: seq<Field>, k: string)
    requires k != "totalPrice"
    ensures PlaceStep(db, data).Created? ==> Get(PlaceStep(db, data).data, k) == Get(data, k)
  {
  }

  /** Filling in `userId` leaves the fields create reads untouched. */
  lemma FilledUser(body: seq<Field>, id: Value)
    ensures var d := Put(body, "userId", id);
      && EventPath(d) == EventPath(body) && PlacePath(d) == PlacePath(body)
      && (forall k :: k != "userId" ==> Get(d, k) == Get(body, k))
      && Get(d, "eventId") == Get(body, "eventId") && Get(d, "numberOfTickets") == Get(body, "numberOfTickets")
      && Get(d, "placeId") == Get(body, "placeId") && Get(d, "numberOfPersons") == Get(body, "numberOfPersons")
      && Get(d, "visitDate") == Get(body, "visitDate") && Get(d, "totalPrice") == Get(body, "totalPrice")
  {
  }

  /** Pricing leaves the fields the place step reads untouched. */
  lemma PricedKeeps(d: seq<Field>, e: seq<Field>)
    requires forall k :: k != "totalPrice" ==> Get(e, k) == Get(d, k)
    ensures PlacePath(e) == PlacePath(d)
    ensures Get(e, "placeId") == Get(d, "placeId") && Get(e, "numberOfPersons") == Get(d, "numberOfPersons")
    ensures Get(e, "visitDate") == Get(d, "visitDate")
  {
  }

  /** A created reservation keeps the body's fields, takes `userId` from the
      body or else from the caller, and is priced by its place when it names
      one with persons, else by its event, else keeps the price it was sent. */
  lemma CreatedData(db: Db, caller: Caller, body: seq<Field>, valid: bool)
    requires CreateResult(db, caller, body, valid).Created?
    ensures var data := CreateResult(db, caller, body, valid).data;
      && valid
      && Get(data, "userId") == Or(Get(body, "userId"), caller.id)
      && (forall k :: k != "userId" && k != "totalPrice" ==> Get(data, k) == Get(body, k))
  {
    var d0 := Put(body, "userId", Or(Get(body, "userId"), caller.id));
    var e := EventStep(db, d0);
    assert e.Created?;
    var out := PlaceStep(db, e.data);
    assert out == CreateResult(db, caller, body, valid);
    EventStepKeeps(db, d0, "userId");
    PlaceStepKeeps(db, e.data, "userId");
    forall k | k != "userId" && k != "totalPrice"
      ensures Get(out.data, k) == Get(body, k)
    {
      EventStepKeeps(db, d0, k);
      PlaceStepKeeps(db, e.data, k);
    }
  }

  /** The price of a created reservation: by its place when it names one
      with persons, else by its event, else the price it was sent. */
  lemma CreatedPrice(db: Db, caller: Caller, body: seq<Field>)
    requires CreateResult(db, caller, body, true).Created?
    ensures var price := Get(CreateResult(db, caller, body, true).data, "totalPrice");
      var placeId, eventId := Get(body, "placeId"), Get(body, "eventId");
      && (PlacePath(body) ==>
            (PlaceById(db, placeId).Some?
             && price == Mul(EntranceFee(PlaceById(db, placeId).value.entranceFee), Get(body, "numberOfPersons"))))
      && (EventPath(body) && !PlacePath(body) ==>
            (EventById(db, eventId).Some?
             && price == Mul(EventById(db, eventId).value.ticketPrice, Get(body, "numberOfTickets"))))
      && (!EventPath(body) && !PlacePath(body) ==> price == Get(body, "totalPrice"))
  {
    var d0 := Put(body, "userId", Or(Get(body, "userId"), caller.id));
    FilledUser(body, Or(Get(body, "userId"), caller.id));
    EventStepFacts(db, d0);
    var e := EventStep(db, d0);
    assert e.Created?;
    PlaceStepFacts(db, e.data);
    PricedKeeps(d0, e.data);
    var out := PlaceStep(db, e.data);
    assert out == CreateResult(db, caller, body, true);
  }

  /** The event step lets a request through: it names no event with
      tickets, or the event exists and has room for them. */
  predicate EventPasses(db: Db, body: seq<Field>)
  {
    var eventId := Get(body, "eventId");
    !EventPath(body)
    || (EventById(db, eventId).Some?
        && RM.EnoughTickets(EventById(db, eventId).value.capacity,
             RM.Booked(db.reservations, EventById(db, eventId).value.id), Get(body, "numberOfTickets")))
  }

  /** Past the event step, a place reservation is refused with 404 exactly
      when the place is unknown and with 400 when its visit date is already
      booked, and is created otherwise; a reservation created with a place
      and a visit date never books a day that was taken. */
  lemma CreatePlaceRefusals(db: Db, caller: Caller, body: seq<Field>)
    ensures var out := CreateResult(db, caller, body, true);
      var placeId, visitDate := Get(body, "placeId"), Get(body, "visitDate");
      && (EventPasses(db, body) && PlacePath(body) && PlaceById(db, placeId).None?
          ==> out == CreateRejected(404, "Place not found"))
      && (EventPasses(db, body) && PlacePath(body) && PlaceById(db, placeId).Some? && Truthy(visitDate)
          && RM.DayCount(db.reservations, placeId, visitDate) != 0
          ==> out == CreateRejected(400, "Place not available on this date"))
      && (EventPasses(db, body) && PlacePath(body) && PlaceById(db, placeId).Some?
          && (!Truthy(visitDate) || RM.DayCount(db.reservations, placeId, visitDate) == 0)
          ==> out.Created?)
      && (out.Created? && PlacePath(body) && Truthy(visitDate)
          ==> RM.DayCount(db.reservations, placeId, visitDate) == 0)
  {
    var d0 := Put(body, "userId", Or(Get(body, "userId"), caller.id));
    FilledUser(body, Or(Get(body, "userId"), caller.id));
    EventStepFacts(db, d0);
    var e := EventStep(db, d0);
    assert CreateResult(db, caller, body, true) == if e.Created? then PlaceStep(db, e.data) else e;
    if e.Created? {
      PlaceStepFacts(db, e.data);
      PricedKeeps(d0, e.data);
    }
  }

  /** The refusals of create, in the order the controller meets them. */
  lemma CreateRefusals(db: Db, caller: Caller, body: seq<Field>)
    ensures var out := CreateResult(db, caller, body, true);
      var eventId, placeId := Get(body, "eventId"), Get(body, "placeId");
      && (EventPath(body) && EventById(db, eventId).None? ==> out == CreateRejected(404, "Event not found"))
      && ((EventPath(body) && EventById(db, eventId).Some?
           && !RM.EnoughTickets(EventById(db, eventId).value.capacity,
                RM.Booked(db.reservations, EventById(db, eventId).value.id), Get(body, "numberOfTickets")))
          ==> out == CreateRejected(400, "Not enough tickets available"))
      && (out == CreateRejected(404, "Place not found") ==> PlacePath(body) && PlaceById(db, placeId).None?)
      && (out == CreateRejected(400, "Place not available on this date") ==>
            PlacePath(body) && Truthy(Get(body, "visitDate"))
            && RM.DayCount(db.reservations, placeId, Get(body, "visitDate")) != 0)
      && (!EventPath(body) && !PlacePath(body) ==> out.Created?)
    ensures CreateResult(db, caller, body, false) == Invalid
  {
    var d0 := Put(body, "userId", Or(Get(body, "userId"), caller.id));
    FilledUser(body, Or(Get(body, "userId"), caller.id));
    EventStepFacts(db, d0);
    var e := EventStep(db, d0);
    var out := CreateResult(db, caller, body, true);
    assert out == if e.Created? then PlaceStep(db, e.data) else e;
    if e.Created? {
      PlaceStepFacts(db, e.data);
      PricedKeeps(d0, e.data);
    }
  }

  // ---------------------------------------------------------------------
  // Update

  /** The fields of `o` whose key is allowed, in order. */
  function Only(o: seq<Field>, allowed: set<string>): (r: seq<Field>)
    ensures forall k :: Get(r, k) == if k in allowed then Get(o, k) else Undefined
    ensures forall k :: k in Keys(r) ==> k in allowed && k in Keys(o)
  {
    if o == [] then []
    else if o[0].key in allowed then
      var rest := Only(o[1..], allowed);
      assert Keys([o[0]] + rest) == [o[0].key] + Keys(rest) by {
        assert ([o[0]] + rest)[1..] == rest;
      }
      [o[0]] + rest
    else
      var rest := Only(o[1..], allowed);
      assert forall k :: k !in allowed ==> Get(rest, k) == Undefined;
      assert forall k :: k !in Keys(rest) ==> Get(rest, k) == Undefined by {
        forall k | k !in Keys(rest) { GetAbsent(rest, k); }
      }
      rest
  }

  /** The fields of `o` whose key is not dropped. */
  function Without(o: seq<Field>, drop: set<string>): seq<Field>
  {
    if o == [] then []
    else (if o[0].key in drop then [] else [o[0]]) + Without(o[1..], drop)
  }

  lemma {:induction false} WithoutNothing(o: seq<Field>)
    ensures Without(o, {}) == o
  {
    if o != [] {
      WithoutNothing(o[1..]);
    }
  }

  lemma {:induction false} RemoveWithout(o: seq<Field>, drop: set<string>, k: string)
    ensures Remove(Without(o, drop), k) == Without(o, drop + {k})
  {
    if o != [] {
      RemoveWithout(o[1..], drop, k);
      var rest := Without(o[1..], drop);
      if o[0].key !in drop {
        assert Without(o, drop) == [o[0]] + rest;
        assert ([o[0]] + rest)[1..] == rest;
      } else {
        assert Without(o, drop) == rest;
      }
    }
  }

  lemma {:induction false} WithoutIsOnly(o: seq<Field>, drop: set<string>, allowed: set<string>)
    requires forall k :: k in Keys(o) ==> (k in drop <==> k !in allowed)
    ensures Without(o, drop) == Only(o, allowed)
  {
    if o != [] {
      assert o[0].key in Keys(o);
      assert forall k :: k in Keys(o[1..]) ==> k in Keys(o);
      WithoutIsOnly(o[1..], drop, allowed);
    }
  }

  /** The provider whitelist: `Object.keys(obj).forEach(key => { if (!allowed.includes(key)) delete obj[key]; })`. */
  method KeepOnly(obj: JsObject, allowed: set<string>)
    modifies obj
    ensures obj.fields == Only(old(obj.fields), allowed)
  {
    ghost var orig := obj.fields;
    var keys := Keys(obj.fields);
    var i := 0;
    WithoutNothing(orig);
    assert (set k | k in keys[..0] && k !in allowed) == {};
    while i < |keys|
      invariant 0 <= i <= |keys|
      invariant obj.fields == Without(orig, set k | k in keys[..i] && k !in allowed)
    {
      ghost var dropped := set k | k in keys[..i] && k !in allowed;
      if keys[i] !in allowed {
        RemoveWithout(orig, dropped, keys[i]);
        obj.Delete(keys[i]);
        assert dropped + {keys[i]} == set k | k in keys[..i + 1] && k !in allowed by {
          assert keys[..i + 1] == keys[..i] + [keys[i]];
        }
      } else {
        assert dropped == set k | k in keys[..i + 1] && k !in allowed by {
          assert keys[..i + 1] == keys[..i] + [keys[i]];
        }
      }
      i := i + 1;
    }
    assert keys[..i] == keys;
    WithoutIsOnly(orig, (set k | k in keys && k !in allowed), allowed);
  }

  const ProviderFields: set<string> := {"status", "paymentStatus"}

  /** The admin compares these fields of the payload with the stored row. */
  predicate TrackedChange(u: seq<Field>, r: Reservation)
  {
    !StrictEq(Get(u, "eventId"), r.eventId) || !StrictEq(Get(u, "placeId"), r.placeId)
    || !StrictEq(Get(u, "numberOfTickets"), r.numberOfTickets) || !StrictEq(Get(u, "numberOfPersons"), r.numberOfPersons)
  }

  /** The TypeError `event.ticketPrice` raises when the event does not exist. */
  const MissingEventError := "Cannot read properties of undefined (reading 'ticketPrice')"

  /** The admin price recalculation on the copied payload: only an event
      with a ticket count is repriced; the place branch does nothing. */
  function Recalculate(db: Db, caller: Caller, r: Reservation, updates: seq<Field>): (res: Result<seq<Field>>)
    ensures !(HasRole(caller, "admin") && TrackedChange(updates, r)) ==> res == Ok(updates)
    ensures res.Ok? ==> forall k :: k != "totalPrice" ==> Get(res.value, k) == Get(updates, k)
    ensures res.Ok? && Get(res.value, "totalPrice") != Get(updates, "totalPrice") ==>
      HasRole(caller, "admin") && TrackedChange(updates, r) && EventPath(updates)
    ensures (HasRole(caller, "admin") && TrackedChange(updates, r) && EventPath(updates)
             && EventById(db, Get(updates, "eventId")).Some?) ==>
      res.Ok? && Get(res.value, "totalPrice") == Mul(EventById(db, Get(updates, "eventId")).value.ticketPrice, Get(updates, "numberOfTickets"))
    ensures res.Err? <==> (HasRole(caller, "admin") && TrackedChange(updates, r) && EventPath(updates)
                           && EventById(db, Get(updates, "eventId")).None?)
  {
    if HasRole(caller, "admin") && TrackedChange(updates, r) && EventPath(updates) then
      match EventById(db, Get(updates, "eventId"))
      case None => Err(MissingEventError)
      case Some(e) => Ok(Put(updates, "totalPrice", Mul(e.ticketPrice, Get(updates, "numberOfTickets"))))
    else
      Ok(updates)
  }

  datatype UpdateOutcome =
    | UpdateInvalid
    | UpdateRejected(status: int, message: string)
    | Updated(stmt: Clause)

  /** `updateReservation`: the provider whitelist cuts `req.body` in place;
      the statement is built from a copy of it. */
  method UpdateReservation(db: Db, caller: Caller, id: Value, body: JsObject, valid: bool, now: Value)
    returns (out: UpdateOutcome)
    modifies body
    ensures !valid ==> out == UpdateInvalid
    ensures valid && ReservationById(db, id).None? ==> out == UpdateRejected(404, NotFound)
    ensures valid && ReservationById(db, id).Some? && Denied(db, caller, ReservationById(db, id).value) ==>
      out == UpdateRejected(403, AccessDenied)
    ensures out.Updated? && HasRole(caller, "provider") ==> body.fields == Only(old(body.fields), ProviderFields)
    ensures !(out.Updated? && HasRole(caller, "provider")) ==> body.fields == old(body.fields)
    ensures out.Updated? ==> (valid && ReservationById(db, id).Some? && !Denied(db, caller, ReservationById(db, id).value)
      && var rec := Recalculate(db, caller, ReservationById(db, id).value, body.fields);
         rec.Ok? && out.stmt == UpdateStmt(RM.UpdateHead, Put(rec.value, "updatedAt", now), RM.UpdateTail, id))
    ensures valid && ReservationById(db, id).Some? && !Denied(db, caller, ReservationById(db, id).value) ==>
      (out.Updated? <==> Recalculate(db, caller, ReservationById(db, id).value, body.fields).Ok?)
  {
    if !valid {
      return UpdateInvalid;
    }
    var found := ReservationById(db, id);
    if found.None? {
      return UpdateRejected(404, NotFound);
    }
    var reservation := found.value;
    if HasRole(caller, "user") && !StrictEq(reservation.userId, caller.id) {
      return UpdateRejected(403, AccessDenied);
    }
    if HasRole(caller, "provider") {
      if !CheckProviderAccess(db, caller.id, reservation) {
        return UpdateRejected(403, AccessDenied);
      }
      KeepOnly(body, ProviderFields);
    }
    var rec := Recalculate(db, caller, reservation, body.fields);
    if rec.Err? {
      return UpdateRejected(400, rec.msg);
    }
    var updates := new JsObject(rec.value);
    var stmt := RM.Update(id, updates, now);
    return Updated(stmt);
  }

  // ---------------------------------------------------------------------
  // Availability route

  datatype AvailabilityReply =
    | MissingEntity
    | Availability(available: bool)
    | AvailabilityError(message: string)

  /** `checkAvailability` route: 400 without a type or id, otherwise the
      model's verdict with `date || null` and `numberOfTickets || 1`, and 500
      with the model's message when it throws. */
  function AvailabilityRoute(db: Db, query: seq<Field>): AvailabilityReply
  {
    var entityType, entityId := Get(query, "entityType"), Get(query, "entityId");
    if !Truthy(entityType) || !Truthy(entityId) then MissingEntity
    else
      match RM.CheckAvailability(db, entityType, entityId, Or(Get(query, "date"), Null), Or(Get(query, "numberOfTickets"), IntNum(1)))
      case Ok(b) => Availability(b)
      case Err(m) => AvailabilityError(m)
  }

  /** 400 exactly when the type or the id is missing; otherwise the model's
      verdict on `date || null` and `numberOfTickets || 1`, and for a place
      without a date its "Invalid entity type" error. */
  lemma AvailabilityRules(db: Db, query: seq<Field>)
    ensures var r := AvailabilityRoute(db, query);
      && (r == MissingEntity <==> !Truthy(Get(query, "entityType")) || !Truthy(Get(query, "entityId")))
      && (r.AvailabilityError? ==> r.message == RM.InvalidEntity)
      && (r.Availability? ==> RM.CheckAvailability(db, Get(query, "entityType"), Get(query, "entityId"),
            Or(Get(query, "date"), Null), Or(Get(query, "numberOfTickets"), IntNum(1))) == Ok(r.available))
      && ((Truthy(Get(query, "entityId")) && StrictEq(Get(query, "entityType"), Str("place"))
           && !Truthy(Get(query, "date"))) ==> r == AvailabilityError(RM.InvalidEntity))
  {
  }

  /** A request without `numberOfTickets` is answered as one asking for one ticket. */
  lemma DefaultOneTicket(db: Db, query: seq<Field>)
    requires !Truthy(Get(query, "numberOfTickets"))
    ensures AvailabilityRoute(db, query) == AvailabilityRoute(db, Put(query, "numberOfTickets", IntNum(1)))
  {
    PutOther(query, "numberOfTickets", IntNum(1), "entityType");
    PutOther(query, "numberOfTickets", IntNum(1), "entityId");
    PutOther(query, "numberOfTickets", IntNum(1), "date");
  }
}

/** The reservation model (models/reservationModel.js): the availability
    verdict for events and places, the filtered listing query, the INSERT
    parameters with their defaults, the UPDATE statement and deletion. */
module ReservationModel {
  import opened Js
  import opened Sql
  import opened Store

  // ---------------------------------------------------------------------
  // Availability

  /** Tickets a reservation holds against an event: the joined reservation's
      `numberOfTickets` when it is not cancelled (SUM skips NULL). */
  function HeldTickets(r: Reservation, eventId: int): real
  {
    if SqlEq(r.eventId, IntNum(eventId)) && NotCancelled(r.status) && r.numberOfTickets.Num?
    then r.numberOfTickets.n
    else 0.0
  }

  /** `COALESCE(SUM(r.numberOfTickets), 0)` over the reservations of the event. */
  function Booked(rs: seq<Reservation>, eventId: int): real
  {
    if rs == [] then 0.0 else HeldTickets(rs[0], eventId) + Booked(rs[1..], eventId)
  }

  /** `(capacity - bookedTickets) >= numberOfTickets` with JavaScript's numeric
      coercions: anything that does not read as a number makes it false. */
  predicate EnoughTickets(capacity: Value, booked: real, requested: Value)
  {
    var c, q := ToNumber(capacity), ToNumber(requested);
    c.Num? && q.Num? && c.n - booked >= q.n
  }

  /** The reservation occupies the place on the calendar day of `date`. */
  predicate TakesDay(r: Reservation, placeId: Value, date: Value)
  {
    SqlEq(r.placeId, placeId) && SqlDay(r.visitDate).Some?
    && SqlDay(r.visitDate) == SqlDay(date) && NotCancelled(r.status)
  }

  /** `COUNT(*)` of the reservations occupying the place on that day. */
  function DayCount(rs: seq<Reservation>, placeId: Value, date: Value): nat
  {
    if rs == [] then 0
    else (if TakesDay(rs[0], placeId, date) then 1 else 0) + DayCount(rs[1..], placeId, date)
  }

  const InvalidEntity := "Invalid entity type or missing required parameters"

  /** `Reservation.checkAvailability(entityType, entityId, date, numberOfTickets)`:
      an error for anything but an event or a dated place; for an event,
      false when it does not exist, otherwise whether enough tickets remain;
      for a place, whether nothing else is booked that day. */
  function CheckAvailability(db: Db, entityType: Value, entityId: Value, date: Value, numberOfTickets: Value): (r: Result<bool>)
    ensures r.Err? <==> !StrictEq(entityType, Str("event")) && !(StrictEq(entityType, Str("place")) && Truthy(date))
    ensures r.Err? ==> r.msg == InvalidEntity
    ensures StrictEq(entityType, Str("event")) && EventById(db, entityId).None? ==> r == Ok(false)
  {
    if StrictEq(entityType, Str("event")) then
      match EventById(db, entityId)
      case None => Ok(false)
      case Some(e) => Ok(EnoughTickets(e.capacity, Booked(db.reservations, e.id), numberOfTickets))
    else if StrictEq(entityType, Str("place")) && Truthy(date) then
      Ok(DayCount(db.reservations, entityId, date) == 0)
    else
      Err(InvalidEntity)
  }

  lemma {:induction false} DayCountZero(rs: seq<Reservation>, placeId: Value, date: Value)
    ensures DayCount(rs, placeId, date) == 0 <==> forall r :: r in rs ==> !TakesDay(r, placeId, date)
  {
    if rs != [] {
      DayCountZero(rs[1..], placeId, date);
      assert forall r :: r in rs <==> r == rs[0] || r in rs[1..];
    }
  }

  /** A dated place is available exactly when no non-cancelled reservation of
      that place falls on the same day; the requested quantity plays no part. */
  lemma PlaceAvailableIff(db: Db, placeId: Value, date: Value, n: Value, m: Value)
    requires Truthy(date)
    ensures CheckAvailability(db, Str("place"), placeId, date, n)
         == Ok(forall r :: r in db.reservations ==> !TakesDay(r, placeId, date))
    ensures CheckAvailability(db, Str("place"), placeId, date, n)
         == CheckAvailability(db, Str("place"), placeId, date, m)
  {
    DayCountZero(db.reservations, placeId, date);
  }

  /** An existing event is available exactly when its capacity and the
      requested count read as numbers and the capacity, less the tickets of
      its non-cancelled reservations, covers the request; the date plays no
      part. */
  lemma EventAvailableIff(db: Db, id: Value, date: Value, d: Value, n: Value)
    requires EventById(db, id).Some?
    ensures var e := EventById(db, id).value;
      var c, q := ToNumber(e.capacity), ToNumber(n);
      CheckAvailability(db, Str("event"), id, date, n)
        == Ok(c.Num? && q.Num? && c.n - Booked(db.reservations, e.id) >= q.n)
    ensures CheckAvailability(db, Str("event"), id, date, n) == CheckAvailability(db, Str("event"), id, d, n)
  {
  }

  lemma {:induction false} BookedAppend(a: seq<Reservation>, b: seq<Reservation>, eventId: int)
    ensures Booked(a + b, eventId) == Booked(a, eventId) + Booked(b, eventId)
  {
    if a == [] {
      assert a + b == b;
    } else {
      assert (a + b)[1..] == a[1..] + b;
      BookedAppend(a[1..], b, eventId);
    }
  }

  /** Saying yes to `k` tickets and then recording a pending reservation of
      `k` tickets for the event leaves its bookings within capacity. */
  lemma NoOverbooking(db: Db, id: Value, date: Value, k: real, r: Reservation)
    requires CheckAvailability(db, Str("event"), id, date, Num(k)) == Ok(true)
    requires EventById(db, id).Some? && ToNumber(EventById(db, id).value.capacity).Num?
    requires r.eventId == IntNum(EventById(db, id).value.id) && r.status == Str("pending") && r.numberOfTickets == Num(k)
    ensures Booked(db.reservations + [r], EventById(db, id).value.id) <= ToNumber(EventById(db, id).value.capacity).n
  {
    var e := EventById(db, id).value;
    BookedAppend(db.reservations, [r], e.id);
    assert [r][1..] == [];
  }

  /** A ticket count that arrives as the text of a number (a query-string
      value) is compared as that number. */
  lemma TextCountSame(capacity: Value, booked: real, k: real)
    requires Terminates(k)
    ensures EnoughTickets(capacity, booked, Str(ToStr(Num(k)))) == EnoughTickets(capacity, booked, Num(k))
  {
    NumberRoundTrip(k);
  }

  /** The table after the reservation at index `i` is cancelled. */
  function Cancel(rs: seq<Reservation>, i: nat): seq<Reservation>
    requires i < |rs|
  {
    rs[i := rs[i].(status := Str("cancelled"))]
  }

  /** Cancelling a reservation gives its tickets back to the event. */
  lemma {:induction false} CancelReleases(rs: seq<Reservation>, i: nat, eventId: int)
    requires i < |rs|
    ensures Booked(Cancel(rs, i), eventId) == Booked(rs, eventId) - HeldTickets(rs[i], eventId)
  {
    if i == 0 {
      assert Cancel(rs, i)[1..] == rs[1..];
    } else {
      assert Cancel(rs, i)[1..] == Cancel(rs[1..], i - 1);
      CancelReleases(rs[1..], i - 1, eventId);
    }
  }

  /** An event that had room keeps it after a cancellation. */
  lemma CancelKeepsAvailable(db: Db, id: Value, date: Value, n: Value, i: nat)
    requires i < |db.reservations|
    requires EventById(db, id).Some?
    requires HeldTickets(db.reservations[i], EventById(db, id).value.id) >= 0.0
    requires CheckAvailability(db, Str("event"), id, date, n) == Ok(true)
    ensures CheckAvailability(db.(reservations := Cancel(db.reservations, i)), Str("event"), id, date, n) == Ok(true)
  {
    CancelReleases(db.reservations, i, EventById(db, id).value.id);
  }

  // ---------------------------------------------------------------------
  // Listing

  function UserIdClause(f: seq<Field>): seq<Clause>
  {
    When(Truthy(Get(f, "userId")), Clause([Lit(" AND userId = "), Hole], [Get(f, "userId")]))
  }

  function PlaceIdClause(f: seq<Field>): seq<Clause>
  {
    When(Truthy(Get(f, "placeId")), Clause([Lit(" AND placeId = "), Hole], [Get(f, "placeId")]))
  }

  function EventIdClause(f: seq<Field>): seq<Clause>
  {
    When(Truthy(Get(f, "eventId")), Clause([Lit(" AND eventId = "), Hole], [Get(f, "eventId")]))
  }

  function StatusClause(f: seq<Field>): seq<Clause>
  {
    When(Truthy(Get(f, "status")), Clause([Lit(" AND status = "), Hole], [Get(f, "status")]))
  }

  function FromClause(f: seq<Field>): seq<Clause>
  {
    var from := Get(f, "fromDate");
    When(Truthy(from), Clause([Lit(" AND (visitDate >= "), Hole, Lit(" OR createdAt >= "), Hole, Lit(")")], [from, from]))
  }

  function ToClause(f: seq<Field>): seq<Clause>
  {
    var to := Get(f, "toDate");
    When(Truthy(to), Clause([Lit(" AND (visitDate <= "), Hole, Lit(" OR createdAt <= "), Hole, Lit(")")], [to, to]))
  }

  /** The clauses `getAll` appends, in the order it appends them. */
  function ListingClauses(f: seq<Field>): seq<Clause>
  {
    UserIdClause(f) + PlaceIdClause(f) + EventIdClause(f) + StatusClause(f) + FromClause(f) + ToClause(f)
  }

  const ListingHead: Stmt := [Lit("SELECT * FROM reservations WHERE 1=1")]
  const ListingOrder: Piece := Lit(" ORDER BY createdAt DESC")

  /** The filter keys the listing reads; any other key is ignored. */
  const ListingKeys: set<string> := {"userId", "placeId", "eventId", "status", "fromDate", "toDate"}

  lemma TwoHoles(a: string, b: string, c: string)
    ensures Holes([Lit(a), Hole, Lit(b), Hole, Lit(c)]) == 2
  {
    var p: Stmt := [Lit(a), Hole, Lit(b), Hole, Lit(c)];
    assert p[1..][1..][1..][1..][1..] == [];
    assert Holes(p[4..]) == 0;
    assert p[3..][1..] == p[4..];
    assert Holes(p[3..]) == 1;
    assert p[2..][1..] == p[3..];
    assert p[1..][1..] == p[2..];
    assert Holes(p[1..]) == 2;
  }

  /** Every clause of the listing binds as many values as it has placeholders;
      the date-range clauses bind their date twice. */
  lemma ListingClausesBalanced(f: seq<Field>)
    ensures forall i :: 0 <= i < |ListingClauses(f)| ==> Balanced(ListingClauses(f)[i])
  {
    LitHole(" AND userId = ");
    LitHole(" AND placeId = ");
    LitHole(" AND eventId = ");
    LitHole(" AND status = ");
    TwoHoles(" AND (visitDate >= ", " OR createdAt >= ", ")");
    TwoHoles(" AND (visitDate <= ", " OR createdAt <= ", ")");
  }

  /** `Reservation.getAll(filters)`: appends one clause per truthy filter and
      the ordering; the statement has one placeholder per parameter, and the
      parameters follow the clauses. */
  method GetAll(filters: seq<Field>) returns (query: Stmt, params: seq<Value>)
    ensures query == ListingHead + SqlOf(ListingClauses(filters)) + [ListingOrder]
    ensures params == ParamsOf(ListingClauses(filters))
    ensures Holes(query) == |params|
  {
    var u := Get(filters, "userId");
    query, params := AppendWhen(ListingHead, [], ListingHead, [], Truthy(u), Clause([Lit(" AND userId = "), Hole], [u]));
    ghost var cs := UserIdClause(filters);
    var p := Get(filters, "placeId");
    query, params := AppendWhen(ListingHead, cs, query, params, Truthy(p), Clause([Lit(" AND placeId = "), Hole], [p]));
    cs := cs + PlaceIdClause(filters);
    var e := Get(filters, "eventId");
    query, params := AppendWhen(ListingHead, cs, query, params, Truthy(e), Clause([Lit(" AND eventId = "), Hole], [e]));
    cs := cs + EventIdClause(filters);
    var s := Get(filters, "status");
    query, params := AppendWhen(ListingHead, cs, query, params, Truthy(s), Clause([Lit(" AND status = "), Hole], [s]));
    cs := cs + StatusClause(filters);
    var from := Get(filters, "fromDate");
    query, params := AppendWhen(ListingHead, cs, query, params, Truthy(from),
      Clause([Lit(" AND (visitDate >= "), Hole, Lit(" OR createdAt >= "), Hole, Lit(")")], [from, from]));
    cs := cs + FromClause(filters);
    var to := Get(filters, "toDate");
    query, params := AppendWhen(ListingHead, cs, query, params, Truthy(to),
      Clause([Lit(" AND (visitDate <= "), Hole, Lit(" OR createdAt <= "), Hole, Lit(")")], [to, to]));
    assert cs + ToClause(filters) == ListingClauses(filters);
    query := query + [ListingOrder];
    ListingBalanced(filters);
  }

  /** The listing statement has exactly one placeholder per parameter. */
  lemma ListingBalanced(f: seq<Field>)
    ensures Holes(ListingHead + SqlOf(ListingClauses(f)) + [ListingOrder]) == |ParamsOf(ListingClauses(f))|
  {
    var cs := ListingClauses(f);
    ListingClausesBalanced(f);
    ConcatBalanced(cs);
    assert ListingHead[1..] == [] && [ListingOrder][1..] == [];
    HolesAppend(ListingHead, SqlOf(cs));
    HolesAppend(ListingHead + SqlOf(cs), [ListingOrder]);
  }

  /** The rows the listing statement selects: each truthy filter must hold. */
  predicate ListingMatch(r: Reservation, f: seq<Field>)
  {
    var u, p, e, s := Get(f, "userId"), Get(f, "placeId"), Get(f, "eventId"), Get(f, "status");
    var from, to := Get(f, "fromDate"), Get(f, "toDate");
    && (Truthy(u) ==> SqlEq(r.userId, u))
    && (Truthy(p) ==> SqlEq(r.placeId, p))
    && (Truthy(e) ==> SqlEq(r.eventId, e))
    && (Truthy(s) ==> SqlEq(r.status, s))
    && (Truthy(from) ==> SqlGe(r.visitDate, from) || SqlGe(r.createdAt, from))
    && (Truthy(to) ==> SqlLe(r.visitDate, to) || SqlLe(r.createdAt, to))
  }

  /** The selected rows, in table order. */
  function Listing(rows: seq<Reservation>, f: seq<Field>): (r: seq<Reservation>)
    ensures forall x :: x in r <==> x in rows && ListingMatch(x, f)
  {
    if rows == [] then []
    else
      assert forall x :: x in rows <==> x == rows[0] || x in rows[1..];
      (if ListingMatch(rows[0], f) then [rows[0]] else []) + Listing(rows[1..], f)
  }

  /** Setting a filter key the listing does not read changes neither the
      statement nor the rows (e.g. `placeIds`). */
  lemma ListingIgnores(rows: seq<Reservation>, f: seq<Field>, k: string, v: Value)
    requires k !in ListingKeys
    ensures ListingClauses(Put(f, k, v)) == ListingClauses(f)
    ensures Listing(rows, Put(f, k, v)) == Listing(rows, f)
  {
    var g := Put(f, k, v);
    assert forall x :: ListingMatch(x, g) == ListingMatch(x, f);
    ListingSame(rows, f, g);
  }

  lemma {:induction false} ListingSame(rows: seq<Reservation>, f: seq<Field>, g: seq<Field>)
    requires forall x :: ListingMatch(x, g) == ListingMatch(x, f)
    ensures Listing(rows, g) == Listing(rows, f)
  {
    if rows != [] {
      ListingSame(rows[1..], f, g);
    }
  }

  // ---------------------------------------------------------------------
  // Create, update, delete

  const ReservationColumns: seq<string> := ["userId", "eventId", "placeId", "numberOfTickets",
    "numberOfPersons", "totalPrice", "status", "paymentMethod", "paymentId", "visitDate"]

  /** The parameters of `Reservation.create(data)`, one per column: `userId`
      as given, `status` defaulting to 'pending', every other falsy field NULL. */
  function CreateParams(data: seq<Field>): (ps: seq<Value>)
    ensures |ps| == |ReservationColumns|
    ensures ps[0] == Get(data, "userId")
    ensures forall i :: 1 <= i < |ps| && Truthy(Get(data, ReservationColumns[i])) ==> ps[i] == Get(data, ReservationColumns[i])
    ensures forall i :: 1 <= i < |ps| && i != 6 && !Truthy(Get(data, ReservationColumns[i])) ==> ps[i] == Null
    ensures !Truthy(Get(data, "status")) ==> ps[6] == Str("pending")
    ensures forall i :: 1 <= i < |ps| ==> ps[i] == Null || Truthy(ps[i])
  {
    [ Get(data, "userId"),
      Or(Get(data, "eventId"), Null),
      Or(Get(data, "placeId"), Null),
      Or(Get(data, "numberOfTickets"), Null),
      Or(Get(data, "numberOfPersons"), Null),
      Or(Get(data, "totalPrice"), Null),
      Or(Get(data, "status"), Str("pending")),
      Or(Get(data, "paymentMethod"), Null),
      Or(Get(data, "paymentId"), Null),
      Or(Get(data, "visitDate"), Null) ]
  }

  function CreateStmt(data: seq<Field>): Clause
  {
    Insert("INSERT INTO reservations (userId, eventId, placeId, numberOfTickets, numberOfPersons, "
      + "totalPrice, status, paymentMethod, paymentId, visitDate) VALUES (", 10, ")", CreateParams(data))
  }

  /** The INSERT has ten placeholders for its ten parameters. */
  lemma CreateBalanced(data: seq<Field>)
    ensures Balanced(CreateStmt(data))
  {
    InsertBalanced("INSERT INTO reservations (userId, eventId, placeId, numberOfTickets, numberOfPersons, "
      + "totalPrice, status, paymentMethod, paymentId, visitDate) VALUES (", 10, ")", CreateParams(data));
  }

  const UpdateHead := "UPDATE reservations SET "
  const UpdateTail := " WHERE id = "

  /** `Reservation.update(id, updates)`: stamps `updatedAt` on the caller's
      object, then builds the statement from all of its keys. */
  method Update(id: Value, updates: JsObject, now: Value) returns (stmt: Clause)
    modifies updates
    ensures updates.fields == Put(old(updates.fields), "updatedAt", now)
    ensures stmt == UpdateStmt(UpdateHead, updates.fields, UpdateTail, id)
  {
    updates.Assign("updatedAt", now);
    stmt := UpdateStmt(UpdateHead, updates.fields, UpdateTail, id);
  }

  /** Because `updatedAt` is always added, the update statement is never
      empty: it has a `key = ?` per key of the stamped object, in key order,
      and the id bound last. */
  lemma UpdateWellFormed(fields: seq<Field>, now: Value, id: Value)
    ensures var f := Put(fields, "updatedAt", now);
      var c := UpdateStmt(UpdateHead, f, UpdateTail, id);
      && "updatedAt" in Keys(f)
      && Balanced(c)
      && c.params[..|f|] == Values(f) && c.params[|f|] == id
  {
    StampedUpdate(UpdateHead, fields, "updatedAt", now, UpdateTail, id);
  }

  /** `Reservation.delete(id)` on the table. */
  function Delete(db: Db, id: Value): (d: Db)
    ensures forall r :: r in d.reservations ==> r in db.reservations && !SqlEq(IntNum(r.id), id)
    ensures forall r :: r in db.reservations && !SqlEq(IntNum(r.id), id) ==> r in d.reservations
    ensures d.events == db.events && d.places == db.places && d.reviews == db.reviews && d.users == db.users
  {
    db.(reservations := DeleteWhere(db.reservations, (r: Reservation) => IntNum(r.id), id).0)
  }
}

/** The database as the models see it: one sequence of rows per table, with
    the columns the core reads, and the few SQL comparisons the generated
    statements rely on. Column values are JavaScript values because the
    controllers compare them with request values using `===` and `||`. */
module Store {
  import opened Text
  import opened Js

  datatype Result<T> = Ok(value: T) | Err(msg: string)

  /** `column = ?` for the columns and parameters of this backend: NULL
      matches nothing, numbers match equal numbers or strings that read as
      them, strings match equal strings. */
  predicate SqlEq(col: Value, p: Value)
  {
    match col
    case Num(a) => (p.Num? && p.n == a) || (p.Str? && StrToNumber(p.s) == Num(a))
    case Str(a) => (p.Str? && p.s == a) || (p.Num? && StrToNumber(a) == p)
    case _ => false
  }

  /** `DATE(v)`: the `YYYY-MM-DD` day of a datetime string, NULL for anything else. */
  function SqlDay(v: Value): Option<string>
  {
    if v.Str? && |v.s| >= 10 then Some(v.s[..10]) else None
  }

  /** `column >= ?` and `column <= ?` on datetime strings. */
  predicate SqlGe(col: Value, p: Value)
  {
    col.Str? && p.Str? && LexLe(p.s, col.s)
  }

  predicate SqlLe(col: Value, p: Value)
  {
    col.Str? && p.Str? && LexLe(col.s, p.s)
  }

  /** `column != 'cancelled'`: NULL is neither equal nor different. */
  predicate NotCancelled(status: Value)
  {
    status.Str? && status.s != "cancelled"
  }

  datatype Reservation = Reservation(
    id: int, userId: Value, eventId: Value, placeId: Value,
    numberOfTickets: Value, numberOfPersons: Value, totalPrice: Value,
    status: Value, visitDate: Value, createdAt: Value)

  datatype Event = Event(id: int, capacity: Value, ticketPrice: Value, providerId: Value)

  /** The `entranceFee` column of a place as the reservation controller reads
      it: empty or NULL, text that `JSON.parse` rejects (or that parses to
      null), or parsed JSON whose `adult` property is the given value. */
  datatype Fee = NoFee | Unreadable | Parsed(adult: Value)

  datatype Place = Place(id: int, providerId: Value, entranceFee: Fee)

  datatype Review = Review(id: int, userId: Value, placeId: Value, rating: real, comment: Value)

  datatype User = User(
    userId: int, nom: Value, prenom: Value, email: Value, passwordHash: Value,
    role: Value, status: Value, profileImage: Value, phone: Value, createdAt: Value)

  datatype Db = Db(
    reservations: seq<Reservation>, events: seq<Event>, places: seq<Place>,
    reviews: seq<Review>, users: seq<User>)

  /** `SELECT ... WHERE <key> = ?` followed by `rows[0]`: the first row whose
      key matches, if any. */
  function FirstMatch<R>(rows: seq<R>, key: R -> Value, v: Value): (r: Option<R>)
    ensures r.Some? ==> r.value in rows && SqlEq(key(r.value), v)
    ensures r.None? ==> forall x :: x in rows ==> !SqlEq(key(x), v)
  {
    if rows == [] then None
    else if SqlEq(key(rows[0]), v) then Some(rows[0])
    else FirstMatch(rows[1..], key, v)
  }

  function ReservationById(db: Db, id: Value): Option<Reservation>
  {
    FirstMatch(db.reservations, (r: Reservation) => IntNum(r.id), id)
  }

  function EventById(db: Db, id: Value): Option<Event>
  {
    FirstMatch(db.events, (e: Event) => IntNum(e.id), id)
  }

  function PlaceById(db: Db, id: Value): Option<Place>
  {
    FirstMatch(db.places, (p: Place) => IntNum(p.id), id)
  }

  function ReviewById(db: Db, id: Value): Option<Review>
  {
    FirstMatch(db.reviews, (r: Review) => IntNum(r.id), id)
  }

  function UserById(db: Db, id: Value): Option<User>
  {
    FirstMatch(db.users, (u: User) => IntNum(u.userId), id)
  }

  function UserByEmail(db: Db, email: Value): Option<User>
  {
    FirstMatch(db.users, (u: User) => u.email, email)
  }

  /** `DELETE FROM t WHERE id = ?`: the rows left, and whether any row went. */
  function DeleteWhere<R>(rows: seq<R>, key: R -> Value, v: Value): (r: (seq<R>, bool))
    ensures forall x :: x in r.0 ==> x in rows && !SqlEq(key(x), v)
    ensures forall x :: x in rows && !SqlEq(key(x), v) ==> x in r.0
    ensures r.1 <==> exists x :: x in rows && SqlEq(key(x), v)
  {
    if rows == [] then ([], false)
    else
      var rest := DeleteWhere(rows[1..], key, v);
      assert forall x :: x in rows[1..] ==> x in rows;
      if SqlEq(key(rows[0]), v) then (rest.0, true)
      else ([rows[0]] + rest.0, rest.1)
  }
}

/** The review model (models/reviewModel.js): the filtered listing, the
    INSERT parameters, the UPDATE statement stamped with `updatedAt`,
    deletion and the average rating of a place. */
module ReviewModel {
  import opened Js
  import opened Sql
  import opened Store

  // ---------------------------------------------------------------------
  // Listing

  function PlaceIdClause(f: seq<Field>): seq<Clause>
  {
    When(Truthy(Get(f, "placeId")), Clause([Lit(" AND placeId = "), Hole], [Get(f, "placeId")]))
  }

  function UserIdClause(f: seq<Field>): seq<Clause>
  {
    When(Truthy(Get(f, "userId")), Clause([Lit(" AND userId = "), Hole], [Get(f, "userId")]))
  }

  /** The clauses `getAll` appends: the place filter, then the user filter. */
  function ListingClauses(f: seq<Field>): seq<Clause>
  {
    PlaceIdClause(f) + UserIdClause(f)
  }

  const ListingHead: Stmt := [Lit("SELECT * FROM reviews WHERE 1=1")]
  const ListingOrder: Piece := Lit(" ORDER BY createdAt DESC")

  /** `Review.getAll(filters)`. */
  method GetAll(filters: seq<Field>) returns (query: Stmt, params: seq<Value>)
    ensures query == ListingHead + SqlOf(ListingClauses(filters)) + [ListingOrder]
    ensures params == ParamsOf(ListingClauses(filters))
  {
    ghost var cs: seq<Clause> := [];
    query := ListingHead;
    params := [];
    var p := Get(filters, "placeId");
    if Truthy(p) {
      var c := Clause([Lit(" AND placeId = "), Hole], [p]);
      Extend(ListingHead, cs, c, query, params);
      query, params, cs := query + c.sql, params + c.params, cs + [c];
    }
    assert cs == PlaceIdClause(filters) && query == ListingHead + SqlOf(cs) && params == ParamsOf(cs);
    var u := Get(filters, "userId");
    if Truthy(u) {
      var c := Clause([Lit(" AND userId = "), Hole], [u]);
      Extend(ListingHead, cs, c, query, params);
      query, params, cs := query + c.sql, params + c.params, cs + [c];
    }
    assert cs == ListingClauses(filters);
    query := query + [ListingOrder];
  }

  /** The listing has one placeholder per parameter; the parameters are the
      place id when given, then the user id when given. */
  lemma ListingShape(f: seq<Field>)
    ensures Holes(ListingHead + SqlOf(ListingClauses(f)) + [ListingOrder]) == |ParamsOf(ListingClauses(f))|
    ensures ParamsOf(ListingClauses(f))
      == (if Truthy(Get(f, "placeId")) then [Get(f, "placeId")] else [])
       + (if Truthy(Get(f, "userId")) then [Get(f, "userId")] else [])
  {
    var cs := ListingClauses(f);
    LitHole(" AND placeId = ");
    LitHole(" AND userId = ");
    ConcatBalanced(cs);
    assert ListingHead[1..] == [] && [ListingOrder][1..] == [];
    HolesAppend(ListingHead, SqlOf(cs));
    HolesAppend(ListingHead + SqlOf(cs), [ListingOrder]);
    ClausesAppend(PlaceIdClause(f), UserIdClause(f));
    WhenShape(Truthy(Get(f, "placeId")), Clause([Lit(" AND placeId = "), Hole], [Get(f, "placeId")]));
    WhenShape(Truthy(Get(f, "userId")), Clause([Lit(" AND userId = "), Hole], [Get(f, "userId")]));
  }

  // ---------------------------------------------------------------------
  // Create, update, delete

  const ReviewColumns: seq<string> := ["userId", "placeId", "rating", "comment"]

  /** `Review.create(reviewData)` binds the four columns as given; the
      creation time is the database's `NOW()`, not a parameter. */
  function CreateStmt(data: seq<Field>): (c: Clause)
    ensures |c.params| == |ReviewColumns|
    ensures forall i :: 0 <= i < |ReviewColumns| ==> c.params[i] == Get(data, ReviewColumns[i])
  {
    Insert("INSERT INTO reviews (userId, placeId, rating, comment, createdAt) VALUES (", 4, ", NOW())",
      [Get(data, "userId"), Get(data, "placeId"), Get(data, "rating"), Get(data, "comment")])
  }

  lemma CreateBalanced(data: seq<Field>)
    ensures Balanced(CreateStmt(data))
  {
    InsertBalanced("INSERT INTO reviews (userId, placeId, rating, comment, createdAt) VALUES (", 4, ", NOW())",
      [Get(data, "userId"), Get(data, "placeId"), Get(data, "rating"), Get(data, "comment")]);
  }

  const UpdateHead := "UPDATE reviews SET "
  const UpdateTail := " WHERE id = "

  /** `Review.update(id, updates)`: stamps `updatedAt` on the caller's
      object, then builds the statement from all of its keys. */
  method Update(id: Value, updates: JsObject, now: Value) returns (stmt: Clause)
    modifies updates
    ensures updates.fields == Put(old(updates.fields), "updatedAt", now)
    ensures stmt == UpdateStmt(UpdateHead, updates.fields, UpdateTail, id)
  {
    updates.Assign("updatedAt", now);
    stmt := UpdateStmt(UpdateHead, updates.fields, UpdateTail, id);
  }

  /** The stamped review UPDATE is never empty: a `key = ?` per key, the id
      last, one placeholder per parameter. */
  lemma UpdateWellFormed(fields: seq<Field>, now: Value, id: Value)
    ensures var f := Put(fields, "updatedAt", now);
      var c := UpdateStmt(UpdateHead, f, UpdateTail, id);
      && "updatedAt" in Keys(f)
      && Balanced(c)
      && c.params[..|f|] == Values(f) && c.params[|f|] == id
  {
    StampedUpdate(UpdateHead, fields, "updatedAt", now, UpdateTail, id);
  }

  /** `Review.delete(id)` on the table. */
  function Delete(db: Db, id: Value): (d: Db)
    ensures forall r :: r in d.reviews <==> r in db.reviews && !SqlEq(IntNum(r.id), id)
    ensures d.reservations == db.reservations && d.events == db.events
    ensures d.places == db.places && d.users == db.users
  {
    db.(reviews := DeleteWhere(db.reviews, (r: Review) => IntNum(r.id), id).0)
  }

  // ---------------------------------------------------------------------
  // Average rating

  /** The ratings of the reviews of a place, in table order. */
  function RatingsOf(rs: seq<Review>, placeId: Value): (xs: seq<real>)
    ensures |xs| <= |rs|
    ensures forall x :: x in xs ==> exists r :: r in rs && SqlEq(r.placeId, placeId) && r.rating == x
  {
    if rs == [] then []
    else
      var rest := RatingsOf(rs[1..], placeId);
      assert forall r :: r in rs[1..] ==> r in rs;
      (if SqlEq(rs[0].placeId, placeId) then [rs[0].rating] else []) + rest
  }

  function Sum(xs: seq<real>): real
  {
    if xs == [] then 0.0 else xs[0] + Sum(xs[1..])
  }

  /** `AVG(rating) ... || 0`: the mean of the place's ratings, 0 when it has
      none (AVG of no rows is NULL). */
  function AverageRating(rs: seq<Review>, placeId: Value): (a: real)
    ensures RatingsOf(rs, placeId) == [] ==> a == 0.0
  {
    var xs := RatingsOf(rs, placeId);
    if xs == [] then 0.0 else Sum(xs) / |xs| as real
  }

  lemma {:induction false} SumBounds(xs: seq<real>, lo: real, hi: real)
    requires forall x :: x in xs ==> lo <= x <= hi
    ensures lo * |xs| as real <= Sum(xs) <= hi * |xs| as real
  {
    if xs != [] {
      assert forall x :: x in xs[1..] ==> x in xs;
      SumBounds(xs[1..], lo, hi);
      assert xs[0] in xs;
      assert lo * |xs| as real == lo + lo * |xs[1..]| as real;
      assert hi * |xs| as real == hi + hi * |xs[1..]| as real;
    }
  }

  lemma MeanBounds(s: real, n: real, lo: real, hi: real)
    requires n > 0.0 && lo * n <= s <= hi * n
    ensures lo <= s / n <= hi
  {
    assert s / n - lo == (s - lo * n) / n;
    assert hi - s / n == (hi * n - s) / n;
  }

  lemma {:induction false} RatingsBounded(rs: seq<Review>, placeId: Value, lo: real, hi: real)
    requires forall r :: r in rs ==> lo <= r.rating <= hi
    ensures forall x :: x in RatingsOf(rs, placeId) ==> lo <= x <= hi
  {
    if rs != [] {
      assert rs[0] in rs;
      assert forall r :: r in rs[1..] ==> r in rs;
      RatingsBounded(rs[1..], placeId, lo, hi);
    }
  }

  /** The mean of values in [lo, hi] lies in [lo, hi]. */
  lemma MeanOfBounded(xs: seq<real>, lo: real, hi: real)
    requires xs != [] && forall x :: x in xs ==> lo <= x <= hi
    ensures lo <= Sum(xs) / |xs| as real <= hi
  {
    SumBounds(xs, lo, hi);
    MeanBounds(Sum(xs), |xs| as real, lo, hi);
  }

  /** When every rating lies in [lo, hi] (0 and 5 for validated reviews), so
      does the average of a place that has reviews. */
  lemma AverageBounds(rs: seq<Review>, placeId: Value, lo: real, hi: real)
    requires forall r :: r in rs ==> lo <= r.rating <= hi
    requires RatingsOf(rs, placeId) != []
    ensures lo <= AverageRating(rs, placeId) <= hi
  {
    RatingsBounded(rs, placeId, lo, hi);
    MeanOfBounded(RatingsOf(rs, placeId), lo, hi);
  }
}

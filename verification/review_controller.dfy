/** The review controller (controllers/reviewController.js): who may change
    or delete a review, how `createReview` fills in the author, and the
    order of its refusals. `req.user` is optional here: the controller
    itself checks for its presence. */
module ReviewController {
  import opened Js
  import opened Sql
  import opened Store
  import opened Http
  import RVM = ReviewModel

  /** `req.user && req.user.role !== 'admin' && review.userId !== req.user.id` */
  predicate Forbidden(user: Option<Caller>, r: Review)
  {
    user.Some? && !HasRole(user.value, "admin") && !StrictEq(r.userId, user.value.id)
  }

  const ReviewNotFound := "Review not found"
  const PlaceNotFound := "Place not found"

  /** What a create or an update does: refuse before any write, or send a
      statement. */
  datatype Outcome =
    | Invalid
    | Rejected(status: int, message: string)
    | Written(stmt: Clause)

  // ---------------------------------------------------------------------
  // Create

  /** `if (!req.body.userId && req.user) req.body.userId = req.user.id` */
  function Filled(body: seq<Field>, user: Option<Caller>): (r: seq<Field>)
    ensures Get(r, "placeId") == Get(body, "placeId")
    ensures Get(r, "userId") == if !Truthy(Get(body, "userId")) && user.Some? then user.value.id else Get(body, "userId")
  {
    if !Truthy(Get(body, "userId")) && user.Some? then Put(body, "userId", user.value.id) else body
  }

  /** `createReview`: 400 on invalid input, 404 for an unknown place, and
      otherwise the INSERT of the filled-in body. The author is the body's
      `userId` when it has one, else the caller's id. */
  function CreateResult(db: Db, user: Option<Caller>, body: seq<Field>, valid: bool): Outcome
  {
    if !valid then Invalid
    else
      var data := Filled(body, user);
      if PlaceById(db, Get(data, "placeId")).None? then Rejected(404, PlaceNotFound)
      else Written(RVM.CreateStmt(data))
  }

  /** Invalid input is refused first, an unknown place next; otherwise the
      filled-in body is inserted. */
  lemma CreateRefusals(db: Db, user: Option<Caller>, body: seq<Field>, valid: bool)
    ensures var out := CreateResult(db, user, body, valid);
      && (!valid <==> out == Invalid)
      && (valid ==> (out == Rejected(404, PlaceNotFound) <==> PlaceById(db, Get(body, "placeId")).None?))
      && (out.Written? ==> out.stmt == RVM.CreateStmt(Filled(body, user)) && PlaceById(db, Get(body, "placeId")).Some?)
  {
  }

  /** The review written is by the body's `userId` when it is truthy, else
      by the caller, and is about the body's place. */
  lemma CreateAuthor(db: Db, user: Option<Caller>, body: seq<Field>)
    ensures var out := CreateResult(db, user, body, true);
      out.Written? ==>
        && out.stmt.params[0] == (if Truthy(Get(body, "userId")) || user.None? then Get(body, "userId") else user.value.id)
        && out.stmt.params[1] == Get(body, "placeId")
  {
  }

  method CreateReview(db: Db, user: Option<Caller>, body: JsObject, valid: bool) returns (out: Outcome)
    modifies body
    ensures out == CreateResult(db, user, old(body.fields), valid)
    ensures body.fields == if valid then Filled(old(body.fields), user) else old(body.fields)
  {
    if !valid {
      return Invalid;
    }
    ghost var filled := Filled(body.fields, user);
    if !Truthy(Get(body.fields, "userId")) && user.Some? {
      body.Assign("userId", user.value.id);
    }
    assert body.fields == filled;
    var place := PlaceById(db, Get(body.fields, "placeId"));
    if place.None? {
      return Rejected(404, PlaceNotFound);
    }
    return Written(RVM.CreateStmt(body.fields));
  }

  // ---------------------------------------------------------------------
  // Update and delete

  /** `updateReview`: 400 on invalid input, 404 for an unknown review, 403
      when `Forbidden`, otherwise the stamped UPDATE of the body. */
  function UpdateResult(db: Db, user: Option<Caller>, id: Value, body: seq<Field>, valid: bool, now: Value): Outcome
  {
    if !valid then Invalid
    else
      match ReviewById(db, id)
      case None => Rejected(404, ReviewNotFound)
      case Some(r) =>
        if Forbidden(user, r) then Rejected(403, "Not authorized to update this review")
        else Written(UpdateStmt(RVM.UpdateHead, Put(body, "updatedAt", now), RVM.UpdateTail, id))
  }

  /** Invalid input first, then an unknown review (404), then a caller who
      is neither the author nor an admin (403); otherwise the stamped
      UPDATE. */
  lemma UpdateRefusals(db: Db, user: Option<Caller>, id: Value, body: seq<Field>, valid: bool, now: Value)
    ensures var out := UpdateResult(db, user, id, body, valid, now);
      && (!valid <==> out == Invalid)
      && (valid ==> (out == Rejected(404, ReviewNotFound) <==> ReviewById(db, id).None?))
      && (out.Rejected? && out.status == 403 <==>
          valid && ReviewById(db, id).Some? && Forbidden(user, ReviewById(db, id).value))
      && (valid && ReviewById(db, id).Some? && (user.None? || HasRole(user.value, "admin")) ==> out.Written?)
      && (out.Written? ==> out.stmt == UpdateStmt(RVM.UpdateHead, Put(body, "updatedAt", now), RVM.UpdateTail, id))
  {
  }

  method UpdateReview(db: Db, user: Option<Caller>, id: Value, body: JsObject, valid: bool, now: Value)
    returns (out: Outcome)
    modifies body
    ensures out == UpdateResult(db, user, id, old(body.fields), valid, now)
    ensures body.fields == if out.Written? then Put(old(body.fields), "updatedAt", now) else old(body.fields)
  {
    if !valid {
      return Invalid;
    }
    var review := ReviewById(db, id);
    if review.None? {
      return Rejected(404, ReviewNotFound);
    }
    if user.Some? && !HasRole(user.value, "admin") && !StrictEq(review.value.userId, user.value.id) {
      return Rejected(403, "Not authorized to update this review");
    }
    var stmt := RVM.Update(id, body, now);
    return Written(stmt);
  }

  /** `deleteReview`: the reply and the tables afterwards. */
  function DeleteReview(db: Db, user: Option<Caller>, id: Value): (out: (Reply, Db))
    ensures out.0.status == 404 <==> ReviewById(db, id).None?
    ensures out.0.status == 403 <==> ReviewById(db, id).Some? && Forbidden(user, ReviewById(db, id).value)
    ensures out.0.status == 204 ==> out.1 == RVM.Delete(db, id)
    ensures out.0.status != 204 ==> out.1 == db
    ensures out.0.status in {204, 403, 404}
  {
    match ReviewById(db, id)
    case None => (Reply(404, ReviewNotFound), db)
    case Some(r) =>
      if Forbidden(user, r) then (Reply(403, "Not authorized to delete this review"), db)
      else (Reply(204, "Review deleted successfully"), RVM.Delete(db, id))
  }

  /** The author of a review, and an admin, may always update and delete it;
      so may anyone when the request carries no user. */
  lemma AuthorMayModify(db: Db, user: Option<Caller>, id: Value, body: seq<Field>, now: Value)
    requires ReviewById(db, id).Some?
    requires user.None? || HasRole(user.value, "admin") || StrictEq(ReviewById(db, id).value.userId, user.value.id)
    ensures UpdateResult(db, user, id, body, true, now).Written?
    ensures DeleteReview(db, user, id).0.status == 204
    ensures DeleteReview(db, user, id).1 == RVM.Delete(db, id)
  {
  }

  /** Whether a request may change a review does not depend on the
      operation: update is refused with 403 exactly when delete is. */
  lemma SameRule(db: Db, user: Option<Caller>, id: Value, body: seq<Field>, now: Value)
    ensures (UpdateResult(db, user, id, body, true, now).Rejected? && UpdateResult(db, user, id, body, true, now).status == 403)
        <==> DeleteReview(db, user, id).0.status == 403
  {
  }
}

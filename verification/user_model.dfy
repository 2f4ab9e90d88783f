/** The user model (models/userModel.js): the INSERT with the hashed
    password and its defaults, the UPDATE that swaps a password for its
    hash, the filtered listing, the `findById` projection and deletion.
    bcrypt's hash is a parameter. */
module UserModel {
  import opened Text
  import opened Js
  import opened Sql
  import opened Store

  // ---------------------------------------------------------------------
  // Create

  const UserColumns: seq<string> := ["nom", "prenom", "email", "password_hash", "role", "profile_image", "phone"]

  /** The parameters of `User.create(userData)`: names and email as given,
      the hash of the password (never the password), the role or 'user',
      the profile image and phone or NULL. */
  function CreateParams(data: seq<Field>, hash: Value -> Value): (ps: seq<Value>)
    ensures |ps| == |UserColumns|
    ensures ps[0] == Get(data, "nom") && ps[1] == Get(data, "prenom") && ps[2] == Get(data, "email")
    ensures ps[3] == hash(Get(data, "password"))
    ensures ps[4] == if Truthy(Get(data, "role")) then Get(data, "role") else Str("user")
    ensures ps[5] == if Truthy(Get(data, "profile_image")) then Get(data, "profile_image") else Null
    ensures ps[6] == if Truthy(Get(data, "phone")) then Get(data, "phone") else Null
  {
    [ Get(data, "nom"),
      Get(data, "prenom"),
      Get(data, "email"),
      hash(Get(data, "password")),
      Or(Get(data, "role"), Str("user")),
      Or(Get(data, "profile_image"), Null),
      Or(Get(data, "phone"), Null) ]
  }

  const InsertHead := "INSERT INTO users (nom, prenom, email, password_hash, role, profile_image, phone) VALUES ("

  function CreateStmt(data: seq<Field>, hash: Value -> Value): Clause
  {
    Insert(InsertHead, 7, ")", CreateParams(data, hash))
  }

  lemma CreateBalanced(data: seq<Field>, hash: Value -> Value)
    ensures Balanced(CreateStmt(data, hash))
  {
    InsertBalanced(InsertHead, 7, ")", CreateParams(data, hash));
  }

  // ---------------------------------------------------------------------
  // Update

  /** The payload after `update` has dealt with a password: a truthy
      `password` is replaced by `password_hash` holding its hash; otherwise
      the payload is unchanged. */
  function Hashed(u: seq<Field>, hash: Value -> Value): (h: seq<Field>)
    ensures Truthy(Get(u, "password")) ==>
      && !HasKey(h, "password")
      && Get(h, "password_hash") == hash(Get(u, "password"))
      && forall k :: k != "password" && k != "password_hash" ==> Get(h, k) == Get(u, k)
    ensures !Truthy(Get(u, "password")) ==> h == u
  {
    if Truthy(Get(u, "password")) then Remove(Put(u, "password_hash", hash(Get(u, "password"))), "password")
    else u
  }

  const UpdateHead := "UPDATE users SET "
  const UpdateTail := " WHERE user_id = "

  /** `User.update(id, updates)`: swaps the password for its hash on the
      caller's object, then builds the statement from all of its keys. It
      resolves to nothing. */
  method Update(id: Value, updates: JsObject, hash: Value -> Value) returns (stmt: Clause)
    modifies updates
    ensures updates.fields == Hashed(old(updates.fields), hash)
    ensures stmt == UpdateStmt(UpdateHead, updates.fields, UpdateTail, id)
  {
    var password := Get(updates.fields, "password");
    if Truthy(password) {
      updates.Assign("password_hash", hash(password));
      updates.Delete("password");
    }
    stmt := UpdateStmt(UpdateHead, updates.fields, UpdateTail, id);
  }

  /** The user UPDATE binds one value per key of the hashed payload with the
      user id last; it is well formed exactly when that payload has a key,
      so an empty payload leaves a stray ` = ?` without a parameter. */
  lemma UpdateShape(fields: seq<Field>, hash: Value -> Value, id: Value)
    ensures var h := Hashed(fields, hash);
      var c := UpdateStmt(UpdateHead, h, UpdateTail, id);
      && (Balanced(c) <==> h != [])
      && (fields == [] ==> !Balanced(c))
      && c.params[..|h|] == Values(h) && c.params[|h|] == id
  {
    var h := Hashed(fields, hash);
    UpdateStmtShape(UpdateHead, h, UpdateTail, id);
    if fields == [] {
      assert Get(fields, "password") == Undefined;
    }
  }

  /** A truthy password reaches the statement only as its hash: the SET list
      names `password_hash` and not `password`. */
  lemma UpdateHidesPassword(fields: seq<Field>, hash: Value -> Value, id: Value)
    requires Truthy(Get(fields, "password")) && hash(Get(fields, "password")) != Undefined
    ensures var h := Hashed(fields, hash);
      && "password" !in Keys(h) && "password_hash" in Keys(h)
      && Get(h, "password_hash") == hash(Get(fields, "password"))
  {
    var h := Hashed(fields, hash);
    TruthyIsKey(h, "password_hash", hash(Get(fields, "password")));
  }

  lemma TruthyIsKey(o: seq<Field>, k: string, v: Value)
    requires Get(o, k) == v && v != Undefined
    ensures k in Keys(o)
  {
    if k !in Keys(o) {
      GetAbsent(o, k);
    }
  }

  // ---------------------------------------------------------------------
  // Listing and projection

  /** The columns `getAll` selects. */
  const ListedColumns: seq<string> := ["user_id", "nom", "prenom", "email", "role", "status", "created_at"]

  /** The columns `findById` selects. */
  const ProfileColumns: seq<string> := ["user_id", "nom", "prenom", "email", "role", "status", "profile_image", "phone", "created_at"]

  /** Neither projection exposes the password hash. */
  lemma ProjectionsHideHash()
    ensures "password_hash" !in ListedColumns && "password_hash" !in ProfileColumns
  {
  }

  function RoleClause(f: seq<Field>): seq<Clause>
  {
    When(Truthy(Get(f, "role")), Clause([Lit(" AND role = "), Hole], [Get(f, "role")]))
  }

  function StatusClause(f: seq<Field>): seq<Clause>
  {
    When(Truthy(Get(f, "status")), Clause([Lit(" AND status = "), Hole], [Get(f, "status")]))
  }

  /** `%${filters.search}%` matched against the last name, the first name
      and the email: three placeholders bound to the same pattern. */
  function SearchClause(f: seq<Field>): seq<Clause>
  {
    var term := Str("%" + ToStr(Get(f, "search")) + "%");
    When(Truthy(Get(f, "search")),
      Clause([Lit(" AND (nom LIKE "), Hole, Lit(" OR prenom LIKE "), Hole, Lit(" OR email LIKE "), Hole, Lit(")")],
             [term, term, term]))
  }

  function ListingClauses(f: seq<Field>): seq<Clause>
  {
    RoleClause(f) + StatusClause(f) + SearchClause(f)
  }

  const ListingHead: Stmt := [Lit("SELECT " + Join(ListedColumns, ", ") + " FROM users WHERE 1=1")]
  const ListingOrder: Piece := Lit(" ORDER BY created_at DESC")

  /** `User.getAll(filters)`. */
  method GetAll(filters: seq<Field>) returns (query: Stmt, params: seq<Value>)
    ensures query == ListingHead + SqlOf(ListingClauses(filters)) + [ListingOrder]
    ensures params == ParamsOf(ListingClauses(filters))
  {
    ghost var cs: seq<Clause> := [];
    query := ListingHead;
    params := [];
    var role := Get(filters, "role");
    if Truthy(role) {
      var c := Clause([Lit(" AND role = "), Hole], [role]);
      Extend(ListingHead, cs, c, query, params);
      query, params, cs := query + c.sql, params + c.params, cs + [c];
    }
    assert cs == RoleClause(filters) && query == ListingHead + SqlOf(cs) && params == ParamsOf(cs);
    var status := Get(filters, "status");
    if Truthy(status) {
      var c := Clause([Lit(" AND status = "), Hole], [status]);
      Extend(ListingHead, cs, c, query, params);
      query, params, cs := query + c.sql, params + c.params, cs + [c];
    }
    assert cs == RoleClause(filters) + StatusClause(filters) && query == ListingHead + SqlOf(cs) && params == ParamsOf(cs);
    var search := Get(filters, "search");
    if Truthy(search) {
      var searchTerm := Str("%" + ToStr(search) + "%");
      var c := Clause([Lit(" AND (nom LIKE "), Hole, Lit(" OR prenom LIKE "), Hole, Lit(" OR email LIKE "), Hole, Lit(")")],
                      [searchTerm, searchTerm, searchTerm]);
      Extend(ListingHead, cs, c, query, params);
      query, params, cs := query + c.sql, params + c.params, cs + [c];
    }
    assert cs == ListingClauses(filters);
    query := query + [ListingOrder];
  }

  lemma ThreeHoles(a: string, b: string, c: string, d: string)
    ensures Holes([Lit(a), Hole, Lit(b), Hole, Lit(c), Hole, Lit(d)]) == 3
  {
    var p: Stmt := [Lit(a), Hole, Lit(b), Hole, Lit(c), Hole, Lit(d)];
    assert p[6..][1..] == [];
    assert Holes(p[6..]) == 0;
    assert p[5..][1..] == p[6..];
    assert Holes(p[5..]) == 1;
    assert p[4..][1..] == p[5..];
    assert p[3..][1..] == p[4..];
    assert Holes(p[3..]) == 2;
    assert p[2..][1..] == p[3..];
    assert p[1..][1..] == p[2..];
    assert Holes(p[1..]) == 3;
  }

  /** The listing has one placeholder per parameter. */
  lemma ListingBalanced(f: seq<Field>)
    ensures Holes(ListingHead + SqlOf(ListingClauses(f)) + [ListingOrder]) == |ParamsOf(ListingClauses(f))|
  {
    var cs := ListingClauses(f);
    LitHole(" AND role = ");
    LitHole(" AND status = ");
    ThreeHoles(" AND (nom LIKE ", " OR prenom LIKE ", " OR email LIKE ", ")");
    ConcatBalanced(cs);
    assert ListingHead[1..] == [] && [ListingOrder][1..] == [];
    HolesAppend(ListingHead, SqlOf(cs));
    HolesAppend(ListingHead + SqlOf(cs), [ListingOrder]);
  }

  /** The listing binds one parameter each for role and status and three
      identical patterns for a search, last. */
  lemma ListingShape(f: seq<Field>)
    ensures |ParamsOf(ListingClauses(f))|
      == (if Truthy(Get(f, "role")) then 1 else 0) + (if Truthy(Get(f, "status")) then 1 else 0)
       + (if Truthy(Get(f, "search")) then 3 else 0)
    ensures Truthy(Get(f, "search")) ==>
      var ps := ParamsOf(ListingClauses(f));
      var term := Str("%" + ToStr(Get(f, "search")) + "%");
      ps[|ps| - 3..] == [term, term, term]
  {
    ClausesAppend(RoleClause(f), StatusClause(f));
    ClausesAppend(RoleClause(f) + StatusClause(f), SearchClause(f));
    var term := Str("%" + ToStr(Get(f, "search")) + "%");
    WhenShape(Truthy(Get(f, "role")), Clause([Lit(" AND role = "), Hole], [Get(f, "role")]));
    WhenShape(Truthy(Get(f, "status")), Clause([Lit(" AND status = "), Hole], [Get(f, "status")]));
    WhenShape(Truthy(Get(f, "search")),
      Clause([Lit(" AND (nom LIKE "), Hole, Lit(" OR prenom LIKE "), Hole, Lit(" OR email LIKE "), Hole, Lit(")")],
             [term, term, term]));
  }

  /** `User.findById(id)`: the profile columns of the row, in projection
      order, as a response object. */
  function Profile(u: User): (p: seq<Field>)
    ensures Keys(p) == ProfileColumns
    ensures !HasKey(p, "password_hash")
    ensures Get(p, "email") == u.email && Get(p, "role") == u.role && Get(p, "user_id") == IntNum(u.userId)
  {
    var p := [Field("user_id", IntNum(u.userId)), Field("nom", u.nom), Field("prenom", u.prenom),
      Field("email", u.email), Field("role", u.role), Field("status", u.status),
      Field("profile_image", u.profileImage), Field("phone", u.phone), Field("created_at", u.createdAt)];
    KeysAt(p);
    GetAt(p, 0);
    GetAt(p, 3);
    GetAt(p, 4);
    p
  }

  /** `User.delete(id)` on the table; it resolves to nothing. */
  function Delete(db: Db, id: Value): (d: Db)
    ensures forall u :: u in d.users <==> u in db.users && !SqlEq(IntNum(u.userId), id)
    ensures d.reservations == db.reservations && d.events == db.events
    ensures d.places == db.places && d.reviews == db.reviews
  {
    db.(users := DeleteWhere(db.users, (u: User) => IntNum(u.userId), id).0)
  }
}

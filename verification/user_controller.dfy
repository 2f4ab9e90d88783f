/** The user controller (controllers/userController.js): the login
    decision, the INSERT that `register` and `createUser` send, the field
    selection of `updateUser` and the branching of `updateUser` and
    `deleteUser`. bcrypt's hash and compare are parameters, and so is
    whether the database accepts a statement. */
module UserController {
  import opened Js
  import opened Sql
  import opened Store
  import opened Http
  import UM = UserModel

  const InvalidCredentials := "Invalid credentials"
  const UserExists := "User already exists with this email"
  const UserNotFound := "User not found"

  // ---------------------------------------------------------------------
  // Login

  /** `login` as written: an unknown email is refused with 401; for a known
      one the controller calls `User.verifyPassword`, which the user model
      does not define, so the call throws and the catch answers 500. No
      login ever succeeds. */
  function Login(db: Db, body: seq<Field>): (r: Reply)
    ensures r.status == 401 <==> UserByEmail(db, Get(body, "email")).None?
    ensures r.status == 401 ==> r.message == InvalidCredentials
    ensures r.status != 401 ==> r == Reply(500, "Server error")
  {
    match UserByEmail(db, Get(body, "email"))
    case None => Reply(401, InvalidCredentials)
    case Some(_) => Reply(500, "Server error")
  }

  /** The keys of the login response. */
  const LoginKeys: seq<string> := ["id", "firstName", "lastName", "email", "role", "phone", "status"]

  /** A login reply with the user data of a success. */
  datatype Answer = Answer(status: int, message: string, data: seq<Field>)

  /** The response data of a successful login, read from the row's own
      columns: `user_id` stands for the id, `prenom` for the first name and
      `nom` (the surname) for the last name. */
  function LoginData(u: User): (d: seq<Field>)
    ensures Keys(d) == LoginKeys
    ensures !HasKey(d, "password") && !HasKey(d, "password_hash")
    ensures Get(d, "id") == IntNum(u.userId) && Get(d, "email") == u.email
    ensures Get(d, "firstName") == u.prenom && Get(d, "lastName") == u.nom
    ensures Get(d, "role") == u.role && Get(d, "status") == u.status
    ensures Get(d, "phone") == (if Truthy(u.phone) then u.phone else Null)
  {
    var d := [Field("id", IntNum(u.userId)), Field("firstName", u.prenom), Field("lastName", u.nom),
      Field("email", u.email), Field("role", u.role), Field("phone", Or(u.phone, Null)),
      Field("status", u.status)];
    LoginDataKeys(d, u);
    LoginDataValues(d, u);
    d
  }

  lemma LoginDataKeys(d: seq<Field>, u: User)
    requires d == [Field("id", IntNum(u.userId)), Field("firstName", u.prenom), Field("lastName", u.nom),
      Field("email", u.email), Field("role", u.role), Field("phone", Or(u.phone, Null)),
      Field("status", u.status)]
    ensures Keys(d) == LoginKeys
    ensures !HasKey(d, "password") && !HasKey(d, "password_hash")
  {
    KeysAt(d);
  }

  lemma LoginDataValues(d: seq<Field>, u: User)
    requires d == [Field("id", IntNum(u.userId)), Field("firstName", u.prenom), Field("lastName", u.nom),
      Field("email", u.email), Field("role", u.role), Field("phone", Or(u.phone, Null)),
      Field("status", u.status)]
    ensures Get(d, "id") == IntNum(u.userId) && Get(d, "email") == u.email
    ensures Get(d, "firstName") == u.prenom && Get(d, "lastName") == u.nom
    ensures Get(d, "role") == u.role && Get(d, "status") == u.status
    ensures Get(d, "phone") == (if Truthy(u.phone) then u.phone else Null)
  {
    KeysAt(d);
    GetAt(d, 0);
    GetAt(d, 1);
    GetAt(d, 2);
    GetAt(d, 3);
    GetAt(d, 4);
    GetAt(d, 5);
    GetAt(d, 6);
  }

  /** The login the controller evidently intends: the password is compared
      with the stored hash; an unknown email and a wrong password get the
      same 401 answer, and a success returns the user without any password
      field. */
  function LoginFixed(db: Db, body: seq<Field>, matches: (Value, Value) -> bool): (a: Answer)
    ensures a.status == 200 <==>
      var u := UserByEmail(db, Get(body, "email"));
      u.Some? && matches(Get(body, "password"), u.value.passwordHash)
    ensures a.status != 200 ==> a == Answer(401, InvalidCredentials, [])
    ensures a.status == 200 ==>
      && Keys(a.data) == LoginKeys
      && !HasKey(a.data, "password") && !HasKey(a.data, "password_hash")
      && Get(a.data, "email") == UserByEmail(db, Get(body, "email")).value.email
  {
    match UserByEmail(db, Get(body, "email"))
    case None => Answer(401, InvalidCredentials, [])
    case Some(u) =>
      if !matches(Get(body, "password"), u.passwordHash) then Answer(401, InvalidCredentials, [])
      else Answer(200, "", LoginData(u))
  }

  /** Whatever the credentials, the login as written never answers 200,
      while the corrected one does for a known email whose password
      matches its hash. */
  lemma LoginNeverSucceeds(db: Db, body: seq<Field>, matches: (Value, Value) -> bool)
    ensures Login(db, body).status != 200
    ensures UserByEmail(db, Get(body, "email")).Some? ==>
      (Login(db, body).status == 500 && (LoginFixed(db, body, matches).status == 200
        <==> matches(Get(body, "password"), UserByEmail(db, Get(body, "email")).value.passwordHash)))
    ensures UserByEmail(db, Get(body, "email")).None? ==>
      Login(db, body).status == LoginFixed(db, body, matches).status == 401
  {
  }

  // ---------------------------------------------------------------------
  // Register and createUser

  /** What register and createUser do: refuse, or send the INSERT. */
  datatype Outcome = Rejected(status: int, message: string) | Inserted(stmt: Clause)

  /** The `userData` object `register` builds: the names under the English
      keys, the destructuring default for an undefined role, and
      `phone || null`. */
  function RegisterData(body: seq<Field>): seq<Field>
  {
    var role := Get(body, "role");
    [ Field("firstName", Get(body, "firstName")), Field("lastName", Get(body, "lastName")),
      Field("email", Get(body, "email")), Field("password", Get(body, "password")),
      Field("role", if role == Undefined then Str("user") else role),
      Field("phone", Or(Get(body, "phone"), Null)) ]
  }

  /** The `userData` object `createUser` builds: `role || 'user'` instead of
      the default. */
  function CreateUserData(body: seq<Field>): seq<Field>
  {
    [ Field("firstName", Get(body, "firstName")), Field("lastName", Get(body, "lastName")),
      Field("email", Get(body, "email")), Field("password", Get(body, "password")),
      Field("role", Or(Get(body, "role"), Str("user"))),
      Field("phone", Or(Get(body, "phone"), Null)) ]
  }

  /** The keys of either object, in order. */
  predicate UserDataKeys(d: seq<Field>)
  {
    |d| == 6 && d[0].key == "firstName" && d[1].key == "lastName" && d[2].key == "email"
    && d[3].key == "password" && d[4].key == "role" && d[5].key == "phone"
  }

  /** Neither object has `nom`, `prenom` or `profile_image`. */
  lemma DataLacksNames(d: seq<Field>)
    requires UserDataKeys(d)
    ensures Get(d, "nom") == Undefined && Get(d, "prenom") == Undefined && Get(d, "profile_image") == Undefined
  {
    KeysAt(d);
    GetAbsent(d, "nom");
    GetAbsent(d, "prenom");
    GetAbsent(d, "profile_image");
  }

  /** What `User.create` reads from either object besides the names. */
  lemma DataReads(d: seq<Field>, body: seq<Field>)
    requires UserDataKeys(d) && d[2].val == Get(body, "email") && d[3].val == Get(body, "password")
    requires Or(d[4].val, Str("user")) == Or(Get(body, "role"), Str("user")) && d[5].val == Or(Get(body, "phone"), Null)
    ensures Get(d, "email") == Get(body, "email") && Get(d, "password") == Get(body, "password")
    ensures Or(Get(d, "role"), Str("user")) == Or(Get(body, "role"), Str("user"))
    ensures Or(Get(d, "phone"), Null) == Or(Get(body, "phone"), Null)
  {
    GetAt(d, 2);
    GetAt(d, 3);
    GetAt(d, 4);
    GetAt(d, 5);
  }

  /** The INSERT that `register` and `createUser` send for a new email. */
  function CreateInsert(body: seq<Field>, hash: Value -> Value): (c: Clause)
    ensures Balanced(c) && |c.params| == |UM.UserColumns|
    ensures c.params[0] == Undefined && c.params[1] == Undefined
    ensures c.params[2] == Get(body, "email") && c.params[3] == hash(Get(body, "password"))
    ensures c.params[4] == (if Truthy(Get(body, "role")) then Get(body, "role") else Str("user"))
    ensures c.params[5] == Null
    ensures c.params[6] == (if Truthy(Get(body, "phone")) then Get(body, "phone") else Null)
  {
    DataLacksNames(RegisterData(body));
    DataReads(RegisterData(body), body);
    UM.CreateBalanced(RegisterData(body), hash);
    UM.CreateStmt(RegisterData(body), hash)
  }

  /** `register`: 400 for an email already taken; otherwise the INSERT. */
  function Register(db: Db, body: seq<Field>, hash: Value -> Value): (o: Outcome)
    ensures o.Rejected? <==> UserByEmail(db, Get(body, "email")).Some?
    ensures o.Rejected? ==> o == Rejected(400, UserExists)
    ensures o.Inserted? ==> o.stmt == UM.CreateStmt(RegisterData(body), hash)
  {
    if UserByEmail(db, Get(body, "email")).Some? then Rejected(400, UserExists)
    else Inserted(UM.CreateStmt(RegisterData(body), hash))
  }

  /** `createUser`: the same check, with its own `userData`. */
  function CreateUser(db: Db, body: seq<Field>, hash: Value -> Value): (o: Outcome)
    ensures o.Rejected? <==> UserByEmail(db, Get(body, "email")).Some?
    ensures o.Rejected? ==> o == Rejected(400, UserExists)
    ensures o.Inserted? ==> o.stmt == UM.CreateStmt(CreateUserData(body), hash)
  {
    if UserByEmail(db, Get(body, "email")).Some? then Rejected(400, UserExists)
    else Inserted(UM.CreateStmt(CreateUserData(body), hash))
  }

  /** The destructuring default of `register` and the `|| 'user'` of
      `createUser` come to the same thing once `User.create` applies its own
      default: both routes send the same statement, `CreateInsert`. */
  lemma {:induction false} RegisterIsCreateUser(db: Db, body: seq<Field>, hash: Value -> Value)
    ensures Register(db, body, hash) == CreateUser(db, body, hash)
    ensures Register(db, body, hash).Inserted? ==> Register(db, body, hash).stmt == CreateInsert(body, hash)
  {
    DataLacksNames(RegisterData(body));
    DataLacksNames(CreateUserData(body));
    DataReads(RegisterData(body), body);
    DataReads(CreateUserData(body), body);
    assert UM.CreateParams(RegisterData(body), hash) == UM.CreateParams(CreateUserData(body), hash);
  }

  /** The `userData` the controller evidently intends: the names under the
      table's keys, the surname (`lastName`) as `nom` and the given name
      (`firstName`) as `prenom`. */
  function RegisterDataFixed(body: seq<Field>): seq<Field>
  {
    [ Field("nom", Get(body, "lastName")), Field("prenom", Get(body, "firstName")),
      Field("email", Get(body, "email")), Field("password", Get(body, "password")),
      Field("role", Or(Get(body, "role"), Str("user"))),
      Field("phone", Or(Get(body, "phone"), Null)) ]
  }

  /** Registration with the names mapped onto their columns. */
  function RegisterFixed(db: Db, body: seq<Field>, hash: Value -> Value): (o: Outcome)
    ensures o.Rejected? <==> UserByEmail(db, Get(body, "email")).Some?
    ensures o.Rejected? ==> o == Rejected(400, UserExists)
  {
    if UserByEmail(db, Get(body, "email")).Some? then Rejected(400, UserExists)
    else Inserted(UM.CreateStmt(RegisterDataFixed(body), hash))
  }

  /** The corrected object carries the surname as `nom` and the given name
      as `prenom`. */
  lemma FixedDataNames(body: seq<Field>)
    ensures Get(RegisterDataFixed(body), "nom") == Get(body, "lastName")
    ensures Get(RegisterDataFixed(body), "prenom") == Get(body, "firstName")
  {
    var d := RegisterDataFixed(body);
    GetAt(d, 0);
    GetAt(d, 1);
  }

  /** Apart from the names, the corrected object reads like the original. */
  lemma FixedDataRest(body: seq<Field>)
    ensures var d := RegisterDataFixed(body);
      && Get(d, "email") == Get(body, "email") && Get(d, "password") == Get(body, "password")
      && Or(Get(d, "role"), Str("user")) == Or(Get(body, "role"), Str("user"))
      && Or(Get(d, "phone"), Null) == Or(Get(body, "phone"), Null)
      && Get(d, "profile_image") == Undefined
  {
    var d := RegisterDataFixed(body);
    KeysAt(d);
    GetAt(d, 2);
    GetAt(d, 3);
    GetAt(d, 4);
    GetAt(d, 5);
    GetAbsent(d, "profile_image");
  }

  /** The corrected registration binds the surname and the given name the
      client sent to `nom` and `prenom`, in a statement with one placeholder
      per parameter. */
  lemma RegisterFixedBindsNames(db: Db, body: seq<Field>, hash: Value -> Value)
    requires UserByEmail(db, Get(body, "email")).None?
    ensures var o := RegisterFixed(db, body, hash);
      && o.Inserted? && Balanced(o.stmt)
      && o.stmt.params[..2] == [Get(body, "lastName"), Get(body, "firstName")]
  {
    FixedDataNames(body);
    UM.CreateBalanced(RegisterDataFixed(body), hash);
    var ps := UM.CreateParams(RegisterDataFixed(body), hash);
    assert ps[..2] == [ps[0], ps[1]];
  }

  /** Every other parameter is the one the original registration sends. */
  lemma RegisterFixedRest(db: Db, body: seq<Field>, hash: Value -> Value)
    requires UserByEmail(db, Get(body, "email")).None?
    ensures RegisterFixed(db, body, hash).stmt.params[2..] == CreateInsert(body, hash).params[2..]
  {
    FixedDataRest(body);
    var ps := UM.CreateParams(RegisterDataFixed(body), hash);
    var c := CreateInsert(body, hash);
    assert ps[2..] == c.params[2..];
  }

  /** Registering as written loses the names: whatever `firstName` and
      `lastName` hold, `nom` and `prenom` are bound to undefined, which the
      driver sends as NULL. */
  lemma RegisterDropsNames(db: Db, body: seq<Field>, hash: Value -> Value)
    requires UserByEmail(db, Get(body, "email")).None?
    ensures Register(db, body, hash).stmt.params[..2] == [Undefined, Undefined]
  {
    RegisterIsCreateUser(db, body, hash);
    var c := CreateInsert(body, hash);
    assert c.params[..2] == [c.params[0], c.params[1]];
  }

  // ---------------------------------------------------------------------
  // Update

  /** The fields `updateUser` may copy, in the order of its `if`s. */
  const UpdatableFields: seq<string> := ["firstName", "lastName", "email", "password", "role", "phone", "status"]

  /** `if (x) updates.x = x;` on the value of `updates`. */
  function Picked(updates: seq<Field>, body: seq<Field>, k: string): seq<Field>
  {
    if Truthy(Get(body, k)) then Put(updates, k, Get(body, k)) else updates
  }

  /** `updates` after the first n `if (x) updates.x = x;` statements. */
  function Selected(body: seq<Field>, n: nat): seq<Field>
    requires n <= |UpdatableFields|
  {
    if n == 0 then [] else Picked(Selected(body, n - 1), body, UpdatableFields[n - 1])
  }

  /** The first n statements copy exactly the truthy ones of the first n
      fields, each with its value. */
  lemma {:induction false} SelectedFacts(body: seq<Field>, n: nat)
    requires n <= |UpdatableFields|
    ensures forall k :: Get(Selected(body, n), k) == if k in UpdatableFields[..n] && Truthy(Get(body, k)) then Get(body, k) else Undefined
    ensures forall k :: k in Keys(Selected(body, n)) <==> k in UpdatableFields[..n] && Truthy(Get(body, k))
  {
    if n > 0 {
      SelectedFacts(body, n - 1);
      assert UpdatableFields[..n] == UpdatableFields[..n - 1] + [UpdatableFields[n - 1]];
    }
  }

  /** The seven statements one after the other. */
  lemma SelectedSeven(body: seq<Field>)
    ensures Selected(body, |UpdatableFields|) ==
      Picked(Picked(Picked(Picked(Picked(Picked(Picked([], body, "firstName"), body, "lastName"), body, "email"),
        body, "password"), body, "role"), body, "phone"), body, "status")
  {
    assert UpdatableFields[0] == "firstName" && UpdatableFields[1] == "lastName"
      && UpdatableFields[2] == "email" && UpdatableFields[3] == "password"
      && UpdatableFields[4] == "role" && UpdatableFields[5] == "phone" && UpdatableFields[6] == "status";
    assert Selected(body, 1) == Picked([], body, "firstName");
    assert Selected(body, 2) == Picked(Selected(body, 1), body, "lastName");
    assert Selected(body, 3) == Picked(Selected(body, 2), body, "email");
    assert Selected(body, 4) == Picked(Selected(body, 3), body, "password");
    assert Selected(body, 5) == Picked(Selected(body, 4), body, "role");
    assert Selected(body, 6) == Picked(Selected(body, 5), body, "phone");
  }

  /** `if (x) updates.x = x;` */
  method Pick(updates: JsObject, body: seq<Field>, k: string)
    modifies updates
    ensures updates.fields == Picked(old(updates.fields), body, k)
  {
    var v := Get(body, k);
    if Truthy(v) {
      updates.Assign(k, v);
    }
  }

  /** The seven `if`s of `updateUser`, on a fresh `updates` object. */
  method SelectUpdates(body: seq<Field>) returns (updates: JsObject)
    ensures fresh(updates)
    ensures updates.fields == Selected(body, |UpdatableFields|)
  {
    updates := new JsObject([]);
    Pick(updates, body, "firstName");
    Pick(updates, body, "lastName");
    Pick(updates, body, "email");
    Pick(updates, body, "password");
    Pick(updates, body, "role");
    Pick(updates, body, "phone");
    Pick(updates, body, "status");
    SelectedSeven(body);
  }

  /** The body of the reply to `updateUser`, and the statement it sent. */
  datatype Effect = Effect(reply: Reply, sent: Option<Clause>)

  /** `updateUser`: 404 for an unknown user, before any write; otherwise the
      UPDATE of the truthy fields (password hashed) is sent, and since
      `User.update` resolves to nothing the answer is 400 'Update failed'
      when the database accepts the statement and 500 when it does not. It
      never answers 200. */
  method UpdateUser(db: Db, id: Value, body: seq<Field>, hash: Value -> Value, accepted: bool) returns (e: Effect)
    ensures e.reply.status == 404 <==> UserById(db, id).None?
    ensures e.reply.status == 404 ==> e == Effect(Reply(404, UserNotFound), None)
    ensures UserById(db, id).Some? ==>
      && e.sent == Some(UpdateStmt(UM.UpdateHead, UM.Hashed(Selected(body, |UpdatableFields|), hash), UM.UpdateTail, id))
      && e.reply == (if accepted then Reply(400, "Update failed") else Reply(500, "Server error"))
  {
    var user := UserById(db, id);
    if user.None? {
      return Effect(Reply(404, UserNotFound), None);
    }
    var updates := SelectUpdates(body);
    var stmt := UM.Update(id, updates, hash);
    if accepted {
      return Effect(Reply(400, "Update failed"), Some(stmt));
    }
    return Effect(Reply(500, "Server error"), Some(stmt));
  }

  /** What reaches the UPDATE: exactly the truthy ones of the seven fields,
      each with its value. */
  lemma UpdateSelection(body: seq<Field>)
    ensures var u := Selected(body, |UpdatableFields|);
      && (forall k :: k in Keys(u) <==> k in UpdatableFields && Truthy(Get(body, k)))
      && (forall k :: Get(u, k) == if k in UpdatableFields && Truthy(Get(body, k)) then Get(body, k) else Undefined)
  {
    SelectedFacts(body, |UpdatableFields|);
    assert UpdatableFields[..|UpdatableFields|] == UpdatableFields;
  }

  /** With none of the seven fields truthy the statement has a placeholder
      without a parameter, which the database refuses. */
  lemma NothingSelected(body: seq<Field>, hash: Value -> Value, id: Value)
    requires forall k :: k in UpdatableFields ==> !Truthy(Get(body, k))
    ensures !Balanced(UpdateStmt(UM.UpdateHead, UM.Hashed(Selected(body, |UpdatableFields|), hash), UM.UpdateTail, id))
  {
    var u := Selected(body, |UpdatableFields|);
    UpdateSelection(body);
    if u != [] {
      assert Keys(u)[0] in Keys(u);
    }
    UM.UpdateShape(u, hash, id);
  }

  /** The names are sent under `firstName` and `lastName`, which are not
      columns of the users table. */
  lemma NamesNotColumns(body: seq<Field>, hash: Value -> Value)
    requires Truthy(Get(body, "firstName"))
    ensures "firstName" in Keys(UM.Hashed(Selected(body, |UpdatableFields|), hash)) && "firstName" !in UM.ProfileColumns
  {
    var u := Selected(body, |UpdatableFields|);
    UpdateSelection(body);
    assert UpdatableFields[0] == "firstName";
    assert Get(u, "firstName") == Get(body, "firstName");
    assert Get(UM.Hashed(u, hash), "firstName") == Get(u, "firstName");
    UM.TruthyIsKey(UM.Hashed(u, hash), "firstName", Get(body, "firstName"));
  }

  // ---------------------------------------------------------------------
  // Delete

  /** `deleteUser`: 404 for an unknown user; otherwise the row is deleted
      and, since `User.delete` resolves to nothing, the answer is 400
      'Delete failed' (500 when the database refuses the statement). */
  function DeleteUser(db: Db, id: Value, accepted: bool): (out: (Reply, Db))
    ensures out.0.status == 404 <==> UserById(db, id).None?
    ensures out.0.status in {400, 404, 500}
    ensures out.0.status == 400 <==> UserById(db, id).Some? && accepted
    ensures out.0.status == 400 ==> out.1 == UM.Delete(db, id) && UserById(out.1, id).None?
    ensures out.0.status != 400 ==> out.1 == db
  {
    if UserById(db, id).None? then (Reply(404, UserNotFound), db)
    else if !accepted then (Reply(500, "Server error"), db)
    else
      var d := UM.Delete(db, id);
      assert UserById(d, id).None?;
      (Reply(400, "Delete failed"), d)
  }
}

/** The mock authentication middleware (middleware/auth.js). None of them
    rejects a request: each one only creates or rewrites `req.user`. The
    user lookup by id is a parameter, because it is a database call that
    may find a user, find none, or fail. */
module Auth {
  import opened Js
  import opened Http
  import opened Store

  /** The outcome of `User.findById(header)`. */
  datatype Lookup = Found(user: User) | NotFound | Failed

  /** The default caller: `{ id: 1, role: 'admin' }`. */
  const DefaultCaller := Caller(IntNum(1), Str("admin"))

  /** The caller `protect` installs. `findById` projects `user_id` and no
      `id` column, so a found user's id is `user_id || undefined`. */
  function Protected(header: Value, lookup: Lookup): (c: Caller)
    ensures !Truthy(header) ==> c == DefaultCaller
    ensures Truthy(header) && lookup.Found? ==>
      c.role == Or(lookup.user.role, Str("admin"))
      && c.id == (if lookup.user.userId != 0 then IntNum(lookup.user.userId) else Undefined)
    ensures Truthy(header) && !lookup.Found? ==> c.role == Str("admin")
    ensures Truthy(header) && lookup == NotFound ==> c.id == ParseInt(header)
    ensures Truthy(header) && lookup == Failed ==>
      c.id == if ParseInt(header).Num? && ParseInt(header).n != 0.0 then ParseInt(header) else IntNum(1)
  {
    if !Truthy(header) then DefaultCaller
    else
      match lookup
      case Found(u) => Caller(Or(IntNum(u.userId), Undefined), Or(u.role, Str("admin")))
      case NotFound => Caller(ParseInt(header), Str("admin"))
      case Failed => Caller(Or(ParseInt(header), IntNum(1)), Str("admin"))
  }

  /** `protect`: always installs a caller and lets the request through. */
  method Protect(req: Request, lookup: Lookup)
    modifies req
    ensures req.user == Some(Protected(req.userIdHeader, lookup))
    ensures req.userIdHeader == old(req.userIdHeader) && req.params == old(req.params)
  {
    if !Truthy(req.userIdHeader) {
      req.user := Some(DefaultCaller);
      return;
    }
    match lookup {
      case Found(u) =>
        req.user := Some(Caller(Or(IntNum(u.userId), Undefined), Or(u.role, Str("admin"))));
      case NotFound =>
        req.user := Some(Caller(ParseInt(req.userIdHeader), Str("admin")));
      case Failed =>
        req.user := Some(Caller(Or(ParseInt(req.userIdHeader), IntNum(1)), Str("admin")));
    }
  }

  /** The caller after `admin`: the existing one (or the default) with role admin. */
  function AfterAdmin(u: Option<Caller>): (c: Caller)
    ensures HasRole(c, "admin")
    ensures c.id == if u.Some? then u.value.id else IntNum(1)
  {
    var base := if u.None? then DefaultCaller else u.value;
    base.(role := Str("admin"))
  }

  method Admin(req: Request)
    modifies req
    ensures req.user == Some(AfterAdmin(old(req.user)))
    ensures req.userIdHeader == old(req.userIdHeader) && req.params == old(req.params)
  {
    if req.user.None? {
      req.user := Some(DefaultCaller);
    }
    req.user := Some(req.user.value.(role := Str("admin")));
  }

  /** The caller after `provider`: an admin stays admin, anyone else becomes a provider. */
  function AfterProvider(u: Option<Caller>): (c: Caller)
    ensures HasRole(c, "admin") || HasRole(c, "provider")
    ensures HasRole(c, "admin") <==> u.None? || HasRole(u.value, "admin")
    ensures c.id == if u.Some? then u.value.id else IntNum(1)
  {
    var base := if u.None? then DefaultCaller else u.value;
    if !HasRole(base, "admin") then base.(role := Str("provider")) else base
  }

  method Provider(req: Request)
    modifies req
    ensures req.user == Some(AfterProvider(old(req.user)))
    ensures req.userIdHeader == old(req.userIdHeader) && req.params == old(req.params)
  {
    if req.user.None? {
      req.user := Some(DefaultCaller);
    }
    if !HasRole(req.user.value, "admin") {
      req.user := Some(req.user.value.(role := Str("provider")));
    }
  }

  /** The caller after `isOwnerOrAdmin(paramId)`: its id becomes the route
      parameter when that parses to a non-zero number; the role is untouched. */
  function AfterOwner(u: Option<Caller>, params: seq<Field>, paramId: string): (c: Caller)
    ensures c.role == if u.Some? then u.value.role else Str("admin")
    ensures var n := ParseInt(Get(params, paramId));
      c.id == if n.Num? && n.n != 0.0 then n else if u.Some? then u.value.id else IntNum(1)
  {
    var base := if u.None? then DefaultCaller else u.value;
    base.(id := Or(ParseInt(Get(params, paramId)), base.id))
  }

  method IsOwnerOrAdmin(req: Request, paramId: string)
    modifies req
    ensures req.user == Some(AfterOwner(old(req.user), req.params, paramId))
    ensures req.userIdHeader == old(req.userIdHeader) && req.params == old(req.params)
  {
    if req.user.None? {
      req.user := Some(DefaultCaller);
    }
    var resourceId := ParseInt(Get(req.params, paramId));
    req.user := Some(req.user.value.(id := Or(resourceId, req.user.value.id)));
  }

  /** The middleware compose as a small state machine on `{id, role}`:
      `admin` is idempotent and absorbs `provider` on either side, and
      `provider` is idempotent. */
  lemma RoleMachine(u: Option<Caller>)
    ensures AfterAdmin(Some(AfterAdmin(u))) == AfterAdmin(u)
    ensures AfterProvider(Some(AfterProvider(u))) == AfterProvider(u)
    ensures AfterProvider(Some(AfterAdmin(u))) == AfterAdmin(u)
    ensures AfterAdmin(Some(AfterProvider(u))) == AfterAdmin(u)
  {
  }

  /** Whatever `protect` found, the routes behind `admin` run as an admin and
      those behind `provider` as an admin or a provider. */
  lemma ProtectedThenGuards(header: Value, lookup: Lookup)
    ensures HasRole(AfterAdmin(Some(Protected(header, lookup))), "admin")
    ensures var c := AfterProvider(Some(Protected(header, lookup)));
      HasRole(c, "admin") || HasRole(c, "provider")
    ensures !(Truthy(header) && lookup.Found?) ==> HasRole(Protected(header, lookup), "admin")
  {
  }
}

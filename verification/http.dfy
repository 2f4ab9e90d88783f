/** The parts of an Express request the core reads and writes: the
    authenticated caller `req.user`, the `user-id` header and the route
    parameters. */
module Http {
  import opened Js

  /** `req.user`: `{ id, role }` as the auth middleware sets it. */
  datatype Caller = Caller(id: Value, role: Value)

  /** `req.user.role === r` */
  predicate HasRole(c: Caller, r: string)
  {
    StrictEq(c.role, Str(r))
  }

  /** A reply that carries only a status code and a message. */
  datatype Reply = Reply(status: int, message: string)

  class Request {
    /** `req.user`, absent until a middleware sets it. */
    var user: Option<Caller>
    /** `req.headers['user-id']` */
    var userIdHeader: Value
    /** `req.params` */
    var params: seq<Field>

    constructor (header: Value, routeParams: seq<Field>)
      ensures user == None && userIdHeader == header && params == routeParams
    {
      user := None;
      userIdHeader := header;
      params := routeParams;
    }
  }
}

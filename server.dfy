/**
 * The API server's decisions: the `auth` middleware in front of every
 * protected route, and what each route handler answers for what the store
 * returns or throws. Token signing and verification are given as functions
 * (`sign`, `verify`), and every SQL round trip as its outcome.
 */
module Server {
  import opened Wrappers
  import opened Http

  /** The payload a token carries: `{ usrID }`. */
  datatype Claims = Claims(usrID: string)

  /** A call that either returns a value or throws, with the error's text. */
  datatype Outcome<T> = Done(value: T) | Threw(error: string)

  const BearerPrefix := "Bearer "

  /**
   * `header.startsWith("Bearer ") ? header.slice(7) : null` on
   * `req.headers.authorization || ""`: the scheme is case-sensitive and the
   * token is everything after the prefix.
   */
  function ExtractToken(authorization: Option<string>): (t: Option<string>)
    ensures t.Some? <==> authorization.Some? && BearerPrefix <= authorization.value
    ensures t.Some? ==> authorization.value == BearerPrefix + t.value
  {
    var header := authorization.GetOr("");
    if BearerPrefix <= header then Some(header[|BearerPrefix|..]) else None
  }

  const MissingToken := Response(401, MessageBody("Missing token"))
  const InvalidToken := Response(401, MessageBody("Invalid token"))

  /** What `auth` decides: answer the request itself, or pass it on with the caller's claims. */
  datatype GateOutcome = Rejected(response: Response) | Admitted(user: Claims)

  function Authorize(authorization: Option<string>, verify: string -> Option<Claims>): (g: GateOutcome)
    ensures g == Rejected(MissingToken) <==> ExtractToken(authorization) in {None, Some("")}
    ensures g == Rejected(InvalidToken) <==>
      && ExtractToken(authorization) !in {None, Some("")}
      && verify(ExtractToken(authorization).value) == None
    ensures g.Admitted? <==>
      && ExtractToken(authorization) !in {None, Some("")}
      && verify(ExtractToken(authorization).value).Some?
    ensures g.Admitted? ==> verify(ExtractToken(authorization).value) == Some(g.user)
  {
    var token := ExtractToken(authorization);
    if token == None || token == Some("") then Rejected(MissingToken)
    else match verify(token.value)
      case None => Rejected(InvalidToken)
      case Some(claims) => Admitted(claims)
  }

  /** A header `Bearer <t>` yields exactly `t`. */
  lemma BearerRoundTrip(t: string)
    ensures ExtractToken(Some(BearerPrefix + t)) == Some(t)
  {
    assert (BearerPrefix + t)[|BearerPrefix|..] == t;
  }

  /** Any other capitalisation of the scheme is no token at all. */
  lemma SchemeIsCaseSensitive(t: string, verify: string -> Option<Claims>)
    ensures Authorize(Some("bearer " + t), verify) == Rejected(MissingToken)
    ensures Authorize(Some("BEARER " + t), verify) == Rejected(MissingToken)
  {
    assert !(BearerPrefix <= "bearer " + t) by { assert ("bearer " + t)[0] == 'b'; }
    assert !(BearerPrefix <= "BEARER " + t) by { assert ("BEARER " + t)[1] == 'E'; }
  }

  /**
   * One request through `auth`: the request's header, the claims `auth` puts
   * on `req.user`, the response it sends, and how often it called `next`.
   */
  class Exchange {
    const authorization: Option<string>
    var user: Option<Claims>
    var response: Option<Response>
    var nextCalls: nat

    constructor(authorization: Option<string>)
      ensures this.authorization == authorization
      ensures user == None && response == None && nextCalls == 0
    {
      this.authorization := authorization;
      user, response, nextCalls := None, None, 0;
    }

    /** The `auth` middleware. */
    method Auth(verify: string -> Option<Claims>)
      modifies this`user, this`response, this`nextCalls
      ensures Authorize(authorization, verify).Rejected? ==>
        && response == Some(Authorize(authorization, verify).response)
        && user == old(user) && nextCalls == old(nextCalls)
      ensures Authorize(authorization, verify).Admitted? ==>
        && user == Some(Authorize(authorization, verify).user)
        && response == old(response) && nextCalls == old(nextCalls) + 1
    {
      var header := authorization.GetOr("");
      var token: Option<string> := if BearerPrefix <= header then Some(header[7..]) else None;
      if token == None || token.value == "" {
        response := Some(MissingToken);
        return;
      }
      var decoded := verify(token.value);
      if decoded == None {
        response := Some(InvalidToken);
        return;
      }
      user := decoded;
      nextCalls := nextCalls + 1;
    }
  }

  /** A protected route: the gate's answer, or the handler's when the gate admits. */
  function Guard(authorization: Option<string>, verify: string -> Option<Claims>, handled: Response): (r: Response)
    ensures Authorize(authorization, verify).Rejected? ==>
      && r == Authorize(authorization, verify).response
      && r.status == 401 && r.body.MessageBody?
    ensures Authorize(authorization, verify).Admitted? ==> r == handled
  {
    match Authorize(authorization, verify)
    case Rejected(response) => response
    case Admitted(_) => handled
  }

  /** `res.status(500).json({ message: "Server error", error: String(e) })`. */
  function ServerFailure(error: string): (r: Response)
    ensures !IsOk(r.status) && r.status == 500
    ensures r.body.ErrorBody? && r.body.message == "Server error" && r.body.error == error
  {
    Response(500, ErrorBody("Server error", error))
  }

  const InvalidCredentials := Response(401, MessageBody("Invalid credentials"))

  /**
   * POST `/api/login`: `query` is the number of user rows with exactly this
   * name and password; `sign` issues the token for `{ usrID: username }`.
   */
  function Login(username: string, password: string,
                 query: (string, string) -> Outcome<nat>, sign: Claims -> Outcome<string>): (r: Response)
    ensures r == InvalidCredentials <==> query(username, password) == Done(0)
    ensures r.status == 200 <==>
      query(username, password).Done? && query(username, password).value > 0 && sign(Claims(username)).Done?
    ensures r.status == 200 ==> r.body == TokenBody(sign(Claims(username)).value)
    ensures r.status != 200 && r != InvalidCredentials ==> r.status == 500 && r.body.ErrorBody?
    ensures query(username, password).Threw? ==> r == ServerFailure(query(username, password).error)
    ensures query(username, password).Done? && query(username, password).value > 0 && sign(Claims(username)).Threw? ==>
      r == ServerFailure(sign(Claims(username)).error)
  {
    match query(username, password)
    case Threw(e) => ServerFailure(e)
    case Done(count) =>
      if count == 0 then InvalidCredentials
      else match sign(Claims(username))
        case Threw(e) => ServerFailure(e)
        case Done(token) => Response(200, TokenBody(token))
  }

  /** GET `/api/employees` once admitted: the listed rows, or a server failure. */
  function ListEmployees(listing: Outcome<seq<Employee>>): (r: Response)
    ensures r.status == 200 <==> listing.Done?
    ensures listing.Done? ==> r.body == EmployeeList(listing.value)
    ensures listing.Threw? ==> r == ServerFailure(listing.error)
  {
    match listing
    case Done(rows) => Response(200, EmployeeList(rows))
    case Threw(e) => ServerFailure(e)
  }

  /** GET `/api/projects` once admitted: the listed projects, or a server failure. */
  function ListProjects(listing: Outcome<seq<Project>>): (r: Response)
    ensures r.status == 200 <==> listing.Done?
    ensures listing.Done? ==> r.body == ProjectList(listing.value)
    ensures listing.Threw? ==> r == ServerFailure(listing.error)
  {
    match listing
    case Done(projects) => Response(200, ProjectList(projects))
    case Threw(e) => ServerFailure(e)
  }

  /** JavaScript truthiness of a JSON field. */
  predicate Truthy(v: JsonValue) {
    match v
    case Undefined => false
    case JNull => false
    case JNum(n) => n != 0
    case JStr(s) => s != ""
    case JBool(b) => b
  }

  /** `v || null`. */
  function OrNull(v: JsonValue): (r: JsonValue)
    ensures r == JNull <==> !Truthy(v)
    ensures Truthy(v) ==> r == v
  {
    if Truthy(v) then v else JNull
  }

  /** The parameters the PUT handler binds into its `UPDATE` statement. */
  datatype UpdateCall = UpdateCall(empPSC: string, empTagId: JsonValue, empProjID: JsonValue)

  function UpdateCallFor(empPSC: string, body: PutBody): (c: UpdateCall)
    ensures c.empPSC == empPSC && c.empTagId == body.empTagId
    ensures c.empProjID == JNull <==> !Truthy(body.empProjID)
    ensures Truthy(body.empProjID) ==> c.empProjID == body.empProjID
  {
    UpdateCall(empPSC, body.empTagId, OrNull(body.empProjID))
  }

  const Updated := Response(200, MessageBody("Updated"))

  /**
   * PUT `/api/employees/:empPSC` once admitted: `exec` runs the update. Any
   * run that does not throw is acknowledged, however many rows it changed.
   */
  function Put(empPSC: string, body: PutBody, exec: UpdateCall -> Outcome<nat>): (r: Response)
    ensures exec(UpdateCallFor(empPSC, body)).Done? ==> r == Updated
    ensures exec(UpdateCallFor(empPSC, body)).Threw? ==>
      r == ServerFailure(exec(UpdateCallFor(empPSC, body)).error)
  {
    match exec(UpdateCallFor(empPSC, body))
    case Done(_) => Updated
    case Threw(e) => ServerFailure(e)
  }

  /** Every falsy project value, `0` and `""` included, is stored as `NULL`. */
  lemma FalsyProjectStoredAsNull(empPSC: string, empTagId: JsonValue, p: JsonValue)
    requires p in {Undefined, JNull, JNum(0), JStr(""), JBool(false)}
    ensures UpdateCallFor(empPSC, PutBody(empTagId, p)).empProjID == JNull
  {
  }
}

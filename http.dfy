/**
 * What travels between the pages and the API server: the employee and
 * project records, response bodies, the JSON fields of a PUT body, and the
 * `Authorization` header the pages attach to every protected call.
 */
module Http {
  import opened Wrappers

  /**
   * An `empProjID` value as the pages hold it: SQL `NULL`, a project's
   * sequence number, or `NaN` (what `parseInt` yields for a non-numeric text).
   */
  datatype ProjectRef = Null | Id(n: int) | NaN

  /** One row of `dbo.tblEmployee` as `/api/employees` lists it; `empPSC` is the key. */
  datatype Employee = Employee(empPSC: string, empTagId: Option<string>, empProjID: ProjectRef)

  /** One row of `dbo.tblProjects` as `/api/projects` lists it. */
  datatype Project = Project(prjSeq: int, prjDesc: string)

  /** The JSON bodies the server sends. */
  datatype Body =
    | MessageBody(message: string)                // {message}
    | ErrorBody(message: string, error: string)   // {message, error}
    | TokenBody(token: string)                    // {token}
    | EmployeeList(rows: seq<Employee>)
    | ProjectList(projects: seq<Project>)

  datatype Response = Response(status: int, body: Body)

  /** `Response.ok`. */
  predicate IsOk(status: int) {
    200 <= status <= 299
  }

  /** The body of a login POST. */
  datatype Credentials = Credentials(username: string, password: string)

  /** A field of a parsed JSON request body; `Undefined` when the key is absent. */
  datatype JsonValue = Undefined | JNull | JNum(n: int) | JStr(s: string) | JBool(b: bool)

  /** The two fields the PUT handler destructures from `req.body`. */
  datatype PutBody = PutBody(empTagId: JsonValue, empProjID: JsonValue)

  /** A PUT to `/api/employees/<psc>` as a page sends it. */
  datatype PutRequest = PutRequest(psc: string, authorization: string, body: PutBody)

  /**
   * The header `Bearer ${token}` built from the stored token; a missing token
   * is interpolated as the text "null".
   */
  function AuthHeader(token: Option<string>): (h: string)
    ensures |h| >= 7 && h[..7] == "Bearer "
    ensures h[7..] == if token.Some? then token.value else "null"
  {
    "Bearer " + token.GetOr("null")
  }

  /** `JSON.stringify` of an `empProjID`: `NaN` is written as `null`. */
  function ProjectJson(p: ProjectRef): (j: JsonValue)
    ensures j == JNull <==> !p.Id?
    ensures p.Id? ==> j == JNum(p.n)
  {
    match p
    case Id(n) => JNum(n)
    case _ => JNull
  }
}

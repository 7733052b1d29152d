/**
 * What every Employees page's `load` does with the `/api/employees` response.
 *
 * As written, `load` checks only for status 401 and otherwise hands the parsed
 * body to the row state, so the `{message, error}` object of a 500 response
 * becomes the roster and the next render's `rows.map` throws. The model keeps
 * that reading (`LoadAsWritten`) and, for the pages, the corrected one
 * (`LoadStep`): only a list replaces the roster.
 */
module Loading {
  import opened Http

  /** The written behaviour: sign out on 401, otherwise store whatever body came back. */
  datatype WrittenStep = WrittenSignOut | Store(body: Body)

  function LoadAsWritten(res: Response): (s: WrittenStep)
    ensures s.WrittenSignOut? <==> res.status == 401
    ensures s.Store? ==> s.body == res.body
  {
    if res.status == 401 then WrittenSignOut else Store(res.body)
  }

  /** A server error's body is stored as the roster although it is no list. */
  lemma ServerErrorStoredAsRoster(error: string)
    ensures var s := LoadAsWritten(Response(500, ErrorBody("Server error", error)));
            s.Store? && !s.body.EmployeeList?
  {
  }

  /** The corrected behaviour: sign out on 401, show a list, keep the roster otherwise. */
  datatype Step = SignOut | Show(rows: seq<Employee>) | KeepRows

  function LoadStep(res: Response): (s: Step)
    ensures s.SignOut? <==> res.status == 401
    ensures s.Show? <==> res.status != 401 && res.body.EmployeeList?
    ensures s.Show? ==> s.rows == res.body.rows
  {
    if res.status == 401 then SignOut
    else if res.body.EmployeeList? then Show(res.body.rows)
    else KeepRows
  }

  /**
   * The correction changes nothing where the written code stores a list, and
   * where it would store a non-list it keeps the roster instead.
   */
  lemma CorrectionOnlyGuardsNonLists(res: Response)
    ensures LoadAsWritten(res).WrittenSignOut? <==> LoadStep(res).SignOut?
    ensures LoadAsWritten(res).Store? && res.body.EmployeeList? ==> LoadStep(res) == Show(res.body.rows)
    ensures LoadAsWritten(res).Store? && !res.body.EmployeeList? ==> LoadStep(res) == KeepRows
  {
  }
}

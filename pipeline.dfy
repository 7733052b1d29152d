/**
 * What the pages and the server do together: the header a page sends meets
 * the gate, a login's token opens it, a save's body becomes the `UPDATE`
 * parameters, and each employees response becomes a load step.
 */
module Pipeline {
  import opened Wrappers
  import opened Http
  import opened Roster
  import opened Loading
  import opened Session
  import opened LoginPage
  import RosterPage
  import TagOnlyPage
  import opened Server

  /**
   * The header a page builds always carries a token for the gate: the stored
   * one, or the text "null" when nothing is stored. Only an empty stored
   * token is turned away as missing; everything else goes to `verify`.
   */
  lemma PageHeaderAtGate(token: Option<string>, verify: string -> Option<Claims>)
    ensures ExtractToken(Some(AuthHeader(token))) == Some(token.GetOr("null"))
    ensures token == Some("") ==> Authorize(Some(AuthHeader(token)), verify) == Rejected(MissingToken)
    ensures token != Some("") ==>
      Authorize(Some(AuthHeader(token)), verify) ==
        match verify(token.GetOr("null"))
        case None => Rejected(InvalidToken)
        case Some(c) => Admitted(c)
  {
    BearerRoundTrip(token.GetOr("null"));
    assert AuthHeader(token) == BearerPrefix + token.GetOr("null");
  }

  /**
   * When `verify` accepts what `sign` issues, the token a successful login
   * hands to the login page opens the gate as the user who logged in.
   */
  lemma LoginTokenOpensGate(username: string, password: string,
                            query: (string, string) -> Outcome<nat>, sign: Claims -> Outcome<string>,
                            verify: string -> Option<Claims>)
    requires forall c :: sign(c).Done? ==> sign(c).value != "" && verify(sign(c).value) == Some(c)
    requires IsOk(Server.Login(username, password, query, sign).status)
    ensures var stored := Some(StoredToken(Server.Login(username, password, query, sign).body));
            && Authorize(Some(AuthHeader(stored)), verify) == Admitted(Claims(username))
            && Render(EmployeesPath, stored) == EmployeesView
  {
    var r := Server.Login(username, password, query, sign);
    assert r.status == 200;
    PageHeaderAtGate(Some(StoredToken(r.body)), verify);
  }

  /** Every save from a tag-only page sets the row's project to `NULL`. */
  lemma TagOnlySaveClearsProject(r: Employee)
    ensures var body := TagOnlyPage.TagOnlyBody(r.empTagId.GetOr(""));
            UpdateCallFor(r.empPSC, body) == UpdateCall(r.empPSC, JStr(r.empTagId.GetOr("")), JNull)
  {
  }

  /**
   * A save from the filter page stores the row's project unless it is `NULL`,
   * `NaN` or `0`; those three are all stored as `NULL`.
   */
  lemma RosterSaveStoresProject(r: Employee)
    ensures var call := UpdateCallFor(r.empPSC, RosterPage.SaveBody(r.empTagId.GetOr(""), r.empProjID));
            && call.empTagId == JStr(r.empTagId.GetOr(""))
            && call.empProjID == (if r.empProjID.Id? && r.empProjID.n != 0 then JNum(r.empProjID.n) else JNull)
  {
  }

  /**
   * The load step a page takes for each answer of the employees route: sign
   * out on either gate rejection, show the rows on success, and keep the
   * roster when the store throws.
   */
  lemma EmployeesRouteLoadStep(authorization: Option<string>, verify: string -> Option<Claims>,
                               listing: Outcome<seq<Employee>>)
    ensures var step := LoadStep(Guard(authorization, verify, ListEmployees(listing)));
            && (Authorize(authorization, verify).Rejected? ==> step == SignOut)
            && (Authorize(authorization, verify).Admitted? && listing.Done? ==> step == Show(listing.value))
            && (Authorize(authorization, verify).Admitted? && listing.Threw? ==> step == KeepRows)
  {
  }

  /** Under the code as written, the store throwing on the employees route puts its error object in the rows. */
  lemma EmployeesRouteFailureAsWritten(authorization: Option<string>, verify: string -> Option<Claims>, error: string)
    requires Authorize(authorization, verify).Admitted?
    ensures LoadAsWritten(Guard(authorization, verify, ListEmployees(Threw(error))))
         == Store(ErrorBody("Server error", error))
  {
  }

  /** A 200 from the projects route is always a list, so the filter page takes it. */
  lemma ProjectsRouteOkIsList(authorization: Option<string>, verify: string -> Option<Claims>,
                              listing: Outcome<seq<Project>>)
    ensures var r := Guard(authorization, verify, ListProjects(listing));
            IsOk(r.status) <==> Authorize(authorization, verify).Admitted? && listing.Done?
    ensures var r := Guard(authorization, verify, ListProjects(listing));
            IsOk(r.status) ==> r.body == ProjectList(listing.value)
  {
  }
}

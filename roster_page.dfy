/**
 * The Employees page with filters: the last full load (`allRows`), the
 * visible and editable rows (`rows`), the project list, the three filter
 * inputs and the status line.
 *
 * There is no separate store of unsaved edits: a cell edit rewrites `rows`
 * only, and every filter change or Clear Filters rebuilds `rows` from
 * `allRows`, which neither an edit nor a save ever updates.
 */
module RosterPage {
  import opened Wrappers
  import opened Text
  import opened Http
  import opened Roster
  import opened Loading
  import opened Session

  const UpdatedPrefix := "\U{2713} Updated "
  const UpdateFailed := "\U{2717} Update failed"

  /** The body `update` sends: the tag as given and the project as `JSON.stringify` writes it. */
  function SaveBody(empTagId: string, empProjID: ProjectRef): (b: PutBody)
    ensures b.empTagId == JStr(empTagId)
    ensures b.empProjID == JNull <==> !empProjID.Id?
    ensures empProjID.Id? ==> b.empProjID == JNum(empProjID.n)
  {
    PutBody(JStr(empTagId), ProjectJson(empProjID))
  }

  class EmployeesPage {
    var rows: seq<Employee>
    var allRows: seq<Employee>
    var projects: seq<Project>
    var filterProjectId: string
    var filterPSC: string
    var filterTagId: string
    var msg: string
    const browser: Browser

    /** The visible rows are rows of the last load, in load order. */
    ghost predicate Valid()
      reads this
    {
      Subsequence(Pscs(rows), Pscs(allRows))
    }

    constructor(browser: Browser)
      ensures Valid()
      ensures rows == [] && allRows == [] && projects == []
      ensures filterProjectId == "" && filterPSC == "" && filterTagId == "" && msg == ""
      ensures this.browser == browser
    {
      rows, allRows, projects := [], [], [];
      filterProjectId, filterPSC, filterTagId, msg := "", "", "", "";
      this.browser := browser;
    }

    /**
     * `load`: clears the status line; a 401 on the employees call signs out
     * and touches no rows; a list replaces both `allRows` and `rows`; the
     * project list changes only on an ok projects reply.
     */
    method Load(empRes: Response, projRes: Response)
      requires Valid()
      modifies this`msg, this`rows, this`allRows, this`projects, browser
      ensures Valid()
      ensures msg == ""
      ensures LoadStep(empRes).SignOut? ==>
        && browser.token == None && browser.location == LoginPath
        && rows == old(rows) && allRows == old(allRows) && projects == old(projects)
      ensures !LoadStep(empRes).SignOut? ==>
        && browser.token == old(browser.token) && browser.location == old(browser.location)
        && projects == (if IsOk(projRes.status) && projRes.body.ProjectList?
                        then projRes.body.projects else old(projects))
      ensures LoadStep(empRes).Show? ==> rows == allRows == LoadStep(empRes).rows
      ensures LoadStep(empRes).KeepRows? ==> rows == old(rows) && allRows == old(allRows)
    {
      msg := "";
      var step := LoadStep(empRes);
      if step.SignOut? {
        browser.SignOut();
        return;
      }
      if step.Show? {
        allRows := step.rows;
        rows := step.rows;
        SubsequenceRefl(Pscs(rows));
      }
      if IsOk(projRes.status) && projRes.body.ProjectList? {
        projects := projRes.body.projects;
      }
    }

    /** `applyFilters(psc, tagId, projId)`: `rows` becomes the filtered last load. */
    method ApplyFilters(psc: string, tagId: string, projId: string)
      modifies this`rows
      ensures Valid()
      ensures rows == Roster.ApplyFilters(allRows, psc, tagId, projId)
    {
      rows := Roster.ApplyFilters(allRows, psc, tagId, projId);
      FilterIsSubsequence(allRows, psc, tagId, projId);
      SubsequencePscs(rows, allRows);
    }

    method HandleProjectFilter(projId: string)
      modifies this`filterProjectId, this`rows
      ensures Valid()
      ensures filterProjectId == projId
      ensures rows == Roster.ApplyFilters(allRows, filterPSC, filterTagId, projId)
    {
      filterProjectId := projId;
      ApplyFilters(filterPSC, filterTagId, projId);
    }

    method HandlePSCFilter(psc: string)
      modifies this`filterPSC, this`rows
      ensures Valid()
      ensures filterPSC == psc
      ensures rows == Roster.ApplyFilters(allRows, psc, filterTagId, filterProjectId)
    {
      filterPSC := psc;
      ApplyFilters(psc, filterTagId, filterProjectId);
    }

    method HandleTagIdFilter(tagId: string)
      modifies this`filterTagId, this`rows
      ensures Valid()
      ensures filterTagId == tagId
      ensures rows == Roster.ApplyFilters(allRows, filterPSC, tagId, filterProjectId)
    {
      filterTagId := tagId;
      ApplyFilters(filterPSC, tagId, filterProjectId);
    }

    /** Clear Filters: all three inputs emptied and the whole last load shown again. */
    method HandleClearFilters()
      modifies this`filterPSC, this`filterTagId, this`filterProjectId, this`rows
      ensures Valid()
      ensures filterPSC == "" && filterTagId == "" && filterProjectId == ""
      ensures rows == allRows
    {
      filterPSC := "";
      filterTagId := "";
      filterProjectId := "";
      rows := allRows;
      SubsequenceRefl(Pscs(rows));
    }

    /** The tag cell's `onChange`: the rows with key `psc` get tag `v`. */
    method EditTag(psc: string, v: string)
      requires Valid()
      modifies this`rows
      ensures Valid()
      ensures rows == Edit(old(rows), psc, SetTag(v))
    {
      EditKeepsKeys(rows, psc, SetTag(v));
      rows := Edit(rows, psc, SetTag(v));
    }

    /** The project cell's `onChange`: the rows with key `psc` get `null` or `parseInt(v)`. */
    method EditProject(psc: string, v: string)
      requires Valid()
      modifies this`rows
      ensures Valid()
      ensures rows == Edit(old(rows), psc, SetProject(ProjectChoice(v)))
    {
      EditKeepsKeys(rows, psc, SetProject(ProjectChoice(v)));
      rows := Edit(rows, psc, SetProject(ProjectChoice(v)));
    }

    /**
     * The Save button of row `r` calls `update(r.empPSC, r.empTagId ?? "",
     * r.empProjID)`, which clears the status line and sends the PUT.
     */
    method BeginUpdate(r: Employee) returns (req: PutRequest)
      modifies this`msg
      ensures msg == ""
      ensures req == PutRequest(r.empPSC, AuthHeader(browser.token), SaveBody(r.empTagId.GetOr(""), r.empProjID))
    {
      msg := "";
      req := PutRequest(r.empPSC, AuthHeader(browser.token), SaveBody(r.empTagId.GetOr(""), r.empProjID));
    }

    /**
     * `update` after the reply to the request `req` that `BeginUpdate` built:
     * only the status line changes, even on a 401, and it names the PSC the
     * request was sent for.
     */
    method EndUpdate(req: PutRequest, res: Response)
      modifies this`msg
      ensures msg == if IsOk(res.status) then UpdatedPrefix + req.psc else UpdateFailed
    {
      if IsOk(res.status) {
        msg := UpdatedPrefix + req.psc;
      } else {
        msg := UpdateFailed;
      }
    }

    method Logout()
      modifies browser
      ensures browser.token == None && browser.location == LoginPath
    {
      browser.SignOut();
    }
  }

  /**
   * Whatever was edited, the next PSC filter change shows the filtered last
   * load, and neither the edit nor a save in between touches that load.
   */
  method EditSaveThenFilter(page: EmployeesPage, r: Employee, v: string, res: Response, psc: string)
    returns (req: PutRequest)
    requires page.Valid()
    modifies page
    ensures page.allRows == old(page.allRows)
    ensures page.rows == Roster.ApplyFilters(old(page.allRows), psc, old(page.filterTagId), old(page.filterProjectId))
  {
    page.EditTag(r.empPSC, v);
    req := page.BeginUpdate(r.(empTagId := Some(v)));
    page.EndUpdate(req, res);
    page.HandlePSCFilter(psc);
  }

  /** Filtering the two-row roster of the scenario below by project 1 leaves its first row. */
  lemma ScenarioFilter(e1: Employee, e2: Employee)
    requires e1 == Employee("E1", Some("T1"), Id(1)) && e2 == Employee("E2", None, Null)
    ensures Roster.ApplyFilters([e1, e2], "", "", "1") == [e1]
  {
    var cs := [ByPSC(""), ByTag(""), ByProject("1")];
    assert IntString(1) == "1";
    ParseIntString(1);
    FilterIsConjunction([e1, e2], "", "", "1");
    AdmitsAllThree("", "", "1", e1);
    AdmitsAllThree("", "", "1", e2);
    assert Keep([e2], cs) == [] by {
      assert Keep([e2][1..], cs) == [];
    }
    assert Keep([e1, e2], cs) == [e1] + Keep([e2], cs) by {
      assert [e1, e2][1..] == [e2];
    }
  }

  /**
   * An edit is lost from view by the next filter change: after editing a
   * visible row and clearing the filters, the page shows the loaded value.
   */
  method EditLostOnClearFilters()
  {
    var browser := new Browser(Some("t"), EmployeesPath);
    var page := new EmployeesPage(browser);
    var e1 := Employee("E1", Some("T1"), Id(1));
    var e2 := Employee("E2", None, Null);
    page.Load(Response(200, EmployeeList([e1, e2])), Response(200, ProjectList([Project(1, "Alpha")])));
    page.HandleProjectFilter("1");
    ScenarioFilter(e1, e2);
    assert page.rows == [e1];
    page.EditTag("E1", "T9");
    assert page.rows == [e1.(empTagId := Some("T9"))];
    page.HandleClearFilters();
    assert page.rows == [e1, e2];
  }
}

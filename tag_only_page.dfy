/**
 * The two earlier Employees pages, `src/pages/Employees.js` and
 * `server/client/Employees.js`: rows and a status line, a tag-only cell edit,
 * and a save whose body carries `empTagId` alone. They differ only in the
 * texts of the status line, which `Variant` selects.
 */
module TagOnlyPage {
  import opened Wrappers
  import opened Http
  import opened Roster
  import opened Loading
  import opened Session

  /** Which of the two pages: the one under `src/pages` or the one under `server/client`. */
  datatype Variant = SrcPages | ServerClient

  function UpdatedMessage(variant: Variant, psc: string): (m: string)
    ensures |m| > |psc| && m[|m| - |psc|..] == psc
  {
    match variant
    case SrcPages => "\U{2713} Updated " + psc
    case ServerClient => "Updated " + psc
  }

  function FailedMessage(variant: Variant): string {
    match variant
    case SrcPages => "\U{2717} Update failed"
    case ServerClient => "Update failed"
  }

  /** `JSON.stringify({ empTagId })`: the project key is absent from the body. */
  function TagOnlyBody(empTagId: string): (b: PutBody)
    ensures b.empTagId == JStr(empTagId) && b.empProjID == Undefined
  {
    PutBody(JStr(empTagId), Undefined)
  }

  class TagPage {
    var rows: seq<Employee>
    var msg: string
    const browser: Browser
    const variant: Variant

    constructor(browser: Browser, variant: Variant)
      ensures rows == [] && msg == ""
      ensures this.browser == browser && this.variant == variant
    {
      rows, msg := [], "";
      this.browser := browser;
      this.variant := variant;
    }

    /** `load`: a 401 signs out and keeps `rows`; a list becomes `rows`. */
    method Load(res: Response)
      modifies this`msg, this`rows, browser
      ensures msg == ""
      ensures LoadStep(res).SignOut? ==>
        browser.token == None && browser.location == LoginPath && rows == old(rows)
      ensures !LoadStep(res).SignOut? ==>
        browser.token == old(browser.token) && browser.location == old(browser.location)
      ensures LoadStep(res).Show? ==> rows == LoadStep(res).rows
      ensures LoadStep(res).KeepRows? ==> rows == old(rows)
    {
      msg := "";
      var step := LoadStep(res);
      if step.SignOut? {
        browser.SignOut();
        return;
      }
      if step.Show? {
        rows := step.rows;
      }
    }

    /** The tag cell's `onChange`: the rows with key `psc` get tag `v`. */
    method EditTag(psc: string, v: string)
      modifies this`rows
      ensures rows == Edit(old(rows), psc, SetTag(v))
    {
      rows := Edit(rows, psc, SetTag(v));
    }

    /**
     * The Save button of row `r` calls `update(r.empPSC, r.empTagId ?? "")`,
     * which clears the status line and sends a body with the tag only.
     */
    method BeginUpdate(r: Employee) returns (req: PutRequest)
      modifies this`msg
      ensures msg == ""
      ensures req == PutRequest(r.empPSC, AuthHeader(browser.token), TagOnlyBody(r.empTagId.GetOr("")))
    {
      msg := "";
      req := PutRequest(r.empPSC, AuthHeader(browser.token), TagOnlyBody(r.empTagId.GetOr("")));
    }

    /**
     * `update` after the reply to the request `req` that `BeginUpdate` built:
     * only the status line changes, and it names the PSC the request was sent for.
     */
    method EndUpdate(req: PutRequest, res: Response)
      modifies this`msg
      ensures msg == if IsOk(res.status) then UpdatedMessage(variant, req.psc) else FailedMessage(variant)
    {
      if IsOk(res.status) {
        msg := UpdatedMessage(variant, req.psc);
      } else {
        msg := FailedMessage(variant);
      }
    }

    method Logout()
      modifies browser
      ensures browser.token == None && browser.location == LoginPath
    {
      browser.SignOut();
    }
  }
}

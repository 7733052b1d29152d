/**
 * The login form: its two inputs, the error line, and `handleLogin`, split at
 * its `await` into the submission and the handling of the reply.
 */
module LoginPage {
  import opened Wrappers
  import opened Http
  import opened Session

  const LoginError := "Invalid username/password"

  /**
   * What `localStorage.setItem("token", data.token)` stores: the token, or
   * the text "undefined" when the body has no `token` field.
   */
  function StoredToken(body: Body): (t: string)
    ensures body.TokenBody? ==> t == body.token
    ensures !body.TokenBody? ==> t == "undefined"
  {
    match body
    case TokenBody(t) => t
    case _ => "undefined"
  }

  class Login {
    var username: string
    var password: string
    var err: string
    const browser: Browser

    constructor(browser: Browser)
      ensures username == "" && password == "" && err == ""
      ensures this.browser == browser
    {
      username, password, err := "", "", "";
      this.browser := browser;
    }

    method SetUsername(v: string)
      modifies this`username
      ensures username == v
    {
      username := v;
    }

    method SetPassword(v: string)
      modifies this`password
      ensures password == v
    {
      password := v;
    }

    /** `handleLogin` up to its fetch: clears the error and posts exactly the two inputs. */
    method Submit() returns (body: Credentials)
      modifies this`err
      ensures err == ""
      ensures body == Credentials(username, password)
    {
      err := "";
      body := Credentials(username, password);
    }

    /**
     * `handleLogin` after the reply: a non-ok reply shows the error and leaves
     * the session alone; an ok reply stores the token and opens `/employees`.
     */
    method Replied(res: Response)
      modifies this`err, browser
      ensures !IsOk(res.status) ==>
        && err == LoginError
        && browser.token == old(browser.token) && browser.location == old(browser.location)
      ensures IsOk(res.status) ==>
        && err == old(err)
        && browser.token == Some(StoredToken(res.body)) && browser.location == EmployeesPath
    {
      if !IsOk(res.status) {
        err := LoginError;
        return;
      }
      browser.SignIn(StoredToken(res.body));
    }
  }
}

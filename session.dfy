/**
 * The browser state the pages share: the `token` entry of `localStorage` and
 * the current route. The token is set by a successful login and removed by a
 * logout or by a 401 on a roster load.
 */
module Session {
  import opened Wrappers

  const LoginPath := "/login"
  const EmployeesPath := "/employees"

  class Browser {
    /** `localStorage.getItem("token")`. */
    var token: Option<string>
    /** The path the router last navigated to. */
    var location: string

    constructor(token: Option<string>, location: string)
      ensures this.token == token && this.location == location
    {
      this.token := token;
      this.location := location;
    }

    /** `localStorage.removeItem("token"); navigate("/login")`. */
    method SignOut()
      modifies this
      ensures token == None && location == LoginPath
    {
      token := None;
      location := LoginPath;
    }

    /** `localStorage.setItem("token", t); navigate("/employees")`. */
    method SignIn(t: string)
      modifies this
      ensures token == Some(t) && location == EmployeesPath
    {
      token := Some(t);
      location := EmployeesPath;
    }
  }

  /** The two views the router can show. */
  datatype View = LoginView | EmployeesView

  /**
   * The router: `/login` shows the login form, `/employees` is wrapped in
   * `PrivateRoute`, which renders it only for a truthy stored token, and every
   * other path redirects to `/login`.
   */
  function Render(path: string, token: Option<string>): (v: View)
    ensures v == EmployeesView <==> path == EmployeesPath && token.Some? && token.value != ""
  {
    if path == EmployeesPath && token.Some? && token.value != "" then EmployeesView else LoginView
  }
}

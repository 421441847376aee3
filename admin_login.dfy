/**
 * The admin login: a fixed pair of credentials, checked in the browser, and
 * a session flag written to sessionStorage when they match. sessionStorage
 * is an object holding a map from keys to strings.
 */
module AdminLogin {
  import opened Base

  const SessionKey: string := "isAdminAuthenticated"
  const AdminEmail: string := "admin@example.com"
  const AdminPassword: string := "password"
  const DashboardPath: string := "/admin/dashboard"
  const InvalidCredentials: string := "Invalid credentials. Please try again."

  /** The browser's sessionStorage. */
  class SessionStore {
    var items: map<string, string>

    constructor (initial: map<string, string>)
      ensures items == initial
    {
      items := initial;
    }

    /** getItem: the stored string, or null when the key is absent. */
    function GetItem(key: string): (v: Option<string>)
      reads this
      ensures v.Some? <==> key in items
      ensures v.Some? ==> v.value == items[key]
    {
      if key in items then Some(items[key]) else None
    }

    method SetItem(key: string, value: string)
      modifies this
      ensures items == old(items)[key := value]
    {
      items := items[key := value];
    }

    method RemoveItem(key: string)
      modifies this
      ensures items == old(items) - {key}
    {
      items := items - {key};
    }
  }

  class AdminLoginPage {
    var email: string
    var password: string
    var error: string

    constructor ()
      ensures email == "" && password == "" && error == ""
    {
      email := "";
      password := "";
      error := "";
    }

    method SetEmail(value: string)
      modifies this`email
      ensures email == value
    {
      email := value;
    }

    method SetPassword(value: string)
      modifies this`password
      ensures password == value
    {
      password := value;
    }

    /**
     * Clears the old error, then either sets the session flag to 'true' and
     * goes to the dashboard (exactly for the admin's email and password) or
     * shows the error and leaves the session alone.
     */
    method HandleSubmit(session: SessionStore) returns (navigateTo: Option<string>)
      modifies this`error, session
      ensures navigateTo.Some? <==> old(email) == AdminEmail && old(password) == AdminPassword
      ensures navigateTo.Some? ==>
        navigateTo.value == DashboardPath && error == "" && session.items == old(session.items)[SessionKey := "true"]
      ensures navigateTo.None? ==> error == InvalidCredentials && session.items == old(session.items)
    {
      error := "";
      if email == AdminEmail && password == AdminPassword {
        session.SetItem(SessionKey, "true");
        navigateTo := Some(DashboardPath);
      } else {
        error := InvalidCredentials;
        navigateTo := None;
      }
    }
  }
}

/**
 * The frame around every admin page: the session-flag guard, logout, the
 * sidebar's four links with the active one highlighted, and the sidebar's
 * open/closed state on small screens.
 */
module AdminLayout {
  import opened Base
  import opened AdminLogin

  const LoginPath: string := "/admin"

  datatype NavLink = NavLink(href: string, caption: string)

  const NavLinks: seq<NavLink> := [
    NavLink("/admin/dashboard", "Dashboard"),
    NavLink("/admin/devotees", "Devotee Records"),
    NavLink("/admin/donors", "Donor Records"),
    NavLink("/admin/settings", "Site Settings")
  ]

  /** The guard effect: anything but the exact flag 'true' (absent included) sends the visitor to the login page. */
  function GuardRedirect(flag: Option<string>): (to: Option<string>)
    ensures to.None? <==> flag == Some("true")
    ensures to.Some? ==> to.value == LoginPath
  {
    if flag != Some("true") then Some(LoginPath) else None
  }

  /** `location.pathname.startsWith(link.href)` */
  predicate IsActive(path: string, link: NavLink) {
    StartsWith(path, link.href)
  }

  /** Two prefixes of one string: the shorter is a prefix of the longer. */
  lemma PrefixesNest(path: string, a: string, b: string)
    requires StartsWith(path, a) && StartsWith(path, b) && |a| <= |b|
    ensures StartsWith(b, a)
  {
    assert b[..|a|] == path[..|b|][..|a|];
  }

  /** A string that differs from p at a position inside p does not start with p. */
  lemma DifferAt(s: string, p: string, k: nat)
    requires k < |p| && k < |s| && s[k] != p[k]
    ensures !StartsWith(s, p)
  {
    if |p| <= |s| {
      assert s[..|p|][k] == s[k];
    }
  }

  /** No link's href is a prefix of another's. */
  lemma HrefsPrefixFree()
    ensures forall i, j :: 0 <= i < |NavLinks| && 0 <= j < |NavLinks| && i != j ==> !StartsWith(NavLinks[j].href, NavLinks[i].href)
  {
    var h := seq(4, k requires 0 <= k < 4 => NavLinks[k].href);
    assert h[0][8] == 'a' && h[1][8] == 'e' && h[2][8] == 'o' && h[3][7] == 's';
    assert h[0][7] == 'd' && h[1][7] == 'd' && h[2][7] == 'd';
    forall i, j | 0 <= i < 4 && 0 <= j < 4 && i != j
      ensures !StartsWith(h[j], h[i])
    {
      DifferAt(h[j], h[i], if i == 3 || j == 3 then 7 else 8);
    }
  }

  /** Whatever the path, at most one of the four links is highlighted. */
  lemma AtMostOneActive(path: string, i: nat, j: nat)
    requires i < |NavLinks| && j < |NavLinks|
    requires IsActive(path, NavLinks[i]) && IsActive(path, NavLinks[j])
    ensures i == j
  {
    HrefsPrefixFree();
    if i != j {
      if |NavLinks[i].href| <= |NavLinks[j].href| {
        PrefixesNest(path, NavLinks[i].href, NavLinks[j].href);
      } else {
        PrefixesNest(path, NavLinks[j].href, NavLinks[i].href);
      }
    }
  }

  class AdminLayoutFrame {
    var sidebarOpen: bool

    constructor ()
      ensures !sidebarOpen
    {
      sidebarOpen := false;
    }

    /** Runs when the frame mounts: where to go, if anywhere; the session is only read. */
    method CheckAuthentication(session: SessionStore) returns (redirectTo: Option<string>)
      ensures redirectTo == GuardRedirect(session.GetItem(SessionKey))
    {
      var flag := session.GetItem(SessionKey);
      if flag != Some("true") {
        redirectTo := Some(LoginPath);
      } else {
        redirectTo := None;
      }
    }

    /** Removes the flag and goes to the login page; the guard then turns every admin page away. */
    method HandleLogout(session: SessionStore) returns (navigateTo: string)
      modifies session
      ensures session.items == old(session.items) - {SessionKey}
      ensures navigateTo == LoginPath
      ensures GuardRedirect(session.GetItem(SessionKey)) == Some(LoginPath)
    {
      session.RemoveItem(SessionKey);
      navigateTo := LoginPath;
    }

    method OpenSidebar()
      modifies this`sidebarOpen
      ensures sidebarOpen
    {
      sidebarOpen := true;
    }

    /** Following a link closes the sidebar and navigates to the link's page. */
    method FollowLink(link: NavLink) returns (navigateTo: string)
      modifies this`sidebarOpen
      ensures !sidebarOpen
      ensures navigateTo == link.href
    {
      sidebarOpen := false;
      navigateTo := link.href;
    }

    /** Tapping the dimmed overlay, shown only while the sidebar is open, closes it and stays on the page. */
    method CloseSidebar()
      modifies this`sidebarOpen
      ensures !sidebarOpen
    {
      sidebarOpen := false;
    }
  }
}

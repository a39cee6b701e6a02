/** The admin layout's navigation bar: which tab is highlighted for the current path. */
module AdminLayout {
  import opened Text

  /** The highlighted tab for a path, matched on its lower-cased form. */
  function ActiveTab(pathname: string): string {
    var path := Lower(pathname);
    if StartsWith(path, "/admin/tickets") then "allTickets"
    else if StartsWith(path, "/admin/create-user") then "createUser"
    else if path == "/admin" || path == "/admin/" then ""
    else ""
  }

  /** The three outcomes, each by its condition on the lower-cased path. */
  lemma ActiveTabCases(pathname: string)
    ensures ActiveTab(pathname) == "allTickets" <==> StartsWith(Lower(pathname), "/admin/tickets")
    ensures ActiveTab(pathname) == "createUser" <==>
      !StartsWith(Lower(pathname), "/admin/tickets") && StartsWith(Lower(pathname), "/admin/create-user")
    ensures ActiveTab(pathname) in {"allTickets", "createUser", ""}
  {
  }

  /** The tab does not depend on letter case. */
  lemma CaseInsensitive(pathname: string)
    ensures ActiveTab(Lower(pathname)) == ActiveTab(pathname)
  {
    LowerIdempotent(pathname);
  }

  /** The dashboard root, with or without the slash, highlights nothing. */
  lemma AdminRoot()
    ensures ActiveTab("/admin") == "" && ActiveTab("/admin/") == "" && ActiveTab("/ADMIN") == ""
  {
  }

  /** Sub-paths of the tickets tab highlight it. */
  lemma TicketsTabRoute(rest: string)
    ensures ActiveTab("/admin/tickets" + rest) == "allTickets"
  {
    assert Lower("/admin/tickets" + rest)[..14] == "/admin/tickets";
  }

  /** Sub-paths of the create-user tab highlight it, in any letter case. */
  lemma CreateUserTabRoute(rest: string)
    ensures ActiveTab("/Admin/Create-User" + rest) == "createUser"
  {
    var path := Lower("/Admin/Create-User" + rest);
    assert path[..18] == "/admin/create-user";
    assert path[..14] != "/admin/tickets" by {
      assert path[7] == 'c';
    }
  }

  /** The ticket detail route `/admin/ticket/:id` lacks the "s" and highlights nothing. */
  lemma TicketDetailRoute(id: string)
    ensures ActiveTab("/admin/ticket/" + id) == ""
  {
    var path := Lower("/admin/ticket/" + id);
    assert path[13] == '/';
    assert path[7] == 't';
  }
}

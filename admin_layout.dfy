/** The admin panel frame, `app/admin_panel/layout.tsx`: the navigation table,
    which item is highlighted for the current path, and the login-page bypass. */
module AdminLayout {
  import opened Common

  datatype NavItem = NavItem(name: string, href: string)

  const Dashboard := "/admin_panel"
  const LoginPath := "/admin_panel/login"

  const Navigation: seq<NavItem> := [
    NavItem("Dashboard", "/admin_panel"),
    NavItem("Bookings", "/admin_panel/bookings"),
    NavItem("Customers", "/admin_panel/customers"),
    NavItem("Tours", "/admin_panel/tours"),
    NavItem("Reports", "/admin_panel/reports"),
    NavItem("Settings", "/admin_panel/settings")
  ]

  /** A navigation item is highlighted when the path is its link, or, for every item but
      the dashboard, when the path begins with its link. */
  function IsActive(pathname: string, href: string): (r: bool)
    ensures href == Dashboard ==> (r <==> pathname == Dashboard)
    ensures href != Dashboard ==> (r <==> StartsWith(pathname, href))
  {
    pathname == href || (href != Dashboard && StartsWith(pathname, href))
  }

  /** What the layout renders: the page alone, or the page inside the auth guard with
      the sidebar, whose items carry the given highlight flags. */
  datatype Frame = Bare | Guarded(active: seq<bool>)

  function Layout(pathname: string): (f: Frame)
    ensures f.Bare? <==> pathname == LoginPath
    ensures f.Guarded? ==> |f.active| == |Navigation| &&
                           forall i :: 0 <= i < |Navigation| ==> f.active[i] == IsActive(pathname, Navigation[i].href)
  {
    if pathname == LoginPath then Bare
    else Guarded(seq(|Navigation|, i requires 0 <= i < |Navigation| => IsActive(pathname, Navigation[i].href)))
  }

  /** The dashboard item is highlighted only on the dashboard itself. */
  lemma DashboardExactOnly(pathname: string)
    ensures IsActive(pathname, Navigation[0].href) <==> pathname == Dashboard
  {
  }

  /** Any path under a section highlights that section, e.g. "/admin_panel/bookings/BK1". */
  lemma SubpathActivates(i: int, rest: string)
    requires 1 <= i < |Navigation|
    ensures IsActive(Navigation[i].href + rest, Navigation[i].href)
  {
    assert (Navigation[i].href + rest)[..|Navigation[i].href|] == Navigation[i].href;
  }

  /** Every section link is "/admin_panel/" followed by a name, and the five names start
      with five different letters. */
  lemma SectionShape(i: int)
    requires 1 <= i < |Navigation|
    ensures |Navigation[i].href| > 13 && Navigation[i].href[..13] == "/admin_panel/"
    ensures forall j :: 1 <= j < |Navigation| && j != i ==> Navigation[j].href[13] != Navigation[i].href[13]
  {
    assert Navigation[1].href[13] == 'b';
    assert Navigation[2].href[13] == 'c';
    assert Navigation[3].href[13] == 't';
    assert Navigation[4].href[13] == 'r';
    assert Navigation[5].href[13] == 's';
  }

  /** At most one navigation item is highlighted, whatever the path. */
  lemma AtMostOneActive(pathname: string, i: int, j: int)
    requires 0 <= i < j < |Navigation|
    ensures IsActive(pathname, Navigation[i].href) ==> !IsActive(pathname, Navigation[j].href)
  {
    var hi, hj := Navigation[i].href, Navigation[j].href;
    SectionShape(j);
    if IsActive(pathname, hi) {
      if i == 0 {
        assert |pathname| < |hj|;
      } else {
        SectionShape(i);
        assert StartsWith(pathname, hi);
        assert pathname[13] == hi[13];
        assert pathname[13] != hj[13];
      }
    }
  }
}

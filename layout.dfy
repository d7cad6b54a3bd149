/** The main layout's title tab, derived from the route whenever the path
    changes. */
module Layout {
  import opened Text

  const InitialTab := "Dashboard"

  /** The tab that the effect leaves behind. The effect writes "HRS" and
      "Campaigns" first, but its final `if`/`else` always writes again, so
      only the last test decides. */
  function DerivedTab(pathname: string): (r: string)
    ensures r == "Mailkeys" <==> Contains(pathname, "mailkeys")
    ensures r == "Templates" <==> !Contains(pathname, "mailkeys") && Contains(pathname, "templates")
    ensures !Contains(pathname, "mailkeys") && !Contains(pathname, "templates") ==> r == "Dashboard"
    ensures r != "HRS" && r != "Campaigns"
  {
    if Contains(pathname, "mailkeys") then "Mailkeys"
    else if Contains(pathname, "templates") then "Templates"
    else "Dashboard"
  }

  /** The contacts route shows the dashboard title although its path names
      "hrs": the write of "HRS" is overwritten. */
  lemma HrsRouteShowsDashboard()
    ensures Contains("/layout/hrs", "hrs")
    ensures DerivedTab("/layout/hrs") == "Dashboard"
  {
    var p := "/layout/hrs";
    assert OccursAt(p, "hrs", 8);
    ContainsIff(p, "hrs");
    NeitherKeyword(p);
  }

  /** A path with no `m` and no `p` names neither the keys nor the templates
      page, so it gets the dashboard title. */
  lemma NeitherKeyword(p: string)
    requires 'm' !in p && 'p' !in p
    ensures DerivedTab(p) == "Dashboard"
  {
    MissingCharNotContained(p, "mailkeys", 'm');
    MissingCharNotContained(p, "templates", 'p');
  }

  class LayoutState {
    var currentTab: string

    constructor ()
      ensures currentTab == InitialTab
    {
      currentTab := InitialTab;
    }

    /** The `[location.pathname]` effect: the same sequence of writes, the
        last one winning. */
    method OnPathChange(pathname: string)
      modifies `currentTab
      ensures currentTab == DerivedTab(pathname)
    {
      if Contains(pathname, "hrs") {
        currentTab := "HRS";
      }
      if Contains(pathname, "campaigns") {
        currentTab := "Campaigns";
      }
      if Contains(pathname, "mailkeys") {
        currentTab := "Mailkeys";
      } else if Contains(pathname, "templates") {
        currentTab := "Templates";
      } else {
        currentTab := "Dashboard";
      }
    }
  }
}

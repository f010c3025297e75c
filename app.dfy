/** The application shell (`App`): the login gate, the sidebar links with
    the manager-only section, the active-link test and the route table. */
module App {
  import opened Common
  import opened UiCommon

  /** `AppContent`: the login page unless the token is truthy. */
  predicate ShowLogin(token: Option<string>)
  {
    !(token.Some? && Truthy(token.value))
  }

  datatype Link = Link(to: string, text: string)

  function BaseLinks(): seq<Link>
  {
    [Link("/", "Dashboard"), Link("/inventory", "Inventory"), Link("/sales", "Sales & Desking"),
     Link("/leads", "Leads"), Link("/service", "Service Lane"), Link("/calendar", "Schedule"),
     Link("/customers", "Customers")]
  }

  function ManagerLinks(): seq<Link>
  {
    [Link("/financials", "Financials"), Link("/team", "Team")]
  }

  const ActivityLink := Link("/activity", "Activity Log")

  /** The sidebar: the seven base links, the Financials and Team links only
      for a manager, and the Activity Log last. */
  function NavLinks(isManager: bool): (r: seq<Link>)
    ensures |r| == if isManager then 10 else 8
    ensures r[..7] == BaseLinks() && r[|r| - 1] == ActivityLink
    ensures Link("/financials", "Financials") in r <==> isManager
    ensures Link("/team", "Team") in r <==> isManager
    ensures forall l :: l in r ==> l in BaseLinks() || l in ManagerLinks() || l == ActivityLink
  {
    BaseLinks() + (if isManager then ManagerLinks() else []) + [ActivityLink]
  }

  /** `NavItem`'s active test: exact equality of the path and the target. */
  predicate IsActive(pathname: string, l: Link) { pathname == l.to }

  /** The link targets are all different, so at most one link is
      highlighted whatever the path. */
  lemma OneActiveLink(isManager: bool, pathname: string)
    ensures forall i, j :: 0 <= i < j < |NavLinks(isManager)| ==> NavLinks(isManager)[i].to != NavLinks(isManager)[j].to
    ensures forall i, j ::
              (0 <= i < |NavLinks(isManager)| && 0 <= j < |NavLinks(isManager)| &&
               IsActive(pathname, NavLinks(isManager)[i]) && IsActive(pathname, NavLinks(isManager)[j])) ==> i == j
  {
    var r := NavLinks(isManager);
    var tos := seq(|r|, i requires 0 <= i < |r| => r[i].to);
    if isManager {
      assert tos == ["/", "/inventory", "/sales", "/leads", "/service", "/calendar", "/customers", "/financials", "/team", "/activity"];
    } else {
      assert tos == ["/", "/inventory", "/sales", "/leads", "/service", "/calendar", "/customers", "/activity"];
    }
    assert forall i :: 0 <= i < |r| ==> r[i].to == tos[i];
  }

  datatype Page =
    | DashboardPage | StockInPage | ServicePage | DeskingPage | LeadsPage
    | ActivityPage | CalendarPage | CustomersPage | FinancialsPage | TeamPage

  /** The `<Routes>` table.  It does not depend on the manager flag: the
      Financials and Team pages are reachable by address for any signed-in
      user; only their links are hidden. */
  function RouteFor(path: string): (r: Option<Page>)
    ensures r.Some? <==> path in ["/", "/inventory", "/service", "/sales", "/leads", "/activity", "/calendar", "/customers", "/financials", "/team"]
  {
    match path
    case "/" => Some(DashboardPage)
    case "/inventory" => Some(StockInPage)
    case "/service" => Some(ServicePage)
    case "/sales" => Some(DeskingPage)
    case "/leads" => Some(LeadsPage)
    case "/activity" => Some(ActivityPage)
    case "/calendar" => Some(CalendarPage)
    case "/customers" => Some(CustomersPage)
    case "/financials" => Some(FinancialsPage)
    case "/team" => Some(TeamPage)
    case _ => None
  }

  /** Every link in the sidebar leads to a page, for managers and others
      alike. */
  lemma EveryLinkRouted(isManager: bool)
    ensures forall l :: l in NavLinks(isManager) ==> RouteFor(l.to).Some?
  {
    forall l | l in NavLinks(isManager) ensures RouteFor(l.to).Some? {
      assert l in BaseLinks() || l in ManagerLinks() || l == ActivityLink;
    }
  }
}

/** The navigation bar (components/Sidebar.tsx): which pages each role sees, and
    what following a link does. */
module Sidebar {
  import opened Wrappers
  import opened Seqs
  import opened Types
  import App

  /** The five navigation entries, in declaration order. */
  datatype Page = Dashboard | Projects | MyTasks | DailyLogs | Reporting

  /** The view App's page switch shows for a key, among the entries' pages; `None`
      for the other keys (the team and settings pages, and the default branch). */
  function RoutedPage(key: string): Option<Page>
  {
    if key == "dashboard" then Some(Dashboard)
    else if key == "projects" then Some(Projects)
    else if key == "my-tasks" then Some(MyTasks)
    else if key == "daily-logs" then Some(DailyLogs)
    else if key == "reporting" then Some(Reporting)
    else None
  }

  /** The `page` key an entry sets: the switch shows that entry's page for it. */
  function PageKey(p: Page): (r: string)
    ensures r != []
    ensures RoutedPage(r) == Some(p)
  {
    match p
    case Dashboard => "dashboard"
    case Projects => "projects"
    case MyTasks => "my-tasks"
    case DailyLogs => "daily-logs"
    case Reporting => "reporting"
  }

  /** Different entries set different keys. */
  lemma PageKeyInjective(p: Page, q: Page)
    ensures PageKey(p) == PageKey(q) <==> p == q
  {
    assert RoutedPage(PageKey(p)) == Some(p) && RoutedPage(PageKey(q)) == Some(q);
  }

  function Label(p: Page): string
  {
    match p
    case Dashboard => "Dashboard"
    case Projects => "Projects"
    case MyTasks => "My Tasks"
    case DailyLogs => "Daily Logs"
    case Reporting => "Reporting"
  }

  /** The `roles` list of each entry, as a set: `includes` only asks for membership. */
  function Roles(p: Page): set<UserRole>
  {
    match p
    case Dashboard => {Manager, Member, Executive}
    case Projects => {Manager, Member, Executive}
    case MyTasks => {Manager, Member}
    case DailyLogs => {Manager, Member}
    case Reporting => {Manager, Executive}
  }

  const AllItems: seq<Page> := [Dashboard, Projects, MyTasks, DailyLogs, Reporting]

  function VisibleTo(role: UserRole): Page -> bool
  {
    (p: Page) => role in Roles(p)
  }

  /** `navItems`: the entries whose roles include the user's, in declaration order. */
  function NavItems(role: UserRole): (r: seq<Page>)
    ensures role == Manager ==> r == [Dashboard, Projects, MyTasks, DailyLogs, Reporting]
    ensures role == Member ==> r == [Dashboard, Projects, MyTasks, DailyLogs]
    ensures role == Executive ==> r == [Dashboard, Projects, Reporting]
  {
    Filter(AllItems, VisibleTo(role))
  }

  /** An entry is shown iff the role is among its roles; the order is the declaration
      order. */
  lemma NavItemsExact(role: UserRole, p: Page)
    ensures p in NavItems(role) <==> role in Roles(p)
  {
    FilterMembers(AllItems, VisibleTo(role));
  }

  /** The bar's own state: whether the mobile menu is open. */
  class NavBar {
    var isMobileMenuOpen: bool

    constructor ()
      ensures !isMobileMenuOpen
    {
      isMobileMenuOpen := false;
    }

    method SetMobileMenu(open: bool)
      modifies this
      ensures isMobileMenuOpen == open
    {
      isMobileMenuOpen := open;
    }

    /** `handleNav`: shows the page, clears the selected project, closes the menu. */
    method HandleNav(app: App.AppContent, page: Page)
      modifies this, app
      ensures app.currentPage == PageKey(page) && app.selectedProjectId.None? && !isMobileMenuOpen
      ensures app.users == old(app.users) && app.projects == old(app.projects)
      ensures app.tasks == old(app.tasks) && app.notifications == old(app.notifications)
    {
      app.currentPage := PageKey(page);
      app.selectedProjectId := None;
      isMobileMenuOpen := false;
    }
  }
}

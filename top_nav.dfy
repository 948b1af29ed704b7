/**
 * The top navigation bar's own state: the page title it is given and
 * whether the mobile sidebar is open.
 */
module TopNav {

  datatype NavState = NavState(pageTitle: string, sidebarOpen: bool)

  /** The bar starts with the sidebar closed. */
  function InitialNav(pageTitle: string): (s: NavState)
    ensures s.pageTitle == pageTitle && !s.sidebarOpen
  {
    NavState(pageTitle, false)
  }

  /** `toggleSidebar`: flips whether the sidebar is open and nothing else. */
  function ToggleSidebar(s: NavState): (t: NavState)
    ensures t.sidebarOpen != s.sidebarOpen
    ensures t.pageTitle == s.pageTitle
  {
    s.(sidebarOpen := !s.sidebarOpen)
  }

  /** Toggling twice restores the state. */
  lemma ToggleTwice(s: NavState)
    ensures ToggleSidebar(ToggleSidebar(s)) == s
  {
  }

  /** After `n` toggles from the initial state the sidebar is open exactly when `n` is odd. */
  function Toggles(s: NavState, n: nat): NavState {
    if n == 0 then s else ToggleSidebar(Toggles(s, n - 1))
  }

  lemma {:induction false} OpenAfterOddToggles(pageTitle: string, n: nat)
    ensures Toggles(InitialNav(pageTitle), n).sidebarOpen <==> n % 2 == 1
    ensures Toggles(InitialNav(pageTitle), n).pageTitle == pageTitle
  {
    if n > 0 {
      OpenAfterOddToggles(pageTitle, n - 1);
    }
  }
}

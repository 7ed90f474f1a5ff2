/**
 * The browser's layout store: whether the sidebar is collapsed and whether
 * the user menu is open. Only the sidebar flag is kept across reloads.
 */
module AppStore {
  datatype Layout = Layout(isSidebarCollapsed: bool, isUserMenuOpen: bool)

  const Initial: Layout := Layout(false, false)

  /** `toggleSidebar`'s update. */
  function SidebarToggled(s: Layout): (r: Layout)
    ensures r.isSidebarCollapsed != s.isSidebarCollapsed && r.isUserMenuOpen == s.isUserMenuOpen
  {
    s.(isSidebarCollapsed := !s.isSidebarCollapsed)
  }

  /** `toggleUserMenu`'s update. */
  function MenuToggled(s: Layout): (r: Layout)
    ensures r.isUserMenuOpen != s.isUserMenuOpen && r.isSidebarCollapsed == s.isSidebarCollapsed
  {
    s.(isUserMenuOpen := !s.isUserMenuOpen)
  }

  /** `closeUserMenu`'s effect: the menu is closed afterwards, and nothing else changes. */
  function MenuClosed(s: Layout): (r: Layout)
    ensures !r.isUserMenuOpen && r.isSidebarCollapsed == s.isSidebarCollapsed
    ensures !s.isUserMenuOpen ==> r == s
  {
    if s.isUserMenuOpen then s.(isUserMenuOpen := false) else s
  }

  /** What is stored across reloads (`partialize`). */
  datatype Stored = Stored(isSidebarCollapsed: bool)

  function Persisted(s: Layout): Stored {
    Stored(s.isSidebarCollapsed)
  }

  /** A reload: the stored fields over the initial state. */
  function Rehydrate(p: Stored): Layout {
    Initial.(isSidebarCollapsed := p.isSidebarCollapsed)
  }

  /**
   * The toggles undo themselves, closing is idempotent, the menu actions
   * leave the stored part alone, and a reload keeps the sidebar but closes
   * the menu.
   */
  lemma LayoutLaws(s: Layout, collapsed: bool)
    ensures SidebarToggled(SidebarToggled(s)) == s
    ensures MenuToggled(MenuToggled(s)) == s
    ensures MenuClosed(MenuClosed(s)) == MenuClosed(s)
    ensures Persisted(MenuToggled(s)) == Persisted(s) && Persisted(MenuClosed(s)) == Persisted(s)
    ensures Rehydrate(Persisted(s)) == s.(isUserMenuOpen := false)
  {
  }

  class Store {
    var isSidebarCollapsed: bool
    var isUserMenuOpen: bool

    function State(): Layout
      reads this
    {
      Layout(isSidebarCollapsed, isUserMenuOpen)
    }

    constructor ()
      ensures State() == Initial
    {
      isSidebarCollapsed, isUserMenuOpen := false, false;
    }

    method ToggleSidebar()
      modifies this
      ensures State() == SidebarToggled(old(State()))
    {
      isSidebarCollapsed := !isSidebarCollapsed;
    }

    /** `setSidebarCollapsed(c)`. */
    method SetSidebarCollapsed(c: bool)
      modifies this
      ensures State() == old(State()).(isSidebarCollapsed := c)
    {
      isSidebarCollapsed := c;
    }

    method ToggleUserMenu()
      modifies this
      ensures State() == MenuToggled(old(State()))
    {
      isUserMenuOpen := !isUserMenuOpen;
    }

    /** `closeUserMenu`: writes the store only when the menu is open. */
    method CloseUserMenu() returns (wrote: bool)
      modifies this
      ensures wrote == old(isUserMenuOpen)
      ensures State() == MenuClosed(old(State()))
    {
      wrote := false;
      if isUserMenuOpen {
        isUserMenuOpen := false;
        wrote := true;
      }
    }
  }
}

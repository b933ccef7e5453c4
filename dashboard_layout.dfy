/**
 * The dashboard shell: nothing but a loading screen before it mounts, a
 * redirect home for signed-out visitors, and the sidebar layout otherwise.
 */
module DashboardLayout {
  import opened AuthSlice

  datatype View = LoadingDashboard | Blank | Shell(sidebarOpen: bool)

  class Layout {
    var isMounted: bool
    var sidebarOpen: bool
    var redirects: seq<string>

    constructor()
      ensures !isMounted && !sidebarOpen && redirects == []
    {
      isMounted := false;
      sidebarOpen := false;
      redirects := [];
    }

    /** The mount effect followed by the redirect effect for the current state. */
    method Mount(s: AuthState)
      modifies this
      ensures isMounted && sidebarOpen == old(sidebarOpen)
      ensures redirects == old(redirects) + (if s.isAuthenticated then [] else ["/"])
    {
      isMounted := true;
      Effect(s);
    }

    /** The redirect effect, run whenever the state changes. */
    method Effect(s: AuthState)
      modifies this
      ensures isMounted == old(isMounted) && sidebarOpen == old(sidebarOpen)
      ensures redirects == old(redirects) + (if isMounted && !s.isAuthenticated then ["/"] else [])
    {
      if isMounted && !s.isAuthenticated {
        redirects := redirects + ["/"];
      }
    }

    method OpenSidebar()
      modifies this
      ensures sidebarOpen && isMounted == old(isMounted) && redirects == old(redirects)
    {
      sidebarOpen := true;
    }

    method CloseSidebar()
      modifies this
      ensures !sidebarOpen && isMounted == old(isMounted) && redirects == old(redirects)
    {
      sidebarOpen := false;
    }

    function Render(s: AuthState): (v: View)
      reads this
      ensures v.Shell? <==> isMounted && s.isAuthenticated
      ensures v.Shell? ==> v.sidebarOpen == sidebarOpen
      ensures v == LoadingDashboard <==> !isMounted
    {
      if !isMounted then LoadingDashboard
      else if !s.isAuthenticated then Blank
      else Shell(sidebarOpen)
    }
  }

  /** Signing out while the shell is shown blanks it and sends the visitor home. */
  method SignOutWhileShown(l: Layout, s: AuthState)
    requires l.isMounted && s.isAuthenticated
    modifies l
    ensures l.Render(Reduce(s, Logout)) == Blank
    ensures l.redirects == old(l.redirects) + ["/"]
  {
    LogoutResets(s);
    l.Effect(Reduce(s, Logout));
  }
}

/** Which pages get the site navigation bar and footer. */
module ConditionalLayout {
  import opened Common

  datatype Chrome = Bare | WithNavigation

  /** Paths beginning with "/dashboard" are rendered bare. */
  function ChromeFor(pathname: string): (c: Chrome)
    ensures c == Bare <==> |pathname| >= 10 && pathname[..10] == "/dashboard"
  {
    if IsPrefix("/dashboard", pathname) then Bare else WithNavigation
  }

  /**
   * The test is on the raw prefix, not on a path segment: every path that
   * extends "/dashboard", including ones such as "/dashboards", is bare.
   */
  lemma {:induction false} ExtensionsAreBare(rest: string)
    ensures ChromeFor("/dashboard" + rest) == Bare
  {
    assert ("/dashboard" + rest)[..10] == "/dashboard";
  }
}

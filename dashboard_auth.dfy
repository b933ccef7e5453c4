/**
 * The access guard wrapped around dashboard pages: after a simulated
 * check it either reveals the page or redirects to the home page.
 */
module DashboardAuth {
  import opened Common
  import opened Entities
  import opened AuthSlice

  datatype RequiredRole = AdminRole | CustomerRole | AnyRole

  /** The role name the guard compares with the account's role. */
  function RequiredName(r: RequiredRole): string
  {
    match r
    case AdminRole => "admin"
    case CustomerRole => "customer"
    case AnyRole => "all"
  }

  /**
   * The guard as written: the account's role name must equal the required
   * name unless any role is accepted.
   */
  predicate AdmitsAsWritten(required: RequiredRole, s: AuthState)
  {
    s.isAuthenticated
    && (required == AnyRole || (s.user.Some? && s.user.value.role.Name() == RequiredName(required)))
  }

  /** Accounts carry the role names "user" and "admin", never "customer". */
  lemma CustomerGuardAdmitsNobody(s: AuthState)
    ensures !AdmitsAsWritten(CustomerRole, s)
  {
    if s.user.Some? {
      assert s.user.value.role.Name() in {"user", "admin"};
    }
  }

  /** The guard with `customer` meaning the ordinary account role. */
  predicate Admits(required: RequiredRole, s: AuthState)
  {
    s.isAuthenticated
    && match required
       case AnyRole => true
       case AdminRole => s.user.Some? && s.user.value.role == Admin
       case CustomerRole => s.user.Some? && s.user.value.role == Customer
  }

  /**
   * The corrected guard agrees with the written one for the two roles the
   * written one handles, and admits exactly the ordinary accounts for
   * `customer`.
   */
  lemma {:induction false} AdmitsAgreesExceptCustomer(required: RequiredRole, s: AuthState)
    ensures required != CustomerRole ==> (Admits(required, s) <==> AdmitsAsWritten(required, s))
    ensures Admits(CustomerRole, s) <==> s.isAuthenticated && s.user.Some? && s.user.value.role == Customer
  {
    if required == AdminRole && s.user.Some? {
      assert s.user.value.role.Name() == "admin" <==> s.user.value.role == Admin;
    }
  }

  datatype View = Verifying | Blank | Page

  class Guard {
    const requiredRole: RequiredRole
    var isLoading: bool
    /** Paths pushed onto the router, oldest first. */
    var redirects: seq<string>

    constructor(requiredRole: RequiredRole)
      ensures this.requiredRole == requiredRole && isLoading && redirects == []
    {
      this.requiredRole := requiredRole;
      isLoading := true;
      redirects := [];
    }

    /**
     * The access test that runs once the delay has elapsed, as written: the
     * account's role name is compared with the required name, so a guard
     * requiring "customer" redirects every account.
     */
    method CheckAuth(s: AuthState)
      modifies this
      ensures AdmitsAsWritten(requiredRole, s) ==> !isLoading && redirects == old(redirects)
      ensures !AdmitsAsWritten(requiredRole, s) ==> isLoading == old(isLoading) && redirects == old(redirects) + ["/"]
    {
      if !s.isAuthenticated {
        redirects := redirects + ["/"];
        return;
      }
      if requiredRole != AnyRole && !(s.user.Some? && s.user.value.role.Name() == RequiredName(requiredRole)) {
        redirects := redirects + ["/"];
        return;
      }
      isLoading := false;
    }

    function Render(s: AuthState): (v: View)
      reads this
      ensures v == Page <==> !isLoading && s.isAuthenticated
      ensures v == Verifying <==> isLoading
    {
      if isLoading then Verifying
      else if !s.isAuthenticated then Blank
      else Page
    }
  }

  /**
   * A freshly mounted guard reveals the page after its test exactly when
   * the written test admits the state: for "all" and "admin" that is the
   * intended admission, and for "customer" the page never shows.
   */
  method MountAndCheck(requiredRole: RequiredRole, s: AuthState) returns (v: View)
    ensures v == Page <==> AdmitsAsWritten(requiredRole, s)
    ensures requiredRole != CustomerRole ==> (v == Page <==> Admits(requiredRole, s))
    ensures requiredRole == CustomerRole ==> v == Verifying
    ensures v != Page ==> v == Verifying
  {
    var g := new Guard(requiredRole);
    g.CheckAuth(s);
    v := g.Render(s);
    AdmitsAgreesExceptCustomer(requiredRole, s);
    CustomerGuardAdmitsNobody(s);
  }
}

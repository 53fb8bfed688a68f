/** The guard around the supplier-only pages, and the screens a guard can show. */
module SupplierRoute {
  import opened Wrappers
  import Auth

  /** What a guard renders: the loading spinner, a redirect, the access-denied page, or its page. */
  datatype Screen = Spinner | Redirect(to: string) | AccessDenied | Page

  predicate IsCompany(u: Auth.User) {
    u.role == Some("COMPANY")
  }

  /** `SupplierRoute`: spinner while loading, login for a visitor, the page for a company only. */
  function Guard(user: Option<Auth.User>, loading: bool): (s: Screen)
    ensures loading ==> s == Spinner
    ensures s.Redirect? <==> !loading && user.None?
    ensures s.Redirect? ==> s.to == "/login"
    ensures s == Page <==> !loading && user.Some? && IsCompany(user.value)
    ensures s == AccessDenied <==> !loading && user.Some? && !IsCompany(user.value)
  {
    if loading then Spinner
    else if user.None? then Redirect("/login")
    else if !IsCompany(user.value) then AccessDenied
    else Page
  }
}

/** The route guard (components/layout/ProtectedRoute.jsx): from the session's
    `admin` and `loading` it decides what to render and whether to redirect. */
module ProtectedRoute {
  import opened Js
  import opened Auth

  const LoginRoute: string := "/login"

  /** What the guard renders. */
  datatype View = Spinner | Nothing | Children

  /** The effect: `if (!loading && !admin) router.push('/login')`. The admin object
      is always truthy when present. */
  function Redirect(admin: Option<Admin>, loading: bool): (target: Option<string>)
    ensures target.Some? ==> target.value == LoginRoute
  {
    if !loading && admin.None? then Some(LoginRoute) else None
  }

  /** The render: the spinner while loading, nothing without an admin, else the children. */
  function Render(admin: Option<Admin>, loading: bool): (v: View)
    ensures v == Spinner <==> loading
    ensures v == Nothing <==> !loading && admin.None?
    ensures v == Children <==> !loading && admin.Some?
  {
    if loading then Spinner
    else if admin.None? then Nothing
    else Children
  }

  /** The effect and the render agree: a redirect is issued exactly when nothing is
      rendered; the spinner never redirects; the children show exactly for a loaded
      session with an admin. */
  lemma GuardDecision(admin: Option<Admin>, loading: bool)
    ensures Redirect(admin, loading).Some? <==> Render(admin, loading) == Nothing
    ensures loading ==> Render(admin, loading) == Spinner && Redirect(admin, loading).None?
    ensures !loading && admin.None? ==> Redirect(admin, loading) == Some(LoginRoute)
    ensures Render(admin, loading) == Children <==> !loading && admin.Some?
  {
  }

  /** After `checkAuth` finds a valid stored token, the guard shows the page. */
  lemma ValidTokenShowsChildren(s: Session, decode: string -> Option<Payload>, nowMs: int)
    requires IsTokenValid(Browser.Lookup(s.storage, Api.TokenSlot), decode, nowMs)
    ensures var t := CheckAuthNext(s, false, decode, nowMs);
      Render(t.admin, t.loading) == Children && Redirect(t.admin, t.loading).None?
  {
  }

  /** On a fresh load with a missing, malformed or expired token, the guard sends the
      user to the login page. */
  lemma InvalidTokenRedirects(storage: map<string, string>, decode: string -> Option<Payload>, nowMs: int)
    requires !IsTokenValid(Browser.Lookup(storage, Api.TokenSlot), decode, nowMs)
    ensures var t := CheckAuthNext(Session(storage, None, true), false, decode, nowMs);
      Render(t.admin, t.loading) == Nothing && Redirect(t.admin, t.loading) == Some(LoginRoute)
  {
  }

  /** After logout, once loading has finished, the guard redirects. */
  lemma LogoutRedirects(s: Session)
    requires !s.loading
    ensures var t := LogoutNext(s);
      Redirect(t.admin, t.loading) == Some(LoginRoute) && Render(t.admin, t.loading) == Nothing
  {
  }
}

/**
 * The route guard: while the session or the role is loading it shows a
 * spinner; afterwards its effect sends a visitor without a session to the
 * sign-in page and a user whose known role is not allowed to the home page,
 * and it renders the protected page only for everyone else.
 */
module ProtectedRoute {
  import opened Wrappers
  import opened Roles

  /** What the guard renders. */
  datatype View = Spinner | Blank | Page

  /** `allowedRoles && role && !allowedRoles.includes(role)`: a known role outside a given list. */
  predicate Refused(role: Option<AppRole>, allowedRoles: Option<seq<AppRole>>)
  {
    allowedRoles.Some? && role.Some? && role.value !in allowedRoles.value
  }

  /** The effect: the path it navigates to, if any. */
  function Navigation(
    authLoading: bool, roleLoading: bool, signedIn: bool,
    role: Option<AppRole>, allowedRoles: Option<seq<AppRole>>): (path: Option<string>)
    ensures path.Some? ==> !authLoading && !roleLoading
    ensures path == Some("/auth") <==> !authLoading && !roleLoading && !signedIn
    ensures path == Some("/") <==> !authLoading && !roleLoading && signedIn && Refused(role, allowedRoles)
    ensures path.Some? ==> path.value in {"/auth", "/"}
  {
    if authLoading || roleLoading then None
    else if !signedIn then Some("/auth")
    else if Refused(role, allowedRoles) then Some("/")
    else None
  }

  /** The render: a spinner while loading, nothing for a refused visitor, else the page. */
  function Render(
    authLoading: bool, roleLoading: bool, signedIn: bool,
    role: Option<AppRole>, allowedRoles: Option<seq<AppRole>>): (view: View)
    ensures view == Spinner <==> authLoading || roleLoading
    ensures view == Page <==>
      !authLoading && !roleLoading && signedIn && (role.None? || allowedRoles.None? || role.value in allowedRoles.value)
  {
    if authLoading || roleLoading then Spinner
    else if !signedIn || Refused(role, allowedRoles) then Blank
    else Page
  }

  /**
   * The effect and the render agree: the guard renders nothing exactly when
   * it navigates away, and never navigates while it shows the page or the
   * spinner.
   */
  lemma RenderMatchesNavigation(
    authLoading: bool, roleLoading: bool, signedIn: bool,
    role: Option<AppRole>, allowedRoles: Option<seq<AppRole>>)
    ensures Render(authLoading, roleLoading, signedIn, role, allowedRoles) == Blank
        <==> Navigation(authLoading, roleLoading, signedIn, role, allowedRoles).Some?
  {
  }

  /**
   * A signed-in user whose role is unknown, or a page that names no roles,
   * is admitted; an allowed role is admitted; a listed empty array admits no
   * known role.
   */
  lemma Admission(role: Option<AppRole>, allowedRoles: Option<seq<AppRole>>)
    ensures role.None? ==> Render(false, false, true, role, allowedRoles) == Page
    ensures allowedRoles.None? ==> Render(false, false, true, role, allowedRoles) == Page
    ensures role.Some? && allowedRoles == Some([]) ==> Render(false, false, true, role, allowedRoles) == Blank
    ensures Render(false, false, false, role, allowedRoles) == Blank
  {
  }
}

/**
 * The guard around the application's pages: a spinner while the session loads, then the page,
 * a redirection to the login page, or a redirection to the home page of the user's role when
 * the page is reserved to other roles.
 */
module ProtectedRoute {
  import opened Wrappers

  datatype Role = Candidat | AssistantRole | Recruteur | Admin

  /** What the guard renders. */
  datatype View = Spinner | Children | Redirect(path: string)

  /** The home page of each role. */
  function RoleHome(r: Role): (path: string)
    ensures |path| >= 4 && path[..4] == "/app"
  {
    match r
    case Candidat => "/app"
    case AssistantRole => "/app/assistant"
    case Recruteur => "/app/recruteur"
    case Admin => "/app/admin"
  }

  /** The four roles have four different home pages, none of them the login page. */
  lemma RoleHomesDistinct(r: Role, s: Role)
    ensures RoleHome(r) == RoleHome(s) ==> r == s
    ensures RoleHome(r) != "/auth"
  {
  }

  /**
   * The guard's decision. `allowedRoles` is absent when the page names no roles; `hasUser` and
   * `role` describe the session. An empty list of roles is still a list, so it rejects every
   * role.
   */
  function Decide(isLoading: bool, requireAuth: bool, hasUser: bool, role: Option<Role>,
                  allowedRoles: Option<seq<Role>>): (v: View)
    ensures isLoading ==> v == Spinner
    ensures !isLoading && !requireAuth ==> v == Children
    ensures !isLoading && requireAuth && !hasUser ==> v == Redirect("/auth")
    ensures v.Redirect? && v.path != "/auth" ==>
      && hasUser && role.Some? && allowedRoles.Some? && role.value !in allowedRoles.value
      && v.path == RoleHome(role.value)
  {
    if isLoading then Spinner
    else if !requireAuth then Children
    else if !hasUser then Redirect("/auth")
    else if allowedRoles.Some? && role.Some? && role.value !in allowedRoles.value then
      Redirect(RoleHome(role.value))
    else Children
  }

  /**
   * Once loaded, a signed-in user sees the page exactly when no roles are named, no role is
   * known, or their role is named; otherwise they are sent to their role's home.
   */
  lemma SignedInSeesPage(requireAuth: bool, role: Option<Role>, allowedRoles: Option<seq<Role>>)
    ensures var v := Decide(false, requireAuth, true, role, allowedRoles);
      && (v == Children <==>
            !requireAuth || allowedRoles.None? || role.None? || role.value in allowedRoles.value)
      && (v != Children ==> v == Redirect(RoleHome(role.value)))
  {
  }

  /** A page naming no role turns away every signed-in user whose role is known. */
  lemma EmptyRolesRedirect(r: Role)
    ensures Decide(false, true, true, Some(r), Some([])) == Redirect(RoleHome(r))
  {
  }
}

/** The route guard (src/components/auth/ProtectedRoute.tsx): from the session's
    user, its loading flag and an optional list of allowed roles it decides what to
    render and where, if anywhere, its effect navigates. */
module Guard {
  import opened Types

  datatype Screen = LoadingScreen | Nothing | Children

  /** `allowedRoles && !allowedRoles.includes(user.role)`: an absent list admits
      everyone, a present one (even empty) only its members. */
  predicate Denied(u: User, allowedRoles: Option<seq<Role>>) {
    allowedRoles.Some? && u.role !in allowedRoles.value
  }

  /** The effect's navigation, if any. */
  function Redirect(user: Option<User>, loading: bool, allowedRoles: Option<seq<Role>>): (r: Option<string>)
    ensures loading ==> r.None?
    ensures r == Some("/login") <==> !loading && user.None?
    ensures r == Some("/") <==> !loading && user.Some? && Denied(user.value, allowedRoles)
  {
    if loading then None
    else if user.None? then Some("/login")
    else if Denied(user.value, allowedRoles) then Some("/")
    else None
  }

  /** What the guard renders. */
  function View(user: Option<User>, loading: bool, allowedRoles: Option<seq<Role>>): (s: Screen)
    ensures s == LoadingScreen <==> loading
  {
    if loading then LoadingScreen
    else if user.None? || Denied(user.value, allowedRoles) then Nothing
    else Children
  }

  /** The children render exactly when loading is over, someone is signed in and the
      role is admitted; in exactly that case no redirect fires. */
  lemma ChildrenIff(user: Option<User>, loading: bool, allowedRoles: Option<seq<Role>>)
    ensures View(user, loading, allowedRoles) == Children <==>
      !loading && user.Some? && (allowedRoles.None? || user.value.role in allowedRoles.value)
    ensures View(user, loading, allowedRoles) == Children <==>
      !loading && Redirect(user, loading, allowedRoles).None?
  {
  }

  /** Whenever the guard renders nothing, its effect navigates away. */
  lemma NothingRedirects(user: Option<User>, loading: bool, allowedRoles: Option<seq<Role>>)
    requires View(user, loading, allowedRoles) == Nothing
    ensures Redirect(user, loading, allowedRoles).Some?
  {
  }

  /** Without a role list every signed-in user gets through. */
  lemma NoRoleListAdmitsAll(u: User)
    ensures View(Some(u), false, None) == Children && Redirect(Some(u), false, None).None?
  {
  }

  /** An empty role list is truthy in the source's test, so it turns everyone away. */
  lemma EmptyRoleListDeniesAll(u: User)
    ensures View(Some(u), false, Some([])) == Nothing && Redirect(Some(u), false, Some([])) == Some("/")
  {
  }
}

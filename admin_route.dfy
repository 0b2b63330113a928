/**
 * `AdminProtectedRoute` of `components/auth/admin-protected-route.tsx`: what the guard
 * renders, and where its effect redirects, for the auth hook's `loading`, `user` and
 * `isAdmin`.
 */
module AdminRoute {
  import opened Wrappers

  /** What the guard renders. */
  datatype Shown = LoadingView | Nothing | Children

  /** The effect's `router.push` target, if any. */
  function Redirect(loading: bool, hasUser: bool, isAdmin: bool): (r: Option<string>)
    ensures loading ==> r.None?
    ensures !loading && !hasUser ==> r == Some("/auth")
    ensures !loading && hasUser && !isAdmin ==> r == Some("/")
    ensures r.None? <==> loading || (hasUser && isAdmin)
  {
    if loading then None
    else if !hasUser then Some("/auth")
    else if !isAdmin then Some("/")
    else None
  }

  /** What is rendered. */
  function Render(loading: bool, hasUser: bool, isAdmin: bool): (s: Shown)
    ensures s == LoadingView <==> loading
    ensures s == Children <==> !loading && hasUser && isAdmin
  {
    if loading then LoadingView
    else if !hasUser || !isAdmin then Nothing
    else Children
  }

  /** The children are shown exactly when the guard does not redirect and is not
      loading; whenever it renders nothing it is redirecting. */
  lemma RenderAgreesWithRedirect(loading: bool, hasUser: bool, isAdmin: bool)
    ensures Render(loading, hasUser, isAdmin) == Children <==> !loading && Redirect(loading, hasUser, isAdmin).None?
    ensures Render(loading, hasUser, isAdmin) == Nothing <==> Redirect(loading, hasUser, isAdmin).Some?
  {
  }
}

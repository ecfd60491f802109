/** The redirect rule of the mobile app's root layout (android/app/_layout.tsx),
    run whenever the user, the route segments or the loading flag change. */
module Navigation {
  import opened Wrappers
  import opened Auth

  const AuthGroup := "(auth)"
  const AdminGroup := "admin"
  const TabsRoute := "/(tabs)"

  /** The route the layout replaces the current one with, if any, given the
      first route segment (`None` when there is no segment). */
  function Redirect(isLoading: bool, user: Option<User>, firstSegment: Option<string>): (target: Option<string>)
    ensures isLoading ==> target.None?
    ensures user.None? ==> target.None?
    ensures target.Some? ==> target.value == TabsRoute
    ensures !isLoading && user.Some? && firstSegment == Some(AuthGroup) ==> target == Some(TabsRoute)
    ensures !isLoading && user.Some? && !user.value.isAdmin && firstSegment == Some(AdminGroup) ==> target == Some(TabsRoute)
    ensures user.Some? && user.value.isAdmin && firstSegment == Some(AdminGroup) ==> target.None?
    ensures firstSegment != Some(AuthGroup) && firstSegment != Some(AdminGroup) ==> target.None?
  {
    if isLoading then None
    else
      var inAuthGroup := firstSegment == Some(AuthGroup);
      var inAdminGroup := firstSegment == Some(AdminGroup);
      if user.None? && !inAuthGroup then
        // the redirect to the login screen is disabled in the source
        None
      else if user.Some? && inAuthGroup then Some(TabsRoute)
      else if user.Some? && inAdminGroup && !user.value.isAdmin then Some(TabsRoute)
      else None
  }
}

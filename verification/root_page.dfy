/** The landing route `/` (src/app/page.tsx): it only redirects. */
module RootPage {
  import opened Wrappers
  import opened Store
  import opened Routes
  import AuthPage

  function RootRedirect(user: Option<User>): (r: Route)
    ensures user.None? <==> r == AuthRoute
    ensures user.Some? && user.value.role == Canteen ==> r == CanteenDashboardRoute
    ensures user.Some? && user.value.role == Customer ==> r == HomeRoute
  {
    match user
    case None => AuthRoute
    case Some(u) => if u.role == Canteen then CanteenDashboardRoute else HomeRoute
  }

  /** Whichever form was used, reloading `/` afterwards lands where the form
      itself navigated. */
  lemma RootAgreesWithAuthForms(st: AppState, name: string, email: string, password: string, role: Role)
    ensures var o := AuthPage.SignIn(st, email, password, role);
      RootRedirect(o.state.user) == o.destination
    ensures var o := AuthPage.SignUp(st, name, email, password, role);
      RootRedirect(o.state.user) == o.destination
  {
  }

  /** For every signed-in user the root redirect is the post-sign-in
      destination of that user's role. */
  lemma RootMatchesDestination(u: User)
    ensures RootRedirect(Some(u)) == AuthPage.Destination(u.role)
  {
  }
}

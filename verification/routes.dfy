/** Navigation targets. `router.push(path)` becomes a returned `Route`. */
module Routes {
  import opened Wrappers
  import opened Store

  datatype Route = AuthRoute | HomeRoute | CanteenDashboardRoute | CartRoute | CheckoutRoute | OrdersRoute

  /** The new state a handler leaves behind and the `router.push` target it
      then calls. */
  datatype Outcome = Outcome(state: AppState, destination: Route)

  /** The guard of the home, cart and orders views: with nobody signed in
      the view renders nothing and sends the visitor to the sign-in page. */
  function SignedInGuard(user: Option<User>): (redirect: Option<Route>)
    ensures redirect.None? <==> user.Some?
    ensures redirect.Some? ==> redirect.value == AuthRoute
  {
    if user.None? then Some(AuthRoute) else None
  }
}

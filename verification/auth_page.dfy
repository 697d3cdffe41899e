/** The sign-in / sign-up form (src/app/auth/page.tsx). No credential is
    checked: the form turns what was typed into a user and a destination. */
module AuthPage {
  import opened Wrappers
  import opened Store
  import opened Routes

  /** The role radio group starts on "customer". */
  const DefaultRole: Role := Customer

  /** `email.split('@')[0]`: everything before the first '@', or the whole
      string when it has none. */
  function SignInName(email: string): (name: string)
    ensures '@' !in name
    ensures name <= email
    ensures '@' in email ==> |name| < |email| && email[|name|] == '@'
    ensures '@' !in email ==> name == email
  {
    if |email| == 0 || email[0] == '@' then ""
    else [email[0]] + SignInName(email[1..])
  }

  /** Where a freshly signed-in user goes. */
  function Destination(role: Role): (r: Route)
    ensures r == CanteenDashboardRoute <==> role == Canteen
    ensures r == HomeRoute <==> role == Customer
  {
    match role
    case Canteen => CanteenDashboardRoute
    case Customer => HomeRoute
  }

  /** `handleSignIn`: the name is derived from the e-mail; the password is
      read by nobody. Cart and ledger are kept as they are. */
  function SignIn(st: AppState, email: string, password: string, role: Role): (r: Outcome)
    ensures r.state.user == Some(User(SignInName(email), role))
    ensures r.destination == Destination(role)
    ensures r.state.cart == st.cart && r.state.orders == st.orders
  {
    Outcome(SetUser(st, Some(User(SignInName(email), role))), Destination(role))
  }

  /** `handleSignUp`: the typed name is used verbatim; e-mail and password
      are ignored. */
  function SignUp(st: AppState, name: string, email: string, password: string, role: Role): (r: Outcome)
    ensures r.state.user == Some(User(name, role))
    ensures r.destination == Destination(role)
    ensures r.state.cart == st.cart && r.state.orders == st.orders
  {
    Outcome(SetUser(st, Some(User(name, role))), Destination(role))
  }

  /** The password never influences the result of either form. */
  lemma PasswordIsIgnored(st: AppState, name: string, email: string, p1: string, p2: string, role: Role)
    ensures SignIn(st, email, p1, role) == SignIn(st, email, p2, role)
    ensures SignUp(st, name, email, p1, role) == SignUp(st, name, email, p2, role)
  {
  }

  /** Submitting either form without touching the role radio group signs in
      a customer and goes to the menu. */
  lemma DefaultRoleGoesHome(st: AppState, name: string, email: string, password: string)
    ensures SignIn(st, email, password, DefaultRole).state.user.value.role == Customer
    ensures SignIn(st, email, password, DefaultRole).destination == HomeRoute
    ensures SignUp(st, name, email, password, DefaultRole).destination == HomeRoute
  {
  }
}

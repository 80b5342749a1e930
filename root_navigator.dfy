/** The root route guard (navigation/RootNavigator.tsx): which routes the
    root stack registers for a given (loading, onboarding seen, user) state,
    and the mount effect that ends loading. */
module RootNavigator {
  import opened Wrappers
  import opened Routes
  import opened AuthStore

  /** What the root renders: the splash screen alone, or a stack whose first
      route is the initial one. */
  datatype RootView = SplashScreen | Stack(routes: seq<Route>)

  /** The routes both signed-out and signed-in stacks register after their first entries. */
  const SharedRoutes: seq<Route> :=
    [ProductDetails, Reviews, CategoryDetails, Cart, Checkout, MyOrders, Settings, TopPicks, Search]

  /** The stacks as written. */
  const GuestRoutes: seq<Route> := [Login, Signup, ForgotPassword, MainTabs] + SharedRoutes
  const MemberRoutes: seq<Route> := [MainTabs] + SharedRoutes

  predicate Registers(view: RootView, route: Route) {
    view.Stack? && route in view.routes
  }

  /** The guard as written: loading shows the splash; then onboarding; then
      the signed-out stack; then the signed-in one. */
  function RootRoutes(isLoading: bool, hasSeenOnboarding: bool, user: Option<User>): (view: RootView)
    ensures view == SplashScreen <==> isLoading
    ensures !isLoading && !hasSeenOnboarding ==> view == Stack([Onboarding])
    ensures !isLoading && hasSeenOnboarding && user.None? ==>
      && view.Stack? && |view.routes| > 0 && view.routes[0] == Login
      && forall r :: r in [Signup, ForgotPassword, MainTabs, Cart, Checkout] ==> Registers(view, r)
    ensures !isLoading && hasSeenOnboarding && user.Some? ==>
      && view.Stack? && |view.routes| > 0 && view.routes[0] == MainTabs
      && forall r :: r in [Login, Signup, ForgotPassword, Onboarding] ==> !Registers(view, r)
  {
    if isLoading then SplashScreen
    else if !hasSeenOnboarding then Stack([Onboarding])
    else if user.None? then Stack(GuestRoutes)
    else Stack(MemberRoutes)
  }

  /** The checkout screen ends by navigating to `OrderSuccess`, but no state
      of the guard registers that route, even where `Checkout` itself is
      registered: the order is placed and the cart emptied, and the
      navigation that follows has no screen to land on. */
  lemma OrderSuccessNeverRegistered(isLoading: bool, hasSeenOnboarding: bool, user: Option<User>)
    ensures !Registers(RootRoutes(isLoading, hasSeenOnboarding, user), OrderSuccess)
    ensures !isLoading && hasSeenOnboarding ==> Registers(RootRoutes(isLoading, hasSeenOnboarding, user), Checkout)
  {
  }

  /** The guard with the order-success screen registered next to checkout in
      both stacks; every property of the guard as written still holds. */
  function CorrectedRootRoutes(isLoading: bool, hasSeenOnboarding: bool, user: Option<User>): (view: RootView)
    ensures view == SplashScreen <==> isLoading
    ensures !isLoading && !hasSeenOnboarding ==> view == Stack([Onboarding])
    ensures !isLoading && hasSeenOnboarding && user.None? ==>
      && view.Stack? && |view.routes| > 0 && view.routes[0] == Login
      && forall r :: r in [Signup, ForgotPassword, MainTabs, Cart, Checkout] ==> Registers(view, r)
    ensures !isLoading && hasSeenOnboarding && user.Some? ==>
      && view.Stack? && |view.routes| > 0 && view.routes[0] == MainTabs
      && forall r :: r in [Login, Signup, ForgotPassword, Onboarding] ==> !Registers(view, r)
  {
    match RootRoutes(isLoading, hasSeenOnboarding, user)
    case SplashScreen => SplashScreen
    case Stack(routes) => if Checkout in routes then Stack(routes + [OrderSuccess]) else Stack(routes)
  }

  /** In the corrected guard, wherever checkout can be reached its
      confirmation can be too, and nothing else changes. */
  lemma CheckoutAlwaysLands(isLoading: bool, hasSeenOnboarding: bool, user: Option<User>, route: Route)
    ensures Registers(CorrectedRootRoutes(isLoading, hasSeenOnboarding, user), Checkout) ==>
      Registers(CorrectedRootRoutes(isLoading, hasSeenOnboarding, user), OrderSuccess)
    ensures route != OrderSuccess ==>
      (Registers(CorrectedRootRoutes(isLoading, hasSeenOnboarding, user), route)
       <==> Registers(RootRoutes(isLoading, hasSeenOnboarding, user), route))
  {
  }

  /** The mount effect: after the delay, if loading was on when the screen
      mounted, loading is switched off. The flag read is the one captured at
      mount. Nothing but `isLoading` changes, and only from on to off. */
  method MountEffect(auth: AuthStore, isLoadingAtMount: bool)
    modifies auth
    ensures isLoadingAtMount ==> auth.State() == old(auth.State()).(isLoading := false)
    ensures !isLoadingAtMount ==> auth.State() == old(auth.State())
    ensures auth.isLoading ==> old(auth.isLoading)
  {
    if isLoadingAtMount {
      auth.isLoading := false;
    }
  }
}

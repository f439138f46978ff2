/** The navigators: the root stack shows the Main flow or the Auth flow
    depending only on whether the session is authenticated. */
module AppNavigation {
  import opened Types
  import AuthContext

  /** Screens the root stack can register. */
  datatype RootRoute = Main | Auth

  /** Screens of the Auth stack. */
  datatype AuthRoute = Login | Signup | OTPVerification

  /** Screens of the Main drawer. */
  datatype DrawerRoute = Home

  /** The components wrapped around the root navigator, outermost first. */
  datatype Layer = ErrorBoundaryLayer | AuthProviderLayer | OverlayProviderLayer | RootNavigatorLayer

  /** The screens `RootNavigator` registers. Exactly one screen: Main when
      authenticated, Auth otherwise, so the dashboard and the login flow are
      never both reachable. */
  function RootScreens(isAuthenticated: bool): (screens: seq<RootRoute>)
    ensures |screens| == 1
    ensures Main in screens <==> isAuthenticated
    ensures Auth in screens <==> !isAuthenticated
  {
    if isAuthenticated then [Main] else [Auth]
  }

  /** The Auth stack's screens, in declaration order. */
  const AuthStackScreens: seq<AuthRoute> := [Login, Signup, OTPVerification]

  /** The Auth stack's entry screen. */
  const AuthStackInitialRoute: AuthRoute := Login

  /** The Main drawer's screens. */
  const MainDrawerScreens: seq<DrawerRoute> := [Home]

  /** `AppNavigation`'s nesting of providers. */
  const ProviderNesting: seq<Layer> := [ErrorBoundaryLayer, AuthProviderLayer, OverlayProviderLayer, RootNavigatorLayer]

  /** The Auth stack starts at Login and registers each of its three screens once. */
  lemma AuthStackShape()
    ensures AuthStackInitialRoute == AuthStackScreens[0]
    ensures forall r: AuthRoute :: r in AuthStackScreens
    ensures |AuthStackScreens| == 3
    ensures forall i, j :: 0 <= i < j < |AuthStackScreens| ==> AuthStackScreens[i] != AuthStackScreens[j]
  {
    forall r: AuthRoute ensures r in AuthStackScreens {
      match r
      case Login => assert AuthStackScreens[0] == r;
      case Signup => assert AuthStackScreens[1] == r;
      case OTPVerification => assert AuthStackScreens[2] == r;
    }
  }

  /** The Main drawer registers the dashboard as Home, and nothing else. */
  lemma MainDrawerShape()
    ensures |MainDrawerScreens| == 1
    ensures forall r: DrawerRoute :: r in MainDrawerScreens
  {
    forall r: DrawerRoute ensures r in MainDrawerScreens {
      match r
      case Home => assert MainDrawerScreens[0] == r;
    }
  }

  /** The error boundary is outermost, the session store encloses the overlay
      store, and the route choice is innermost, so it can read both. */
  lemma ProvidersNest()
    ensures ProviderNesting[0] == ErrorBoundaryLayer
    ensures ProviderNesting[1] == AuthProviderLayer && ProviderNesting[2] == OverlayProviderLayer
    ensures ProviderNesting[|ProviderNesting| - 1] == RootNavigatorLayer
    ensures forall i, j :: 0 <= i < j < |ProviderNesting| ==> ProviderNesting[i] != ProviderNesting[j]
  {
  }

  /** In every session state the store can reach, the dashboard is shown
      exactly when a user is signed in, and the login flow exactly when none is. */
  lemma {:induction false} RouteFollowsSession(actions: seq<AuthContext.AuthAction>)
    ensures var s := AuthContext.Run(AuthContext.InitialState, actions);
      (Main in RootScreens(s.isAuthenticated) <==> s.user.Some?) &&
      (Auth in RootScreens(s.isAuthenticated) <==> s.user.None?)
  {
    AuthContext.ReachableConsistent(actions);
  }
}

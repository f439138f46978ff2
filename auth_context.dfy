/** The session store: a reducer over four actions, and the store that feeds
    it the action sequences of `login`, `signup`, `verifyOTP` and `logout`.
    The simulated network delay between two dispatches is abstracted away. */
module AuthContext {
  import opened Types

  datatype AuthAction = AuthStart | AuthSuccess(payload: User) | AuthFailure | Logout

  /** Signed out, not loading. */
  const InitialState := AuthState(None, false, false)

  /** The only code the mock verification accepts. */
  const MockOtp := "123456"

  /** The user a successful OTP verification signs in. */
  const VerifiedUser := User("1", "newuser", "newuser@example.com")

  /** The settled signed-in state for `u`. */
  function SignedInAs(u: User): AuthState {
    AuthState(Some(u), true, false)
  }

  /** The session invariant: a user is present exactly when authenticated. */
  predicate Consistent(s: AuthState) {
    s.user.Some? <==> s.isAuthenticated
  }

  /** The reducer. Only a start leaves the store loading; a start keeps the
      session as it was; every other action settles it, signed in with the
      payload on success and signed out otherwise. */
  function Reduce(state: AuthState, action: AuthAction): (r: AuthState)
    ensures r.isLoading <==> action.AuthStart?
    ensures action.AuthStart? ==> r.user == state.user && r.isAuthenticated == state.isAuthenticated
    ensures !action.AuthStart? ==> (r.isAuthenticated <==> action.AuthSuccess?)
    ensures action.AuthSuccess? ==> r.user == Some(action.payload)
    ensures action.AuthFailure? || action.Logout? ==> r.user == None
    ensures Consistent(state) ==> Consistent(r)
  {
    match action
    case AuthStart => state.(isLoading := true)
    case AuthSuccess(u) => state.(user := Some(u), isAuthenticated := true, isLoading := false)
    case AuthFailure => state.(user := None, isAuthenticated := false, isLoading := false)
    case Logout => state.(user := None, isAuthenticated := false, isLoading := false)
  }

  /** The state after dispatching `actions` in order, starting from `s`. */
  function Run(s: AuthState, actions: seq<AuthAction>): AuthState
    decreases |actions|
  {
    if actions == [] then s else Run(Reduce(s, actions[0]), actions[1..])
  }

  /** Dispatching two actions is applying the reducer twice. */
  lemma RunPair(s: AuthState, a: AuthAction, b: AuthAction)
    ensures Run(s, [a, b]) == Reduce(Reduce(s, a), b)
  {
    assert [a, b][1..] == [b];
    assert [b][1..] == [];
    assert Run(s, [a, b]) == Run(Reduce(s, a), [b]);
    assert Run(Reduce(s, a), [b]) == Run(Reduce(Reduce(s, a), b), []);
  }

  /** Dispatching two batches one after the other is dispatching their concatenation. */
  lemma {:induction false} RunAppend(s: AuthState, a: seq<AuthAction>, b: seq<AuthAction>)
    ensures Run(s, a + b) == Run(Run(s, a), b)
    decreases |a|
  {
    if a == [] {
      assert a + b == b;
    } else {
      assert (a + b)[0] == a[0];
      assert (a + b)[1..] == a[1..] + b;
      RunAppend(Reduce(s, a[0]), a[1..], b);
    }
  }

  /** Every action sequence keeps the session invariant. */
  lemma {:induction false} RunKeepsConsistent(s: AuthState, actions: seq<AuthAction>)
    requires Consistent(s)
    ensures Consistent(Run(s, actions))
    decreases |actions|
  {
    if actions != [] {
      RunKeepsConsistent(Reduce(s, actions[0]), actions[1..]);
    }
  }

  /** Every state reachable from the initial state has a user exactly when it
      is authenticated. */
  lemma ReachableConsistent(actions: seq<AuthAction>)
    ensures Consistent(Run(InitialState, actions))
  {
    RunKeepsConsistent(InitialState, actions);
  }

  /** Failure and logout forget everything: from any state both give the initial state. */
  lemma FailureAndLogoutReset(s: AuthState, t: AuthState)
    ensures Reduce(s, AuthFailure) == Reduce(t, Logout) == InitialState
  {
  }

  /** Logging out twice is logging out once. */
  lemma LogoutIdempotent(s: AuthState)
    ensures Reduce(Reduce(s, Logout), Logout) == Reduce(s, Logout)
  {
  }

  /** The mock user `login` signs in: id "1", the identifier as username, and an
      email address that is the identifier itself when it contains '@' and the
      identifier at example.com otherwise. Either way the email contains '@' and
      begins with the identifier. */
  function LoginUser(credentials: LoginFormData): (u: User)
    ensures u.id == "1" && u.username == credentials.usernameOrEmail
    ensures '@' in credentials.usernameOrEmail ==> u.email == credentials.usernameOrEmail
    ensures '@' !in credentials.usernameOrEmail ==> u.email == credentials.usernameOrEmail + "@example.com"
    ensures '@' in u.email
    ensures |credentials.usernameOrEmail| <= |u.email| && u.email[..|credentials.usernameOrEmail|] == credentials.usernameOrEmail
  {
    var id := credentials.usernameOrEmail;
    var email := if '@' in id then id else id + "@example.com";
    assert '@' !in id ==> email[|id|] == '@';
    User("1", id, email)
  }

  /** What `login` dispatches: a start, which puts any state into loading,
      then success with the mock user, which settles it signed in. */
  function LoginActions(credentials: LoginFormData): (actions: seq<AuthAction>)
    ensures |actions| == 2
    ensures forall s :: Reduce(s, actions[0]).isLoading
    ensures forall s :: Reduce(Reduce(s, actions[0]), actions[1]) == SignedInAs(LoginUser(credentials))
  {
    [AuthStart, AuthSuccess(LoginUser(credentials))]
  }

  /** What `signup` dispatches: a start, which puts any state into loading,
      then failure, which settles it signed out, so that the session stays
      signed out until the OTP is verified. */
  function SignupActions(): (actions: seq<AuthAction>)
    ensures |actions| == 2
    ensures forall s :: Reduce(s, actions[0]).isLoading
    ensures forall s :: Reduce(Reduce(s, actions[0]), actions[1]) == InitialState
  {
    [AuthStart, AuthFailure]
  }

  /** What `verifyOTP` dispatches: a start, which puts any state into
      loading, then a settlement: signed in as the verified user when the code
      is the mock code, signed out otherwise. */
  function VerifyOtpActions(otp: string): (actions: seq<AuthAction>)
    ensures |actions| == 2
    ensures forall s :: Reduce(s, actions[0]).isLoading
    ensures forall s :: Reduce(Reduce(s, actions[0]), actions[1]) == if otp == MockOtp then SignedInAs(VerifiedUser) else InitialState
  {
    [AuthStart, if otp == MockOtp then AuthSuccess(VerifiedUser) else AuthFailure]
  }

  /** From any state, `login` ends signed in as its mock user. */
  lemma LoginSignsIn(s: AuthState, credentials: LoginFormData)
    ensures Run(s, LoginActions(credentials)) == SignedInAs(LoginUser(credentials))
  {
    RunPair(s, AuthStart, AuthSuccess(LoginUser(credentials)));
  }

  /** From any state, `signup` ends signed out, not loading and without a user. */
  lemma SignupStaysSignedOut(s: AuthState)
    ensures Run(s, SignupActions()) == InitialState
  {
    RunPair(s, AuthStart, AuthFailure);
  }

  /** From any state, `verifyOTP` ends authenticated exactly when the code is the
      mock code, as the verified user, and signed out with no user otherwise. */
  lemma VerifyOtpOutcome(s: AuthState, otp: string)
    ensures Run(s, VerifyOtpActions(otp)).isAuthenticated <==> otp == MockOtp
    ensures Run(s, VerifyOtpActions(otp)) == if otp == MockOtp then SignedInAs(VerifiedUser) else InitialState
  {
    RunPair(s, AuthStart, VerifyOtpActions(otp)[1]);
  }

  /** The provider's store: the current state and, as a ghost, every action
      dispatched into it since it was created. */
  class AuthStore {
    var state: AuthState
    ghost var dispatched: seq<AuthAction>

    ghost predicate Valid()
      reads this
    {
      state == Run(InitialState, dispatched) && Consistent(state)
    }

    constructor ()
      ensures Valid() && state == InitialState && dispatched == []
    {
      state := InitialState;
      dispatched := [];
    }

    /** `dispatch(action)`: the reducer's result becomes the state. */
    method Dispatch(action: AuthAction)
      requires Valid()
      modifies this
      ensures Valid()
      ensures state == Reduce(old(state), action)
      ensures dispatched == old(dispatched) + [action]
    {
      RunAppend(InitialState, dispatched, [action]);
      state := Reduce(state, action);
      dispatched := dispatched + [action];
    }

    /** `login`: always succeeds and signs in the mock user built from the identifier. */
    method Login(credentials: LoginFormData) returns (ok: bool)
      requires Valid()
      modifies this
      ensures Valid() && ok
      ensures dispatched == old(dispatched) + LoginActions(credentials)
      ensures state == SignedInAs(LoginUser(credentials))
    {
      Dispatch(AuthStart);
      Dispatch(AuthSuccess(LoginUser(credentials)));
      ok := true;
    }

    /** `signup`: reports success but leaves the session signed out. */
    method Signup(userData: SignupFormData) returns (ok: bool)
      requires Valid()
      modifies this
      ensures Valid() && ok
      ensures dispatched == old(dispatched) + SignupActions()
      ensures state == InitialState
    {
      Dispatch(AuthStart);
      Dispatch(AuthFailure);
      ok := true;
    }

    /** `verifyOTP`: succeeds exactly for the mock code. */
    method VerifyOtp(otp: string) returns (ok: bool)
      requires Valid()
      modifies this
      ensures Valid()
      ensures ok <==> otp == MockOtp
      ensures dispatched == old(dispatched) + VerifyOtpActions(otp)
      ensures state == if ok then SignedInAs(VerifiedUser) else InitialState
    {
      Dispatch(AuthStart);
      if otp == MockOtp {
        Dispatch(AuthSuccess(VerifiedUser));
        ok := true;
      } else {
        Dispatch(AuthFailure);
        ok := false;
      }
    }

    /** `logout`: signs out at once, from any state. */
    method Logout()
      requires Valid()
      modifies this
      ensures Valid()
      ensures dispatched == old(dispatched) + [AuthAction.Logout]
      ensures state == InitialState
    {
      Dispatch(AuthAction.Logout);
    }
  }
}

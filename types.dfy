/** Shared records of the application: the session user, the session state,
    the login form, a game world and the floating overlay. */
module Types {

  /** `T | null` and optional properties (`errorMessage?: string`). */
  datatype Option<+T> = None | Some(value: T)

  /** A signed-in user. */
  datatype User = User(id: string, username: string, email: string)

  /** The session held by the auth store; `user` is `null` when signed out. */
  datatype AuthState = AuthState(user: Option<User>, isAuthenticated: bool, isLoading: bool)

  /** What the login screen collects and hands to the auth store. */
  datatype LoginFormData = LoginFormData(usernameOrEmail: string, password: string)

  /** What the signup screen collects; the mock auth store ignores it. */
  datatype SignupFormData = SignupFormData(username: string, email: string, password: string, confirmPassword: string)

  /** A hosted world as listed on the dashboard. */
  datatype World = World(
    id: string,
    name: string,
    version: string,
    username: string,
    currentPlayers: int,
    maxPlayers: int,
    isOnline: bool)

  /** Screen coordinates of the overlay; they are only ever assigned. */
  datatype Position = Position(x: real, y: real)

  /** The floating overlay: whether it is shown and where. */
  datatype OverlayState = OverlayState(isVisible: bool, position: Position)
}

/** The authentication endpoints (`src/services/AuthService.ts`).

    Every method is one call on the HTTP client followed by a conditional throw or
    return. Each is modelled as two parts: the call it makes (a function of its
    arguments; method, path, body and bearer token) and the unwrapping of the
    envelope the client answers with (a function of that envelope). */
module AuthService {
  import opened Wrappers
  import opened Users
  import opened Api

  /** The object the login screen sends: its string fields, and whether `rememberMe`
      is set (absent counts as not set). */
  datatype LoginCredentials = LoginCredentials(fields: map<string, string>, rememberMe: bool)

  datatype SignupCredentials = SignupCredentials(name: string, email: string, password: string, confirmPassword: string)

  datatype ChangePasswordData = ChangePasswordData(currentPassword: string, newPassword: string, confirmPassword: string)

  /** The body of a login, signup or refresh answer (`AuthResponse`): each field may be
      missing. `innerAccessToken` is the `data.accessToken` field nested in the body,
      which the login thunk reads. */
  datatype AuthBody = AuthBody(user: Option<User>, token: Option<string>, refreshToken: Option<string>,
                               rememberMe: Option<bool>, innerAccessToken: Option<string>)

  /** The body a call sends. */
  datatype Body =
    | Credentials(credentials: LoginCredentials)
    | Registration(signup: SignupCredentials)
    | RefreshRequest(refreshToken: string)
    | PasswordChange(change: ChangePasswordData)
    | EmailOnly(email: string)
    | PasswordReset(resetToken: string, password: string)
    | EmptyBody
    | NoBody

  /** One call on the HTTP client: method, path, body and the bearer token of its
      `Authorization` header, if it sets one. */
  datatype ServiceCall = ServiceCall(verb: HttpMethod, path: string, body: Body, bearer: Option<string>)

  function LoginCall(credentials: LoginCredentials): (c: ServiceCall)
    ensures c.verb == Post && c.path == "/common/login"
    ensures c.body == Credentials(credentials) && c.bearer.None?
  {
    ServiceCall(Post, "/common/login", Credentials(credentials), None)
  }

  function SignupCall(credentials: SignupCredentials): (c: ServiceCall)
    ensures c.verb == Post && c.path == "/auth/signup"
    ensures c.body == Registration(credentials) && c.bearer.None?
  {
    ServiceCall(Post, "/auth/signup", Registration(credentials), None)
  }

  /** `logout` posts an empty object `{}` as its body. */
  function LogoutCall(token: string): (c: ServiceCall)
    ensures c.verb == Post && c.path == "/auth/logout"
    ensures c.body == EmptyBody && c.bearer == Some(token)
  {
    ServiceCall(Post, "/auth/logout", EmptyBody, Some(token))
  }

  function RefreshCall(refreshToken: string): (c: ServiceCall)
    ensures c.verb == Post && c.path == "/auth/refresh"
    ensures c.body == RefreshRequest(refreshToken) && c.bearer.None?
  {
    ServiceCall(Post, "/auth/refresh", RefreshRequest(refreshToken), None)
  }

  function CurrentUserCall(token: string): (c: ServiceCall)
    ensures c.verb == Get && c.path == "/auth/me"
    ensures c.body == NoBody && c.bearer == Some(token)
  {
    ServiceCall(Get, "/auth/me", NoBody, Some(token))
  }

  function ChangePasswordCall(data: ChangePasswordData, token: string): (c: ServiceCall)
    ensures c.verb == Post && c.path == "/auth/change-password"
    ensures c.body == PasswordChange(data) && c.bearer == Some(token)
  {
    ServiceCall(Post, "/auth/change-password", PasswordChange(data), Some(token))
  }

  function ForgotPasswordCall(email: string): (c: ServiceCall)
    ensures c.verb == Post && c.path == "/auth/forgot-password"
    ensures c.body == EmailOnly(email) && c.bearer.None?
  {
    ServiceCall(Post, "/auth/forgot-password", EmailOnly(email), None)
  }

  function ResetPasswordCall(token: string, password: string): (c: ServiceCall)
    ensures c.verb == Post && c.path == "/auth/reset-password"
    ensures c.body == PasswordReset(token, password) && c.bearer.None?
  {
    ServiceCall(Post, "/auth/reset-password", PasswordReset(token, password), None)
  }

  /** The shared unwrap: an unsuccessful envelope throws its message, or `fallback`
      when the message is missing or empty; a successful one yields its data. */
  function Unwrap<T>(env: Envelope<T>, fallback: string): (r: Settled<Option<T>>)
    ensures r.Fulfilled? <==> env.success
    ensures r.Fulfilled? ==> r.payload == env.data
    ensures r.Rejected? ==> r.message == TruthyOr(env.message, fallback)
    ensures r.Rejected? && fallback != "" ==> r.message != ""
  {
    if env.success then Fulfilled(env.data) else Rejected(TruthyOr(env.message, fallback))
  }

  /** The unwrap of the methods that return nothing. */
  function Check<T>(env: Envelope<T>, fallback: string): (r: Outcome)
    ensures r.Ok? <==> env.success
    ensures r.Thrown? ==> r.message == TruthyOr(env.message, fallback) && (fallback != "" ==> r.message != "")
  {
    if env.success then Ok else Thrown(TruthyOr(env.message, fallback))
  }

  function LoginResult(env: Envelope<AuthBody>): (r: Settled<Option<AuthBody>>)
    ensures r.Fulfilled? <==> env.success
    ensures r.Fulfilled? ==> r.payload == env.data
    ensures r.Rejected? ==> r.message == TruthyOr(env.message, "Login failed") && r.message != ""
  {
    Unwrap(env, "Login failed")
  }

  function SignupResult(env: Envelope<AuthBody>): (r: Settled<Option<AuthBody>>)
    ensures r.Fulfilled? <==> env.success
    ensures r.Fulfilled? ==> r.payload == env.data
    ensures r.Rejected? ==> r.message == TruthyOr(env.message, "Signup failed") && r.message != ""
  {
    Unwrap(env, "Signup failed")
  }

  /** `logout` only warns on an unsuccessful envelope: it never throws. */
  function LogoutResult<T>(env: Envelope<T>): (r: Outcome)
    ensures r == Ok
  {
    Ok
  }

  function RefreshResult(env: Envelope<AuthBody>): (r: Settled<Option<AuthBody>>)
    ensures r.Fulfilled? <==> env.success
    ensures r.Fulfilled? ==> r.payload == env.data
    ensures r.Rejected? ==> r.message == TruthyOr(env.message, "Token refresh failed") && r.message != ""
  {
    Unwrap(env, "Token refresh failed")
  }

  function CurrentUserResult(env: Envelope<User>): (r: Settled<Option<User>>)
    ensures r.Fulfilled? <==> env.success
    ensures r.Fulfilled? ==> r.payload == env.data
    ensures r.Rejected? ==> r.message == TruthyOr(env.message, "Failed to get user info") && r.message != ""
  {
    Unwrap(env, "Failed to get user info")
  }

  function ChangePasswordResult<T>(env: Envelope<T>): (r: Outcome)
    ensures r.Ok? <==> env.success
    ensures r.Thrown? ==> r.message == TruthyOr(env.message, "Password change failed") && r.message != ""
  {
    Check(env, "Password change failed")
  }

  function ForgotPasswordResult<T>(env: Envelope<T>): (r: Outcome)
    ensures r.Ok? <==> env.success
    ensures r.Thrown? ==> r.message == TruthyOr(env.message, "Password reset request failed") && r.message != ""
  {
    Check(env, "Password reset request failed")
  }

  function ResetPasswordResult<T>(env: Envelope<T>): (r: Outcome)
    ensures r.Ok? <==> env.success
    ensures r.Thrown? ==> r.message == TruthyOr(env.message, "Password reset failed") && r.message != ""
  {
    Check(env, "Password reset failed")
  }

  /** Only the transport's verdict decides: the wrapper's envelope for a resolved
      exchange always unwraps to its body, a rejected one to the `handleError` message. */
  lemma LoginOverClient(ex: Exchange<AuthBody>)
    requires !ex.Unanswered?
    ensures ex.Resolved? ==> LoginResult(Wrap(ex).value) == Fulfilled(ex.response.data)
    ensures ex.Failed? ==> LoginResult(Wrap(ex).value) == Rejected(OrDefault(ex.message, "Login failed"))
  {
  }
}

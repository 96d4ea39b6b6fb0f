/** The `auth` slice of the store (`src/store/slices/authSlice.ts`) and the
    `isAuthenticated` the `useAuth` hook derives from it (`src/hooks/useAuth.ts`).

    The slice state is a class whose fields the reducer cases assign in place; its value
    is an `AuthFields` record, and `Reduce` says what each action does to that value.
    The async thunks are methods over the storage service; each takes the answer its
    one service call would give (`Settled` for the methods that return data, `Outcome`
    for the ones that return nothing) and returns the service calls it made, in order.
    Dispatching a thunk runs its `pending` case, the thunk, then its `fulfilled` or
    `rejected` case. */
module AuthSlice {
  import opened Wrappers
  import opened Users
  import opened Storage
  import opened AuthService
  import Api

  datatype AuthFields = AuthFields(isAuthenticated: bool, isLoading: bool, user: Option<User>,
                                   token: Option<string>, refreshToken: Option<string>, error: Option<string>,
                                   biometricEnabled: bool, rememberMe: bool)

  const Initial: AuthFields := AuthFields(false, false, None, None, None, None, false, false)

  /** What `checkAuthStatus` resolves to. */
  datatype Session = Session(user: Option<User>, token: string, refreshToken: Option<string>, rememberMe: bool)

  /** The three thunks whose cases only touch `isLoading` and `error`. */
  datatype PlainRequest = ChangePasswordRequest | ForgotPasswordRequest | ResetPasswordRequest

  datatype AuthAction =
    | ClearError
    | SetLoading(loading: bool)
    | SetBiometricEnabled(enabled: bool)
    | UpdateUser(patch: UserPatch)
    | LoginPending | LoginFulfilled(login: AuthBody) | LoginRejected(loginError: string)
    | SignupPending | SignupFulfilled(signup: AuthBody) | SignupRejected(signupError: string)
    | LogoutPending | LogoutFulfilled | LogoutRejected(logoutError: string)
    | RefreshPending | RefreshFulfilled(refreshed: AuthBody) | RefreshRejected
    | RequestPending(pendingKind: PlainRequest)
    | RequestFulfilled(fulfilledKind: PlainRequest)
    | RequestRejected(rejectedKind: PlainRequest, requestError: string)
    | CheckPending | CheckFulfilled(session: Session) | CheckRejected

  /** The slice reducer: `reducers` and `extraReducers` together. An action with no
      case (the refresh thunk's `pending`) leaves the state as it is. Only
      `setBiometricEnabled` touches the biometric flag; only the fulfilled cases and
      the session-ending cases touch the token; only a fulfilled login, signup or
      session check raises `isAuthenticated`. */
  function Reduce(s: AuthFields, a: AuthAction): (r: AuthFields)
    ensures r.biometricEnabled != s.biometricEnabled ==> a.SetBiometricEnabled?
    ensures r.token != s.token ==>
      a.LoginFulfilled? || a.SignupFulfilled? || a.LogoutFulfilled? || a.RefreshFulfilled?
      || a.RefreshRejected? || a.CheckFulfilled? || a.CheckRejected?
    ensures r.isAuthenticated && !s.isAuthenticated ==> a.LoginFulfilled? || a.SignupFulfilled? || a.CheckFulfilled?
  {
    match a
    case ClearError => s.(error := None)
    case SetLoading(b) => s.(isLoading := b)
    case SetBiometricEnabled(b) => s.(biometricEnabled := b)
    case UpdateUser(p) => if s.user.Some? then s.(user := Some(Merge(s.user.value, p))) else s
    case LoginPending => s.(isLoading := true, error := None)
    case LoginFulfilled(body) =>
      s.(isLoading := false, isAuthenticated := true, user := body.user, token := body.token,
         refreshToken := body.refreshToken, rememberMe := body.rememberMe.GetOr(false), error := None)
    case LoginRejected(m) => s.(isLoading := false, isAuthenticated := false, error := Some(m))
    case SignupPending => s.(isLoading := true, error := None)
    case SignupFulfilled(body) =>
      s.(isLoading := false, isAuthenticated := true, user := body.user, token := body.token,
         refreshToken := body.refreshToken, error := None)
    case SignupRejected(m) => s.(isLoading := false, isAuthenticated := false, error := Some(m))
    case LogoutPending => s.(isLoading := true)
    case LogoutFulfilled =>
      s.(isLoading := false, isAuthenticated := false, user := None, token := None, refreshToken := None,
         rememberMe := false, error := None)
    case LogoutRejected(m) => s.(isLoading := false, error := Some(m))
    case RefreshPending => s
    case RefreshFulfilled(body) => s.(token := body.token, refreshToken := body.refreshToken, user := body.user)
    case RefreshRejected => s.(isAuthenticated := false, user := None, token := None, refreshToken := None)
    case RequestPending(_) => s.(isLoading := true, error := None)
    case RequestFulfilled(_) => s.(isLoading := false, error := None)
    case RequestRejected(_, m) => s.(isLoading := false, error := Some(m))
    case CheckPending => s.(isLoading := true)
    case CheckFulfilled(session) =>
      s.(isLoading := false, isAuthenticated := true, user := session.user, token := Some(session.token),
         refreshToken := session.refreshToken, rememberMe := session.rememberMe)
    case CheckRejected => s.(isLoading := false, isAuthenticated := false, user := None, token := None, refreshToken := None)
  }

  /** The conjunction `useAuth` recomputes: `!!user && !!token`. */
  predicate HookIsAuthenticated(s: AuthFields) {
    s.user.Some? && Truthy(s.token)
  }

  /** The stored flag agrees with the user and token the state holds. */
  predicate FlagConsistent(s: AuthFields) {
    s.isAuthenticated == (s.user.Some? && s.token.Some?)
  }

  /** `login.rejected` and `signup.rejected` drop the flag and record the message, but
      keep `user`, `token` and `refreshToken`. */
  lemma RejectedKeepsSession(s: AuthFields, m: string)
    ensures var t := Reduce(s, LoginRejected(m));
            !t.isAuthenticated && t.error == Some(m) && !t.isLoading
            && t.user == s.user && t.token == s.token && t.refreshToken == s.refreshToken
    ensures var t := Reduce(s, SignupRejected(m));
            !t.isAuthenticated && t.error == Some(m) && !t.isLoading
            && t.user == s.user && t.token == s.token && t.refreshToken == s.refreshToken
  {
  }

  /** So no reducer keeps the flag consistent: from a consistent signed-in state,
      `login.rejected` leaves an inconsistent one, and a login answer without a
      token is accepted as signed in. */
  lemma FlagNotPreserved(s: AuthFields, m: string, body: AuthBody)
    requires s.user.Some? && s.token.Some?
    requires body.token.None?
    ensures !FlagConsistent(Reduce(s, LoginRejected(m)))
    ensures !FlagConsistent(Reduce(s, LoginFulfilled(body)))
    ensures !FlagConsistent(Reduce(s, SignupFulfilled(body)))
  {
  }

  /** The hook's conjunction and the stored flag disagree in both directions. */
  lemma HookDisagreesWithFlag(u: User)
    ensures var s := Reduce(Initial.(user := Some(u), token := Some("t"), isAuthenticated := true), LoginRejected("x"));
            HookIsAuthenticated(s) && !s.isAuthenticated
    ensures var s := Reduce(Initial, LoginFulfilled(AuthBody(None, None, None, None, None)));
            !HookIsAuthenticated(s) && s.isAuthenticated
  {
  }

  /** `login.fulfilled` and `signup.fulfilled` take the session from the payload and
      set the flag whatever it holds. */
  lemma FulfilledTakesPayload(s: AuthFields, body: AuthBody)
    ensures var t := Reduce(s, LoginFulfilled(body));
            t.isAuthenticated && !t.isLoading && t.error.None? && t.user == body.user && t.token == body.token
            && t.refreshToken == body.refreshToken && t.rememberMe == (body.rememberMe == Some(true))
    ensures var t := Reduce(s, SignupFulfilled(body));
            t.isAuthenticated && !t.isLoading && t.error.None? && t.user == body.user && t.token == body.token
            && t.refreshToken == body.refreshToken && t.rememberMe == s.rememberMe
  {
  }

  /** `logout.fulfilled` clears the session; `logout.rejected` changes only `isLoading` and `error`. */
  lemma LogoutCases(s: AuthFields, m: string)
    ensures Reduce(s, LogoutFulfilled)
         == AuthFields(false, false, None, None, None, None, s.biometricEnabled, false)
    ensures Reduce(s, LogoutRejected(m)) == s.(isLoading := false, error := Some(m))
  {
  }

  /** The refresh cases: `fulfilled` sets only the tokens and the user, `rejected`
      clears the session, and neither (nor `pending`) touches `isLoading`. */
  lemma RefreshCases(s: AuthFields, body: AuthBody)
    ensures Reduce(s, RefreshPending) == s
    ensures Reduce(s, RefreshFulfilled(body))
         == s.(token := body.token, refreshToken := body.refreshToken, user := body.user)
    ensures Reduce(s, RefreshRejected) == s.(isAuthenticated := false, user := None, token := None, refreshToken := None)
    ensures Reduce(s, RefreshFulfilled(body)).isLoading == Reduce(s, RefreshRejected).isLoading == s.isLoading
  {
  }

  /** The auth check: `fulfilled` signs in with the stored session and `rememberMe`,
      `rejected` clears the session. */
  lemma CheckCases(s: AuthFields, session: Session)
    ensures var t := Reduce(s, CheckFulfilled(session));
            t.isAuthenticated && t.rememberMe == session.rememberMe && t.token == Some(session.token)
            && t.user == session.user && t.refreshToken == session.refreshToken && !t.isLoading
    ensures Reduce(s, CheckRejected)
         == s.(isLoading := false, isAuthenticated := false, user := None, token := None, refreshToken := None)
  {
  }

  /** The `pending` case of a thunk, and how it settles. */
  function PendingOf(a: AuthAction): AuthAction {
    match a
    case LoginFulfilled(_) => LoginPending
    case LoginRejected(_) => LoginPending
    case SignupFulfilled(_) => SignupPending
    case SignupRejected(_) => SignupPending
    case LogoutFulfilled => LogoutPending
    case LogoutRejected(_) => LogoutPending
    case RequestFulfilled(k) => RequestPending(k)
    case RequestRejected(k, _) => RequestPending(k)
    case CheckFulfilled(_) => CheckPending
    case CheckRejected => CheckPending
    case _ => a
  }

  /** The settling cases of the seven thunks that track loading. */
  predicate TracksLoading(a: AuthAction) {
    a.LoginFulfilled? || a.LoginRejected? || a.SignupFulfilled? || a.SignupRejected? || a.LogoutFulfilled?
    || a.LogoutRejected? || a.RequestFulfilled? || a.RequestRejected? || a.CheckFulfilled? || a.CheckRejected?
  }

  /** Their `pending` case raises `isLoading` and the settling case lowers it again. */
  lemma LoadingLifecycle(s: AuthFields, settle: AuthAction)
    requires TracksLoading(settle)
    ensures Reduce(s, PendingOf(settle)).isLoading
    ensures !Reduce(Reduce(s, PendingOf(settle)), settle).isLoading
  {
  }

  /** `updateUser` merges into a present user and does nothing without one. */
  lemma UpdateUserCases(s: AuthFields, p: UserPatch)
    ensures s.user.None? ==> Reduce(s, UpdateUser(p)) == s
    ensures s.user.Some? ==> Reduce(s, UpdateUser(p)) == s.(user := Some(Merge(s.user.value, p)))
  {
  }

  /** The slice state, updated in place by the reducer cases. */
  class AuthState {
    var isAuthenticated: bool
    var isLoading: bool
    var user: Option<User>
    var token: Option<string>
    var refreshToken: Option<string>
    var error: Option<string>
    var biometricEnabled: bool
    var rememberMe: bool

    function Fields(): AuthFields
      reads this
    {
      AuthFields(isAuthenticated, isLoading, user, token, refreshToken, error, biometricEnabled, rememberMe)
    }

    constructor ()
      ensures Fields() == Initial
    {
      isAuthenticated, isLoading, user, token, refreshToken := false, false, None, None, None;
      error, biometricEnabled, rememberMe := None, false, false;
    }

    /** Dispatch one action to the slice. */
    method Apply(a: AuthAction)
      modifies this
      ensures Fields() == Reduce(old(Fields()), a)
    {
      if a.ClearError? || a.SetLoading? || a.SetBiometricEnabled? || a.UpdateUser? {
        ApplyReducer(a);
      } else if a.LoginPending? || a.LoginFulfilled? || a.LoginRejected?
                || a.SignupPending? || a.SignupFulfilled? || a.SignupRejected? {
        ApplySignIn(a);
      } else if a.LogoutPending? || a.LogoutFulfilled? || a.LogoutRejected?
                || a.RefreshPending? || a.RefreshFulfilled? || a.RefreshRejected? {
        ApplySessionEnd(a);
      } else if a.RequestPending? || a.RequestFulfilled? || a.RequestRejected? {
        ApplyRequest(a);
      } else {
        ApplyCheck(a);
      }
    }

    /** The `reducers` of the slice. */
    method ApplyReducer(a: AuthAction)
      requires a.ClearError? || a.SetLoading? || a.SetBiometricEnabled? || a.UpdateUser?
      modifies this
      ensures Fields() == Reduce(old(Fields()), a)
    {
      match a
      case ClearError => error := None;
      case SetLoading(b) => isLoading := b;
      case SetBiometricEnabled(b) => biometricEnabled := b;
      case UpdateUser(p) =>
        if user.Some? {
          user := Some(Merge(user.value, p));
        }
    }

    /** The cases of `login` and `signup`. */
    method ApplySignIn(a: AuthAction)
      requires a.LoginPending? || a.LoginFulfilled? || a.LoginRejected?
               || a.SignupPending? || a.SignupFulfilled? || a.SignupRejected?
      modifies this
      ensures Fields() == Reduce(old(Fields()), a)
    {
      match a
      case LoginPending =>
        isLoading, error := true, None;
      case LoginFulfilled(body) =>
        isLoading, isAuthenticated := false, true;
        user, token, refreshToken := body.user, body.token, body.refreshToken;
        rememberMe, error := body.rememberMe.GetOr(false), None;
      case LoginRejected(m) =>
        isLoading, isAuthenticated, error := false, false, Some(m);
      case SignupPending =>
        isLoading, error := true, None;
      case SignupFulfilled(body) =>
        isLoading, isAuthenticated := false, true;
        user, token, refreshToken := body.user, body.token, body.refreshToken;
        error := None;
      case SignupRejected(m) =>
        isLoading, isAuthenticated, error := false, false, Some(m);
    }

    /** The cases of `logout` and `refreshToken`. */
    method ApplySessionEnd(a: AuthAction)
      requires a.LogoutPending? || a.LogoutFulfilled? || a.LogoutRejected?
               || a.RefreshPending? || a.RefreshFulfilled? || a.RefreshRejected?
      modifies this
      ensures Fields() == Reduce(old(Fields()), a)
    {
      match a
      case LogoutPending =>
        isLoading := true;
      case LogoutFulfilled =>
        isLoading, isAuthenticated := false, false;
        user, token, refreshToken := None, None, None;
        rememberMe, error := false, None;
      case LogoutRejected(m) =>
        isLoading, error := false, Some(m);
      case RefreshPending =>
      case RefreshFulfilled(body) =>
        token, refreshToken, user := body.token, body.refreshToken, body.user;
      case RefreshRejected =>
        isAuthenticated := false;
        user, token, refreshToken := None, None, None;
    }

    /** The cases of `changePassword`, `forgotPassword` and `resetPassword`. */
    method ApplyRequest(a: AuthAction)
      requires a.RequestPending? || a.RequestFulfilled? || a.RequestRejected?
      modifies this
      ensures Fields() == Reduce(old(Fields()), a)
    {
      match a
      case RequestPending(_) =>
        isLoading, error := true, None;
      case RequestFulfilled(_) =>
        isLoading, error := false, None;
      case RequestRejected(_, m) =>
        isLoading, error := false, Some(m);
    }

    /** The cases of `checkAuthStatus`. */
    method ApplyCheck(a: AuthAction)
      requires a.CheckPending? || a.CheckFulfilled? || a.CheckRejected?
      modifies this
      ensures Fields() == Reduce(old(Fields()), a)
    {
      match a
      case CheckPending =>
        isLoading := true;
      case CheckFulfilled(session) =>
        isLoading, isAuthenticated := false, true;
        user, token, refreshToken := session.user, Some(session.token), session.refreshToken;
        rememberMe := session.rememberMe;
      case CheckRejected =>
        isLoading, isAuthenticated := false, false;
        user, token, refreshToken := None, None, None;
    }

    /** `dispatch(login(credentials))`. */
    method DispatchLogin(storage: StorageService, credentials: LoginCredentials, answer: Settled<AuthBody>)
      returns (r: Settled<AuthBody>, calls: seq<ServiceCall>)
      modifies this, storage`items, storage`keychain
      ensures Fields() == Reduce(Reduce(old(Fields()), LoginPending),
                                 if r.Fulfilled? then LoginFulfilled(r.payload) else LoginRejected(r.message))
      ensures calls == [LoginCall(credentials)]
      ensures answer.Rejected? ==>
        r == Rejected(OrDefault(answer.message, "Login failed"))
        && storage.items == old(storage.items) && storage.keychain == old(storage.keychain)
      ensures answer.Fulfilled? && !Truthy(answer.payload.innerAccessToken) ==>
        r == answer && storage.items == old(storage.items) && storage.keychain == old(storage.keychain)
      ensures answer.Fulfilled? && Truthy(answer.payload.innerAccessToken) ==>
        var t := answer.payload.innerAccessToken.value;
        var failed := Rejected(OrDefault(storage.failMessage, "Login failed"));
        if "accessToken" in storage.failingSecure then
          r == failed && storage.keychain == old(storage.keychain) && storage.items == old(storage.items)
        else if "refreshToken" in storage.failingSecure then
          r == failed && storage.keychain == old(storage.keychain)["accessToken" := t] && storage.items == old(storage.items)
        else
          && storage.keychain == old(storage.keychain)["accessToken" := t]["refreshToken" := t]
          && if !credentials.rememberMe then r == answer && storage.items == old(storage.items)
             else if "rememberMe" in storage.failingItems then r == failed && storage.items == old(storage.items)
             else r == answer && storage.items == old(storage.items)["rememberMe" := "true"]
    {
      Apply(LoginPending);
      r, calls := Login(storage, credentials, answer);
      Apply(if r.Fulfilled? then LoginFulfilled(r.payload) else LoginRejected(r.message));
    }

    /** `dispatch(logout())`: the thunk reads the token after `pending`. */
    method DispatchLogout(storage: StorageService) returns (r: Settled<bool>, calls: seq<ServiceCall>)
      modifies this, storage`items, storage`keychain
      ensures Fields() == Reduce(Reduce(old(Fields()), LogoutPending),
                                 if r.Fulfilled? then LogoutFulfilled else LogoutRejected(r.message))
      ensures calls == (if Truthy(old(token)) then [LogoutCall(old(token).value)] else [])
      ensures var failed := Rejected(OrDefault(storage.failMessage, "Logout failed"));
        if "accessToken" in storage.failingSecure then
          r == failed && storage.keychain == old(storage.keychain) && storage.items == old(storage.items)
        else if "refreshToken" in storage.failingSecure then
          r == failed && storage.keychain == old(storage.keychain) - {"accessToken"} && storage.items == old(storage.items)
        else
          && storage.keychain == old(storage.keychain) - {"accessToken"} - {"refreshToken"}
          && if "rememberMe" in storage.failingItems then r == failed && storage.items == old(storage.items)
             else r == Fulfilled(true) && storage.items == old(storage.items) - {"rememberMe"}
    {
      Apply(LogoutPending);
      r, calls := Logout(storage, Fields());
      Apply(if r.Fulfilled? then LogoutFulfilled else LogoutRejected(r.message));
    }

    /** `dispatch(refreshToken())`: there is no `pending` case. */
    method DispatchRefresh(storage: StorageService, answer: Settled<AuthBody>)
      returns (r: Settled<AuthBody>, calls: seq<ServiceCall>)
      modifies this, storage`keychain
      ensures Fields() == Reduce(old(Fields()), if r.Fulfilled? then RefreshFulfilled(r.payload) else RefreshRejected)
      ensures isLoading == old(isLoading)
      ensures !Truthy(old(refreshToken)) ==>
        r == Rejected("No refresh token available") && calls == [] && storage.keychain == old(storage.keychain)
      ensures Truthy(old(refreshToken)) ==> calls == [RefreshCall(old(refreshToken).value)]
      ensures Truthy(old(refreshToken)) && answer.Rejected? ==>
        r == Rejected(OrDefault(answer.message, "Token refresh failed")) && storage.keychain == old(storage.keychain)
      ensures Truthy(old(refreshToken)) && answer.Fulfilled? ==>
        var body := answer.payload;
        var failed := Rejected(OrDefault(storage.failMessage, "Token refresh failed"));
        if "accessToken" in storage.failingSecure then
          r == failed && storage.keychain == old(storage.keychain)
        else if "refreshToken" in storage.failingSecure then
          r == failed && storage.keychain == old(storage.keychain)["accessToken" := Api.StoredText(body.token)]
        else
          r == answer && storage.keychain
            == old(storage.keychain)["accessToken" := Api.StoredText(body.token)]["refreshToken" := Api.StoredText(body.refreshToken)]
    {
      Apply(RefreshPending);
      r, calls := Refresh(storage, Fields(), answer);
      Apply(if r.Fulfilled? then RefreshFulfilled(r.payload) else RefreshRejected);
    }

    /** `dispatch(checkAuthStatus())`. */
    method DispatchCheck(storage: StorageService, answer: Settled<Option<User>>)
      returns (r: Settled<Session>, calls: seq<ServiceCall>)
      modifies this
      ensures Fields() == Reduce(Reduce(old(Fields()), CheckPending),
                                 if r.Fulfilled? then CheckFulfilled(r.payload) else CheckRejected)
      ensures !isLoading
      ensures storage.SecureOf("accessToken").None? ==> r == Rejected("No token found") && calls == []
      ensures storage.SecureOf("accessToken").Some? ==>
        && calls == [CurrentUserCall(storage.SecureOf("accessToken").value)]
        && (answer.Rejected? ==> r == Rejected(OrDefault(answer.message, "Auth check failed")))
        && (answer.Fulfilled? ==>
              r == Fulfilled(Session(answer.payload, storage.SecureOf("accessToken").value,
                                     storage.SecureOf("refreshToken"), storage.ItemOf("rememberMe") == Some("true"))))
    {
      Apply(CheckPending);
      r, calls := CheckAuthStatus(storage, answer);
      Apply(if r.Fulfilled? then CheckFulfilled(r.payload) else CheckRejected);
    }
  }

  /** The `login` thunk. With a truthy `data.accessToken` in the answer, that one value
      is written under both secure keys, then `rememberMe` when the credentials ask
      for it; any failing write rejects with its message (or `'Login failed'`). */
  method Login(storage: StorageService, credentials: LoginCredentials, answer: Settled<AuthBody>)
    returns (r: Settled<AuthBody>, calls: seq<ServiceCall>)
    modifies storage`items, storage`keychain
    ensures calls == [LoginCall(credentials)]
    ensures answer.Rejected? ==>
      r == Rejected(OrDefault(answer.message, "Login failed"))
      && storage.items == old(storage.items) && storage.keychain == old(storage.keychain)
    ensures answer.Fulfilled? && !Truthy(answer.payload.innerAccessToken) ==>
      r == answer && storage.items == old(storage.items) && storage.keychain == old(storage.keychain)
    ensures answer.Fulfilled? && Truthy(answer.payload.innerAccessToken) ==>
      var t := answer.payload.innerAccessToken.value;
      var failed := Rejected(OrDefault(storage.failMessage, "Login failed"));
      if "accessToken" in storage.failingSecure then
        r == failed && storage.keychain == old(storage.keychain) && storage.items == old(storage.items)
      else if "refreshToken" in storage.failingSecure then
        r == failed && storage.keychain == old(storage.keychain)["accessToken" := t] && storage.items == old(storage.items)
      else
        && storage.keychain == old(storage.keychain)["accessToken" := t]["refreshToken" := t]
        && if !credentials.rememberMe then r == answer && storage.items == old(storage.items)
           else if "rememberMe" in storage.failingItems then r == failed && storage.items == old(storage.items)
           else r == answer && storage.items == old(storage.items)["rememberMe" := "true"]
  {
    calls := [LoginCall(credentials)];
    match answer
    case Rejected(m) => {
      r := Rejected(OrDefault(m, "Login failed"));
    }
    case Fulfilled(body) => {
      if Truthy(body.innerAccessToken) {
        var t := body.innerAccessToken.value;
        var o := storage.SetSecureItem("accessToken", t);
        if o.Thrown? {
          return Rejected(OrDefault(o.message, "Login failed")), calls;
        }
        o := storage.SetSecureItem("refreshToken", t);
        if o.Thrown? {
          return Rejected(OrDefault(o.message, "Login failed")), calls;
        }
        if credentials.rememberMe {
          o := storage.SetItem("rememberMe", "true");
          if o.Thrown? {
            return Rejected(OrDefault(o.message, "Login failed")), calls;
          }
        }
      }
      r := answer;
    }
  }

  /** The `signup` thunk: the payload's `token` and `refreshToken` are written, a
      missing one as the empty password. */
  method Signup(storage: StorageService, credentials: SignupCredentials, answer: Settled<AuthBody>)
    returns (r: Settled<AuthBody>, calls: seq<ServiceCall>)
    modifies storage`keychain
    ensures calls == [SignupCall(credentials)]
    ensures answer.Rejected? ==>
      r == Rejected(OrDefault(answer.message, "Signup failed")) && storage.keychain == old(storage.keychain)
    ensures answer.Fulfilled? ==>
      var body := answer.payload;
      var failed := Rejected(OrDefault(storage.failMessage, "Signup failed"));
      if "accessToken" in storage.failingSecure then
        r == failed && storage.keychain == old(storage.keychain)
      else if "refreshToken" in storage.failingSecure then
        r == failed && storage.keychain == old(storage.keychain)["accessToken" := Api.StoredText(body.token)]
      else
        r == answer && storage.keychain
          == old(storage.keychain)["accessToken" := Api.StoredText(body.token)]["refreshToken" := Api.StoredText(body.refreshToken)]
  {
    calls := [SignupCall(credentials)];
    match answer
    case Rejected(m) => {
      r := Rejected(OrDefault(m, "Signup failed"));
    }
    case Fulfilled(body) => {
      r := StoreTokens(storage, body, "Signup failed");
      if r.Fulfilled? {
        r := answer;
      }
    }
  }

  /** The two secure writes the signup and refresh thunks share. */
  method StoreTokens(storage: StorageService, body: AuthBody, fallback: string) returns (r: Settled<AuthBody>)
    modifies storage`keychain
    ensures var failed := Rejected(OrDefault(storage.failMessage, fallback));
      if "accessToken" in storage.failingSecure then
        r == failed && storage.keychain == old(storage.keychain)
      else if "refreshToken" in storage.failingSecure then
        r == failed && storage.keychain == old(storage.keychain)["accessToken" := Api.StoredText(body.token)]
      else
        r == Fulfilled(body) && storage.keychain
          == old(storage.keychain)["accessToken" := Api.StoredText(body.token)]["refreshToken" := Api.StoredText(body.refreshToken)]
  {
    var o := storage.SetSecureItem("accessToken", Api.StoredText(body.token));
    if o.Thrown? {
      return Rejected(OrDefault(o.message, fallback));
    }
    o := storage.SetSecureItem("refreshToken", Api.StoredText(body.refreshToken));
    if o.Thrown? {
      return Rejected(OrDefault(o.message, fallback));
    }
    r := Fulfilled(body);
  }

  /** The `logout` thunk: the server is called only with a truthy token (and its answer
      never throws); then secure `accessToken`, secure `refreshToken` and general
      `rememberMe` are removed in that order, and the first failing removal rejects. */
  method Logout(storage: StorageService, state: AuthFields) returns (r: Settled<bool>, calls: seq<ServiceCall>)
    modifies storage`items, storage`keychain
    ensures calls == (if Truthy(state.token) then [LogoutCall(state.token.value)] else [])
    ensures var failed := Rejected(OrDefault(storage.failMessage, "Logout failed"));
      if "accessToken" in storage.failingSecure then
        r == failed && storage.keychain == old(storage.keychain) && storage.items == old(storage.items)
      else if "refreshToken" in storage.failingSecure then
        r == failed && storage.keychain == old(storage.keychain) - {"accessToken"} && storage.items == old(storage.items)
      else
        && storage.keychain == old(storage.keychain) - {"accessToken"} - {"refreshToken"}
        && if "rememberMe" in storage.failingItems then r == failed && storage.items == old(storage.items)
           else r == Fulfilled(true) && storage.items == old(storage.items) - {"rememberMe"}
  {
    calls := [];
    if Truthy(state.token) {
      calls := [LogoutCall(state.token.value)];
    }
    var o := storage.RemoveSecureItem("accessToken");
    if o.Thrown? {
      return Rejected(OrDefault(o.message, "Logout failed")), calls;
    }
    o := storage.RemoveSecureItem("refreshToken");
    if o.Thrown? {
      return Rejected(OrDefault(o.message, "Logout failed")), calls;
    }
    o := storage.RemoveItem("rememberMe");
    if o.Thrown? {
      return Rejected(OrDefault(o.message, "Logout failed")), calls;
    }
    r := Fulfilled(true);
  }

  /** The `refreshToken` thunk: without a truthy refresh token in the state it rejects
      before any call; otherwise it calls the service and stores the new tokens. */
  method Refresh(storage: StorageService, state: AuthFields, answer: Settled<AuthBody>)
    returns (r: Settled<AuthBody>, calls: seq<ServiceCall>)
    modifies storage`keychain
    ensures !Truthy(state.refreshToken) ==>
      r == Rejected("No refresh token available") && calls == [] && storage.keychain == old(storage.keychain)
    ensures Truthy(state.refreshToken) ==> calls == [RefreshCall(state.refreshToken.value)]
    ensures Truthy(state.refreshToken) && answer.Rejected? ==>
      r == Rejected(OrDefault(answer.message, "Token refresh failed")) && storage.keychain == old(storage.keychain)
    ensures Truthy(state.refreshToken) && answer.Fulfilled? ==>
      var body := answer.payload;
      var failed := Rejected(OrDefault(storage.failMessage, "Token refresh failed"));
      if "accessToken" in storage.failingSecure then
        r == failed && storage.keychain == old(storage.keychain)
      else if "refreshToken" in storage.failingSecure then
        r == failed && storage.keychain == old(storage.keychain)["accessToken" := Api.StoredText(body.token)]
      else
        r == answer && storage.keychain
          == old(storage.keychain)["accessToken" := Api.StoredText(body.token)]["refreshToken" := Api.StoredText(body.refreshToken)]
  {
    if !Truthy(state.refreshToken) {
      return Rejected("No refresh token available"), [];
    }
    calls := [RefreshCall(state.refreshToken.value)];
    match answer
    case Rejected(m) => {
      r := Rejected(OrDefault(m, "Token refresh failed"));
    }
    case Fulfilled(body) => {
      r := StoreTokens(storage, body, "Token refresh failed");
    }
  }

  /** The `changePassword` thunk: `'Not authenticated'` without a truthy token. */
  function ChangePassword(state: AuthFields, data: ChangePasswordData, answer: Outcome)
    : (r: (Settled<bool>, seq<ServiceCall>))
    ensures !Truthy(state.token) ==> r == (Rejected("Not authenticated"), [])
    ensures Truthy(state.token) ==> r.1 == [ChangePasswordCall(data, state.token.value)]
    ensures Truthy(state.token) ==> (r.0.Fulfilled? <==> answer.Ok?)
    ensures Truthy(state.token) && answer.Thrown? ==> r.0 == Rejected(OrDefault(answer.message, "Password change failed"))
  {
    if !Truthy(state.token) then (Rejected("Not authenticated"), [])
    else
      var calls := [ChangePasswordCall(data, state.token.value)];
      match answer
      case Ok => (Fulfilled(true), calls)
      case Thrown(m) => (Rejected(OrDefault(m, "Password change failed")), calls)
  }

  /** The `forgotPassword` thunk. */
  function ForgotPassword(email: string, answer: Outcome): (r: (Settled<bool>, seq<ServiceCall>))
    ensures r.1 == [ForgotPasswordCall(email)]
    ensures r.0.Fulfilled? <==> answer.Ok?
    ensures answer.Thrown? ==> r.0 == Rejected(OrDefault(answer.message, "Password reset request failed"))
  {
    (if answer.Ok? then Fulfilled(true) else Rejected(OrDefault(answer.message, "Password reset request failed")),
     [ForgotPasswordCall(email)])
  }

  /** The `resetPassword` thunk. */
  function ResetPassword(token: string, password: string, answer: Outcome): (r: (Settled<bool>, seq<ServiceCall>))
    ensures r.1 == [ResetPasswordCall(token, password)]
    ensures r.0.Fulfilled? <==> answer.Ok?
    ensures answer.Thrown? ==> r.0 == Rejected(OrDefault(answer.message, "Password reset failed"))
  {
    (if answer.Ok? then Fulfilled(true) else Rejected(OrDefault(answer.message, "Password reset failed")),
     [ResetPasswordCall(token, password)])
  }

  /** The `checkAuthStatus` thunk: reads the stored tokens and `rememberMe`, rejects
      without an access token, and otherwise asks the server for the user. It removes
      nothing from storage. */
  method CheckAuthStatus(storage: StorageService, answer: Settled<Option<User>>)
    returns (r: Settled<Session>, calls: seq<ServiceCall>)
    ensures storage.SecureOf("accessToken").None? ==> r == Rejected("No token found") && calls == []
    ensures storage.SecureOf("accessToken").Some? ==>
      && calls == [CurrentUserCall(storage.SecureOf("accessToken").value)]
      && (answer.Rejected? ==> r == Rejected(OrDefault(answer.message, "Auth check failed")))
      && (answer.Fulfilled? ==>
            r == Fulfilled(Session(answer.payload, storage.SecureOf("accessToken").value,
                                   storage.SecureOf("refreshToken"), storage.ItemOf("rememberMe") == Some("true"))))
  {
    var token := storage.GetSecureItem("accessToken");
    var refreshTokenValue := storage.GetSecureItem("refreshToken");
    var rememberMe := storage.GetItem("rememberMe");
    if token.None? {
      return Rejected("No token found"), [];
    }
    calls := [CurrentUserCall(token.value)];
    match answer
    case Rejected(m) => {
      r := Rejected(OrDefault(m, "Auth check failed"));
    }
    case Fulfilled(user) => {
      r := Fulfilled(Session(user, token.value, refreshTokenValue, rememberMe == Some("true")));
    }
  }
}

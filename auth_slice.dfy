/** The client's authentication store: the state `{user, token,
    isAuthenticated, loading, error}`, the `logout` and `clearError`
    reducers, the pending/fulfilled/rejected cases of the `login`, `register`
    and `getCurrentUser` thunks, and the token guard of `getCurrentUser`.
    `Reduce` is the reducer as a function of the old state and the action;
    `AuthStore` holds the state in fields and applies one case per method. */
module AuthSlice {
  import opened Common

  /** The fields of a user record the client keeps; the rest of the record is
      carried along untouched and not modelled. */
  datatype User = User(id: int, email: string, userType: string, firstName: string, lastName: string)

  /** Body of a successful login or register response. */
  datatype AuthResponse = AuthResponse(token: string, user: User, message: string)

  datatype AuthState = AuthState(
    user: Option<User>,
    token: Option<string>,
    isAuthenticated: bool,
    loading: bool,
    error: Option<string>)

  const InitialState := AuthState(None, None, false, false, None)

  const LoginFailed := "Login failed"
  const RegistrationFailed := "Registration failed"
  const FetchUserFailed := "Failed to fetch user data"
  const NoTokenFound := "No token found"

  /** The two server messages after which the client drops its session. */
  const InvalidToken := "Invalid token"
  const TokenExpired := "Token has expired"

  datatype AuthAction =
    | Logout
    | ClearError
    | LoginPending
    | LoginFulfilled(response: AuthResponse)
    | LoginRejected(payload: Option<string>)
    | RegisterPending
    | RegisterFulfilled(response: AuthResponse)
    | RegisterRejected(payload: Option<string>)
    | CurrentUserPending
    | CurrentUserFulfilled(user: User)
    | CurrentUserRejected(payload: Option<string>)
  {
    predicate IsPending() {
      LoginPending? || RegisterPending? || CurrentUserPending?
    }
  }

  /** A logged-in state always holds a token. */
  predicate SessionConsistent(s: AuthState) {
    s.isAuthenticated ==> s.token.Some?
  }

  /** The part of the state that says who is logged in. */
  function Session(s: AuthState): (Option<User>, Option<string>, bool) {
    (s.user, s.token, s.isAuthenticated)
  }

  /** `getCurrentUser.rejected` logs out only on these two payloads. */
  predicate ForcesLogout(payload: Option<string>) {
    payload == Some(InvalidToken) || payload == Some(TokenExpired)
  }

  /** The slice reducer: the new state after one action. */
  function Reduce(s: AuthState, a: AuthAction): (r: AuthState)
    ensures SessionConsistent(s) ==> SessionConsistent(r)
    ensures a.Logout? ==>
              r.user.None? && r.token.None? && !r.isAuthenticated && r.error.None? && r.loading == s.loading
    ensures a.ClearError? ==>
              r.error.None? && Session(r) == Session(s) && r.loading == s.loading
    ensures a.IsPending() ==> r.loading && r.error.None? && Session(r) == Session(s)
    ensures (a.LoginFulfilled? || a.RegisterFulfilled?) ==>
              && !r.loading && r.isAuthenticated && r.error == s.error
              && r.user == Some(a.response.user) && r.token == Some(a.response.token)
    ensures (a.LoginRejected? || a.RegisterRejected?) ==>
              !r.loading && r.error.Some? && r.error.value != "" && Session(r) == Session(s)
    ensures a.LoginRejected? ==> r.error == Some(OrString(a.payload, LoginFailed))
    ensures a.RegisterRejected? ==> r.error == Some(OrString(a.payload, RegistrationFailed))
    ensures a.CurrentUserRejected? ==> r.error == Some(OrString(a.payload, FetchUserFailed))
    ensures a.CurrentUserFulfilled? ==>
              && !r.loading && r.user == Some(a.user) && r.token == s.token
              && r.isAuthenticated == s.isAuthenticated && r.error == s.error
    ensures a.CurrentUserRejected? ==> !r.loading && r.error.Some? && r.error.value != ""
    ensures a.CurrentUserRejected? && ForcesLogout(a.payload) ==>
              r.user.None? && r.token.None? && !r.isAuthenticated
    ensures a.CurrentUserRejected? && !ForcesLogout(a.payload) ==> Session(r) == Session(s)
    ensures a.CurrentUserRejected? && s.isAuthenticated ==> (r.isAuthenticated <==> !ForcesLogout(a.payload))
  {
    match a
    case Logout => s.(user := None, token := None, isAuthenticated := false, error := None)
    case ClearError => s.(error := None)
    case LoginPending => s.(loading := true, error := None)
    case LoginFulfilled(response) =>
      s.(loading := false, isAuthenticated := true, user := Some(response.user), token := Some(response.token))
    case LoginRejected(payload) => s.(loading := false, error := Some(OrString(payload, LoginFailed)))
    case RegisterPending => s.(loading := true, error := None)
    case RegisterFulfilled(response) =>
      s.(loading := false, isAuthenticated := true, user := Some(response.user), token := Some(response.token))
    case RegisterRejected(payload) => s.(loading := false, error := Some(OrString(payload, RegistrationFailed)))
    case CurrentUserPending => s.(loading := true, error := None)
    case CurrentUserFulfilled(user) => s.(loading := false, user := Some(user))
    case CurrentUserRejected(payload) =>
      var failed := s.(loading := false, error := Some(OrString(payload, FetchUserFailed)));
      if ForcesLogout(payload) then failed.(user := None, token := None, isAuthenticated := false)
      else failed
  }

  /** The state after a run of actions, applied left to right. */
  function ReduceAll(s: AuthState, actions: seq<AuthAction>): AuthState
    decreases |actions|
  {
    if |actions| == 0 then s else ReduceAll(Reduce(s, actions[0]), actions[1..])
  }

  /** From the initial state, no sequence of actions reaches a logged-in state
      without a token. */
  lemma {:induction false} SessionConsistentAlongRun(s: AuthState, actions: seq<AuthAction>)
    requires SessionConsistent(s)
    ensures SessionConsistent(ReduceAll(s, actions))
    decreases |actions|
  {
    if |actions| > 0 {
      SessionConsistentAlongRun(Reduce(s, actions[0]), actions[1..]);
    }
  }

  lemma InitialRunsAreConsistent(actions: seq<AuthAction>)
    ensures SessionConsistent(ReduceAll(InitialState, actions))
  {
    SessionConsistentAlongRun(InitialState, actions);
  }

  /** What the request inside a thunk came back with: the response body on
      success, or the `message` of the error body (absent when the error had
      no response or no message). */
  datatype Response<T> = Success(body: T) | Failure(message: Option<string>)

  /** The settled thunk: its payload, or the value it was rejected with. */
  datatype Outcome<T> = Fulfilled(value: T) | Rejected(reason: string)

  /** The `login` and `register` thunks: pass the body through, or reject with
      the server's message and fall back to the given default. */
  function PostThunk(response: Response<AuthResponse>, fallback: string): (r: Outcome<AuthResponse>)
    requires fallback != ""
    ensures r.Fulfilled? <==> response.Success?
    ensures response.Success? ==> r.value == response.body
    ensures r.Rejected? ==> r.reason != ""
    ensures r.Rejected? && response.message.Some? && response.message.value != "" ==> r.reason == response.message.value
  {
    match response
    case Success(body) => Fulfilled(body)
    case Failure(message) => Rejected(OrString(message, fallback))
  }

  /** The `getCurrentUser` thunk. Without a token it rejects before any
      request; otherwise it asks the server with a Bearer header, which
      `fetch` stands for. */
  function GetCurrentUserThunk(token: Option<string>, fetch: string -> Response<User>): (r: Outcome<User>)
    ensures token.None? || token.value == "" ==> r == Rejected(NoTokenFound)
    ensures token.Some? && token.value != "" ==>
              (r.Fulfilled? <==> fetch("Bearer " + token.value).Success?)
    ensures r.Rejected? ==> r.reason != ""
  {
    if token.None? || token.value == "" then Rejected(NoTokenFound)
    else
      match fetch("Bearer " + token.value)
      case Success(user) => Fulfilled(user)
      case Failure(message) => Rejected(OrString(message, FetchUserFailed))
  }

  /** The action a settled `getCurrentUser` dispatches. */
  function CurrentUserSettled(outcome: Outcome<User>): AuthAction {
    match outcome
    case Fulfilled(user) => CurrentUserFulfilled(user)
    case Rejected(reason) => CurrentUserRejected(Some(reason))
  }

  /** Once a rejected `getCurrentUser` has forced a logout, the next
      `getCurrentUser` rejects with 'No token found' without asking the
      server, and that rejection does not log out again. */
  lemma ForcedLogoutThenNoToken(s: AuthState, payload: Option<string>, fetch: string -> Response<User>)
    requires ForcesLogout(payload)
    ensures var after := Reduce(s, CurrentUserRejected(payload));
            && GetCurrentUserThunk(after.token, fetch) == Rejected(NoTokenFound)
            && !ForcesLogout(Some(NoTokenFound))
  {
    var after := Reduce(s, CurrentUserRejected(payload));
    assert after.token.None?;
  }

  /** A login that starts and settles leaves the store idle, either logged in
      with the response's token or holding a non-empty error. */
  lemma LoginSettles(s: AuthState, response: Response<AuthResponse>)
    ensures var outcome := PostThunk(response, LoginFailed);
            var settled := if outcome.Fulfilled? then LoginFulfilled(outcome.value) else LoginRejected(Some(outcome.reason));
            var r := Reduce(Reduce(s, LoginPending), settled);
            && !r.loading
            && (response.Success? ==> r.isAuthenticated && r.token == Some(response.body.token) && r.error.None?)
            && (response.Failure? ==> r.error.Some? && r.error.value != "" && Session(r) == Session(s))
  {
  }

  /** The store: the slice's state held in fields, one method per reducer case. */
  class AuthStore {
    var user: Option<User>
    var token: Option<string>
    var isAuthenticated: bool
    var loading: bool
    var error: Option<string>

    function State(): AuthState
      reads this
    {
      AuthState(user, token, isAuthenticated, loading, error)
    }

    ghost predicate Valid()
      reads this
    {
      SessionConsistent(State())
    }

    constructor ()
      ensures Valid() && State() == InitialState
    {
      user := None;
      token := None;
      isAuthenticated := false;
      loading := false;
      error := None;
    }

    method Logout()
      requires Valid()
      modifies this
      ensures Valid() && State() == Reduce(old(State()), AuthAction.Logout)
    {
      user := None;
      token := None;
      isAuthenticated := false;
      error := None;
    }

    method ClearError()
      requires Valid()
      modifies this
      ensures Valid() && State() == Reduce(old(State()), AuthAction.ClearError)
    {
      error := None;
    }

    /** The shared body of the three `.pending` cases. */
    method Pending(a: AuthAction)
      requires Valid() && a.IsPending()
      modifies this
      ensures Valid() && State() == Reduce(old(State()), a)
    {
      loading := true;
      error := None;
    }

    /** `login.fulfilled` and `register.fulfilled`. */
    method SignedIn(a: AuthAction)
      requires Valid() && (a.LoginFulfilled? || a.RegisterFulfilled?)
      modifies this
      ensures Valid() && State() == Reduce(old(State()), a)
    {
      loading := false;
      isAuthenticated := true;
      user := Some(a.response.user);
      token := Some(a.response.token);
    }

    method LoginRejected(payload: Option<string>)
      requires Valid()
      modifies this
      ensures Valid() && State() == Reduce(old(State()), AuthAction.LoginRejected(payload))
    {
      loading := false;
      error := Some(OrString(payload, LoginFailed));
    }

    method RegisterRejected(payload: Option<string>)
      requires Valid()
      modifies this
      ensures Valid() && State() == Reduce(old(State()), AuthAction.RegisterRejected(payload))
    {
      loading := false;
      error := Some(OrString(payload, RegistrationFailed));
    }

    method CurrentUserFulfilled(u: User)
      requires Valid()
      modifies this
      ensures Valid() && State() == Reduce(old(State()), AuthAction.CurrentUserFulfilled(u))
    {
      loading := false;
      user := Some(u);
    }

    method CurrentUserRejected(payload: Option<string>)
      requires Valid()
      modifies this
      ensures Valid() && State() == Reduce(old(State()), AuthAction.CurrentUserRejected(payload))
    {
      loading := false;
      error := Some(OrString(payload, FetchUserFailed));
      if payload == Some(InvalidToken) || payload == Some(TokenExpired) {
        user := None;
        token := None;
        isAuthenticated := false;
      }
    }
  }
}

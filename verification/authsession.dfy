/** The sign-in state the app shares through its context provider, as a state machine. A
    transition's asynchronous work (reading the store, the login call) is an input: the
    store it reads, or how the login call settled. */
module AuthSession {
  import opened Base
  import opened Api
  import Storage
  import Auth

  datatype AuthState = AuthState(
    isLoggedIn: bool,
    isLoading: bool,
    user: Option<Storage.UserData>,
    error: string,
    fieldErrors: seq<Auth.ValidationError>)

  /** The provider's initial `useState` values: signed out, still loading. */
  const Initial := AuthState(false, true, None, "", [])

  /** The invariant every transition keeps: signed in exactly when a profile is held. */
  predicate Consistent(st: AuthState) {
    st.isLoggedIn <==> st.user.Some?
  }

  /** `loadStoredAuth`: a session is restored only when both the token pair and the
      profile read back; otherwise nothing but the loading flag changes. Neither read can
      reject, so the `catch` block is unreachable and loading always ends. */
  function LoadStoredAuth(st: AuthState, store: Storage.Store, failingReads: set<string>,
                          decode: string -> Option<Storage.UserData>): (t: AuthState)
    ensures !t.isLoading
    ensures t.error == st.error && t.fieldErrors == st.fieldErrors
    ensures var found := Storage.GetTokens(store, failingReads).Some? && Storage.GetUser(store, failingReads, decode).Some?;
      (found ==> t.isLoggedIn && t.user == Storage.GetUser(store, failingReads, decode))
      && (!found ==> t == st.(isLoading := false))
  {
    var tokens := Storage.GetTokens(store, failingReads);
    var storedUser := Storage.GetUser(store, failingReads, decode);
    if tokens.Some? && storedUser.Some? then st.(user := storedUser, isLoggedIn := true, isLoading := false)
    else st.(isLoading := false)
  }

  /** `clearError`. */
  function ClearError(st: AuthState): (t: AuthState)
    ensures t.error == "" && t.fieldErrors == []
    ensures t.isLoggedIn == st.isLoggedIn && t.isLoading == st.isLoading && t.user == st.user
  {
    st.(error := "", fieldErrors := [])
  }

  /** What `login` resolves to. The error fields are absent on success. */
  datatype LoginResult = LoginResult(success: bool, error: Option<string>, fieldErrors: Option<seq<Auth.ValidationError>>)

  /** `login`: errors are cleared first; then the outcome of `loginUser` either signs in
      with the returned profile, or records `handleAuthError`'s message and field errors
      without touching the sign-in state. */
  function Login(st: AuthState, outcome: Result<Auth.AuthReply, Thrown>): (r: (AuthState, LoginResult))
    ensures r.0.isLoading == st.isLoading
    ensures outcome.Success? ==>
      r.0 == AuthState(true, st.isLoading, Some(outcome.value.user), "", []) && r.1 == LoginResult(true, None, None)
    ensures outcome.Failure? ==>
      var info := Auth.HandleAuthError(outcome.error);
      r.0.isLoggedIn == st.isLoggedIn && r.0.user == st.user
      && r.0.error == info.message && r.0.fieldErrors == info.fieldErrors
      && r.1 == LoginResult(false, Some(info.message), Some(info.fieldErrors))
  {
    var cleared := ClearError(st);
    match outcome
    case Success(reply) => (cleared.(user := Some(reply.user), isLoggedIn := true), LoginResult(true, None, None))
    case Failure(e) =>
      var handled := Auth.HandleAuthError(e);
      (cleared.(error := handled.message, fieldErrors := handled.fieldErrors),
       LoginResult(false, Some(handled.message), Some(handled.fieldErrors)))
  }

  /** `logout`: purely local. The store is cleared (which never rejects) and the session
      ends whatever happened; the error fields are left as they were. */
  function Logout(st: AuthState, store: Storage.Store, failingDeletes: set<string>): (r: (AuthState, Storage.Store))
    ensures !r.0.isLoggedIn && r.0.user.None?
    ensures r.0.isLoading == st.isLoading && r.0.error == st.error && r.0.fieldErrors == st.fieldErrors
    ensures r.1 == Storage.ClearAll(store, failingDeletes)
  {
    (st.(user := None, isLoggedIn := false), Storage.ClearAll(store, failingDeletes))
  }

  /** One thing that can happen to the provider, with the inputs its asynchronous work
      needs. */
  datatype Event =
    | Load(store: Storage.Store, failingReads: set<string>, decode: string -> Option<Storage.UserData>)
    | LoginSettled(outcome: Result<Auth.AuthReply, Thrown>)
    | LogoutEvent(store: Storage.Store, failingDeletes: set<string>)
    | ClearErrorEvent

  function Step(st: AuthState, e: Event): AuthState {
    match e
    case Load(store, failing, decode) => LoadStoredAuth(st, store, failing, decode)
    case LoginSettled(outcome) => Login(st, outcome).0
    case LogoutEvent(store, deletes) => Logout(st, store, deletes).0
    case ClearErrorEvent => ClearError(st)
  }

  function Run(st: AuthState, events: seq<Event>): AuthState
    decreases |events|
  {
    if events == [] then st else Run(Step(st, events[0]), events[1..])
  }

  lemma StepConsistent(st: AuthState, e: Event)
    requires Consistent(st)
    ensures Consistent(Step(st, e))
  {
  }

  /** From the initial state, however events interleave, the provider never claims a
      session without a profile, nor holds a profile while signed out. */
  lemma {:induction false} RunConsistent(st: AuthState, events: seq<Event>)
    requires Consistent(st)
    ensures Consistent(Run(st, events))
    decreases |events|
  {
    if events != [] {
      StepConsistent(st, events[0]);
      RunConsistent(Step(st, events[0]), events[1..]);
    }
  }

  lemma InitialConsistent()
    ensures Consistent(Initial) && !Initial.isLoggedIn && Initial.isLoading
    ensures Initial.error == "" && Initial.fieldErrors == []
  {
  }

  /** A successful sign-in survives an app restart: a fresh provider loading the store the
      login wrote comes up signed in with the same profile. */
  lemma LoginSurvivesRestart(payload: Auth.LoginPayload, reply: Auth.AuthReply, s: Storage.Store,
                             encode: Storage.UserData -> string, decode: string -> Option<Storage.UserData>,
                             faults: Storage.WriteFaults)
    requires Storage.Codec(encode, decode)
    requires Auth.LoginUser(payload, Success(reply), s, encode, faults).effect.outcome.Success?
    requires reply.tokens.accessToken != "" && reply.tokens.refreshToken != ""
    ensures var x := Auth.LoginUser(payload, Success(reply), s, encode, faults).effect;
      LoadStoredAuth(Initial, x.store, {}, decode) == Login(Initial, x.outcome).0.(isLoading := false)
  {
    Auth.PersistSessionReadsBack(Success(reply), s, encode, decode, faults);
  }

  /** After a sign-out whose deletes succeed, a restart comes up signed out. */
  lemma LogoutSurvivesRestart(st: AuthState, store: Storage.Store, decode: string -> Option<Storage.UserData>)
    ensures var r := Logout(st, store, {});
      !LoadStoredAuth(Initial, r.1, {}, decode).isLoggedIn
  {
    Storage.ClearAllLogsOut(store, {}, decode);
  }
}

/**
 * The session store: the login slice and the registration slice, the actions
 * that update them, and the error normalisation done by the two async thunks
 * `loginUser` and `registerUser` before they dispatch their rejection.
 *
 * Each slice is a class whose methods assign its fields in place, one method
 * per action. The pure reducers `LoginReduce` and `RegisterReduce` specify those
 * methods, and `LoginRun` / `RegisterRun` replay a sequence of dispatched actions
 * so that properties of whole sessions can be stated as lemmas.
 */
module AuthSlices {
  import opened Wrappers
  import opened AuthService

  // ---------------------------------------------------------------------------
  // Error normalisation in the thunks
  // ---------------------------------------------------------------------------

  const LoginFallback: string := "Failed to login"
  const RegisterFallback: string := "Failed to register"
  const NetworkErrorMessage: string := "Network error occurred"

  /** JavaScript truthiness of `error.response && error.response.data`. */
  predicate HasResponseData(e: CallFailure)
  {
    match e.response
    case None => false
    case Some(Missing) => false
    case Some(Text(t)) => t != ""
    case Some(Object(_)) => true
  }

  /** The failure carries a truthy string `message` in its response body, and that message is `s`. */
  predicate CarriesMessage(e: CallFailure, s: string)
  {
    e.response == Some(Object(Some(s))) && s != ""
  }

  /**
   * The value a thunk rejects with when its call failed: the server's message
   * when the reply has a body with a truthy `message`, `fallback` when the reply
   * has a body without one, and the network-error text when there is no body.
   */
  function RejectMessage(e: CallFailure, fallback: string): (m: string)
    requires fallback != ""
    ensures m != ""
    ensures !HasResponseData(e) ==> m == NetworkErrorMessage
    ensures HasResponseData(e) ==> m == fallback || CarriesMessage(e, m)
    ensures forall s {:trigger CarriesMessage(e, s)} :: CarriesMessage(e, s) ==> m == s
  {
    if HasResponseData(e) then
      match e.response.value
      case Object(Some(s)) => if s != "" then s else fallback
      case _ => fallback
    else
      NetworkErrorMessage
  }

  /** The actions of the login slice: its two reducers and the three lifecycle cases of `loginUser`. */
  datatype LoginAction =
    | Logout
    | ClearLoginError
    | LoginPending
    | LoginFulfilled(response: LoginResponse)
    | LoginRejected(payload: string)

  /** The actions of the registration slice: its two reducers and the three lifecycle cases of `registerUser`. */
  datatype RegisterAction =
    | ClearRegisterError
    | ResetState
    | RegisterPending
    | RegisterFulfilled
    | RegisterRejected(payload: string)

  /** The action `loginUser` dispatches once its call has resolved. */
  function LoginUserSettles(call: LoginCall): (a: LoginAction)
    ensures a.LoginFulfilled? || a.LoginRejected?
    ensures a.LoginFulfilled? <==> call.Success?
    ensures a.LoginFulfilled? ==> a.response == call.value
    ensures a.LoginRejected? ==> a.payload != ""
    ensures a.LoginRejected? && !HasResponseData(call.error) ==> a.payload == NetworkErrorMessage
    ensures a.LoginRejected? && HasResponseData(call.error) ==>
              a.payload == LoginFallback || CarriesMessage(call.error, a.payload)
    ensures a.LoginRejected? ==>
              forall s {:trigger CarriesMessage(call.error, s)} :: CarriesMessage(call.error, s) ==> a.payload == s
  {
    match call
    case Success(r) => LoginFulfilled(r)
    case Failure(e) => LoginRejected(RejectMessage(e, LoginFallback))
  }

  /** The action `registerUser` dispatches once its call has resolved. */
  function RegisterUserSettles(call: RegisterCall): (a: RegisterAction)
    ensures a.RegisterFulfilled? || a.RegisterRejected?
    ensures a.RegisterFulfilled? <==> call.Success?
    ensures a.RegisterRejected? ==> a.payload != ""
    ensures a.RegisterRejected? && !HasResponseData(call.error) ==> a.payload == NetworkErrorMessage
    ensures a.RegisterRejected? && HasResponseData(call.error) ==>
              a.payload == RegisterFallback || CarriesMessage(call.error, a.payload)
    ensures a.RegisterRejected? ==>
              forall s {:trigger CarriesMessage(call.error, s)} :: CarriesMessage(call.error, s) ==> a.payload == s
  {
    match call
    case Success(_) => RegisterFulfilled
    case Failure(e) => RegisterRejected(RejectMessage(e, RegisterFallback))
  }

  /** The two thunks map a failure to the same message except where the fallback text applies. */
  lemma ThunksDifferOnlyInFallback(e: CallFailure)
    ensures RejectMessage(e, LoginFallback) == RejectMessage(e, RegisterFallback)
        <==> !HasResponseData(e) || exists s :: CarriesMessage(e, s)
  {
  }

  // ---------------------------------------------------------------------------
  // Login slice
  // ---------------------------------------------------------------------------

  /** The login slice's state as a value. */
  datatype LoginState = LoginState(token: Option<string>, isAuthenticated: bool, isLoading: bool, error: Option<string>)

  const InitialLoginState: LoginState := LoginState(None, false, false, None)

  /** The invariant the login slice keeps: authenticated exactly when a token is held. */
  predicate SessionConsistent(s: LoginState)
  {
    s.isAuthenticated == s.token.Some?
  }

  /** The login slice's reducer: the state after `a` is dispatched in state `s`. */
  function LoginReduce(s: LoginState, a: LoginAction): LoginState
  {
    match a
    case Logout => s.(token := None, isAuthenticated := false, error := None)
    case ClearLoginError => s.(error := None)
    case LoginPending => s.(isLoading := true, error := None)
    case LoginFulfilled(r) => s.(isLoading := false, token := Some(r.data.token), isAuthenticated := true)
    case LoginRejected(m) => s.(isLoading := false, error := Some(m))
  }

  /** The state after dispatching `acts` in order, starting in `s`. */
  function LoginRun(s: LoginState, acts: seq<LoginAction>): LoginState
    decreases |acts|
  {
    if acts == [] then s else LoginRun(LoginReduce(s, acts[0]), acts[1..])
  }

  lemma InitialLoginConsistent()
    ensures SessionConsistent(InitialLoginState)
    ensures !InitialLoginState.isAuthenticated && !InitialLoginState.isLoading
  {
  }

  /** Every login action keeps the session consistent. */
  lemma LoginReduceConsistent(s: LoginState, a: LoginAction)
    requires SessionConsistent(s)
    ensures SessionConsistent(LoginReduce(s, a))
  {
  }

  /** Any sequence of login actions keeps the session consistent. */
  lemma {:induction false} LoginRunConsistent(s: LoginState, acts: seq<LoginAction>)
    requires SessionConsistent(s)
    ensures SessionConsistent(LoginRun(s, acts))
    decreases |acts|
  {
    if acts != [] {
      LoginReduceConsistent(s, acts[0]);
      LoginRunConsistent(LoginReduce(s, acts[0]), acts[1..]);
    }
  }

  /** Every state reachable from the initial one is consistent. */
  lemma ReachableLoginConsistent(acts: seq<LoginAction>)
    ensures SessionConsistent(LoginRun(InitialLoginState, acts))
  {
    InitialLoginConsistent();
    LoginRunConsistent(InitialLoginState, acts);
  }

  /** Pending starts loading and clears the error; the session fields are left as they were. */
  lemma LoginPendingEffect(s: LoginState)
    ensures LoginReduce(s, LoginPending).isLoading
    ensures LoginReduce(s, LoginPending).error == None
    ensures LoginReduce(s, LoginPending).token == s.token
    ensures LoginReduce(s, LoginPending).isAuthenticated == s.isAuthenticated
  {
  }

  /**
   * Fulfilled makes the session consistent from any state, even an inconsistent one,
   * holding exactly the reply's token; the error is whatever it was before.
   */
  lemma LoginFulfilledEffect(s: LoginState, r: LoginResponse)
    ensures SessionConsistent(LoginReduce(s, LoginFulfilled(r)))
    ensures LoginReduce(s, LoginFulfilled(r)).token == Some(r.data.token)
    ensures !LoginReduce(s, LoginFulfilled(r)).isLoading
    ensures LoginReduce(s, LoginFulfilled(r)).error == s.error
  {
  }

  /** A login that goes pending and then succeeds ends authenticated, idle and without error, whatever came before. */
  lemma PendingThenFulfilled(s: LoginState, r: LoginResponse)
    ensures LoginRun(s, [LoginPending, LoginFulfilled(r)]) == LoginState(Some(r.data.token), true, false, None)
  {
    var acts := [LoginPending, LoginFulfilled(r)];
    var p := LoginReduce(s, LoginPending);
    assert acts[1..] == [LoginFulfilled(r)];
    assert LoginRun(s, acts) == LoginRun(p, [LoginFulfilled(r)]);
    assert [LoginFulfilled(r)][1..] == [];
  }

  /**
   * Rejected records the payload and ends loading without touching the session, so it
   * neither makes nor breaks consistency.
   */
  lemma LoginRejectedEffect(s: LoginState, m: string)
    ensures SessionConsistent(LoginReduce(s, LoginRejected(m))) <==> SessionConsistent(s)
    ensures LoginReduce(s, LoginRejected(m)).token == s.token
    ensures LoginReduce(s, LoginRejected(m)).isAuthenticated == s.isAuthenticated
    ensures LoginReduce(s, LoginRejected(m)).error == Some(m)
    ensures !LoginReduce(s, LoginRejected(m)).isLoading
  {
  }

  /** A failed login attempt made while signed in leaves the session signed in. */
  lemma RejectionKeepsSession(s: LoginState, m: string)
    requires s.isAuthenticated
    ensures LoginRun(s, [LoginPending, LoginRejected(m)]).isAuthenticated
    ensures LoginRun(s, [LoginPending, LoginRejected(m)]).token == s.token
    ensures LoginRun(s, [LoginPending, LoginRejected(m)]).error == Some(m)
  {
    var p := LoginReduce(s, LoginPending);
    assert [LoginPending, LoginRejected(m)][1..] == [LoginRejected(m)];
    assert [LoginRejected(m)][1..] == [];
    assert LoginRun(s, [LoginPending, LoginRejected(m)]) == LoginRun(p, [LoginRejected(m)]);
  }

  /** Loading and authenticated can hold together: a second login started while signed in. */
  lemma LoadingWhileAuthenticated(s: LoginState)
    requires s.isAuthenticated
    ensures LoginReduce(s, LoginPending).isAuthenticated && LoginReduce(s, LoginPending).isLoading
  {
  }

  /** Logout clears the session and the error but not `isLoading`; from an idle state it restores the initial state. */
  lemma LogoutEffect(s: LoginState)
    ensures LoginReduce(s, Logout) == InitialLoginState.(isLoading := s.isLoading)
    ensures !s.isLoading ==> LoginReduce(s, Logout) == InitialLoginState
  {
  }

  /** A reply that resolves after a logout still authenticates: the last action applied wins. */
  lemma LateFulfilmentAfterLogout(s: LoginState, r: LoginResponse)
    ensures LoginRun(s, [LoginPending, Logout, LoginFulfilled(r)]).isAuthenticated
    ensures LoginRun(s, [LoginPending, Logout, LoginFulfilled(r)]).token == Some(r.data.token)
  {
    var acts := [LoginPending, Logout, LoginFulfilled(r)];
    var p := LoginReduce(s, LoginPending);
    var q := LoginReduce(p, Logout);
    assert acts[1..] == [Logout, LoginFulfilled(r)];
    assert acts[1..][1..] == [LoginFulfilled(r)];
    assert [LoginFulfilled(r)][1..] == [];
    assert LoginRun(s, acts) == LoginRun(q, [LoginFulfilled(r)]);
  }

  /** The login flow end to end: a gateway reply with token "abc123" leaves the store signed in with that token. */
  lemma LoginScenario(ts: string)
    ensures LoginRun(InitialLoginState,
                     [LoginPending, LoginUserSettles(Success(LoginResponse(ts, LoginData("abc123"))))])
         == LoginState(Some("abc123"), true, false, None)
  {
    PendingThenFulfilled(InitialLoginState, LoginResponse(ts, LoginData("abc123")));
  }

  /** The login slice as the store holds it: four fields updated in place by one method per action. */
  class LoginSlice {
    var token: Option<string>
    var isAuthenticated: bool
    var isLoading: bool
    var error: Option<string>

    /** The slice's fields as a value. */
    function State(): LoginState
      reads this
    {
      LoginState(token, isAuthenticated, isLoading, error)
    }

    ghost predicate Valid()
      reads this
    {
      SessionConsistent(State())
    }

    constructor ()
      ensures State() == InitialLoginState
      ensures Valid()
    {
      token, isAuthenticated, isLoading, error := None, false, false, None;
    }

    method Logout()
      modifies this
      ensures token == None && !isAuthenticated && error == None
      ensures isLoading == old(isLoading)
      ensures State() == LoginReduce(old(State()), LoginAction.Logout)
      ensures Valid()
    {
      token := None;
      isAuthenticated := false;
      error := None;
    }

    method ClearLoginError()
      modifies this
      ensures error == None
      ensures token == old(token) && isAuthenticated == old(isAuthenticated) && isLoading == old(isLoading)
      ensures State() == LoginReduce(old(State()), LoginAction.ClearLoginError)
      ensures old(Valid()) ==> Valid()
    {
      error := None;
    }

    method Pending()
      modifies this
      ensures isLoading && error == None
      ensures token == old(token) && isAuthenticated == old(isAuthenticated)
      ensures State() == LoginReduce(old(State()), LoginPending)
      ensures old(Valid()) ==> Valid()
    {
      isLoading := true;
      error := None;
    }

    method Fulfilled(response: LoginResponse)
      modifies this
      ensures !isLoading && token == Some(response.data.token) && isAuthenticated
      ensures error == old(error)
      ensures State() == LoginReduce(old(State()), LoginFulfilled(response))
      ensures Valid()
    {
      isLoading := false;
      token := Some(response.data.token);
      isAuthenticated := true;
    }

    method Rejected(payload: string)
      modifies this
      ensures !isLoading && error == Some(payload)
      ensures token == old(token) && isAuthenticated == old(isAuthenticated)
      ensures State() == LoginReduce(old(State()), LoginRejected(payload))
      ensures old(Valid()) ==> Valid()
    {
      isLoading := false;
      error := Some(payload);
    }
  }

  // ---------------------------------------------------------------------------
  // Registration slice
  // ---------------------------------------------------------------------------

  /** The registration slice's state as a value. */
  datatype RegisterState = RegisterState(isRegistered: bool, isLoading: bool, error: Option<string>)

  const InitialRegisterState: RegisterState := RegisterState(false, false, None)

  /** The registration slice's reducer: the state after `a` is dispatched in state `s`. */
  function RegisterReduce(s: RegisterState, a: RegisterAction): RegisterState
  {
    match a
    case ClearRegisterError => s.(error := None)
    case ResetState => s.(isRegistered := false, isLoading := false, error := None)
    case RegisterPending => s.(isLoading := true, error := None)
    case RegisterFulfilled => s.(isLoading := false, isRegistered := true)
    case RegisterRejected(m) => s.(isLoading := false, error := Some(m))
  }

  /** The state after dispatching `acts` in order, starting in `s`. */
  function RegisterRun(s: RegisterState, acts: seq<RegisterAction>): RegisterState
    decreases |acts|
  {
    if acts == [] then s else RegisterRun(RegisterReduce(s, acts[0]), acts[1..])
  }

  /** Reset restores exactly the initial state, whatever the state before. */
  lemma ResetYieldsInitial(s: RegisterState)
    ensures RegisterReduce(s, ResetState) == InitialRegisterState
  {
  }

  /** Fulfilled registers and ends loading; pending and rejected leave `isRegistered` as it was. */
  lemma RegisterLifecycleEffect(s: RegisterState, m: string)
    ensures RegisterReduce(s, RegisterFulfilled).isRegistered && !RegisterReduce(s, RegisterFulfilled).isLoading
    ensures RegisterReduce(s, RegisterPending).isRegistered == s.isRegistered
    ensures RegisterReduce(s, RegisterRejected(m)).isRegistered == s.isRegistered
  {
  }

  /** Only a reset takes `isRegistered` from true to false. */
  lemma OnlyResetUnregisters(s: RegisterState, a: RegisterAction)
    requires s.isRegistered && !RegisterReduce(s, a).isRegistered
    ensures a == ResetState
  {
  }

  /** Once registered, the slice stays registered through any actions that do not include a reset. */
  lemma {:induction false} RegisteredUntilReset(s: RegisterState, acts: seq<RegisterAction>)
    requires s.isRegistered
    requires forall i :: 0 <= i < |acts| ==> acts[i] != ResetState
    ensures RegisterRun(s, acts).isRegistered
    decreases |acts|
  {
    if acts != [] {
      assert acts[0] != ResetState;
      var t := RegisterReduce(s, acts[0]);
      assert forall i :: 0 <= i < |acts[1..]| ==> acts[1..][i] == acts[i + 1];
      RegisteredUntilReset(t, acts[1..]);
    }
  }

  /** The registration flow end to end: a reply `{message: "email taken"}` leaves the slice unregistered with that error. */
  lemma RegisterScenario()
    ensures RegisterRun(InitialRegisterState,
                        [RegisterPending, RegisterUserSettles(Failure(CallFailure(Some(Object(Some("email taken"))))))])
         == RegisterState(false, false, Some("email taken"))
  {
  }

  /** The registration slice as the store holds it. */
  class RegisterSlice {
    var isRegistered: bool
    var isLoading: bool
    var error: Option<string>

    /** The slice's fields as a value. */
    function State(): RegisterState
      reads this
    {
      RegisterState(isRegistered, isLoading, error)
    }

    constructor ()
      ensures State() == InitialRegisterState
    {
      isRegistered, isLoading, error := false, false, None;
    }

    method ClearRegisterError()
      modifies this
      ensures error == None
      ensures isRegistered == old(isRegistered) && isLoading == old(isLoading)
      ensures State() == RegisterReduce(old(State()), RegisterAction.ClearRegisterError)
    {
      error := None;
    }

    method ResetState()
      modifies this
      ensures State() == InitialRegisterState
      ensures State() == RegisterReduce(old(State()), RegisterAction.ResetState)
    {
      isRegistered := false;
      isLoading := false;
      error := None;
    }

    method Pending()
      modifies this
      ensures isLoading && error == None
      ensures isRegistered == old(isRegistered)
      ensures State() == RegisterReduce(old(State()), RegisterPending)
    {
      isLoading := true;
      error := None;
    }

    method Fulfilled()
      modifies this
      ensures !isLoading && isRegistered
      ensures error == old(error)
      ensures State() == RegisterReduce(old(State()), RegisterFulfilled)
    {
      isLoading := false;
      isRegistered := true;
    }

    method Rejected(payload: string)
      modifies this
      ensures !isLoading && error == Some(payload)
      ensures isRegistered == old(isRegistered)
      ensures State() == RegisterReduce(old(State()), RegisterRejected(payload))
    {
      isLoading := false;
      error := Some(payload);
    }
  }
}

/** The login screen's view model (the `auth/ui` revision). A login
    attempt is modelled as the states it publishes, the requests it issues
    and the session store it leaves behind. */
module AuthLogin {
  import opened Kotlin
  import opened Models
  import opened Session
  import opened Gateway
  import RemoteSource

  datatype LoginState = Idle | Loading | Success(response: LoginResponse) | Error(message: string)

  /** The state before any attempt. */
  const Initial: LoginState := Idle

  const MissingCredentials := "Usuario y contraseña obligatorios"
  const LoginFailed := "Login fallido"
  const NetworkError := "Error de red"

  /** One login attempt: the states published, in order, the requests
      issued, and the session store afterwards. */
  datatype Attempt = Attempt(states: seq<LoginState>, calls: seq<Request>, store: Prefs)

  /** The tuple `saveSession` receives on a successful login: the server's
      token, login name, user id and role, each `""` when absent. */
  function SavedSession(resp: LoginResponse): SessionData {
    SessionData(Some(OrEmpty(resp.token)), Some(OrEmpty(resp.login)), Some(OrEmpty(resp.userId)), Some(OrEmpty(resp.rol)))
  }

  function Login(store: Prefs, gw: Backend, username: string, password: string): (r: Attempt)
    // blank input: an error, no Loading, no request, no session write
    ensures IsBlank(username) || IsBlank(password) ==> r == Attempt([Error(MissingCredentials)], [], store)
    ensures !IsBlank(username) && !IsBlank(password) ==>
      var reply := gw.login(LoginRequest(username, password));
      && |r.states| == 2 && r.states[0] == Loading
      && r.calls == [Request.Login(LoginRequest(username, password))]
      && (r.states[1].Success? <==> reply.Returned? && reply.value.ok)
      && (r.states[1].Success? ==> r.states[1].response == reply.value && Read(r.store) == SavedSession(reply.value))
      && (r.states[1].Success? ==> forall k :: k in store && k !in SessionKeys ==> k in r.store && r.store[k] == store[k])
      && (!r.states[1].Success? ==> r.store == store && r.states[1].Error?)
      && (reply.Returned? && !reply.value.ok ==> r.states[1] == Error(reply.value.error.OrElse(LoginFailed)))
      && (reply.Thrown? ==> r.states[1] == Error(ErrorText(reply.message, NetworkError)))
  {
    if IsBlank(username) || IsBlank(password) then
      Attempt([Error(MissingCredentials)], [], store)
    else
      var call := RemoteSource.Login(gw, username, password);
      match call.outcome
      case Thrown(m) => Attempt([Loading, Error(ErrorText(m, NetworkError))], call.calls, store)
      case Returned(resp) =>
        if resp.ok then
          var saved := Save(store, OrEmpty(resp.token), OrEmpty(resp.login), OrEmpty(resp.userId), OrEmpty(resp.rol));
          Attempt([Loading, Success(resp)], call.calls, saved)
        else
          Attempt([Loading, Error(resp.error.OrElse(LoginFailed))], call.calls, store)
  }

  /** The stored username is the server's login name, not what was typed. */
  lemma StoredUsernameIsServerLogin(store: Prefs, gw: Backend, username: string, password: string)
    requires !IsBlank(username) && !IsBlank(password)
    requires gw.login(LoginRequest(username, password)).Returned?
    requires gw.login(LoginRequest(username, password)).value.ok
    ensures Read(Login(store, gw, username, password).store).username
         == Some(OrEmpty(gw.login(LoginRequest(username, password)).value.login))
  {
  }
}

/** The older login view model (the `ui/login` revision): the same control
    flow, but its success state carries no payload. */
module UiLogin {
  import opened Kotlin
  import opened Models
  import opened Session
  import opened Gateway
  import RemoteSource
  import AuthLogin

  datatype LoginUiState = Idle | Loading | Success | Error(message: string)

  const Initial: LoginUiState := Idle

  datatype Attempt = Attempt(states: seq<LoginUiState>, calls: seq<Request>, store: Prefs)

  function Login(store: Prefs, gw: Backend, username: string, password: string): (r: Attempt)
    ensures IsBlank(username) || IsBlank(password) ==> r == Attempt([Error(AuthLogin.MissingCredentials)], [], store)
    ensures !IsBlank(username) && !IsBlank(password) ==>
      var reply := gw.login(LoginRequest(username, password));
      && |r.states| == 2 && r.states[0] == Loading
      && r.calls == [Request.Login(LoginRequest(username, password))]
      && (r.states[1] == Success <==> reply.Returned? && reply.value.ok)
      && (r.states[1] == Success ==> Read(r.store) == AuthLogin.SavedSession(reply.value))
      && (r.states[1] != Success ==> r.store == store)
  {
    if IsBlank(username) || IsBlank(password) then
      Attempt([Error(AuthLogin.MissingCredentials)], [], store)
    else
      var call := RemoteSource.Login(gw, username, password);
      match call.outcome
      case Thrown(m) => Attempt([Loading, Error(ErrorText(m, AuthLogin.NetworkError))], call.calls, store)
      case Returned(resp) =>
        if resp.ok then
          var saved := Save(store, OrEmpty(resp.token), OrEmpty(resp.login), OrEmpty(resp.userId), OrEmpty(resp.rol));
          Attempt([Loading, Success], call.calls, saved)
        else
          Attempt([Loading, Error(resp.error.OrElse(AuthLogin.LoginFailed))], call.calls, store)
  }

  /** The state of the newer revision with the success payload dropped. */
  function Forget(s: AuthLogin.LoginState): LoginUiState {
    match s
    case Idle => Idle
    case Loading => Loading
    case Success(_) => Success
    case Error(m) => Error(m)
  }

  /** The two revisions publish the same states up to the success payload,
      issue the same requests and leave the same session. */
  lemma AgreesWithAuthLogin(store: Prefs, gw: Backend, username: string, password: string)
    ensures var a := AuthLogin.Login(store, gw, username, password);
            var b := Login(store, gw, username, password);
            && |a.states| == |b.states|
            && (forall i :: 0 <= i < |a.states| ==> Forget(a.states[i]) == b.states[i])
            && a.calls == b.calls && a.store == b.store
  {
  }
}

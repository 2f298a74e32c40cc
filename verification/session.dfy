/** The session over the browser's key/value storage: the authentication service,
    the route guard, and the login page. */
module Session {
  import opened Wrappers

  /** The browser's local storage. */
  type Store = map<string, string>

  const TokenKey := "jwt_token"
  const UserKey := "user_data"
  const PendingKey := "pending_route"

  /** `localStorage.getItem(key)`. */
  function GetItem(store: Store, key: string): (r: Option<string>)
    ensures r.Some? <==> key in store
    ensures r.Some? ==> r.value == store[key]
  {
    if key in store then Some(store[key]) else None
  }

  /** A stored value that is present and not empty, as `if (value)` reads it. */
  predicate Has(store: Store, key: string) {
    key in store && store[key] != ""
  }

  /** The login answer: whether `status` is truthy, the token (missing, `null` or
      a text) and the answer serialized as JSON. */
  datatype LoginReply = LoginReply(status: bool, jwt: Field<string>, json: string)

  /** The text `setItem` stores for the token, which converts its value to a string:
      a missing token is stored as "undefined" and a `null` one as "null". */
  function TokenText(jwt: Field<string>): (r: string)
    ensures jwt.Present? ==> r == jwt.value
    ensures jwt.Absent? ==> r == "undefined"
    ensures jwt.Null? ==> r == "null"
    ensures !jwt.Present? ==> r != ""
  {
    match jwt
    case Absent => "undefined"
    case Null => "null"
    case Present(t) => t
  }

  /** `storeAuthData`, and the store writes of the login page's success path. */
  function StoreAuthData(store: Store, reply: LoginReply): (r: Store)
    ensures r.Keys == store.Keys + {TokenKey, UserKey}
    ensures r[TokenKey] == TokenText(reply.jwt) && r[UserKey] == reply.json
    ensures forall k :: k in store && k != TokenKey && k != UserKey ==> r[k] == store[k]
  {
    store[TokenKey := TokenText(reply.jwt)][UserKey := reply.json]
  }

  // ------------------------------------------------------- auth service

  /** The service: the storage and the authenticated flag it publishes. */
  datatype AuthState = AuthState(store: Store, authenticated: bool)

  /** `checkAuthState`, run when the service is created. */
  function CheckAuthState(store: Store): (s: AuthState)
    ensures s.store == store
    ensures s.authenticated <==> Has(store, TokenKey)
  {
    AuthState(store, Has(store, TokenKey))
  }

  /** `isAuthenticated`. */
  function IsAuthenticated(s: AuthState): bool {
    s.authenticated
  }

  /** The service's `login` once the answer arrives: the state and the route it navigates to. */
  function Login(s: AuthState, reply: LoginReply): (r: (AuthState, Option<string>))
    ensures reply.status ==> r == (AuthState(StoreAuthData(s.store, reply), true), Some("/home"))
    ensures !reply.status ==> r == (s, None)
  {
    if reply.status then (AuthState(StoreAuthData(s.store, reply), true), Some("/home")) else (s, None)
  }

  /** `logout`: both keys removed, the flag off, the login route. */
  function Logout(s: AuthState): (r: (AuthState, string))
    ensures TokenKey !in r.0.store && UserKey !in r.0.store && !r.0.authenticated
    ensures forall k :: k != TokenKey && k != UserKey ==> (k in r.0.store <==> k in s.store)
    ensures forall k :: k in r.0.store ==> r.0.store[k] == s.store[k]
    ensures r.1 == "/login"
  {
    (AuthState(s.store - {TokenKey, UserKey}, false), "/login")
  }

  /** `getToken`. */
  function GetToken(s: AuthState): (r: Option<string>)
    ensures r.Some? <==> TokenKey in s.store
    ensures r.Some? ==> r.value == s.store[TokenKey]
  {
    GetItem(s.store, TokenKey)
  }

  /** After logging out, a restarted service sees no user, and no token is handed out. */
  lemma LogoutForgetsUser(s: AuthState)
    ensures !CheckAuthState(Logout(s).0.store).authenticated
    ensures GetToken(Logout(s).0).None?
  {
  }

  /** After a successful login a restarted service sees the user exactly when the
      token text is not empty; a missing token still counts, as "undefined". */
  lemma LoginSurvivesRestart(s: AuthState, reply: LoginReply)
    requires reply.status
    ensures CheckAuthState(Login(s, reply).0.store).authenticated <==> TokenText(reply.jwt) != ""
    ensures GetToken(Login(s, reply).0) == Some(TokenText(reply.jwt))
  {
  }

  // -------------------------------------------------------------- guard

  /** `canActivate`: the decision, the storage afterwards, and the redirect. */
  function CanActivate(store: Store, url: string): (r: (bool, Store, Option<string>))
    ensures r.0 <==> Has(store, TokenKey)
    ensures r.0 ==> r.1 == store && r.2.None?
    ensures !r.0 ==> r.1 == store[PendingKey := url] && r.2 == Some("/login")
  {
    if Has(store, TokenKey) then (true, store, None)
    else (false, store[PendingKey := url], Some("/login"))
  }

  /** The decision depends only on the token: two stores with the same token decide alike. */
  lemma GuardDependsOnTokenOnly(a: Store, b: Store, url1: string, url2: string)
    requires GetItem(a, TokenKey) == GetItem(b, TokenKey)
    ensures CanActivate(a, url1).0 == CanActivate(b, url2).0
  {
  }

  // --------------------------------------------------------- login page

  /** What the login form holds. */
  datatype LoginForm = LoginForm(email: string, password: string, valid: bool)

  /** The body sent: the email goes as `username`. */
  datatype LoginRequest = LoginRequest(username: string, password: string)

  /** The answer the page gets: a reply, or a failed request of any kind (no
      connection, or an HTTP error status). */
  datatype PageReply = Replied(reply: LoginReply) | RequestFailed

  /** Where the page ends up. */
  datatype LoginOutcome = NotSent | ShowError(message: string) | Navigate(route: string) | CloseModal(authenticated: bool)

  /** `onSubmit` of the login page: the storage afterwards, the request sent, and the outcome. */
  function SubmitLogin(store: Store, isModal: bool, form: LoginForm, reply: PageReply): (r: (Store, Option<LoginRequest>, LoginOutcome))
    ensures !form.valid ==> r == (store, None, NotSent)
    ensures form.valid ==> r.1 == Some(LoginRequest(form.email, form.password))
    ensures form.valid && reply.RequestFailed? ==> r.0 == store && r.2 == ShowError("Error al conectar con el servidor")
    ensures form.valid && reply.Replied? && !reply.reply.status ==> r.0 == store && r.2 == ShowError("Credenciales incorrectas")
    ensures form.valid && reply.Replied? && reply.reply.status && isModal ==>
      r == (StoreAuthData(store, reply.reply), Some(LoginRequest(form.email, form.password)), CloseModal(true))
    ensures form.valid && reply.Replied? && reply.reply.status && !isModal ==>
      var stored := StoreAuthData(store, reply.reply);
      if Has(stored, PendingKey) then r.0 == stored - {PendingKey} && r.2 == Navigate(stored[PendingKey])
      else r.0 == stored && r.2 == Navigate("/home")
  {
    if !form.valid then (store, None, NotSent)
    else
      var request := Some(LoginRequest(form.email, form.password));
      match reply
      case RequestFailed => (store, request, ShowError("Error al conectar con el servidor"))
      case Replied(answer) =>
        if !answer.status then (store, request, ShowError("Credenciales incorrectas"))
        else
          var stored := StoreAuthData(store, answer);
          if isModal then (stored, request, CloseModal(true))
          else match GetItem(stored, PendingKey)
            case Some(route) =>
              if route != "" then (stored - {PendingKey}, request, Navigate(route))
              else (stored, request, Navigate("/home"))
            case None => (stored, request, Navigate("/home"))
  }

  /** A visitor stopped by the guard lands, after logging in on the page, on the
      address they tried to open; the pending address is then gone and the token stored. */
  lemma GuardThenLoginReturns(store: Store, url: string, form: LoginForm, reply: LoginReply)
    requires !Has(store, TokenKey) && url != ""
    requires form.valid && reply.status
    ensures var guarded := CanActivate(store, url).1;
      var after := SubmitLogin(guarded, false, form, Replied(reply));
      && after.2 == Navigate(url)
      && PendingKey !in after.0
      && after.0[TokenKey] == TokenText(reply.jwt)
  {
    var guarded := CanActivate(store, url).1;
    var stored := StoreAuthData(guarded, reply);
    assert stored[PendingKey] == url;
  }

  /** Logging in through the modal leaves the pending address in place. */
  lemma ModalKeepsPending(store: Store, form: LoginForm, reply: LoginReply)
    requires form.valid && reply.status && PendingKey in store
    ensures var after := SubmitLogin(store, true, form, Replied(reply)).0;
      PendingKey in after && after[PendingKey] == store[PendingKey]
  {
  }
}

/** The session state of `src/providers/auth-context.tsx`: restore from local storage at
    mount, log in through the login endpoint, log out. Its keys (`auth_token`,
    `auth_user`, `auth_refresh_token`) are a store of their own, separate from the
    `access_token`/`refresh_token` pair of `src/lib/auth.ts`; only `auth_token` is read
    by the API client. */
module AuthProvider {
  import opened Wrappers
  import opened Json
  import ApiClient
  import AuthTokens

  const TokenKey: string := "auth_token"
  const UserKey: string := "auth_user"
  const RefreshKey: string := "auth_refresh_token"
  const LoginFailed: string := "Login failed"
  /** What `localStorage.setItem` stores for an undefined value. */
  const UndefinedText: string := "undefined"

  /** The provider's React state together with the local storage it reads and writes.
      `user` is JNull while nobody is signed in. */
  datatype AuthState = AuthState(storage: map<string, string>, token: Option<string>, user: Json, isLoading: bool)

  /** The state of a freshly mounted provider. */
  function Initial(storage: map<string, string>): AuthState {
    AuthState(storage, None, JNull, true)
  }

  /** `isAuthenticated: !!token`. */
  predicate IsAuthenticated(s: AuthState) {
    s.token.Some? && s.token.value != ""
  }

  /** `localStorage.getItem(key)`, with "truthy" meaning present and non-empty. */
  function Stored(storage: map<string, string>, key: string): (v: Option<string>)
    ensures v.Some? <==> key in storage && storage[key] != ""
    ensures v.Some? ==> v.value == storage[key]
  {
    if key in storage && storage[key] != "" then Some(storage[key]) else None
  }

  /** The restore effect. `parse` is `JSON.parse` (None when it throws). `setToken` runs
      before the user is parsed, so an unparsable user still leaves the token set while
      both keys are removed from storage. */
  function Boot(s: AuthState, parse: string -> Option<Json>): (r: AuthState)
    ensures !r.isLoading
    ensures (Stored(s.storage, TokenKey).None? || Stored(s.storage, UserKey).None?) ==> r == s.(isLoading := false)
    ensures Stored(s.storage, TokenKey).Some? && Stored(s.storage, UserKey).Some? ==>
              r.token == Stored(s.storage, TokenKey)
    ensures Stored(s.storage, TokenKey).Some? && Stored(s.storage, UserKey).Some? && parse(s.storage[UserKey]).Some? ==>
              r == AuthState(s.storage, Some(s.storage[TokenKey]), parse(s.storage[UserKey]).value, false)
    ensures Stored(s.storage, TokenKey).Some? && Stored(s.storage, UserKey).Some? && parse(s.storage[UserKey]).None? ==>
              r == AuthState(s.storage - {TokenKey, UserKey}, Some(s.storage[TokenKey]), s.user, false)
  {
    var storedToken := Stored(s.storage, TokenKey);
    var storedUser := Stored(s.storage, UserKey);
    if storedToken.Some? && storedUser.Some? then
      var withToken := s.(token := storedToken);
      match parse(storedUser.value)
      case Some(u) => withToken.(user := u, isLoading := false)
      case None => withToken.(storage := s.storage - {TokenKey} - {UserKey}, isLoading := false)
    else s.(isLoading := false)
  }

  /** How the login request ended. For a 2xx body that is not `null`, `access` and
      `refresh` are its properties (None when undefined) and `userText` is the text
      `localStorage.setItem` receives from `JSON.stringify(data.user)`. */
  datatype LoginOutcome =
    | Accepted(access: Option<string>, refresh: Option<string>, user: Json, userText: string)
    | AcceptedNull                  // 2xx whose body is `null`: reading `data.access` throws
    | Refused(body: Option<Json>)   // non-2xx; None when the body is not JSON
    | Unreadable                    // 2xx whose body is not JSON

  /** How the promise returned by `login` settles. */
  datatype LoginResult = LoggedIn | LoginError(message: string) | LoginTypeError | LoginSyntaxError

  /** `error.message || error.detail || 'Login failed'`, where an unparsable body is `{}`. */
  function RefusalMessage(body: Json): (msg: string)
    ensures body.JObj? && DefinedTruthy(Field(body, "message")) ==> msg == ToJsString(body.fields["message"])
    ensures body.JObj? && !DefinedTruthy(Field(body, "message")) && DefinedTruthy(Field(body, "detail"))
            ==> msg == ToJsString(body.fields["detail"])
    ensures !DefinedTruthy(Field(body, "message")) && !DefinedTruthy(Field(body, "detail")) ==> msg == LoginFailed
  {
    ToJsString(Or(Field(body, "message"), Or(Field(body, "detail"), JStr(LoginFailed))))
  }

  /** `login`: a refusal throws and changes nothing; success stores the token, the
      serialised user and (when non-empty) the refresh token, then sets token and user.
      An undefined `access` is stored as the text "undefined" while the token state
      stays unset. */
  function Login(s: AuthState, outcome: LoginOutcome): (r: (AuthState, LoginResult))
    ensures !outcome.Accepted? ==> r.0 == s && !r.1.LoggedIn?
    ensures outcome.Refused? && outcome.body.None? ==> r.1 == LoginError(LoginFailed)
    ensures outcome.Refused? && outcome.body == Some(JNull) ==> r.1 == LoginTypeError
    ensures outcome.Refused? && outcome.body.Some? && outcome.body.value != JNull ==>
              r.1 == LoginError(RefusalMessage(outcome.body.value))
    ensures outcome.Unreadable? ==> r.1 == LoginSyntaxError
    ensures outcome.AcceptedNull? ==> r.1 == LoginTypeError
    ensures outcome.Accepted? ==> (IsAuthenticated(r.0) <==> Filled(outcome.access))
    ensures outcome.Accepted? ==>
              r.1 == LoggedIn
              && r.0.token == outcome.access && r.0.user == outcome.user && r.0.isLoading == s.isLoading
              && r.0.storage.Keys == s.storage.Keys + {TokenKey, UserKey}
                                     + (if outcome.refresh.Some? && outcome.refresh.value != "" then {RefreshKey} else {})
              && r.0.storage[TokenKey] == outcome.access.GetOr(UndefinedText) && r.0.storage[UserKey] == outcome.userText
              && (outcome.refresh.Some? && outcome.refresh.value != "" ==> r.0.storage[RefreshKey] == outcome.refresh.value)
              && forall k :: k in s.storage && k !in {TokenKey, UserKey, RefreshKey} ==> r.0.storage[k] == s.storage[k]
  {
    match outcome
    case Refused(body) =>
      var result := match body
        case None => LoginError(LoginFailed)
        case Some(JNull) => LoginTypeError
        case Some(b) => LoginError(RefusalMessage(b));
      (s, result)
    case Unreadable => (s, LoginSyntaxError)
    case AcceptedNull => (s, LoginTypeError)
    case Accepted(access, refresh, user, userText) =>
      var stored := s.storage[TokenKey := access.GetOr(UndefinedText)][UserKey := userText];
      var stored' := if refresh.Some? && refresh.value != "" then stored[RefreshKey := refresh.value] else stored;
      (s.(storage := stored', token := access, user := user), LoggedIn)
  }

  /** `logout`. */
  function Logout(s: AuthState): (r: AuthState)
    ensures r.storage.Keys == s.storage.Keys - {TokenKey, UserKey, RefreshKey}
    ensures forall k :: k in r.storage ==> r.storage[k] == s.storage[k]
    ensures r.token.None? && r.user == JNull && r.isLoading == s.isLoading
    ensures !IsAuthenticated(r)
  {
    s.(storage := s.storage - {TokenKey} - {UserKey} - {RefreshKey}, token := None, user := JNull)
  }

  /** A session survives a reload: mounting a new provider over the storage a successful
      login left behind restores the same token and user, provided the stored values are
      non-empty and the serialised user parses back to the user. */
  lemma {:induction false} BootRestoresLogin(s: AuthState, outcome: LoginOutcome, parse: string -> Option<Json>)
    requires outcome.Accepted? && Filled(outcome.access) && outcome.userText != ""
    requires parse(outcome.userText) == Some(outcome.user)
    ensures var after := Login(s, outcome).0;
            var reloaded := Boot(Initial(after.storage), parse);
            reloaded.token == after.token && reloaded.user == after.user && reloaded.storage == after.storage
            && IsAuthenticated(reloaded)
  {
    var after := Login(s, outcome).0;
    assert Stored(after.storage, TokenKey) == outcome.access;
    assert Stored(after.storage, UserKey) == Some(outcome.userText);
  }

  /** A login answer without `access` leaves the page signed out, yet the text
      "undefined" is stored as the token, so the next reload signs the user in with it. */
  lemma {:induction false} MissingAccessSignsInAfterReload(s: AuthState, outcome: LoginOutcome, parse: string -> Option<Json>)
    requires outcome.Accepted? && outcome.access.None? && outcome.userText != ""
    requires parse(outcome.userText) == Some(outcome.user)
    ensures var after := Login(s, outcome).0;
            var reloaded := Boot(Initial(after.storage), parse);
            !IsAuthenticated(after) && IsAuthenticated(reloaded) && reloaded.token == Some(UndefinedText)
  {
    var after := Login(s, outcome).0;
    assert Stored(after.storage, TokenKey) == Some(UndefinedText);
    assert Stored(after.storage, UserKey) == Some(outcome.userText);
  }

  /** After a logout no reload signs anybody back in. */
  lemma LogoutSurvivesReload(s: AuthState, parse: string -> Option<Json>)
    ensures var reloaded := Boot(Initial(Logout(s).storage), parse);
            !IsAuthenticated(reloaded) && reloaded.user == JNull
  {
  }

  /** An unreadable stored user leaves the provider authenticated for the rest of the
      page's life, although storage no longer holds a token. */
  lemma CorruptUserStaysAuthenticated(storage: map<string, string>, parse: string -> Option<Json>)
    requires Stored(storage, TokenKey).Some? && Stored(storage, UserKey).Some? && parse(storage[UserKey]).None?
    ensures var r := Boot(Initial(storage), parse);
            IsAuthenticated(r) && r.user == JNull && TokenKey !in r.storage
  {
  }

  /** After a successful login every API client request finds the stored token, which is
      the text "undefined" when the answer had no `access`. */
  lemma LoginAuthorizesApiClient(s: AuthState, outcome: LoginOutcome)
    requires outcome.Accepted?
    ensures ApiClient.GetAuthToken(true, Login(s, outcome).0.storage) == Some(outcome.access.GetOr(UndefinedText))
  {
  }

  /** The token refresh of `src/lib/auth.ts` never changes what the API client sends:
      it writes and clears other keys than `auth_token`. */
  lemma RefreshInvisibleToApiClient(hasWindow: bool, storage: map<string, string>, outcome: AuthTokens.RefreshOutcome)
    ensures ApiClient.GetAuthToken(hasWindow, AuthTokens.Refreshing(hasWindow, storage, outcome).0)
            == ApiClient.GetAuthToken(hasWindow, storage)
  {
  }

  /** The provider as a stateful object. */
  class Provider {
    var storage: map<string, string>
    var token: Option<string>
    var user: Json
    var isLoading: bool

    function State(): AuthState
      reads this
    {
      AuthState(storage, token, user, isLoading)
    }

    constructor(initial: map<string, string>)
      ensures State() == Initial(initial)
    {
      storage := initial;
      token := None;
      user := JNull;
      isLoading := true;
    }

    /** The mount effect. */
    method Restore(parse: string -> Option<Json>)
      modifies this
      ensures State() == Boot(old(State()), parse)
    {
      var storedToken: Option<string> := if TokenKey in storage then Some(storage[TokenKey]) else None;
      var storedUser: Option<string> := if UserKey in storage then Some(storage[UserKey]) else None;
      if storedToken.Some? && storedToken.value != "" && storedUser.Some? && storedUser.value != "" {
        token := storedToken;
        var parsed := parse(storedUser.value);
        if parsed.Some? {
          user := parsed.value;
        } else {
          storage := storage - {TokenKey};
          storage := storage - {UserKey};
        }
      }
      isLoading := false;
    }

    /** `login`, with the network exchange given as its outcome. */
    method LogIn(outcome: LoginOutcome) returns (result: LoginResult)
      modifies this
      ensures (State(), result) == Login(old(State()), outcome)
    {
      match outcome {
        case Refused(body) =>
          if body.None? {
            result := LoginError(LoginFailed);
          } else if body.value == JNull {
            result := LoginTypeError;
          } else {
            result := LoginError(RefusalMessage(body.value));
          }
        case Unreadable =>
          result := LoginSyntaxError;
        case AcceptedNull =>
          result := LoginTypeError;
        case Accepted(access, refresh, u, userText) =>
          storage := storage[TokenKey := if access.Some? then access.value else UndefinedText];
          storage := storage[UserKey := userText];
          if refresh.Some? && refresh.value != "" {
            storage := storage[RefreshKey := refresh.value];
          }
          token := access;
          user := u;
          result := LoggedIn;
      }
    }

    /** `logout`. */
    method LogOut()
      modifies this
      ensures State() == Logout(old(State()))
    {
      storage := storage - {TokenKey};
      storage := storage - {UserKey};
      storage := storage - {RefreshKey};
      token := None;
      user := JNull;
    }
  }
}

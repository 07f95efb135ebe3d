/** The token helpers of `src/lib/auth.ts`. They keep `access_token` and `refresh_token`
    in local storage (a store distinct from the `auth_token` keys of the auth provider)
    and do nothing when there is no window. */
module AuthTokens {
  import opened Wrappers

  const AccessKey: string := "access_token"
  const RefreshKey: string := "refresh_token"
  /** What `localStorage.setItem` stores for an undefined value. */
  const UndefinedText: string := "undefined"

  /** How the refresh request ended: a 2xx JSON body, with its `access` property (None
      when it is undefined), a non-2xx response, or an exception (network failure, a body
      that is not JSON or is `null`). */
  datatype RefreshOutcome = Refreshed(access: Option<string>) | Rejected | Failed

  /** `localStorage.getItem(key)` behind the window check. */
  function Read(hasWindow: bool, storage: map<string, string>, key: string): (v: Option<string>)
    ensures v.Some? <==> hasWindow && key in storage
    ensures v.Some? ==> v.value == storage[key]
  {
    if hasWindow && key in storage then Some(storage[key]) else None
  }

  /** Storage after `setTokens(access, refresh)`. */
  function Written(hasWindow: bool, storage: map<string, string>, access: string, refresh: string): (s: map<string, string>)
    ensures hasWindow ==> s.Keys == storage.Keys + {AccessKey, RefreshKey}
    ensures hasWindow ==> s[AccessKey] == access && s[RefreshKey] == refresh
    ensures forall k :: k in storage && k != AccessKey && k != RefreshKey ==> k in s && s[k] == storage[k]
    ensures !hasWindow ==> s == storage
  {
    if hasWindow then storage[AccessKey := access][RefreshKey := refresh] else storage
  }

  /** Storage after `clearTokens()`. */
  function Cleared(hasWindow: bool, storage: map<string, string>): (s: map<string, string>)
    ensures hasWindow ==> s.Keys == storage.Keys - {AccessKey, RefreshKey}
    ensures forall k :: k in s ==> k in storage && s[k] == storage[k]
    ensures !hasWindow ==> s == storage
  {
    if hasWindow then storage - {AccessKey, RefreshKey} else storage
  }

  /** Storage and result of `refreshAccessToken()`. An answer without `access` stores the
      text "undefined" and returns undefined, which is None here as null is. */
  function Refreshing(hasWindow: bool, storage: map<string, string>, outcome: RefreshOutcome): (r: (map<string, string>, Option<string>))
    ensures var refresh := Read(hasWindow, storage, RefreshKey);
            (refresh.None? || refresh.value == "") ==> r == (storage, None)
    ensures var refresh := Read(hasWindow, storage, RefreshKey);
            refresh.Some? && refresh.value != "" && outcome.Refreshed? ==>
              r.1 == outcome.access && r.0 == storage[AccessKey := outcome.access.GetOr(UndefinedText)]
    ensures var refresh := Read(hasWindow, storage, RefreshKey);
            refresh.Some? && refresh.value != "" && !outcome.Refreshed? ==>
              r.1.None? && r.0 == storage - {AccessKey, RefreshKey}
  {
    var refresh := Read(hasWindow, storage, RefreshKey);
    if refresh.None? || refresh.value == "" then (storage, None)
    else match outcome
      case Refreshed(access) => (Written(hasWindow, storage, access.GetOr(UndefinedText), refresh.value), access)
      case _ => (Cleared(hasWindow, storage), None)
  }

  /** After `setTokens(a, r)` the getters return `a` and `r`. */
  lemma ReadAfterWrite(storage: map<string, string>, access: string, refresh: string)
    ensures Read(true, Written(true, storage, access, refresh), AccessKey) == Some(access)
    ensures Read(true, Written(true, storage, access, refresh), RefreshKey) == Some(refresh)
  {
  }

  /** A refresh that was attempted and failed leaves no token behind. (Without a stored
      refresh token nothing is attempted and an access token, if any, stays.) */
  lemma RefreshFailsClosed(hasWindow: bool, storage: map<string, string>, outcome: RefreshOutcome)
    requires !outcome.Refreshed?
    requires Read(hasWindow, storage, RefreshKey).Some? && storage[RefreshKey] != ""
    ensures var (s, t) := Refreshing(hasWindow, storage, outcome);
            t.None? && Read(hasWindow, s, AccessKey).None? && Read(hasWindow, s, RefreshKey).None?
  {
  }

  /** A successful refresh keeps the refresh token and makes the new access token readable. */
  lemma {:induction false} RefreshKeepsRefreshToken(storage: map<string, string>, access: string)
    requires RefreshKey in storage && storage[RefreshKey] != ""
    ensures var (s, t) := Refreshing(true, storage, Refreshed(Some(access)));
            t == Some(access) && Read(true, s, AccessKey) == Some(access)
            && Read(true, s, RefreshKey) == Read(true, storage, RefreshKey)
  {
    var (s, t) := Refreshing(true, storage, Refreshed(Some(access)));
    assert s == storage[AccessKey := access][RefreshKey := storage[RefreshKey]];
  }

  /** A 2xx answer without `access` returns nothing, yet leaves the text "undefined"
      readable as the access token, with the refresh token kept. */
  lemma {:induction false} MissingAccessStoresUndefined(storage: map<string, string>)
    requires RefreshKey in storage && storage[RefreshKey] != ""
    ensures var (s, t) := Refreshing(true, storage, Refreshed(None));
            t.None? && Read(true, s, AccessKey) == Some(UndefinedText)
            && Read(true, s, RefreshKey) == Read(true, storage, RefreshKey)
  {
    var (s, t) := Refreshing(true, storage, Refreshed(None));
    assert s == storage[AccessKey := UndefinedText][RefreshKey := storage[RefreshKey]];
  }

  /** Local storage as `auth.ts` uses it. */
  class TokenStore {
    var storage: map<string, string>
    /** `typeof window !== "undefined"`. */
    const hasWindow: bool

    constructor(initial: map<string, string>, windowPresent: bool)
      ensures storage == initial && hasWindow == windowPresent
    {
      storage := initial;
      hasWindow := windowPresent;
    }

    /** `setTokens`. */
    method SetTokens(access: string, refresh: string)
      modifies this
      ensures storage == Written(hasWindow, old(storage), access, refresh)
    {
      if hasWindow {
        storage := storage[AccessKey := access];
        storage := storage[RefreshKey := refresh];
      }
    }

    /** `getAccessToken`. */
    method GetAccessToken() returns (token: Option<string>)
      ensures token == Read(hasWindow, storage, AccessKey)
    {
      token := None;
      if hasWindow && AccessKey in storage {
        token := Some(storage[AccessKey]);
      }
    }

    /** `getRefreshToken`. */
    method GetRefreshToken() returns (token: Option<string>)
      ensures token == Read(hasWindow, storage, RefreshKey)
    {
      token := None;
      if hasWindow && RefreshKey in storage {
        token := Some(storage[RefreshKey]);
      }
    }

    /** `clearTokens`. */
    method ClearTokens()
      modifies this
      ensures storage == Cleared(hasWindow, old(storage))
    {
      if hasWindow {
        storage := storage - {AccessKey};
        storage := storage - {RefreshKey};
      }
    }

    /** `refreshAccessToken`, with the network exchange given as its outcome. */
    method RefreshAccessToken(outcome: RefreshOutcome) returns (token: Option<string>)
      modifies this
      ensures (storage, token) == Refreshing(hasWindow, old(storage), outcome)
    {
      var refresh := GetRefreshToken();
      if refresh.None? || refresh.value == "" {
        return None;
      }
      match outcome {
        case Refreshed(access) =>
          SetTokens(if access.Some? then access.value else UndefinedText, refresh.value);
          token := access;
        case _ =>
          ClearTokens();
          token := None;
      }
    }
  }
}

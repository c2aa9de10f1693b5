/**
 * `authService`: the credential store kept under one well-known key of
 * `localStorage`, and the shapes of the remote login and signup calls.
 */
module AuthService {
  import opened Wrappers
  import opened LocalStorage

  /** The one key under which the access token is persisted. */
  const TokenKey: string := "token"

  /** The request body of `POST /auth/login`. */
  datatype LoginData = LoginData(email: string, password: string)

  /** The request body of `POST /auth/signup`. */
  datatype SignupData = SignupData(email: string, password: string)

  /** The body the server answers a successful login or signup with. */
  datatype AuthResponse = AuthResponse(access_token: string, token_type: string)

  /**
   * How `authService.login` or `authService.signup` settled: the HTTP layer
   * is not modelled, so its outcome is an input to every operation awaiting it.
   */
  datatype AuthOutcome = Succeeded(response: AuthResponse) | Rejected(reason: string)

  /** JavaScript's `!!v` on a `string | null`: false for `null` and for `''`. */
  predicate Truthy(v: Option<string>) {
    v.Some? && v.value != ""
  }

  /** `getToken()`: exactly what is stored under the token key, or `null`. */
  function GetToken(store: Storage): (r: Option<string>)
    reads store
    ensures r.Some? <==> TokenKey in store.items
    ensures r.Some? ==> r.value == store.items[TokenKey]
  {
    store.GetItem(TokenKey)
  }

  /** `isAuthenticated()`: a token is stored and it is not the empty string. */
  function IsAuthenticated(store: Storage): (r: bool)
    reads store
    ensures r <==> TokenKey in store.items && store.items[TokenKey] != ""
  {
    Truthy(GetToken(store))
  }

  /** `setToken(token)`: overwrites the token and touches no other key. */
  method SetToken(store: Storage, token: string)
    modifies store
    ensures store.items == old(store.items)[TokenKey := token]
    ensures GetToken(store) == Some(token)
    ensures forall k :: k != TokenKey ==> (k in store.items <==> k in old(store.items))
    ensures forall k :: k != TokenKey && k in store.items ==> store.items[k] == old(store.items)[k]
  {
    store.SetItem(TokenKey, token);
  }

  /** `logout()`: removes the token, whether or not one was stored. */
  method Logout(store: Storage)
    modifies store
    ensures store.items == old(store.items) - {TokenKey}
    ensures GetToken(store) == None && !IsAuthenticated(store)
  {
    store.RemoveItem(TokenKey);
  }

  /** Round trip: a token just set is the token read back. */
  method SetTokenThenGetToken(store: Storage, token: string) returns (read: Option<string>)
    modifies store
    ensures read == Some(token)
    ensures IsAuthenticated(store) <==> token != ""
  {
    SetToken(store, token);
    read := GetToken(store);
  }

  /** Logging out twice leaves the store as logging out once does, and neither call fails. */
  method LogoutTwice(store: Storage)
    modifies store
    ensures store.items == old(store.items) - {TokenKey}
  {
    Logout(store);
    ghost var once := store.items;
    Logout(store);
    assert store.items == once;
  }
}

/**
 * `AuthProvider` and `useAuth`: the session gate. The provider keeps two
 * flags, decides the first from the persisted token once at mount, and
 * exposes login, signup and logout, which write the token store directly.
 */
module AuthContext {
  import opened Wrappers
  import opened LocalStorage
  import opened AuthService

  /** The error `useAuth` throws when no provider is above the caller. */
  const OutsideProviderError: string := "useAuth must be used within an AuthProvider"

  /**
   * The outcome of rendering a provider: nothing (no child is mounted, so no
   * child can call `useAuth`), or the children with this provider as context.
   */
  datatype Rendered = RendersNothing | Provides(provider: AuthProvider)

  class AuthProvider {
    /** The `localStorage` the provider reads and writes. */
    const store: Storage
    var isAuthenticated: bool
    var isLoading: bool

    /** The in-memory flag agrees with what `authService.isAuthenticated()` reads from storage. */
    predicate InSync()
      reads this, store
    {
      isAuthenticated == AuthService.IsAuthenticated(store)
    }

    /** Mounting: `useState(false)` and `useState(true)`; storage is not read yet. */
    constructor (store: Storage)
      ensures this.store == store
      ensures !isAuthenticated && isLoading
    {
      this.store := store;
      isAuthenticated := false;
      isLoading := true;
    }

    /**
     * The mount effect: authenticated exactly when a non-empty token is
     * stored, and loading is over. Storage is only read.
     */
    method InitEffect()
      modifies this
      ensures isAuthenticated <==> TokenKey in store.items && store.items[TokenKey] != ""
      ensures !isLoading
      ensures InSync()
    {
      var token := store.GetItem(TokenKey);
      isAuthenticated := Truthy(token);
      isLoading := false;
    }

    /**
     * `login`: awaits `authService.login({ email, password })`, whose request
     * body is `sent`; only when it succeeds is the returned
     * token stored and the session flagged authenticated. A rejection
     * propagates to the caller and changes nothing.
     */
    method Login(email: string, password: string, outcome: AuthOutcome)
      returns (sent: LoginData, settled: Outcome<string>)
      modifies this, store
      ensures sent == LoginData(email, password)
      ensures isLoading == old(isLoading)
      ensures outcome.Succeeded? ==>
        && settled == Pass
        && store.items == old(store.items)[TokenKey := outcome.response.access_token]
        && isAuthenticated
      ensures outcome.Rejected? ==>
        && settled == Fail(outcome.reason)
        && store.items == old(store.items)
        && isAuthenticated == old(isAuthenticated)
      ensures InSync() <==>
        (outcome.Succeeded? && outcome.response.access_token != "") || (outcome.Rejected? && old(InSync()))
    {
      sent := LoginData(email, password);
      match outcome
      case Rejected(reason) =>
        settled := Fail(reason);
      case Succeeded(response) =>
        store.SetItem(TokenKey, response.access_token);
        isAuthenticated := true;
        settled := Pass;
    }

    /**
     * `signup`: sends `{ email, password }` to `authService.signup` and has
     * the same effect as `login` once that call settles.
     */
    method Signup(email: string, password: string, outcome: AuthOutcome)
      returns (sent: SignupData, settled: Outcome<string>)
      modifies this, store
      ensures sent == SignupData(email, password)
      ensures isLoading == old(isLoading)
      ensures outcome.Succeeded? ==>
        && settled == Pass
        && store.items == old(store.items)[TokenKey := outcome.response.access_token]
        && isAuthenticated
      ensures outcome.Rejected? ==>
        && settled == Fail(outcome.reason)
        && store.items == old(store.items)
        && isAuthenticated == old(isAuthenticated)
      ensures InSync() <==>
        (outcome.Succeeded? && outcome.response.access_token != "") || (outcome.Rejected? && old(InSync()))
    {
      sent := SignupData(email, password);
      match outcome
      case Rejected(reason) =>
        settled := Fail(reason);
      case Succeeded(response) =>
        store.SetItem(TokenKey, response.access_token);
        isAuthenticated := true;
        settled := Pass;
    }

    /** `logout`: removes the token and clears the flag; never fails. */
    method Logout()
      modifies this, store
      ensures store.items == old(store.items) - {TokenKey}
      ensures !isAuthenticated && isLoading == old(isLoading)
      ensures InSync()
    {
      store.RemoveItem(TokenKey);
      isAuthenticated := false;
    }

    /**
     * What the provider renders: `null` while loading, so its children are
     * not mounted at all; once the stored token has been read, its children
     * under a context whose value is this provider.
     */
    function Render(): (r: Rendered)
      reads this
      ensures r.RendersNothing? <==> isLoading
      ensures r.Provides? ==> r.provider == this && !r.provider.isLoading
    {
      if isLoading then RendersNothing else Provides(this)
    }
  }

  /**
   * `useAuth()` in a mounted component, given the value of the nearest
   * provider above it (`None`: no provider above): that provider, or the
   * error it throws when there is none.
   */
  function UseAuth(context: Option<AuthProvider>): (r: Result<AuthProvider, string>)
    ensures r.Success? <==> context.Some?
    ensures r.Success? ==> r.value == context.value
    ensures r.Failure? ==> r.error == OutsideProviderError
  {
    match context
    case Some(provider) => Success(provider)
    case None => Failure(OutsideProviderError)
  }

  /** Logging out twice leaves the session and the store as logging out once does. */
  method LogoutTwice(provider: AuthProvider)
    modifies provider, provider.store
    ensures provider.store.items == old(provider.store.items) - {TokenKey}
    ensures !provider.isAuthenticated && provider.InSync()
    ensures provider.isLoading == old(provider.isLoading)
  {
    provider.Logout();
    ghost var once := provider.store.items;
    provider.Logout();
    assert provider.store.items == once;
  }

  /**
   * A login answered with an empty `access_token` flags the session
   * authenticated, yet a provider mounted afterwards over the same storage
   * (a page reload) starts unauthenticated.
   */
  method EmptyTokenLoginThenReload(store: Storage, tokenType: string)
    returns (afterLogin: bool, afterReload: bool)
    modifies store
    ensures afterLogin && !afterReload
  {
    var first := new AuthProvider(store);
    first.InitEffect();
    var _, _ := first.Login("", "", Succeeded(AuthResponse("", tokenType)));
    afterLogin := first.isAuthenticated;
    var second := new AuthProvider(store);
    second.InitEffect();
    afterReload := second.isAuthenticated;
  }
}

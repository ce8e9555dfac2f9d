/** The session store of contexts/AuthContext.tsx: the provider mirrors the
    gateway's slot into a published `(user, isLoading)` pair. Each async
    operation is one atomic step. The ghost `history` records, in order,
    every state publication (`setUser`, `setIsLoading`), every gateway call
    and every logged error, so that the loading discipline can be stated.

    The parameter `fault` stands for an exception escaping a gateway call
    before that call takes effect. AuthService as written raises none from
    `getCurrentUser`, `signup` or `logout`, so with the concrete gateway only
    `fault == None` occurs; the parameter lets the model reach the source's
    catch branches. */
module Session {
  import opened Wrappers
  import opened Types
  import opened Auth

  datatype GatewayCall = GetCurrentUserCall | LoginCall | SignupCall | LogoutCall

  datatype Step =
    | SetLoading(loading: bool)
    | SetUser(user: Option<User>)
    | Call(call: GatewayCall)
    | LogError(context: string)

  class AuthProvider {
    const gateway: AuthService
    var user: Option<User>
    var isLoading: bool
    ghost var history: seq<Step>

    /** The initial state: no user yet, and loading. */
    constructor (gateway: AuthService)
      ensures this.gateway == gateway
      ensures user == None && isLoading && history == []
    {
      this.gateway := gateway;
      user := None;
      isLoading := true;
      history := [];
    }

    /** The published user is what the gateway's slot holds. */
    predicate Synced()
      reads this, gateway
    {
      user == gateway.currentUser
    }

    /** The start-up effect: restore the session from the gateway's slot
        (none on error), then stop loading. */
    method LoadSession(fault: Option<string>)
      modifies this
      ensures !isLoading
      ensures user == if fault.Some? then None else gateway.currentUser
      ensures fault.None? ==> Synced()
      ensures history == old(history) + [Call(GetCurrentUserCall)]
                + (if fault.Some? then [LogError("Error loading user:"), SetUser(None)] else [SetUser(gateway.currentUser)])
                + [SetLoading(false)]
    {
      history := history + [Call(GetCurrentUserCall)];
      if fault.None? {
        var current := gateway.GetCurrentUser();
        user := current;
        history := history + [SetUser(current)];
      } else {
        history := history + [LogError("Error loading user:")];
        user := None;
        history := history + [SetUser(None)];
      }
      isLoading := false;
      history := history + [SetLoading(false)];
    }

    /** Loading is raised before the gateway call and lowered on both exit
        paths; the user changes only on success, and a rejection is passed
        on to the caller. */
    method Login(email: string, password: string) returns (r: Result<User>)
      modifies this, gateway
      ensures r == Authenticate(email, password)
      ensures !isLoading
      ensures user == if r.Success? then Some(r.value) else old(user)
      ensures gateway.currentUser == if r.Success? then Some(r.value) else old(gateway.currentUser)
      ensures r.Success? ==> Synced()
      ensures history == old(history) + [SetLoading(true), Call(LoginCall)]
                + (if r.Success? then [SetUser(Some(r.value))] else [])
                + [SetLoading(false)]
    {
      isLoading := true;
      history := history + [SetLoading(true), Call(LoginCall)];
      r := gateway.Login(email, password);
      if r.Success? {
        user := Some(r.value);
        history := history + [SetUser(Some(r.value))];
      }
      isLoading := false;
      history := history + [SetLoading(false)];
    }

    /** The same loading discipline and success/failure shape as `Login`. */
    method Signup(name: string, email: string, password: string, now: nat, fault: Option<string>)
      returns (r: Result<User>)
      modifies this, gateway
      ensures r == if fault.Some? then Failure(fault.value) else Success(SignupUser(now, name, email))
      ensures !isLoading
      ensures user == if r.Success? then Some(r.value) else old(user)
      ensures gateway.currentUser == if r.Success? then Some(r.value) else old(gateway.currentUser)
      ensures r.Success? ==> Synced()
      ensures history == old(history) + [SetLoading(true), Call(SignupCall)]
                + (if r.Success? then [SetUser(Some(r.value))] else [])
                + [SetLoading(false)]
    {
      isLoading := true;
      history := history + [SetLoading(true), Call(SignupCall)];
      if fault.None? {
        var created := gateway.Signup(name, email, password, now);
        user := Some(created);
        history := history + [SetUser(Some(created))];
        r := Success(created);
      } else {
        r := Failure(fault.value);
      }
      isLoading := false;
      history := history + [SetLoading(false)];
    }

    /** Ends with loading lowered whatever happens; the user is cleared only
        when the gateway call returns, and an error is logged, not passed on. */
    method Logout(fault: Option<string>)
      modifies this, gateway
      ensures !isLoading
      ensures user == if fault.Some? then old(user) else None
      ensures gateway.currentUser == if fault.Some? then old(gateway.currentUser) else None
      ensures fault.None? ==> Synced()
      ensures history == old(history) + [SetLoading(true), Call(LogoutCall)]
                + (if fault.Some? then [LogError("Logout error:")] else [SetUser(None)])
                + [SetLoading(false)]
    {
      isLoading := true;
      history := history + [SetLoading(true), Call(LogoutCall)];
      if fault.None? {
        gateway.Logout();
        user := None;
        history := history + [SetUser(None)];
      } else {
        history := history + [LogError("Logout error:")];
      }
      isLoading := false;
      history := history + [SetLoading(false)];
    }

    /** Re-reads the slot (none on error) and never touches the loading flag. */
    method RefreshUser(fault: Option<string>)
      modifies this
      ensures isLoading == old(isLoading)
      ensures user == if fault.Some? then None else gateway.currentUser
      ensures fault.None? ==> Synced()
      ensures history == old(history) + [Call(GetCurrentUserCall)]
                + (if fault.Some? then [LogError("Refresh user error:"), SetUser(None)] else [SetUser(gateway.currentUser)])
    {
      history := history + [Call(GetCurrentUserCall)];
      if fault.None? {
        var current := gateway.GetCurrentUser();
        user := current;
        history := history + [SetUser(current)];
      } else {
        history := history + [LogError("Refresh user error:")];
        user := None;
        history := history + [SetUser(None)];
      }
    }
  }

  /** A login followed at once by a refresh publishes the identity the login
      returned, with the same id and role. */
  method LoginThenRefresh(store: AuthProvider, email: string, password: string)
    returns (r: Result<User>)
    modifies store, store.gateway
    ensures r == Authenticate(email, password)
    ensures r.Success? ==> store.user == Some(r.value) && store.Synced()
  {
    r := store.Login(email, password);
    store.RefreshUser(None);
  }
}

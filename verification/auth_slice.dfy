/**
 * The auth slice (src/store/slices/authSlice.ts) together with the browser
 * storage it persists the session in. Storage is a string-to-string map
 * held by the store; `JSON.parse` and `JSON.stringify` are supplied as
 * functions, since their internals are not part of this model.
 */
module AuthSlice {
  import opened Domain
  import opened Lifecycle

  const AccessTokenKey: string := "access_token"
  const UserKey: string := "user"

  /** What `JSON.parse` makes of the stored user text: a value (possibly
      `null`), or a thrown syntax error. */
  datatype Parsed = Parsed(user: Option<User>) | SyntaxError

  /** `localStorage.getItem(key)`: `null` for a missing key. */
  function GetItem(storage: map<string, string>, key: string): (r: Option<string>)
    ensures r.Some? <==> key in storage
    ensures r.Some? ==> r.value == storage[key]
  {
    if key in storage then Some(storage[key]) else None
  }

  /** `!!s` for a `string | null`: the falsy values are `null` and the empty string. */
  predicate Truthy(s: Option<string>)
    ensures Truthy(s) <==> s != None && s != Some("")
  {
    s.Some? && s.value != ""
  }

  /** The user that bootstrap reads back from storage: none when the entry
      is missing or empty, the parsed value when it parses, none when it
      does not. */
  function StoredUser(storage: map<string, string>, parse: string -> Parsed): (r: Option<User>)
    ensures r.Some? ==> UserKey in storage && storage[UserKey] != "" && parse(storage[UserKey]) == Parsed(r)
    ensures UserKey !in storage || storage[UserKey] == "" ==> r == None
    ensures UserKey in storage && storage[UserKey] != "" && parse(storage[UserKey]).Parsed? ==>
              r == parse(storage[UserKey]).user
  {
    var text := GetItem(storage, UserKey);
    if Truthy(text) && parse(text.value).Parsed? then parse(text.value).user else None
  }

  /** The two operations with a full pending/fulfilled/rejected lifecycle. */
  datatype AuthOp = Register | Login

  function Fallback(op: AuthOp): (r: string)
    ensures r != ""
  {
    match op
    case Register => "Registration failed"
    case Login => "Authentication failed"
  }

  class AuthStore {
    var user: Option<User>
    var accessToken: Option<string>
    var isAuthenticated: bool
    var isAdmin: bool
    var loading: bool
    var error: Option<string>
    /** `localStorage`. */
    var storage: map<string, string>

    /** The invariant every handler keeps: see `SessionConsistent`. */
    predicate Valid()
      reads this
    {
      (isAuthenticated ==> accessToken.Some?) && isAdmin == UserIsAdmin(user)
    }

    /** The slice's state as `useSelector(state => state.auth)` returns it;
        the value the guards see is consistent exactly when the store is. */
    function Selected(): (s: AuthState)
      reads this
      ensures Valid() <==> SessionConsistent(s)
    {
      AuthState(user, accessToken, isAuthenticated, isAdmin, loading, error)
    }

    /** Bootstrap of `initialState` from storage at module load. A stored
        user that fails to parse is dropped and its entry removed; whether the
        session counts as authenticated depends on the token alone. */
    constructor (stored: map<string, string>, parse: string -> Parsed)
      ensures storage == if Truthy(GetItem(stored, UserKey)) && parse(stored[UserKey]).SyntaxError?
                         then stored - {UserKey} else stored
      ensures user == StoredUser(stored, parse)
      ensures accessToken == GetItem(stored, AccessTokenKey)
      ensures isAuthenticated <==> AccessTokenKey in stored && stored[AccessTokenKey] != ""
      ensures isAdmin == UserIsAdmin(user)
      ensures !loading && error == None
      ensures Valid()
    {
      var local := stored;
      var token := GetItem(local, AccessTokenKey);
      var userString := GetItem(local, UserKey);
      var u: Option<User> := None;
      if Truthy(userString) {
        match parse(userString.value)
        case Parsed(p) =>
          u := p;
        case SyntaxError =>
          local := local - {UserKey};
      }
      storage := local;
      user := u;
      accessToken := token;
      isAuthenticated := Truthy(token);
      isAdmin := UserIsAdmin(u);
      loading := false;
      error := None;
    }

    /** Reducer `clearError`: only `error` changes. */
    method ClearError()
      modifies this
      ensures old(Valid()) ==> Valid()
      ensures error == None
      ensures user == old(user) && accessToken == old(accessToken)
      ensures isAuthenticated == old(isAuthenticated) && isAdmin == old(isAdmin)
      ensures loading == old(loading) && storage == old(storage)
    {
      error := None;
    }

    /** `register.pending` and `login.pending`. */
    method Pending(op: AuthOp)
      modifies this
      ensures old(Valid()) ==> Valid()
      ensures loading && error == None
      ensures user == old(user) && accessToken == old(accessToken)
      ensures isAuthenticated == old(isAuthenticated) && isAdmin == old(isAdmin)
      ensures storage == old(storage)
    {
      loading := true;
      error := None;
    }

    /** `register.rejected` and `login.rejected`: the session is left as it was. */
    method Rejected(op: AuthOp, payload: Option<string>)
      modifies this
      ensures old(Valid()) ==> Valid()
      ensures !loading && error == Some(ErrorMessage(payload, Fallback(op)))
      ensures error.Some? && error.value != ""
      ensures user == old(user) && accessToken == old(accessToken)
      ensures isAuthenticated == old(isAuthenticated) && isAdmin == old(isAdmin)
      ensures storage == old(storage)
    {
      loading := false;
      error := Some(ErrorMessage(payload, Fallback(op)));
    }

    /** `login.fulfilled`: take token and user from the response, mark the
        session authenticated, and persist both. */
    method LoginFulfilled(payload: AuthResponse, stringify: Option<User> -> string)
      modifies this
      ensures Valid()
      ensures !loading && isAuthenticated
      ensures accessToken == Some(payload.accessToken) && user == payload.user
      ensures isAdmin == UserIsAdmin(payload.user)
      ensures storage == old(storage)[AccessTokenKey := payload.accessToken][UserKey := stringify(payload.user)]
      ensures error == old(error)
    {
      loading := false;
      accessToken := Some(payload.accessToken);
      user := payload.user;
      isAuthenticated := true;
      isAdmin := UserIsAdmin(payload.user);
      storage := storage[AccessTokenKey := payload.accessToken];
      storage := storage[UserKey := stringify(payload.user)];
    }

    /** `register.fulfilled`: the same as login, token and storage included,
        except that the session is marked NOT authenticated. */
    method RegisterFulfilled(payload: AuthResponse, stringify: Option<User> -> string)
      modifies this
      ensures Valid()
      ensures !loading && !isAuthenticated
      ensures accessToken == Some(payload.accessToken) && user == payload.user
      ensures isAdmin == UserIsAdmin(payload.user)
      ensures storage == old(storage)[AccessTokenKey := payload.accessToken][UserKey := stringify(payload.user)]
      ensures error == old(error)
    {
      loading := false;
      accessToken := Some(payload.accessToken);
      user := payload.user;
      isAuthenticated := false;
      isAdmin := UserIsAdmin(payload.user);
      storage := storage[AccessTokenKey := payload.accessToken];
      storage := storage[UserKey := stringify(payload.user)];
    }

    /** `logoutUser` in src/services/authService.ts: drop both persisted entries. */
    method RemoveSession()
      modifies this
      ensures old(Valid()) ==> Valid()
      ensures storage == old(storage) - {AccessTokenKey, UserKey}
      ensures user == old(user) && accessToken == old(accessToken)
      ensures isAuthenticated == old(isAuthenticated) && isAdmin == old(isAdmin)
      ensures loading == old(loading) && error == old(error)
    {
      storage := storage - {AccessTokenKey};
      storage := storage - {UserKey};
    }

    /** `logout.fulfilled`: the in-memory session is cleared; `loading` and
        `error` are not touched. */
    method LogoutFulfilled()
      modifies this
      ensures Valid()
      ensures user == None && accessToken == None && !isAuthenticated && !isAdmin
      ensures loading == old(loading) && error == old(error) && storage == old(storage)
    {
      user := None;
      accessToken := None;
      isAuthenticated := false;
      isAdmin := false;
    }

    /** The `logout` thunk followed by its fulfilled case. The slice has no
        pending or rejected case for logout. */
    method Logout()
      modifies this
      ensures Valid()
      ensures user == None && accessToken == None && !isAuthenticated && !isAdmin
      ensures storage == old(storage) - {AccessTokenKey, UserKey}
      ensures loading == old(loading) && error == old(error)
    {
      RemoveSession();
      LogoutFulfilled();
    }
  }

  /** A successful login dispatched from the form: the session is
      authenticated with the response's user, no error is left, and the token
      is persisted. */
  method LoginSucceeds(store: AuthStore, payload: AuthResponse, stringify: Option<User> -> string)
    modifies store
    ensures store.Valid()
    ensures store.isAuthenticated && store.user == payload.user && store.error == None
    ensures !store.loading
    ensures GetItem(store.storage, AccessTokenKey) == Some(payload.accessToken)
  {
    store.Pending(Login);
    store.LoginFulfilled(payload, stringify);
  }

  /** Reloading the page after a login restores the same session, provided
      the token is not empty and parsing the stored user text gives the user
      back. */
  method ReloadAfterLogin(store: AuthStore, payload: AuthResponse,
                          stringify: Option<User> -> string, parse: string -> Parsed)
    returns (reloaded: AuthStore)
    requires payload.accessToken != ""
    requires stringify(payload.user) != "" && parse(stringify(payload.user)) == Parsed(payload.user)
    modifies store
    ensures reloaded.user == store.user == payload.user
    ensures reloaded.accessToken == store.accessToken
    ensures reloaded.isAuthenticated && store.isAuthenticated
    ensures reloaded.isAdmin == store.isAdmin
  {
    store.LoginFulfilled(payload, stringify);
    reloaded := new AuthStore(store.storage, parse);
  }

  /** Registration leaves the session unauthenticated, but it persists the
      token, so the next page load authenticates it. */
  method ReloadAfterRegister(store: AuthStore, payload: AuthResponse,
                             stringify: Option<User> -> string, parse: string -> Parsed)
    returns (reloaded: AuthStore)
    requires payload.accessToken != ""
    modifies store
    ensures !store.isAuthenticated && reloaded.isAuthenticated
    ensures reloaded.accessToken == store.accessToken
  {
    store.RegisterFulfilled(payload, stringify);
    reloaded := new AuthStore(store.storage, parse);
  }

  /** A stored user that fails to parse, next to a token: the session starts
      authenticated with no user and no administrator rights, and the user
      entry is gone from storage. */
  method BootWithCorruptUser(token: string, text: string, parse: string -> Parsed)
    returns (store: AuthStore)
    requires token != "" && text != "" && parse(text) == SyntaxError
    ensures store.Valid()
    ensures store.isAuthenticated && store.user == None && !store.isAdmin
    ensures store.error == None && !store.loading
    ensures store.storage == map[AccessTokenKey := token]
  {
    store := new AuthStore(map[AccessTokenKey := token, UserKey := text], parse);
  }
}

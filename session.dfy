/** The session store of `UserProvider`: who is signed in, with which bearer token,
  * and whether the stored token has been resolved yet. */
module Session {
  import opened Wrappers
  import opened Storage
  import opened Net

  /** The identity the API returns for a signed-in user; it carries its own token. */
  datatype User = User(username: string, email: string, image: Option<string>, token: string)

  /** The storage key of the persisted token. */
  const TokenKey := "token"

  /** JavaScript truthiness of the token: `null` and `''` are both "no token". */
  predicate HasToken(token: Option<string>) {
    token.Some? && token.value != ""
  }

  /** The provider's state together with the part of storage it owns. */
  datatype State = State(persisted: Store, token: Option<string>, user: Option<User>, isLoading: bool)

  /** The token as stored: `Some` exactly when `'token'` holds a string. */
  function StoredToken(persisted: Store): Option<string> {
    GetStr(persisted, TokenKey)
  }

  /** The state on mount: `localStorage.getItem('token') || null`, no user, loading. */
  function Initial(persisted: Store): (s: State)
    ensures s.persisted == persisted && s.user == None && s.isLoading
    ensures HasToken(s.token) <==> HasToken(StoredToken(persisted))
    ensures s.token.Some? ==> s.token == StoredToken(persisted)
    ensures !HasToken(StoredToken(persisted)) ==> s.token == None
  {
    var stored := StoredToken(persisted);
    State(persisted, if HasToken(stored) then stored else None, None, true)
  }

  /** `logout`: the stored token is removed, user and token are cleared. */
  function AfterLogout(s: State): (r: State)
    ensures r.user == None && r.token == None && r.isLoading == s.isLoading
    ensures TokenKey !in r.persisted
    ensures forall k :: k != TokenKey ==> (k in r.persisted <==> k in s.persisted)
    ensures forall k :: k in r.persisted ==> r.persisted[k] == s.persisted[k]
  {
    State(s.persisted - {TokenKey}, None, None, s.isLoading)
  }

  /** `login(userData, jwt)`: the token is stored and both fields set; no request is made. */
  function AfterLogin(s: State, u: User, jwt: string): (r: State)
    ensures r.user == Some(u) && r.token == Some(jwt) && r.isLoading == s.isLoading
    ensures StoredToken(r.persisted) == Some(jwt)
    ensures forall k :: k != TokenKey ==> (k in r.persisted <==> k in s.persisted)
    ensures forall k :: k in s.persisted && k != TokenKey ==> r.persisted[k] == s.persisted[k]
  {
    State(s.persisted[TokenKey := Str(jwt)], Some(jwt), Some(u), s.isLoading)
  }

  /** One run of the `fetchUser` effect, given the outcome of `GET /user`. Without a
    * token nothing is requested; a failed request is handled as a logout. */
  function AfterResolve(s: State, response: Response<User>): (r: State)
    ensures !r.isLoading
    ensures !HasToken(s.token) ==> r == s.(isLoading := false)
    ensures HasToken(s.token) && response.Ok? ==>
      r.user == Some(response.payload) && r.token == s.token && r.persisted == s.persisted
    ensures HasToken(s.token) && !response.Ok? ==>
      r == AfterLogout(s).(isLoading := false) && StoredToken(r.persisted) == None
  {
    if !HasToken(s.token) then s.(isLoading := false)
    else match response
      case Ok(u) => s.(user := Some(u), isLoading := false)
      case _ => AfterLogout(s).(isLoading := false)
  }

  /** Without a token the effect makes no request: only `isLoading` changes. */
  lemma ResolveWithoutToken(s: State, response: Response<User>)
    requires !HasToken(s.token)
    ensures AfterResolve(s, response) == s.(isLoading := false)
  {
  }

  /** A successful resolution keeps the token and the storage and installs the user. */
  lemma ResolveSuccess(s: State, u: User)
    requires HasToken(s.token)
    ensures var r := AfterResolve(s, Ok(u));
      r.user == Some(u) && r.token == s.token && r.persisted == s.persisted && !r.isLoading
  {
  }

  /** The store fails closed: a rejected or failed resolution forgets user and token,
    * in memory and in storage. */
  lemma ResolveFailureLogsOut(s: State, response: Response<User>)
    requires HasToken(s.token) && !response.Ok?
    ensures var r := AfterResolve(s, response);
      r.user == None && r.token == None && StoredToken(r.persisted) == None && !r.isLoading
  {
  }

  /** Whatever the outcome, resolution ends with `isLoading` false. */
  lemma ResolveEndsLoading(s: State, response: Response<User>)
    ensures !AfterResolve(s, response).isLoading
  {
  }

  /** Logging out twice is logging out once. */
  lemma LogoutIdempotent(s: State)
    ensures AfterLogout(AfterLogout(s)) == AfterLogout(s)
  {
  }

  /** After `login` or `logout` the in-memory token is the stored one. */
  lemma TokenMatchesStorage(s: State, u: User, jwt: string)
    ensures AfterLogin(s, u, jwt).token == StoredToken(AfterLogin(s, u, jwt).persisted)
    ensures AfterLogout(s).token == StoredToken(AfterLogout(s).persisted)
  {
  }

  /** A login survives a reload (unless the token is empty); a logout survives it too. */
  lemma SessionSurvivesReload(s: State, u: User, jwt: string)
    ensures jwt != "" ==> Initial(AfterLogin(s, u, jwt).persisted).token == Some(jwt)
    ensures Initial(AfterLogout(s).persisted).token == None
  {
  }

  /** The provider never shows a user without a token. */
  predicate Consistent(s: State) {
    s.token.None? ==> s.user.None?
  }

  /** Every transition keeps `Consistent`, starting from the initial state. */
  lemma ConsistentInvariant(p: Store, s: State, u: User, jwt: string, response: Response<User>)
    ensures Consistent(Initial(p))
    ensures Consistent(s) ==> Consistent(AfterResolve(s, response))
    ensures Consistent(AfterLogin(s, u, jwt))
    ensures Consistent(AfterLogout(s))
  {
  }

  /** `UserProvider`: the React state and its `localStorage` entry, updated in place. */
  class UserProvider {
    var persisted: Store
    var token: Option<string>
    var user: Option<User>
    var isLoading: bool

    function Current(): State
      reads this
    {
      State(persisted, token, user, isLoading)
    }

    constructor (storage: Store)
      ensures Current() == Initial(storage)
    {
      persisted := storage;
      user := None;
      var stored := GetStr(storage, TokenKey);
      token := if HasToken(stored) then stored else None;
      isLoading := true;
    }

    method Login(userData: User, jwt: string)
      modifies this
      ensures Current() == AfterLogin(old(Current()), userData, jwt)
    {
      persisted := persisted[TokenKey := Str(jwt)];
      token := Some(jwt);
      user := Some(userData);
    }

    method Logout()
      modifies this
      ensures Current() == AfterLogout(old(Current()))
    {
      persisted := persisted - {TokenKey};
      user := None;
      token := None;
    }

    /** The `fetchUser` effect; `response` is what `GET /user` returned. */
    method FetchUser(response: Response<User>)
      modifies this
      ensures Current() == AfterResolve(old(Current()), response)
    {
      if !HasToken(token) {
        isLoading := false;
        return;
      }
      match response {
        case Ok(u) =>
          user := Some(u);
        case _ =>
          Logout();
      }
      isLoading := false;
    }
  }
}

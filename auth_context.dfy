/** The authentication provider (src/contexts/AuthContext.tsx): the signed-in
    user, the start-up loading flag, and the login, register and logout actions
    over the shared session store. */
module AuthContext {
  import opened Common
  import opened Api

  /** `isAuthenticated`: someone is signed in. */
  predicate IsAuthenticated(user: Option<User>)
  {
    user.Some?
  }

  /** `isAdmin`: the signed-in user's roles include 'ADMIN'. */
  predicate IsAdmin(user: Option<User>)
  {
    user.Some? && HasAdminRole(user.value.roles)
  }

  /** Being an administrator implies being signed in; without a user, or
      without roles, nobody is an administrator. */
  lemma AdminIsAuthenticated(user: Option<User>)
    ensures IsAdmin(user) ==> IsAuthenticated(user)
    ensures user.None? ==> !IsAdmin(user) && !IsAuthenticated(user)
    ensures user.Some? && user.value.roles.None? ==> !IsAdmin(user)
  {
  }

  /** The body of a successful `/auth/login` reply. */
  datatype LoginData = LoginData(accessToken: string, refreshToken: string, roles: Option<seq<string>>)

  /** True when start-up finds a session worth confirming: a non-empty access
      token and a cached profile. */
  predicate HasSavedSession(s: Storage)
  {
    Token(s).Some? && Token(s).value != "" && StoredUser(s).Some?
  }

  class AuthProvider {
    var user: Option<User>
    var isLoading: bool
    const store: TokenStore

    constructor (store: TokenStore)
      ensures this.store == store
      ensures user == None && isLoading
    {
      this.store := store;
      user := None;
      isLoading := true;
    }

    /** Start-up (`initAuth`). With no saved session nothing is requested and
        nothing changes. Otherwise the cached profile is shown at once and the
        profile is requested with the stored token: a profile in the reply
        replaces the cached one, a reply without one keeps it, and a failure
        ends the session. Loading is over on every path except one: when the
        cached profile cannot be parsed, `getStoredUser()` throws before
        anything else happens, so nothing changes and loading never ends. */
    method InitAuth(profile: Response<Option<User>>) returns (profileRequest: Option<map<string, string>>)
      modifies this, store
      ensures StoredUserThrows(old(store.items)) ==>
                profileRequest == None && isLoading == old(isLoading)
                && user == old(user) && store.items == old(store.items)
      ensures !StoredUserThrows(old(store.items)) ==> !isLoading
      ensures profileRequest.Some? <==> HasSavedSession(old(store.items))
      ensures profileRequest.Some? ==>
                profileRequest.value == map["Authorization" := "Bearer " + Token(old(store.items)).value]
      ensures !HasSavedSession(old(store.items)) ==>
                user == old(user) && store.items == old(store.items)
      ensures HasSavedSession(old(store.items)) && profile.Ok? && profile.data.Some? ==>
                user == profile.data && store.items == WithStoredUser(old(store.items), profile.data.value)
      ensures HasSavedSession(old(store.items)) && profile.Ok? && profile.data.None? ==>
                user == StoredUser(old(store.items)) && store.items == old(store.items)
      ensures HasSavedSession(old(store.items)) && profile.Failed? ==>
                user == None && store.items == WithoutSession(old(store.items))
    {
      profileRequest := None;
      var token := Token(store.items);
      if StoredUserThrows(store.items) {
        return;
      }
      var storedUser := StoredUser(store.items);
      if token.Some? && token.value != "" && storedUser.Some? {
        user := storedUser;
        profileRequest := Some(AuthHeaders(store.items));
        match profile
        case Ok(data) =>
          if data.Some? {
            user := data;
            store.SetStoredUser(data);
          }
        case Failed(_) =>
          store.ClearTokens();
          user := None;
      }
      isLoading := false;
    }

    /** `login(email, password)`. A rejected login changes nothing. Otherwise
        the tokens are stored first, so the profile request carries the new
        access token; a profile then becomes both the in-memory and the cached
        user, while a failed profile request leaves the tokens stored and the
        user as it was. A profile reply without `data` signs nobody in and
        caches the text "undefined" (see `WithProfile`). Errors reach the
        caller unchanged. */
    method Login(email: string, password: string, login: Response<LoginData>, profile: Response<Option<User>>)
      returns (result: Response<()>, profileRequest: Option<map<string, string>>)
      modifies this, store
      ensures isLoading == old(isLoading)
      ensures login.Failed? ==>
                result == Failed(login.message) && profileRequest == None
                && user == old(user) && store.items == old(store.items)
      ensures login.Ok? ==>
                profileRequest == Some(AuthHeaders(WithTokens(old(store.items), login.data.accessToken, login.data.refreshToken)))
      ensures login.Ok? && profile.Failed? ==>
                result == Failed(profile.message) && user == old(user)
                && store.items == WithTokens(old(store.items), login.data.accessToken, login.data.refreshToken)
      ensures login.Ok? && profile.Ok? ==>
                result == Ok(()) && user == profile.data
                && store.items == WithProfile(WithTokens(old(store.items), login.data.accessToken, login.data.refreshToken), profile.data)
    {
      match login
      case Failed(message) =>
        return Failed(message), None;
      case Ok(data) =>
        store.SetTokens(data.accessToken, data.refreshToken);
        profileRequest := Some(AuthHeaders(store.items));
        match profile
        case Failed(message) =>
          return Failed(message), profileRequest;
        case Ok(userData) =>
          user := userData;
          store.SetStoredUser(userData);
          result := Ok(());
    }

    /** `register(email, password, firstname, lastname)`: sends each argument
        as the body field of the same name, passes the backend's answer
        through and changes no state. */
    method Register(email: string, password: string, firstname: string, lastname: string, reply: Response<()>)
      returns (result: Response<()>, request: Registration)
      ensures request.email == email && request.password == password
      ensures request.firstname == firstname && request.lastname == lastname
      ensures result == reply
    {
      request := Registration(email, password, firstname, lastname);
      result := reply;
    }

    /** `logout()`: the session is erased and nobody is signed in. */
    method Logout()
      modifies this, store
      ensures isLoading == old(isLoading)
      ensures user == None && store.items == WithoutSession(old(store.items))
    {
      store.ClearTokens();
      user := None;
    }
  }
}

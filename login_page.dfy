/** The sign-in form (src/pages/Login.tsx). After a successful login the page
    chooses where to go from the profile cached in storage, since the
    provider's `isAdmin` has not been recomputed yet at that point. */
module LoginPage {
  import opened Common
  import opened Api
  import opened AuthContext

  const FillAllFields: string := "Please fill in all fields"
  const LoginFailed: string := "Login failed"

  /** Both fields must be non-empty (they are not trimmed). */
  function LoginError(email: string, password: string): (r: Option<string>)
    ensures r.None? <==> email != "" && password != ""
    ensures r.Some? ==> r.value == FillAllFields
  {
    if email == "" || password == "" then Some(FillAllFields) else None
  }

  /** The destination chosen from `JSON.parse(localStorage.getItem('user') || '{}')`:
      None when the parse throws (unreadable cached text); otherwise
      administrators go to the dashboard of the back office and everyone else
      (including a missing profile, parsed as `{}`) to the catalogue. */
  function RedirectAfterLogin(s: Storage): (path: Option<string>)
    ensures path.None? <==> StoredUserThrows(s)
    ensures path == Some("/admin") <==> StoredUser(s).Some? && HasAdminRole(StoredUser(s).value.roles)
    ensures path.Some? ==> path.value == "/admin" || path.value == "/books"
  {
    if StoredUserThrows(s) then None
    else
      var stored := StoredUser(s);
      if stored.Some? && HasAdminRole(stored.value.roles) then Some("/admin") else Some("/books")
  }

  /** Reading the profile back right after the login stored it: the choice
      depends only on the profile reply, whatever storage held before; a reply
      without a profile leaves nothing that parses. */
  lemma RedirectFollowsProfile(s: Storage, access: string, refresh: string, profile: Option<User>)
    ensures RedirectAfterLogin(WithProfile(WithTokens(s, access, refresh), profile)) ==
              if profile.None? then None
              else Some(if HasAdminRole(profile.value.roles) then "/admin" else "/books")
  {
  }

  class LoginForm {
    var isLoading: bool
    const auth: AuthProvider

    constructor (auth: AuthProvider)
      ensures this.auth == auth && !isLoading
    {
      this.auth := auth;
      isLoading := false;
    }

    /** `handleSubmit`, with the login reply, the profile reply, and the
        message of the `SyntaxError` the browser raises when the cached profile
        does not parse. Empty fields send nothing; an error from either request
        is shown (or the default text); a complete login redirects by the cached
        roles, and a profile reply without data ends in the parse error with
        the new tokens still stored. */
    method HandleSubmit(email: string, password: string, login: Response<LoginData>,
                        profile: Response<Option<User>>, parseError: string)
      returns (navigateTo: Option<string>, error: Option<string>)
      requires !isLoading
      modifies this, auth, auth.store
      ensures !isLoading && auth.isLoading == old(auth.isLoading)
      ensures LoginError(email, password).Some? ==>
                navigateTo == None && error == LoginError(email, password)
                && auth.user == old(auth.user) && auth.store.items == old(auth.store.items)
      ensures LoginError(email, password).None? && login.Failed? ==>
                navigateTo == None && error == Some(OrElse(login.message, LoginFailed))
                && auth.user == old(auth.user) && auth.store.items == old(auth.store.items)
      ensures LoginError(email, password).None? && login.Ok? && profile.Failed? ==>
                navigateTo == None && error == Some(OrElse(profile.message, LoginFailed))
                && auth.user == old(auth.user)
                && auth.store.items == WithTokens(old(auth.store.items), login.data.accessToken, login.data.refreshToken)
      ensures LoginError(email, password).None? && login.Ok? && profile.Ok? ==>
                auth.user == profile.data
                && auth.store.items == WithProfile(WithTokens(old(auth.store.items), login.data.accessToken, login.data.refreshToken), profile.data)
      ensures LoginError(email, password).None? && login.Ok? && profile.Ok? && profile.data.Some? ==>
                error == None
                && navigateTo == Some(if HasAdminRole(profile.data.value.roles) then "/admin" else "/books")
      ensures LoginError(email, password).None? && login.Ok? && profile.Ok? && profile.data.None? ==>
                navigateTo == None && error == Some(OrElse(parseError, LoginFailed))
    {
      var complaint := LoginError(email, password);
      if complaint.Some? {
        return None, complaint;
      }
      isLoading := true;
      var result, _ := auth.Login(email, password, login, profile);
      if result.Ok? {
        RedirectFollowsProfile(old(auth.store.items), login.data.accessToken, login.data.refreshToken, profile.data);
        var destination := RedirectAfterLogin(auth.store.items);
        if destination.Some? {
          navigateTo, error := destination, None;
        } else {
          navigateTo, error := None, Some(OrElse(parseError, LoginFailed));
        }
      } else {
        navigateTo, error := None, Some(OrElse(result.message, LoginFailed));
      }
      isLoading := false;
    }
  }
}

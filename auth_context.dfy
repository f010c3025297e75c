/** The session store (`AuthContext`): the token, the signed-in user, the
    manager flag, the loading flag, the token kept in browser storage and the
    default `Authorization` header, changed by login, logout and the profile
    fetch.  Server answers are method inputs. */
module AuthContext {
  import opened Common
  import opened UiCommon

  /** The `/api/me/` answer. */
  datatype Profile = Profile(username: string, isManager: bool)

  /** The calls the session makes, in order. */
  datatype Call = TokenAuth(username: string) | GetMe(header: string)

  /** `Token <t>`. */
  function HeaderFor(t: string): string { "Token " + t }

  class Session {
    var token: Option<string>
    var stored: Option<string>
    var user: Option<string>
    var isManager: bool
    var isLoading: bool
    var authHeader: Option<string>
    var calls: seq<Call>

    /** The state token and the stored token agree, and only a signed-in
        user can be a manager. */
    predicate Valid()
      reads this
    {
      token == stored && (isManager ==> user.Some?)
    }

    /** A fresh page starts from the stored token, with no user, no manager
        rights and the loading flag up. */
    constructor(storedToken: Option<string>)
      ensures Valid()
      ensures token == storedToken && stored == storedToken
      ensures user == None && !isManager && isLoading && authHeader == None && calls == []
    {
      token := storedToken;
      stored := storedToken;
      user := None;
      isManager := false;
      isLoading := true;
      authHeader := None;
      calls := [];
    }

    /** `fetchProfile`: the header is set before the call and stays set; a
        successful answer sets the user and the manager flag, a failure
        leaves both as they were. */
    method FetchProfile(t: string, answer: Option<Profile>)
      requires Valid()
      modifies this`user, this`isManager, this`authHeader, this`calls
      ensures Valid()
      ensures authHeader == Some(HeaderFor(t)) && calls == old(calls) + [GetMe(HeaderFor(t))]
      ensures answer.Some? ==> user == Some(answer.value.username) && isManager == answer.value.isManager
      ensures answer.None? ==> user == old(user) && isManager == old(isManager)
    {
      authHeader := Some(HeaderFor(t));
      calls := calls + [GetMe(HeaderFor(t))];
      if answer.Some? {
        user := Some(answer.value.username);
        isManager := answer.value.isManager;
      }
    }

    /** `login`; `issued` is the token the server returns, `None` when the
        credentials are refused (the call throws and nothing else happens).
        The token is put in state and storage before the profile is
        fetched. */
    method Login(username: string, issued: Option<string>, answer: Option<Profile>)
      requires Valid()
      modifies this`token, this`stored, this`user, this`isManager, this`authHeader, this`calls
      ensures Valid()
      ensures issued.None? ==>
                token == old(token) && user == old(user) && isManager == old(isManager) &&
                authHeader == old(authHeader) && calls == old(calls) + [TokenAuth(username)]
      ensures issued.Some? ==>
                token == Some(issued.value) && stored == Some(issued.value) &&
                authHeader == Some(HeaderFor(issued.value)) &&
                calls == old(calls) + [TokenAuth(username), GetMe(HeaderFor(issued.value))]
      ensures issued.Some? && answer.Some? ==> user == Some(answer.value.username) && isManager == answer.value.isManager
      ensures issued.Some? && answer.None? ==> user == old(user) && isManager == old(isManager)
    {
      calls := calls + [TokenAuth(username)];
      if issued.None? {
        return;
      }
      token := issued;
      stored := issued;
      FetchProfile(issued.value, answer);
    }

    /** `logout`: everything about the session is cleared; the loading flag
        is left alone. */
    method Logout()
      modifies this`token, this`stored, this`user, this`isManager, this`authHeader
      ensures Valid()
      ensures token == None && stored == None && user == None && !isManager && authHeader == None
    {
      token := None;
      user := None;
      isManager := false;
      stored := None;
      authHeader := None;
    }

    /** The effect that runs when the token changes: with a token, fetch the
        profile and then drop the loading flag whatever the outcome; without
        one, drop it at once. */
    method Restore(answer: Option<Profile>)
      requires Valid()
      modifies this`user, this`isManager, this`isLoading, this`authHeader, this`calls
      ensures Valid() && !isLoading
      ensures (token.None? || token.value == "") ==>
                user == old(user) && isManager == old(isManager) &&
                authHeader == old(authHeader) && calls == old(calls)
      ensures token.Some? && token.value != "" ==>
                authHeader == Some(HeaderFor(token.value)) &&
                calls == old(calls) + [GetMe(HeaderFor(token.value))]
      ensures token.Some? && token.value != "" && answer.Some? ==>
                user == Some(answer.value.username) && isManager == answer.value.isManager
      ensures answer.None? ==> user == old(user) && isManager == old(isManager)
    {
      if token.Some? && Truthy(token.value) {
        FetchProfile(token.value, answer);
      }
      isLoading := false;
    }
  }

  /** A page opened with a stored token whose profile cannot be fetched
      ends up loaded, with the token kept but no user and no manager
      rights. */
  method RestoreFailure(t: string) returns (s: Session)
    ensures s.Valid() && !s.isLoading
    ensures s.token == Some(t) && s.user == None && !s.isManager
  {
    s := new Session(Some(t));
    s.Restore(None);
  }

  /** Whatever the stored token, the credentials and the server's answers,
      signing out after signing in leaves no token, stored token, user,
      manager rights or header behind. */
  method LoginLogout(storedToken: Option<string>, username: string, issued: Option<string>, answer: Option<Profile>)
    returns (s: Session)
    ensures s.Valid() && s.token == None && s.stored == None && s.user == None && !s.isManager && s.authHeader == None
  {
    s := new Session(storedToken);
    s.Restore(None);
    s.Login(username, issued, answer);
    s.Logout();
  }
}

/** The admin session (`AdminContext.tsx`): the authenticated flag, the signed-in user, and
    the two browser-storage keys, driven by the mount-time restore, `login`, `logout` and
    `checkAuth`. Browser storage is a map field; the login call's result is an input. */
module AdminContext {
  import opened Wrappers

  const SessionTokenKey: string := "session_token"
  const AdminUsernameKey: string := "admin_username"

  /** `localStorage.getItem(key)` is truthy: the key is stored with a non-empty value. */
  predicate Truthy(storage: map<string, string>, key: string) {
    key in storage && storage[key] != ""
  }

  class AdminSession {
    var isAuthenticated: bool
    var adminUser: Option<string>
    var storage: map<string, string>

    /** The flag is set exactly when there is a user. */
    ghost predicate Valid()
      reads this
    {
      isAuthenticated <==> adminUser.Some?
    }

    /** The provider starts signed out with no user, over the browser's storage. */
    constructor (storage: map<string, string>)
      ensures !isAuthenticated && adminUser == None && this.storage == storage
      ensures Valid()
    {
      isAuthenticated := false;
      adminUser := None;
      this.storage := storage;
    }

    /** The mount-time restore: with both a session token and a user name stored, the
        session is signed in as that user; otherwise nothing changes. */
    method RestoreSession()
      modifies this
      ensures storage == old(storage)
      ensures Truthy(storage, SessionTokenKey) && Truthy(storage, AdminUsernameKey) ==>
        isAuthenticated && adminUser == Some(storage[AdminUsernameKey])
      ensures !(Truthy(storage, SessionTokenKey) && Truthy(storage, AdminUsernameKey)) ==>
        isAuthenticated == old(isAuthenticated) && adminUser == old(adminUser)
      ensures old(Valid()) ==> Valid()
    {
      if Truthy(storage, SessionTokenKey) && Truthy(storage, AdminUsernameKey) {
        isAuthenticated := true;
        adminUser := Some(storage[AdminUsernameKey]);
      }
    }

    /** `login(username, password)`, where `response` is what the login call returned: on a
        token, both keys are stored and the session is signed in as `username`; on an
        error, both keys are removed, the session is signed out and the error is passed on. */
    method Login(username: string, response: Result<string>) returns (o: Outcome)
      modifies this
      ensures o.Pass? <==> response.Ok?
      ensures response.Ok? ==>
        && storage == old(storage)[SessionTokenKey := response.value][AdminUsernameKey := username]
        && isAuthenticated && adminUser == Some(username)
        && (CheckAuth() <==> response.value != "")
      ensures response.Err? ==>
        && o == Fail(response.error)
        && storage == old(storage) - {SessionTokenKey, AdminUsernameKey}
        && !isAuthenticated && adminUser == None
        && !CheckAuth()
      ensures Valid()
    {
      match response
      case Ok(token) =>
        storage := storage[SessionTokenKey := token];
        storage := storage[AdminUsernameKey := username];
        isAuthenticated := true;
        adminUser := Some(username);
        o := Pass;
      case Err(error) =>
        storage := storage - {SessionTokenKey};
        storage := storage - {AdminUsernameKey};
        isAuthenticated := false;
        adminUser := None;
        o := Fail(error);
    }

    /** `logout`: both keys are removed and the session is signed out. */
    method Logout()
      modifies this
      ensures storage == old(storage) - {SessionTokenKey, AdminUsernameKey}
      ensures !isAuthenticated && adminUser == None
      ensures !CheckAuth()
      ensures Valid()
    {
      storage := storage - {SessionTokenKey};
      storage := storage - {AdminUsernameKey};
      isAuthenticated := false;
      adminUser := None;
    }

    /** `checkAuth`: a session token is stored and the session is signed in. */
    function CheckAuth(): (b: bool)
      reads this
      ensures b ==> isAuthenticated && SessionTokenKey in storage
      ensures b <==> Truthy(storage, SessionTokenKey) && isAuthenticated
    {
      Truthy(storage, SessionTokenKey) && isAuthenticated
    }
  }
}

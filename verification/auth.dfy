/** The authentication store (contexts/AuthContext.tsx): at most one signed-in
    user, a loading flag that gates redirects until the saved session has
    been read, and the single persisted storage entry under the key 'user'. */
module Auth {
  import opened Wrappers
  import opened Text

  datatype User = User(id: string, email: string, isAdmin: bool)

  const AdminEmail := "admin@shopswift.com"
  const AdminPassword := "admin123"
  const UserEmail := "user@shopswift.com"
  const UserPassword := "user123"
  const MinPasswordLength := 6

  /** The account a credential pair signs in to: one of the two built-in
      accounts, or none. */
  function Account(email: string, password: string): (r: Option<User>)
    ensures r.Some? ==> r.value.email == email
    ensures r.Some? && r.value.isAdmin <==> email == AdminEmail && password == AdminPassword
    ensures r.Some? && !r.value.isAdmin <==> email == UserEmail && password == UserPassword
    ensures r.Some? ==> r.value.id == (if r.value.isAdmin then "1" else "2")
  {
    if email == AdminEmail && password == AdminPassword then Some(User("1", email, true))
    else if email == UserEmail && password == UserPassword then Some(User("2", email, false))
    else None
  }

  /** The user a signup creates, if its email and password are acceptable:
      a non-empty email and a password of at least six UTF-16 code units. */
  function SignupAccount(email: string, password: string, freshId: string): (r: Option<User>)
    ensures r.Some? <==> email != "" && Utf16Length(password) >= MinPasswordLength
    ensures r.Some? ==> r.value == User(freshId, email, false)
  {
    if email != "" && password != "" && Utf16Length(password) >= MinPasswordLength
    then Some(User(freshId, email, false))
    else None
  }

  /** A password of three emoji is six code units long, so it is accepted. */
  lemma AstralPasswordAccepted()
    ensures SignupAccount("a@b.co", "\U{1F600}\U{1F600}\U{1F600}", "7") == Some(User("7", "a@b.co", false))
  {
    var pw := "\U{1F600}\U{1F600}\U{1F600}";
    assert pw[1..] == "\U{1F600}\U{1F600}" && pw[1..][1..] == "\U{1F600}";
  }

  /** `user?.isAdmin || false`: nobody signed in is not an admin. */
  predicate IsAdminUser(user: Option<User>)
    ensures IsAdminUser(user) <==> user.Some? && user.value.isAdmin
  {
    match user
    case None => false
    case Some(u) => u.isAdmin
  }

  /** What an admin screen shows: the guard `!user || !isAdmin()` sends a
      missing or non-admin user to the "Access Denied" view. */
  datatype AdminView = AccessDenied | AdminContent

  function AdminGate(user: Option<User>): (view: AdminView)
    ensures view == AccessDenied <==> user.None? || !user.value.isAdmin
  {
    if user.None? || !IsAdminUser(user) then AccessDenied else AdminContent
  }

  class AuthStore {
    var user: Option<User>
    var isLoading: bool
    /** The persisted 'user' entry; it survives a restart of the app. */
    var storage: Option<User>

    /** The provider as mounted at app start: nobody signed in yet and still
        loading; `saved` is whatever an earlier session left in storage. */
    constructor (saved: Option<User>)
      ensures user == None && isLoading && storage == saved
    {
      user := None;
      isLoading := true;
      storage := saved;
    }

    /** Reads the saved user back; a missing entry leaves `user` as it is. */
    method LoadUser()
      modifies this
      ensures storage == old(storage)
      ensures user == if storage.Some? then storage else old(user)
      ensures !isLoading
    {
      if storage.Some? {
        user := storage;
      }
      isLoading := false;
    }

    /** Writes the entry, or removes it for `None`. */
    method SaveUser(u: Option<User>)
      modifies this`storage
      ensures storage == u
    {
      storage := u;
    }

    method Login(email: string, password: string) returns (ok: bool)
      modifies this
      ensures ok <==> Account(email, password).Some?
      ensures ok ==> user == Account(email, password) && storage == user
      ensures !ok ==> user == old(user) && storage == old(storage)
      ensures !isLoading
    {
      isLoading := true;
      var account := Account(email, password);
      if account.Some? {
        user := account;
        SaveUser(account);
        isLoading := false;
        ok := true;
      } else {
        isLoading := false;
        ok := false;
      }
    }

    /** `freshId` stands for `Date.now().toString()`. */
    method Signup(email: string, password: string, freshId: string) returns (ok: bool)
      modifies this
      ensures ok <==> email != "" && Utf16Length(password) >= MinPasswordLength
      ensures ok ==> user == Some(User(freshId, email, false)) && storage == user
      ensures !ok ==> user == old(user) && storage == old(storage)
      ensures !isLoading
    {
      isLoading := true;
      var account := SignupAccount(email, password, freshId);
      if account.Some? {
        user := account;
        SaveUser(account);
        isLoading := false;
        ok := true;
      } else {
        isLoading := false;
        ok := false;
      }
    }

    method Logout()
      modifies this
      ensures user == None && storage == None
      ensures isLoading == old(isLoading)
    {
      user := None;
      SaveUser(None);
    }

    /** `isAdmin()`: true only while an admin is signed in. */
    predicate IsAdmin()
      reads this
      ensures IsAdmin() <==> user.Some? && user.value.isAdmin
    {
      IsAdminUser(user)
    }
  }

  /** A session that signs in and is then restarted: the fresh store, once
      it has loaded, holds exactly the user the login produced. */
  method RestartAfterLogin(saved: Option<User>, email: string, password: string)
    returns (before: Option<User>, after: Option<User>, admin: bool)
    ensures Account(email, password).Some? ==> before == after == Account(email, password)
    ensures Account(email, password).Some? ==> admin == (email == AdminEmail)
    ensures Account(email, password).None? ==> after == saved
  {
    var store := new AuthStore(saved);
    store.LoadUser();
    var ok := store.Login(email, password);
    before := store.user;
    var restarted := new AuthStore(store.storage);
    restarted.LoadUser();
    after := restarted.user;
    admin := restarted.IsAdmin();
  }

  /** Signing up and restarting restores the new user. */
  method RestartAfterSignup(saved: Option<User>, email: string, password: string, freshId: string)
    returns (after: Option<User>)
    ensures email != "" && Utf16Length(password) >= MinPasswordLength ==> after == Some(User(freshId, email, false))
    ensures email == "" || Utf16Length(password) < MinPasswordLength ==> after == saved
  {
    var store := new AuthStore(saved);
    store.LoadUser();
    var ok := store.Signup(email, password, freshId);
    var restarted := new AuthStore(store.storage);
    restarted.LoadUser();
    after := restarted.user;
  }

  /** Logging out and restarting leaves nobody signed in. */
  method RestartAfterLogout(saved: Option<User>) returns (after: Option<User>, loading: bool)
    ensures after == None && !loading
  {
    var store := new AuthStore(saved);
    store.LoadUser();
    store.Logout();
    var restarted := new AuthStore(store.storage);
    restarted.LoadUser();
    after := restarted.user;
    loading := restarted.isLoading;
  }

  /** Only the admin credential pair opens the admin screens: a fresh app
      with no saved session, after one login attempt. */
  method AdminAccessAfterLogin(email: string, password: string) returns (view: AdminView)
    ensures view == AdminContent <==> email == AdminEmail && password == AdminPassword
  {
    var store := new AuthStore(None);
    store.LoadUser();
    var ok := store.Login(email, password);
    view := AdminGate(store.user);
  }
}

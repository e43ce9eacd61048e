/** The mock authentication provider of src/context/AuthContext.tsx: a
    table of registered users and the current user, both kept in the
    browser's key-value store, with no backend.

    The table exists only in the store, under the key "users"; the current
    user is a field of the provider, mirrored under the key "user". The
    lookups are pure functions; login, register and logout are methods of
    the class that update the field and the store. */
module AuthContext {

  datatype Option<T> = None | Some(value: T)

  /** A row of the users table, password in clear as the source keeps it. */
  datatype Record = Record(name: string, email: string, password: string)

  /** The current user as the provider exposes it. */
  datatype User = User(email: string, name: string)

  /** A value of the store, abstracting its JSON text. */
  datatype Stored = UserList(records: seq<Record>) | UserData(user: User)

  const UsersKey: string := "users"
  const UserKey: string := "user"

  /** A store whose two keys, when present, hold what the provider writes
      there. */
  predicate WellFormedStore(store: map<string, Stored>) {
    && (UsersKey in store ==> store[UsersKey].UserList?)
    && (UserKey in store ==> store[UserKey].UserData?)
  }

  /** The users table as read back from the store: an absent key reads as
      the empty table. */
  function StoredUsers(store: map<string, Stored>): (users: seq<Record>)
    requires WellFormedStore(store)
    ensures UsersKey !in store ==> users == []
  {
    if UsersKey in store then store[UsersKey].records else []
  }

  /** The saved current user: an absent key reads as no user. */
  function StoredUser(store: map<string, Stored>): (saved: Option<User>)
    requires WellFormedStore(store)
    ensures saved.None? <==> UserKey !in store
  {
    if UserKey in store then Some(store[UserKey].user) else None
  }

  /** The two keys of the store are independent: what is written under one
      key reads back unchanged, the other key is unaffected, and a removed
      "user" key reads as no user. */
  lemma StoreReadsBack(store: map<string, Stored>, users: seq<Record>, u: User)
    requires WellFormedStore(store)
    ensures StoredUsers(store[UsersKey := UserList(users)]) == users
    ensures StoredUser(store[UsersKey := UserList(users)]) == StoredUser(store)
    ensures StoredUser(store[UserKey := UserData(u)]) == Some(u)
    ensures StoredUsers(store[UserKey := UserData(u)]) == StoredUsers(store)
    ensures StoredUser(store - {UserKey}) == None
    ensures StoredUsers(store - {UserKey}) == StoredUsers(store)
  {
    assert UsersKey != UserKey;
  }

  predicate Matches(r: Record, email: string, password: string) {
    r.email == email && r.password == password
  }

  /** users.find with the credential test of login: the position of the
      first record matching both the email and the password, or None when
      no record does. */
  function FindCredential(users: seq<Record>, email: string, password: string): (r: Option<nat>)
    ensures r.Some? ==> r.value < |users| && Matches(users[r.value], email, password)
    ensures r.Some? ==> forall j :: 0 <= j < r.value ==> !Matches(users[j], email, password)
    ensures r.None? <==> forall j :: 0 <= j < |users| ==> !Matches(users[j], email, password)
  {
    if users == [] then None
    else if Matches(users[0], email, password) then Some(0)
    else match FindCredential(users[1..], email, password)
      case None => None
      case Some(k) => Some(k + 1)
  }

  /** users.some with the duplicate test of register. */
  function EmailTaken(users: seq<Record>, email: string): (taken: bool)
    ensures taken <==> exists j :: 0 <= j < |users| && users[j].email == email
  {
    if users == [] then false
    else users[0].email == email || EmailTaken(users[1..], email)
  }

  ghost predicate DistinctEmails(users: seq<Record>) {
    forall i, j :: 0 <= i < j < |users| ==> users[i].email != users[j].email
  }

  /** Appending a record whose email is not taken, as register does, keeps
      the emails of the table pairwise distinct. */
  lemma AppendFreshKeepsDistinct(users: seq<Record>, rec: Record)
    requires DistinctEmails(users) && !EmailTaken(users, rec.email)
    ensures DistinctEmails(users + [rec])
  {
    var t := users + [rec];
    forall i, j | 0 <= i < j < |t| ensures t[i].email != t[j].email {
      if j == |users| {
        assert t[i] == users[i];
      } else {
        assert t[i] == users[i] && t[j] == users[j];
      }
    }
  }

  /** The register-then-login round trip: once a record with a fresh email
      is appended, the credential lookup for that email and password finds
      it, and no earlier record. */
  lemma {:induction false} RegisteredCredentialFound(users: seq<Record>, name: string, email: string, password: string)
    requires !EmailTaken(users, email)
    ensures FindCredential(users + [Record(name, email, password)], email, password) == Some(|users|)
  {
    var t := users + [Record(name, email, password)];
    forall j | 0 <= j < |users| ensures !Matches(t[j], email, password) {
      assert t[j] == users[j];
    }
    assert Matches(t[|users|], email, password);
  }

  class AuthProvider {
    /** The current user; None stands for null. */
    var user: Option<User>
    /** The browser's key-value store. */
    var store: map<string, Stored>

    /** The store is well formed and the current user mirrors its "user"
        key. */
    ghost predicate Valid()
      reads this
    {
      WellFormedStore(store) && user == StoredUser(store)
    }

    /** Mounting the provider: the current user is whatever the store has
        saved under "user". */
    constructor (saved: map<string, Stored>)
      requires WellFormedStore(saved)
      ensures Valid() && store == saved && user == StoredUser(saved)
    {
      store := saved;
      user := if UserKey in saved then Some(saved[UserKey].user) else None;
    }

    /** isAuthenticated: some user is logged in, which in a valid provider
        is the same as the store holding a saved user. */
    function IsAuthenticated(): (authenticated: bool)
      reads this
      ensures authenticated <==> user != None
      ensures Valid() ==> (authenticated <==> UserKey in store)
    {
      user.Some?
    }

    /** login: succeeds exactly when some record of the table matches both
        the email and the password; the first such record becomes the
        current user and is saved under "user". A failed login changes
        nothing. */
    method Login(email: string, password: string) returns (ok: bool)
      requires Valid()
      modifies this
      ensures Valid()
      ensures var users := StoredUsers(old(store));
        ok <==> exists j :: 0 <= j < |users| && Matches(users[j], email, password)
      ensures ok ==>
        var users := StoredUsers(old(store));
        var found := users[FindCredential(users, email, password).value];
        && user == Some(User(found.email, found.name))
        && store == old(store)[UserKey := UserData(User(found.email, found.name))]
      ensures !ok ==> user == old(user) && store == old(store)
    {
      var users := if UsersKey in store then store[UsersKey].records else [];
      assert users == StoredUsers(store);
      var found := FindCredential(users, email, password);
      if found.None? {
        return false;
      }
      assert Matches(users[found.value], email, password);
      var userData := User(users[found.value].email, users[found.value].name);
      user := Some(userData);
      store := store[UserKey := UserData(userData)];
      ok := true;
    }

    /** register: fails, changing nothing, when the email is already in the
        table; otherwise appends the record at the end of the table, saves
        the table, and logs the new user in. Emails of the table stay
        pairwise distinct. */
    method Register(name: string, email: string, password: string) returns (ok: bool)
      requires Valid()
      modifies this
      ensures Valid()
      ensures ok <==> !EmailTaken(StoredUsers(old(store)), email)
      ensures ok ==>
        && StoredUsers(store) == StoredUsers(old(store)) + [Record(name, email, password)]
        && user == Some(User(email, name))
        && store == old(store)[UsersKey := UserList(StoredUsers(old(store)) + [Record(name, email, password)])]
                              [UserKey := UserData(User(email, name))]
      ensures !ok ==> user == old(user) && store == old(store)
      ensures DistinctEmails(StoredUsers(old(store))) ==> DistinctEmails(StoredUsers(store))
    {
      var users := if UsersKey in store then store[UsersKey].records else [];
      if EmailTaken(users, email) {
        return false;
      }
      var rec := Record(name, email, password);
      if DistinctEmails(users) {
        AppendFreshKeepsDistinct(users, rec);
      }
      users := users + [rec];
      store := store[UsersKey := UserList(users)];
      var userData := User(email, name);
      user := Some(userData);
      store := store[UserKey := UserData(userData)];
      ok := true;
    }

    /** logout: no current user and no saved user; the table is untouched. */
    method Logout()
      requires Valid()
      modifies this
      ensures Valid()
      ensures user == None && store == old(store) - {UserKey}
      ensures StoredUsers(store) == StoredUsers(old(store))
    {
      user := None;
      store := store - {UserKey};
    }
  }

  /** The round trip at the level of the provider: after a successful
      register, a login with the same email and password succeeds and the
      current user is the one just registered. */
  method RegisterThenLogin(auth: AuthProvider, name: string, email: string, password: string)
    returns (registered: bool, loggedIn: bool)
    requires auth.Valid()
    modifies auth
    ensures auth.Valid()
    ensures registered <==> !EmailTaken(StoredUsers(old(auth.store)), email)
    ensures registered ==> loggedIn && auth.user == Some(User(email, name))
  {
    ghost var before := StoredUsers(auth.store);
    registered := auth.Register(name, email, password);
    loggedIn := false;
    if registered {
      RegisteredCredentialFound(before, name, email, password);
      loggedIn := auth.Login(email, password);
    }
  }
}

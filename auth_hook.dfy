/** The authentication hook (src/hooks/useAuth.ts): a plain-text credential check
    against the stored users, and a session record in the browser store. */
module Auth {
  import opened Types
  import opened LocalStorageService

  /** The user's email and password both equal the given ones. */
  predicate Matches(u: User, email: string, password: string) {
    u.email == email && u.password == password
  }

  /** `users.find(u => u.email === email && u.password === password)`. */
  function FindUser(users: seq<User>, email: string, password: string): (r: Option<User>)
    ensures r.Some? ==> r.value in users && Matches(r.value, email, password)
    ensures r.None? ==> forall u :: u in users ==> !Matches(u, email, password)
  {
    if users == [] then None
    else if Matches(users[0], email, password) then Some(users[0])
    else FindUser(users[1..], email, password)
  }

  /** A user who has just registered can log in with the same credentials, whatever
      the list held before (duplicates included). */
  lemma RegisterThenLogin(users: seq<User>, email: string, password: string)
    ensures FindUser(users + [User(email, password)], email, password).Some?
  {
    var extended := users + [User(email, password)];
    assert extended[|users|] == User(email, password);
    assert User(email, password) in extended;
  }

  /** On a freshly seeded store the default admin logs in and a wrong password does not. */
  lemma SeededCredentials()
    ensures FindUser(GetUsers(SeedDefaults(NoKeys)), "admin@petstore.com", "admin123").Some?
    ensures FindUser(GetUsers(SeedDefaults(NoKeys)), "x@x.com", "wrong").None?
  {
  }

  class AuthHook {
    var user: Option<AuthUser>
    var loading: bool
    const store: LocalStore

    /** The initial state: nobody logged in, still loading. */
    constructor (store: LocalStore)
      ensures this.store == store && user == None && loading
    {
      this.store := store;
      user := None;
      loading := true;
    }

    /** The mount effect: restore a readable session, drop an unreadable one. */
    method Mount()
      modifies this, store
      ensures !loading
      ensures old(store.slots.session) == None ==>
                user == old(user) && store.slots == old(store.slots)
      ensures (old(store.slots.session).Some? && old(store.slots.session).value.Stored?) ==>
                user == Some(old(store.slots.session).value.user) && store.slots == old(store.slots)
      ensures old(store.slots.session) == Some(Unparsable) ==>
                user == old(user) && store.slots == old(store.slots).(session := None)
    {
      var session := store.slots.session;
      if session.Some? {
        match session.value
        case Stored(u) =>
          user := Some(u);
        case Unparsable =>
          store.slots := store.slots.(session := None);
      }
      loading := false;
    }

    /** Succeeds exactly when some stored user has both the email and the password;
        only then are the user and the session set. */
    method Login(email: string, password: string) returns (ok: bool)
      modifies this, store
      ensures ok <==> exists u :: u in GetUsers(old(store.slots)) && Matches(u, email, password)
      ensures ok ==> user == Some(AuthUser(email, true)) &&
                     store.slots == old(store.slots).(session := Some(Stored(AuthUser(email, true))))
      ensures !ok ==> user == old(user) && store.slots == old(store.slots)
      ensures loading == old(loading)
    {
      var users := GetUsers(store.slots);
      var found := FindUser(users, email, password);
      if found.Some? {
        var authUser := AuthUser(email, true);
        user := Some(authUser);
        store.slots := store.slots.(session := Some(Stored(authUser)));
        ok := true;
      } else {
        ok := false;
      }
    }

    /** Forgets the user and removes the session key; the result does not depend on
        the previous user or session, so a second logout changes nothing. */
    method Logout()
      modifies this, store
      ensures user == None
      ensures store.slots == old(store.slots).(session := None)
      ensures loading == old(loading)
    {
      user := None;
      store.slots := store.slots.(session := None);
    }

    /** Appends the credentials to the stored users without looking for an existing
        entry; afterwards they log in. */
    method Register(email: string, password: string)
      modifies this, store
      ensures store.slots == old(store.slots).(users := Some(GetUsers(old(store.slots)) + [User(email, password)]))
      ensures FindUser(GetUsers(store.slots), email, password).Some?
      ensures user == old(user) && loading == old(loading)
    {
      var users := GetUsers(store.slots);
      users := users + [User(email, password)];
      store.slots := store.slots.(users := Some(users));
      RegisterThenLogin(GetUsers(old(store.slots)), email, password);
    }
  }
}

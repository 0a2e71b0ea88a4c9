/** The session holder: the current user, a loading flag and the one storage
    slot `'user'` that keeps the session across restarts. The device store,
    the mock login call and the biometric sensor are outside the model; each
    of their calls is represented by a boolean saying whether it succeeded. */
module AuthContext {
  import opened Records

  const UserKey: string := "user"

  /** The record the mock login call resolves with: the fixed mock account
      under the email given, whatever that email is. */
  function MockLoginUser(email: string): (u: User)
    ensures u.id == "123" && u.name == "John Doe" && u.email == email
    ensures u.avatar == "https://randomuser.me/api/portraits/men/1.jpg"
  {
    User("123", "John Doe", email, "https://randomuser.me/api/portraits/men/1.jpg")
  }

  /** The session record a store holds, if any. */
  function StoredUser(entries: map<string, User>): (u: Option<User>)
    ensures u.Some? <==> UserKey in entries
    ensures u.Some? ==> u.value == entries[UserKey]
  {
    if UserKey in entries then Some(entries[UserKey]) else None
  }

  /** verifyBiometrics: false when no sensor is available, otherwise what the
      prompt reports. */
  function VerifyBiometrics(sensorAvailable: bool, promptSucceeds: bool): (verified: bool)
    ensures verified ==> sensorAvailable
    ensures sensorAvailable ==> verified == promptSucceeds
  {
    if sensorAvailable then promptSucceeds else false
  }

  /** The device's key-value store. Values are kept as user records: what
      the session holder writes is serialized and parsed back unchanged. */
  class KeyValueStore {
    var entries: map<string, User>

    constructor (entries: map<string, User>)
      ensures this.entries == entries
    {
      this.entries := entries;
    }
  }

  class AuthProvider {
    var user: Option<User>
    var loading: bool
    const store: KeyValueStore

    /** The in-memory session is the one the store would restore. */
    ghost predicate SessionMatchesStore()
      reads this, store
    {
      user == StoredUser(store.entries)
    }

    /** The provider starts with no user and loading on. */
    constructor (store: KeyValueStore)
      ensures this.store == store
      ensures user.None? && loading
    {
      this.store := store;
      user := None;
      loading := true;
    }

    /** Restores the session at start-up. A failed read is caught and leaves
        the user as it was; loading ends false either way. */
    method CheckUserSession(readSucceeds: bool)
      modifies this
      ensures !loading
      ensures readSucceeds && UserKey in store.entries ==> user == Some(store.entries[UserKey])
      ensures !(readSucceeds && UserKey in store.entries) ==> user == old(user)
      ensures readSucceeds && old(user).None? ==> SessionMatchesStore()
    {
      if readSucceeds {
        var stored := StoredUser(store.entries);
        if stored.Some? {
          user := stored;
        }
      }
      loading := false;
    }

    /** Signs in with the mock account. The user is set before the record is
        written, so a failed write leaves the user signed in but not stored
        and returns false. The password plays no part. */
    method Login(email: string, password: string, writeSucceeds: bool) returns (ok: bool)
      modifies this, store
      ensures user == Some(MockLoginUser(email)) && user.value.email == email
      ensures ok == writeSucceeds
      ensures !loading
      ensures writeSucceeds ==> store.entries == old(store.entries)[UserKey := MockLoginUser(email)]
      ensures !writeSucceeds ==> store.entries == old(store.entries)
      ensures writeSucceeds ==> SessionMatchesStore()
      ensures !writeSucceeds ==> (SessionMatchesStore() <==> old(StoredUser(store.entries)) == Some(MockLoginUser(email)))
    {
      loading := true;
      var response := MockLoginUser(email);
      user := Some(response);
      if writeSucceeds {
        store.entries := store.entries[UserKey := response];
        ok := true;
      } else {
        ok := false;
      }
      loading := false;
    }

    /** Signs out. The slot is removed first; only then is the user cleared,
        so a failed removal leaves both the user and the store as they were. */
    method Logout(removeSucceeds: bool)
      modifies this, store
      ensures !loading
      ensures removeSucceeds ==> user.None? && store.entries == old(store.entries) - {UserKey}
      ensures removeSucceeds ==> SessionMatchesStore()
      ensures !removeSucceeds ==> user == old(user) && store.entries == old(store.entries)
      ensures !removeSucceeds && old(SessionMatchesStore()) ==> SessionMatchesStore()
    {
      loading := true;
      if removeSucceeds {
        store.entries := store.entries - {UserKey};
        user := None;
      }
      loading := false;
    }
  }

  /** A successful login survives a restart: a provider started afresh over
      the same store restores the logged-in user. */
  method LoginSurvivesRestart(store: KeyValueStore, email: string, password: string) returns (restored: Option<User>)
    modifies store
    ensures restored == Some(MockLoginUser(email))
  {
    var session := new AuthProvider(store);
    session.CheckUserSession(true);
    var ok := session.Login(email, password, true);
    var restarted := new AuthProvider(store);
    restarted.CheckUserSession(true);
    restored := restarted.user;
  }

  /** After a successful logout a restarted provider finds no session. */
  method LogoutSurvivesRestart(store: KeyValueStore) returns (restored: Option<User>)
    modifies store
    ensures restored.None?
  {
    var session := new AuthProvider(store);
    session.CheckUserSession(true);
    session.Logout(true);
    var restarted := new AuthProvider(store);
    restarted.CheckUserSession(true);
    restored := restarted.user;
  }
}

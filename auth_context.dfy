/**
 * `AuthProvider`: two independent session flags, each set by a fixed password,
 * cleared by its own logout, restored from storage on start and written back
 * (as the text "true" or "false") whenever it changes.
 */
module AuthContext {
  import opened Storage

  const UserPassword := "arora"
  const AdminPassword := "admin"
  const AuthenticatedKey := "authenticated"
  const AdminKey := "admin"

  /** The two flags. */
  datatype Session = Session(authenticated: bool, admin: bool)

  /** `flag.toString()`. */
  function BoolText(b: bool): (r: string)
    ensures r == "true" || r == "false"
    ensures r == "true" <==> b
  {
    if b then "true" else "false"
  }

  /** `localStorage.getItem(key) === "true"`: a missing key or any other text reads as false. */
  predicate StoredTrue(entries: map<string, Entry>, key: string) {
    key in entries && entries[key] == Text("true")
  }

  /** The flags a provider starts with. */
  function Restored(entries: map<string, Entry>): (r: Session)
    ensures r.authenticated <==> AuthenticatedKey in entries && entries[AuthenticatedKey] == Text(BoolText(true))
    ensures r.admin <==> AdminKey in entries && entries[AdminKey] == Text(BoolText(true))
  {
    Session(StoredTrue(entries, AuthenticatedKey), StoredTrue(entries, AdminKey))
  }

  /** Storage holds the text of both flags. */
  predicate Synced(entries: map<string, Entry>, s: Session) {
    && AuthenticatedKey in entries && entries[AuthenticatedKey] == Text(BoolText(s.authenticated))
    && AdminKey in entries && entries[AdminKey] == Text(BoolText(s.admin))
  }

  /** `login(password)`: the new flags. */
  function AfterLogin(s: Session, password: string): (r: Session)
    ensures password == UserPassword ==> r.authenticated
    ensures password != UserPassword ==> r == s
    ensures r.admin == s.admin
  {
    if password == UserPassword then s.(authenticated := true) else s
  }

  /** `adminLogin(password)`: the new flags. */
  function AfterAdminLogin(s: Session, password: string): (r: Session)
    ensures password == AdminPassword ==> r.admin
    ensures password != AdminPassword ==> r == s
    ensures r.authenticated == s.authenticated
  {
    if password == AdminPassword then s.(admin := true) else s
  }

  /** `logout()`: the new flags. */
  function AfterLogout(s: Session): (r: Session)
    ensures !r.authenticated && r.admin == s.admin
  {
    s.(authenticated := false)
  }

  /** `adminLogout()`: the new flags. */
  function AfterAdminLogout(s: Session): (r: Session)
    ensures !r.admin && r.authenticated == s.authenticated
  {
    s.(admin := false)
  }

  /** Storage that holds the flags' text restores exactly those flags. */
  lemma RestoreSynced(entries: map<string, Entry>, s: Session)
    requires Synced(entries, s)
    ensures Restored(entries) == s
  {
  }

  /** A flag restored from storage is true exactly when the stored text is "true". */
  lemma RestoredFlagText(entries: map<string, Entry>, b: bool)
    ensures Restored(entries[AuthenticatedKey := Text(BoolText(b))]).authenticated == b
    ensures Restored(entries[AdminKey := Text(BoolText(b))]).admin == b
  {
  }

  /** Logins and logouts are idempotent. */
  lemma SessionStepsIdempotent(s: Session, password: string)
    ensures AfterLogin(AfterLogin(s, password), password) == AfterLogin(s, password)
    ensures AfterAdminLogin(AfterAdminLogin(s, password), password) == AfterAdminLogin(s, password)
    ensures AfterLogout(AfterLogout(s)) == AfterLogout(s)
    ensures AfterAdminLogout(AfterAdminLogout(s)) == AfterAdminLogout(s)
  {
  }

  /** The user flag and the admin flag evolve independently: their steps commute. */
  lemma SessionStepsCommute(s: Session, p: string, q: string)
    ensures AfterAdminLogin(AfterLogin(s, p), q) == AfterLogin(AfterAdminLogin(s, q), p)
    ensures AfterAdminLogout(AfterLogout(s)) == AfterLogout(AfterAdminLogout(s))
    ensures AfterAdminLogin(AfterLogout(s), q) == AfterLogout(AfterAdminLogin(s, q))
    ensures AfterAdminLogout(AfterLogin(s, p)) == AfterLogin(AfterAdminLogout(s), p)
  {
  }

  class AuthProvider {
    var isAuthenticated: bool
    var isAdmin: bool
    const storage: LocalStorage

    function State(): Session
      reads this
    {
      Session(isAuthenticated, isAdmin)
    }

    /** Storage holds the text of both flags. */
    ghost predicate Valid()
      reads this, storage
    {
      Synced(storage.entries, State())
    }

    /** Restore both flags from storage, then the mount-time writes of both. */
    constructor (storage: LocalStorage)
      modifies storage
      ensures this.storage == storage && Valid()
      ensures State() == Restored(old(storage.entries))
      ensures storage.entries == old(storage.entries)
                [AuthenticatedKey := Text(BoolText(isAuthenticated))][AdminKey := Text(BoolText(isAdmin))]
    {
      this.storage := storage;
      isAuthenticated := StoredTrue(storage.entries, AuthenticatedKey);
      isAdmin := StoredTrue(storage.entries, AdminKey);
      new;
      storage.SetItem(AuthenticatedKey, Text(BoolText(isAuthenticated)));
      storage.SetItem(AdminKey, Text(BoolText(isAdmin)));
    }

    /** Set `isAuthenticated`; the effect on `[isAuthenticated]` writes storage only on a change. */
    method SetAuthenticated(b: bool)
      requires Valid()
      modifies this`isAuthenticated, storage
      ensures Valid() && isAuthenticated == b
      ensures storage.entries == old(storage.entries)[AuthenticatedKey := Text(BoolText(b))]
    {
      if b != isAuthenticated {
        isAuthenticated := b;
        storage.SetItem(AuthenticatedKey, Text(BoolText(b)));
      }
    }

    /** Set `isAdmin`; the effect on `[isAdmin]` writes storage only on a change. */
    method SetAdmin(b: bool)
      requires Valid()
      modifies this`isAdmin, storage
      ensures Valid() && isAdmin == b
      ensures storage.entries == old(storage.entries)[AdminKey := Text(BoolText(b))]
    {
      if b != isAdmin {
        isAdmin := b;
        storage.SetItem(AdminKey, Text(BoolText(b)));
      }
    }

    method Login(password: string) returns (ok: bool)
      requires Valid()
      modifies this, storage
      ensures Valid()
      ensures ok <==> password == UserPassword
      ensures State() == AfterLogin(old(State()), password)
      ensures ok ==> storage.entries == old(storage.entries)[AuthenticatedKey := Text("true")]
      ensures !ok ==> storage.entries == old(storage.entries)
    {
      if password == UserPassword {
        SetAuthenticated(true);
        return true;
      }
      return false;
    }

    method Logout()
      requires Valid()
      modifies this, storage
      ensures Valid()
      ensures State() == AfterLogout(old(State()))
      ensures storage.entries == old(storage.entries)[AuthenticatedKey := Text("false")]
    {
      SetAuthenticated(false);
    }

    method AdminLogin(password: string) returns (ok: bool)
      requires Valid()
      modifies this, storage
      ensures Valid()
      ensures ok <==> password == AdminPassword
      ensures State() == AfterAdminLogin(old(State()), password)
      ensures ok ==> storage.entries == old(storage.entries)[AdminKey := Text("true")]
      ensures !ok ==> storage.entries == old(storage.entries)
    {
      if password == AdminPassword {
        SetAdmin(true);
        return true;
      }
      return false;
    }

    method AdminLogout()
      requires Valid()
      modifies this, storage
      ensures Valid()
      ensures State() == AfterAdminLogout(old(State()))
      ensures storage.entries == old(storage.entries)[AdminKey := Text("false")]
    {
      SetAdmin(false);
    }
  }

  /** A reload: a new provider over the same storage restores the same flags and rewrites nothing. */
  method Remount(p: AuthProvider) returns (q: AuthProvider)
    requires p.Valid()
    modifies p.storage
    ensures q.State() == p.State() && q.storage == p.storage && q.Valid()
    ensures p.Valid() && p.storage.entries == old(p.storage.entries)
  {
    RestoreSynced(p.storage.entries, p.State());
    q := new AuthProvider(p.storage);
  }
}

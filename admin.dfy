/**
 * The administrator flag: an `isAdmin` state seeded from, and kept in step
 * with, the `admin_authenticated` key of the browser's local storage.
 */
module Admin {
  import opened Wrappers
  import opened JsString

  const AdminKey := "admin_authenticated"
  const DefaultPassword := "admin123"

  /** `VITE_ADMIN_PASSWORD || 'admin123'`: the configured password, or the default when it is unset or empty. */
  function AdminPassword(env: Option<string>): (password: string)
    ensures password != ""
    ensures IsSet(env) ==> password == env.value
    ensures !IsSet(env) ==> password == DefaultPassword
  {
    if IsSet(env) then env.value else DefaultPassword
  }

  /** Local storage records an authenticated administrator. */
  predicate StoredAuthenticated(storage: map<string, string>)
  {
    AdminKey in storage && storage[AdminKey] == "true"
  }

  /** The provider's state: the flag, and the local storage it reads and writes. */
  class AdminProvider {
    const password: string
    var isAdmin: bool
    var storage: map<string, string>

    /** The flag agrees with what local storage records. */
    ghost predicate Consistent()
      reads this
    {
      isAdmin == StoredAuthenticated(storage)
    }

    /** The flag starts as whether the stored key equals `"true"`. */
    constructor(initialStorage: map<string, string>, env: Option<string>)
      ensures password == AdminPassword(env)
      ensures storage == initialStorage
      ensures isAdmin <==> StoredAuthenticated(initialStorage)
      ensures Consistent()
    {
      password := AdminPassword(env);
      storage := initialStorage;
      isAdmin := StoredAuthenticated(initialStorage);
    }

    /** `login`: the right password sets the flag and stores `"true"`; a wrong one changes nothing. */
    method Login(attempt: string) returns (ok: bool)
      modifies this
      ensures ok <==> attempt == password
      ensures ok ==> isAdmin && storage == old(storage)[AdminKey := "true"]
      ensures !ok ==> isAdmin == old(isAdmin) && storage == old(storage)
      ensures forall k :: k != AdminKey ==> (k in storage <==> k in old(storage))
      ensures forall k :: k != AdminKey && k in storage ==> storage[k] == old(storage)[k]
      ensures old(Consistent()) ==> Consistent()
      ensures ok ==> Consistent()
    {
      if attempt == password {
        isAdmin := true;
        storage := storage[AdminKey := "true"];
        return true;
      }
      return false;
    }

    /** `logout`: clears the flag and removes the key; no other key is touched. */
    method Logout()
      modifies this
      ensures !isAdmin
      ensures storage == old(storage) - {AdminKey}
      ensures AdminKey !in storage
      ensures forall k :: k != AdminKey ==> (k in storage <==> k in old(storage))
      ensures forall k :: k != AdminKey && k in storage ==> storage[k] == old(storage)[k]
      ensures Consistent()
    {
      isAdmin := false;
      storage := storage - {AdminKey};
    }
  }

  /** Logging out twice leaves the same state as logging out once. */
  method LogoutIsIdempotent(provider: AdminProvider)
    modifies provider
    ensures !provider.isAdmin && provider.storage == old(provider.storage) - {AdminKey}
  {
    provider.Logout();
    var once := provider.storage;
    provider.Logout();
    assert provider.storage == once;
  }

  /**
   * Whatever sequence of logins and logouts follows, an administrator flag
   * seeded from storage stays in step with the stored key.
   */
  method SessionStaysConsistent(initialStorage: map<string, string>, env: Option<string>, attempts: seq<Option<string>>)
    returns (provider: AdminProvider)
    ensures provider.Consistent()
  {
    provider := new AdminProvider(initialStorage, env);
    for i := 0 to |attempts|
      invariant provider.Consistent()
    {
      match attempts[i]
      case Some(attempt) => var _ := provider.Login(attempt);
      case None => provider.Logout();
    }
  }
}

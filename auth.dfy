/** The client-side auth store src/lib/auth.js: a `localStorage` entry
    `isAuthenticated` mirrored into a writable store. Outside a browser
    (`typeof window === 'undefined'`) every operation does nothing. */
module Auth {
  const Key := "isAuthenticated"

  /** `localStorage` after `setItem('isAuthenticated', 'true')`. */
  function LoggedIn(storage: map<string, string>): (r: map<string, string>)
    ensures StoredAuth(r)
    ensures forall k :: k != Key ==> (k in r <==> k in storage) && (k in r ==> r[k] == storage[k])
  {
    storage[Key := "true"]
  }

  /** `localStorage` after `removeItem('isAuthenticated')`. */
  function LoggedOut(storage: map<string, string>): (r: map<string, string>)
    ensures !StoredAuth(r) && Key !in r
    ensures forall k :: k != Key ==> (k in r <==> k in storage) && (k in r ==> r[k] == storage[k])
  {
    storage - {Key}
  }

  /** `localStorage.getItem('isAuthenticated') === 'true'`. */
  predicate StoredAuth(storage: map<string, string>) {
    Key in storage && storage[Key] == "true"
  }

  /** Logging in or out twice is the same as once, and the last of a login
      and a logout decides the stored state. */
  lemma LoginLogoutIdempotent(storage: map<string, string>)
    ensures LoggedIn(LoggedIn(storage)) == LoggedIn(storage)
    ensures LoggedOut(LoggedOut(storage)) == LoggedOut(storage)
    ensures LoggedOut(LoggedIn(storage)) == LoggedOut(storage)
    ensures LoggedIn(LoggedOut(storage)) == LoggedIn(storage)
  {
  }

  /** The auth state of one page: the storage it sees and the store. */
  class AuthState {
    const hasWindow: bool
    var storage: map<string, string>
    var isAuthenticated: bool

    /** The store and the storage agree. */
    predicate Synced()
      reads this
    {
      isAuthenticated == CheckAuth()
    }

    /** `writable(false)`. */
    constructor (hasWindow: bool, storage: map<string, string>)
      ensures this.hasWindow == hasWindow && this.storage == storage && !isAuthenticated
      ensures Synced() <==> !hasWindow || !StoredAuth(storage)
    {
      this.hasWindow := hasWindow;
      this.storage := storage;
      isAuthenticated := false;
    }

    /** `checkAuth()`. */
    function CheckAuth(): (b: bool)
      reads this
      ensures b <==> hasWindow && StoredAuth(storage)
    {
      hasWindow && Key in storage && storage[Key] == "true"
    }

    /** `login()`. */
    method Login()
      modifies this
      ensures hasWindow ==> storage == LoggedIn(old(storage)) && isAuthenticated && CheckAuth()
      ensures !hasWindow ==> storage == old(storage) && isAuthenticated == old(isAuthenticated)
    {
      if hasWindow {
        storage := storage[Key := "true"];
        isAuthenticated := true;
      }
    }

    /** `logout()`. */
    method Logout()
      modifies this
      ensures hasWindow ==> storage == LoggedOut(old(storage)) && !isAuthenticated && !CheckAuth()
      ensures !hasWindow ==> storage == old(storage) && isAuthenticated == old(isAuthenticated)
    {
      if hasWindow {
        storage := storage - {Key};
        isAuthenticated := false;
      }
    }

    /** `initAuth()`: in a browser, the store takes the stored state. */
    method InitAuth()
      modifies this
      ensures storage == old(storage)
      ensures hasWindow ==> Synced()
      ensures !hasWindow ==> isAuthenticated == old(isAuthenticated)
    {
      if hasWindow {
        isAuthenticated := CheckAuth();
      }
    }
  }
}

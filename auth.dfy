/** The sign-in flag: a single shared passphrase, and a flag kept in the
    browser's local storage so that a session survives a reload. */
module Auth {
  import opened Records

  const Passphrase := "ichabias"

  /** The local-storage key the flag is kept under. */
  const StorageKey := "buku_saku_auth"

  /** The one stored value that restores a session. */
  const SignedIn := "true"

  /** Whether a page load starts signed in: only when the stored flag is
      exactly the text "true". */
  predicate Restores(stored: Option<string>) {
    stored == Some(SignedIn)
  }

  /** The session state. `stored` is what local storage holds under
      `StorageKey`, None when nothing. */
  class Session {
    var isAuthenticated: bool
    var isLoading: bool
    var stored: Option<string>

    /** Mounting the provider and running its load effect on a storage that
        holds `stored`. */
    constructor (stored: Option<string>)
      ensures isAuthenticated <==> Restores(stored)
      ensures !isLoading && this.stored == stored
    {
      isAuthenticated := false;
      isLoading := true;
      this.stored := stored;
      if stored == Some(SignedIn) {
        isAuthenticated := true;
      }
      isLoading := false;
    }

    /** `login`: the passphrase signs in and stores the flag; anything else
        is refused and changes nothing. */
    method Login(password: string) returns (ok: bool)
      modifies this
      ensures ok <==> password == Passphrase
      ensures ok ==> isAuthenticated && stored == Some(SignedIn) && isLoading == old(isLoading)
      ensures !ok ==> isAuthenticated == old(isAuthenticated) && stored == old(stored) && isLoading == old(isLoading)
    {
      if password == Passphrase {
        isAuthenticated := true;
        stored := Some(SignedIn);
        return true;
      }
      return false;
    }

    /** `logout`: signs out and removes the flag. */
    method Logout()
      modifies this
      ensures !isAuthenticated && stored == None && isLoading == old(isLoading)
    {
      isAuthenticated := false;
      stored := None;
    }
  }

  /** A session signed in by `Login` is restored by the next page load, and
      one signed out by `Logout` is not: the stored flag round-trips. */
  method ReloadAfter(password: string, logoutFirst: bool) returns (s: Session, restored: Session)
    ensures restored.isAuthenticated <==> password == Passphrase && !logoutFirst
  {
    s := new Session(None);
    var ok := s.Login(password);
    if logoutFirst {
      s.Logout();
    }
    restored := new Session(s.stored);
  }

  /** Logging out twice leaves the same state as logging out once. */
  method LogoutIdempotent(stored: Option<string>) returns (once: Session, twice: Session)
    ensures !once.isAuthenticated && once.stored == None
    ensures twice.isAuthenticated == once.isAuthenticated && twice.stored == once.stored
  {
    once := new Session(stored);
    once.Logout();
    twice := new Session(stored);
    twice.Logout();
    twice.Logout();
  }
}

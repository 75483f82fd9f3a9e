/**
 * The session (src/hooks/useAuth.tsx): a fixed table of demo accounts, the
 * current `user` slot, the `isLoading` and `error` flags, and the stored
 * session that survives a reload.  `login` and `register` run as one
 * atomic step each; a rejected promise is the `false` result of the
 * method, and every toast is appended to an output log.
 */
module Auth {
  import opened Domain

  /** A demo account: its password and the profile a session holds once logged in. */
  datatype DemoAccount = DemoAccount(password: string, profile: User)

  /** What the stored `user` entry holds: a user record, or text that does not parse as one. */
  datatype StoredSession = Saved(user: User) | Unparsable

  const InvalidCredentials: string := "Invalid email or password"
  const EmailInUse: string := "Email already in use"

  /** The two demo accounts; `loadedAt` is the time the module was loaded, their creation time. */
  function DemoAccounts(loadedAt: string): seq<DemoAccount> {
    [ DemoAccount("password", User("1", "jobseeker@example.com", "Alex Johnson", JobSeeker,
        Some("https://i.pravatar.cc/150?img=1"), None, Some("Frontend Developer"),
        Some("Passionate developer with 3 years of experience"), Some("San Francisco, CA"),
        Some(["JavaScript", "React", "TypeScript", "HTML", "CSS"]), loadedAt)),
      DemoAccount("password", User("2", "employer@example.com", "Sarah Williams", Employer,
        Some("https://i.pravatar.cc/150?img=5"), Some("TechCorp Inc."), None,
        Some("Hiring manager at TechCorp Inc."), Some("New York, NY"), None, loadedAt)) ]
  }

  /** Account `i` is the first with this email, the one `find` returns. */
  predicate IsFirstWithEmail(accounts: seq<DemoAccount>, email: string, i: int)
    ensures IsFirstWithEmail(accounts, email, i) ==> EmailTaken(accounts, email)
  {
    0 <= i < |accounts| && accounts[i].profile.email == email &&
    forall j :: 0 <= j < i ==> accounts[j].profile.email != email
  }

  /** `DEMO_USERS.some(u => u.email === email)` */
  predicate EmailTaken(accounts: seq<DemoAccount>, email: string)
    ensures EmailTaken(accounts, email) <==> email in (set a | a in accounts :: a.profile.email)
  {
    exists i :: 0 <= i < |accounts| && accounts[i].profile.email == email
  }

  /** `DEMO_USERS.find(u => u.email === email)` */
  function FindAccount(accounts: seq<DemoAccount>, email: string): (r: Option<DemoAccount>)
    ensures r.None? <==> !EmailTaken(accounts, email)
    ensures r.Some? ==> exists i :: IsFirstWithEmail(accounts, email, i) && accounts[i] == r.value
  {
    if accounts == [] then None
    else if accounts[0].profile.email == email then
      assert IsFirstWithEmail(accounts, email, 0);
      Some(accounts[0])
    else
      var r := FindAccount(accounts[1..], email);
      if r.Some? then
        var i :| IsFirstWithEmail(accounts[1..], email, i) && accounts[1..][i] == r.value;
        assert IsFirstWithEmail(accounts, email, i + 1) by {
          forall j | 0 <= j < i + 1 ensures accounts[j].profile.email != email {
            if j > 0 {
              assert accounts[j] == accounts[1..][j - 1];
            }
          }
        }
        r
      else
        assert !EmailTaken(accounts, email) by {
          forall i | 0 <= i < |accounts| ensures accounts[i].profile.email != email {
            if i > 0 {
              assert accounts[i] == accounts[1..][i - 1];
            }
          }
        }
        r
  }

  /** The user a login with these credentials signs in: the first account with the email, if the password matches. */
  function CheckCredentials(accounts: seq<DemoAccount>, email: string, password: string): (r: Option<User>)
    ensures r.Some? <==> exists i :: IsFirstWithEmail(accounts, email, i) && accounts[i].password == password
    ensures r.Some? ==> exists i :: IsFirstWithEmail(accounts, email, i) && r.value == accounts[i].profile
  {
    var found := FindAccount(accounts, email);
    if found.Some? && found.value.password == password then Some(found.value.profile) else None
  }

  /** The record `register` creates: the entered email, name and role, an id from the clock, no profile details. */
  function NewUser(email: string, name: string, role: UserRole, stamp: string, now: string): (u: User)
    ensures u.email == email && u.name == name && u.role == role && u.createdAt == now
    ensures u.id == "user-" + stamp
    ensures u.avatar.None? && u.company.None? && u.title.None? && u.bio.None? && u.location.None? && u.skills.None?
  {
    User("user-" + stamp, email, name, role, None, None, None, None, None, None, now)
  }

  /** Credentials for an email outside the table never sign in: a registered account cannot log in afterwards. */
  lemma UnknownEmailCannotLogIn(accounts: seq<DemoAccount>, email: string, password: string)
    requires !EmailTaken(accounts, email)
    ensures CheckCredentials(accounts, email, password).None?
  {
  }

  /** Registering succeeds exactly for the emails a login can never use. */
  lemma RegisterIffNoAccount(accounts: seq<DemoAccount>, email: string)
    ensures !EmailTaken(accounts, email) <==> FindAccount(accounts, email).None?
  {
  }

  /** Both demo accounts sign in with "password" and get their own profile. */
  lemma DemoLogins(loadedAt: string)
    ensures CheckCredentials(DemoAccounts(loadedAt), "jobseeker@example.com", "password")
      == Some(DemoAccounts(loadedAt)[0].profile)
    ensures CheckCredentials(DemoAccounts(loadedAt), "employer@example.com", "password")
      == Some(DemoAccounts(loadedAt)[1].profile)
    ensures DemoAccounts(loadedAt)[0].profile.role == JobSeeker
    ensures DemoAccounts(loadedAt)[1].profile.role == Employer
  {
    var accounts := DemoAccounts(loadedAt);
    assert IsFirstWithEmail(accounts, "jobseeker@example.com", 0);
    assert IsFirstWithEmail(accounts, "employer@example.com", 1);
  }

  /** A wrong password is rejected even for a known email. */
  lemma WrongPasswordRejected(accounts: seq<DemoAccount>, email: string, password: string, i: int)
    requires IsFirstWithEmail(accounts, email, i) && accounts[i].password != password
    ensures CheckCredentials(accounts, email, password).None?
  {
    forall k | IsFirstWithEmail(accounts, email, k) ensures k == i {
    }
  }

  class AuthProvider {
    /** The demo table is fixed when the module loads; nothing writes to it. */
    const accounts: seq<DemoAccount>
    var user: Option<User>
    var isLoading: bool
    var error: Option<string>
    var storage: Option<StoredSession>
    var toasts: seq<Toast>

    /** `isAuthenticated: !!user` */
    predicate IsAuthenticated()
      reads this
      ensures IsAuthenticated() <==> user.Some?
    {
      user.Some?
    }

    /** The provider as first rendered: no user, loading, no error, storage as the browser left it. */
    constructor (loadedAt: string, stored: Option<StoredSession>)
      ensures accounts == DemoAccounts(loadedAt)
      ensures user.None? && isLoading && error.None? && storage == stored && toasts == []
    {
      accounts := DemoAccounts(loadedAt);
      user := None;
      isLoading := true;
      error := None;
      storage := stored;
      toasts := [];
    }

    /** The mount effect: a stored user is restored, an unparsable entry is removed, and loading ends. */
    method RestoreSession()
      modifies this
      ensures old(storage) == Some(Unparsable) ==> storage.None? && user == old(user)
      ensures old(storage).Some? && old(storage).value.Saved? ==>
        user == Some(old(storage).value.user) && storage == old(storage)
      ensures old(storage).None? ==> user == old(user) && storage.None?
      ensures !isLoading && error == old(error) && toasts == old(toasts)
    {
      if storage.Some? {
        match storage.value
        case Saved(u) =>
          user := Some(u);
        case Unparsable =>
          storage := None;
      }
      isLoading := false;
    }

    /**
     * `login`: the first account with the email must have the password; the
     * session then holds its profile and is stored, otherwise the error is
     * set and the session is left as it was.
     */
    method Login(email: string, password: string) returns (ok: bool)
      modifies this
      ensures ok <==> CheckCredentials(accounts, email, password).Some?
      ensures ok ==> (user == CheckCredentials(accounts, email, password) &&
                      storage == Some(Saved(user.value)) && error.None? &&
                      toasts == old(toasts) + [SuccessToast("Logged in successfully")])
      ensures !ok ==> (user == old(user) && storage == old(storage) &&
                       error == Some(InvalidCredentials) && toasts == old(toasts) + [ErrorToast(InvalidCredentials)])
      ensures ok ==> IsAuthenticated()
      ensures !isLoading
    {
      isLoading := true;
      error := None;
      var found := FindAccount(accounts, email);
      if found.None? || found.value.password != password {
        error := Some(InvalidCredentials);
        toasts := toasts + [ErrorToast(InvalidCredentials)];
        ok := false;
      } else {
        var signedIn := found.value.profile;
        storage := Some(Saved(signedIn));
        user := Some(signedIn);
        toasts := toasts + [SuccessToast("Logged in successfully")];
        ok := true;
      }
      isLoading := false;
    }

    /**
     * `register`: an email of a demo account is refused; any other gets a
     * new session for a fresh record.  `stamp` and `now` stand for
     * `Date.now()` and the current time.
     */
    method Register(email: string, password: string, name: string, role: UserRole, stamp: string, now: string)
      returns (ok: bool)
      modifies this
      ensures ok <==> !EmailTaken(accounts, email)
      ensures ok ==> (user == Some(NewUser(email, name, role, stamp, now)) &&
                      storage == Some(Saved(user.value)) && error.None? &&
                      toasts == old(toasts) + [SuccessToast("Account created successfully")])
      ensures !ok ==> (user == old(user) && storage == old(storage) &&
                       error == Some(EmailInUse) && toasts == old(toasts) + [ErrorToast(EmailInUse)])
      ensures !isLoading
    {
      isLoading := true;
      error := None;
      if FindAccount(accounts, email).Some? {
        error := Some(EmailInUse);
        toasts := toasts + [ErrorToast(EmailInUse)];
        ok := false;
      } else {
        var newUser := NewUser(email, name, role, stamp, now);
        storage := Some(Saved(newUser));
        user := Some(newUser);
        toasts := toasts + [SuccessToast("Account created successfully")];
        ok := true;
      }
      isLoading := false;
    }

    /** `logout`, from any state: the stored session and the user are gone. */
    method Logout()
      modifies this
      ensures user.None? && storage.None? && !IsAuthenticated()
      ensures isLoading == old(isLoading) && error == old(error)
      ensures toasts == old(toasts) + [SuccessToast("Logged out successfully")]
    {
      storage := None;
      user := None;
      toasts := toasts + [SuccessToast("Logged out successfully")];
    }
  }
}

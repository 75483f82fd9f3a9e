/**
 * The navigation bar (src/components/Navbar.tsx): the avatar initials, the
 * dashboard route for each role, the navigation items, and the bar's own
 * flags (`scrolled`, `mobileMenuOpen`) with the handlers that set them.
 */
module NavigationBar {
  import opened Domain
  import opened Text
  import opened Auth

  // ---------------------------------------------------------------------------
  // Initials

  /** `pieces.map(n => n[0]).join('')`: an empty piece gives `undefined`, which `join` writes as nothing. */
  function FirstChars(pieces: seq<string>): (r: string)
    ensures |r| <= |pieces|
  {
    if pieces == [] then []
    else (if pieces[0] == [] then [] else [pieces[0][0]]) + FirstChars(pieces[1..])
  }

  /**
   * `getInitials(name)`: split on single spaces, first character of each
   * piece, upper-cased.  The result is the upper-cased first letters of the
   * words, however many spaces separate them.
   */
  function Initials(name: string): (r: string)
    ensures r == Upper(WordStarts(name))
  {
    FirstCharsOfSplit(name);
    Upper(FirstChars(Split(name, ' ')))
  }

  /** `s` with its leading run of non-space characters removed. */
  function SkipWord(s: string): (r: string)
    ensures |r| <= |s|
    ensures r == [] || r[0] == ' '
  {
    if s == [] || s[0] == ' ' then s else SkipWord(s[1..])
  }

  /** The first character of every maximal run of non-space characters, in order. */
  function WordStarts(s: string): (r: string)
    decreases |s|
  {
    if s == [] then []
    else if s[0] == ' ' then WordStarts(s[1..])
    else [s[0]] + WordStarts(SkipWord(s[1..]))
  }

  lemma {:induction false} FirstCharsOfSplit(s: string)
    ensures FirstChars(Split(s, ' ')) == WordStarts(s)
    decreases |s|, 1
  {
    if s != [] {
      var rest := Split(s[1..], ' ');
      if s[0] == ' ' {
        FirstCharsOfSplit(s[1..]);
        assert FirstChars([[]] + rest) == FirstChars(rest);
      } else {
        FirstCharsOfLaterPieces(s[1..]);
        assert ([[s[0]] + rest[0]] + rest[1..])[1..] == rest[1..];
      }
    }
  }

  /** Past the first piece, the pieces start where the first word ends. */
  lemma {:induction false} FirstCharsOfLaterPieces(t: string)
    ensures FirstChars(Split(t, ' ')[1..]) == WordStarts(SkipWord(t))
    decreases |t|, 0
  {
    if t != [] {
      var rest := Split(t[1..], ' ');
      if t[0] == ' ' {
        assert Split(t, ' ')[1..] == rest;
        FirstCharsOfSplit(t[1..]);
      } else {
        assert Split(t, ' ')[1..] == rest[1..];
        FirstCharsOfLaterPieces(t[1..]);
      }
    }
  }

  /** The avatar's fallback text: the initials of a non-empty name, otherwise "U". */
  function AvatarFallback(user: Option<User>): (r: string)
    ensures (user.None? || user.value.name == []) ==> r == "U"
    ensures user.Some? && user.value.name != [] ==> r == Upper(WordStarts(user.value.name))
  {
    if user.Some? && user.value.name != [] then
      Initials(user.value.name)
    else "U"
  }

  // ---------------------------------------------------------------------------
  // Routes

  /** `getDashboardLink()` */
  function DashboardLink(user: Option<User>): (r: string)
    ensures user.None? ==> r == "/"
    ensures user.Some? ==> r == match user.value.role
      case Employer => "/employer/dashboard"
      case JobSeeker => "/profile"
      case Admin => "/admin/dashboard"
  {
    if user.None? then "/"
    else match user.value.role
      case Employer => "/employer/dashboard"
      case JobSeeker => "/profile"
      case Admin => "/admin/dashboard"
  }

  datatype NavItem = NavItem(path: string, text: string)

  /** `navItems` */
  function NavItems(user: Option<User>): (r: seq<NavItem>)
    ensures |r| >= 2 && r[0] == NavItem("/", "Home") && r[1] == NavItem("/jobs", "Find Jobs")
    ensures |r| == 3 <==> user.Some? && user.value.role == Employer
    ensures |r| <= 3
    ensures |r| == 3 ==> r[2] == NavItem("/employer/dashboard", "Post Jobs")
  {
    [NavItem("/", "Home"), NavItem("/jobs", "Find Jobs")] +
    (if user.Some? && user.value.role == Employer then [NavItem("/employer/dashboard", "Post Jobs")] else [])
  }

  /** "Post Jobs" leads to the same page as the dashboard link. */
  lemma PostJobsIsDashboard(user: Option<User>)
    requires |NavItems(user)| == 3
    ensures NavItems(user)[2].path == DashboardLink(user)
  {
  }

  /** `scrollY > 50`, strictly. */
  const ScrollThreshold: int := 50

  class Navbar {
    const auth: AuthProvider
    var scrolled: bool
    var mobileMenuOpen: bool

    constructor (session: AuthProvider)
      ensures auth == session && !scrolled && !mobileMenuOpen
    {
      auth := session;
      scrolled := false;
      mobileMenuOpen := false;
    }

    /** `handleScroll` */
    method HandleScroll(offset: int)
      modifies this
      ensures scrolled <==> offset > ScrollThreshold
      ensures mobileMenuOpen == old(mobileMenuOpen)
    {
      if offset > ScrollThreshold {
        scrolled := true;
      } else {
        scrolled := false;
      }
    }

    /** `handleLogout`: the session logs out, then the page goes home. */
    method HandleLogout() returns (navigateTo: string)
      modifies auth
      ensures !auth.IsAuthenticated() && auth.storage.None?
      ensures auth.isLoading == old(auth.isLoading) && auth.error == old(auth.error)
      ensures auth.toasts == old(auth.toasts) + [SuccessToast("Logged out successfully")]
      ensures navigateTo == "/"
    {
      auth.Logout();
      navigateTo := "/";
    }

    /** The menu button flips the mobile menu. */
    method ToggleMobileMenu()
      modifies this
      ensures mobileMenuOpen == !old(mobileMenuOpen) && scrolled == old(scrolled)
    {
      mobileMenuOpen := !mobileMenuOpen;
    }

    /** The mobile menu's Log out entry: log out, go home, close the menu. */
    method MobileLogout() returns (navigateTo: string)
      modifies this, auth
      ensures !auth.IsAuthenticated() && auth.storage.None?
      ensures auth.isLoading == old(auth.isLoading) && auth.error == old(auth.error)
      ensures auth.toasts == old(auth.toasts) + [SuccessToast("Logged out successfully")]
      ensures navigateTo == "/" && !mobileMenuOpen && scrolled == old(scrolled)
    {
      navigateTo := HandleLogout();
      mobileMenuOpen := false;
    }
  }
}

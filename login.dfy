/**
 * The sign-in form (src/pages/Login.tsx): the entered email and password,
 * the form's own error line, and `handleSubmit`, which rejects an empty
 * field before the session is asked, and navigates home only after a
 * successful login.
 */
module LoginPage {
  import opened Domain
  import opened Auth

  const MissingCredentials: string := "Please enter both email and password"

  class LoginForm {
    const auth: AuthProvider
    var email: string
    var password: string
    var error: string

    constructor (session: AuthProvider)
      ensures auth == session && email == "" && password == "" && error == ""
    {
      auth := session;
      email := "";
      password := "";
      error := "";
    }

    /** The submit button is disabled while the session is loading. */
    predicate SubmitDisabled()
      reads this, auth
      ensures SubmitDisabled() <==> auth.isLoading
    {
      auth.isLoading
    }

    /**
     * `handleSubmit`: the form error is cleared first; an empty field sets
     * the form error and leaves the session alone; otherwise the session's
     * `login` runs with exactly the entered credentials, and the result is
     * the navigation to "/" when it succeeds.  A failed login leaves the
     * form error empty: the message is the session's.
     */
    method HandleSubmit() returns (navigateTo: Option<string>)
      modifies this, auth
      ensures email == old(email) && password == old(password)
      ensures (email == [] || password == []) ==>
        (error == MissingCredentials && navigateTo.None? && unchanged(auth))
      ensures email != [] && password != [] ==>
        (error == "" &&
         (navigateTo.Some? <==> CheckCredentials(auth.accounts, email, password).Some?) &&
         (navigateTo.Some? ==> navigateTo.value == "/" && auth.user == CheckCredentials(auth.accounts, email, password)) &&
         (navigateTo.None? ==> auth.user == old(auth.user) && auth.error == Some(InvalidCredentials)) &&
         !auth.isLoading)
    {
      error := "";
      if email == [] || password == [] {
        error := MissingCredentials;
        return None;
      }
      var ok := auth.Login(email, password);
      if ok {
        navigateTo := Some("/");
      } else {
        navigateTo := None;
      }
    }
  }
}

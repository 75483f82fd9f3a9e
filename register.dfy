/**
 * The sign-up form (src/pages/Register.tsx): email, password, name and
 * role (a job seeker unless changed), the form's own error line, and
 * `handleSubmit`, which rejects an empty required field before the session
 * is asked and navigates home only after a successful registration.
 */
module RegisterPage {
  import opened Domain
  import opened Auth

  const MissingFields: string := "Please fill out all required fields"

  class RegisterForm {
    const auth: AuthProvider
    var email: string
    var password: string
    var name: string
    var role: UserRole
    var error: string

    constructor (session: AuthProvider)
      ensures auth == session && email == "" && password == "" && name == "" && error == ""
      ensures role == JobSeeker
    {
      auth := session;
      email := "";
      password := "";
      name := "";
      role := JobSeeker;
      error := "";
    }

    /** The submit button is disabled while the session is loading. */
    predicate SubmitDisabled()
      reads this, auth
      ensures SubmitDisabled() <==> auth.isLoading
    {
      auth.isLoading
    }

    /**
     * `handleSubmit`: the form error is cleared first; an empty email,
     * password or name sets the form error and leaves the session alone;
     * otherwise the session's `register` runs with the entered fields, and
     * the result is the navigation to "/" when it succeeds.  `stamp` and
     * `now` stand for the clock readings `register` takes.
     */
    method HandleSubmit(stamp: string, now: string) returns (navigateTo: Option<string>)
      modifies this, auth
      ensures email == old(email) && password == old(password) && name == old(name) && role == old(role)
      ensures (email == [] || password == [] || name == []) ==>
        (error == MissingFields && navigateTo.None? && unchanged(auth))
      ensures email != [] && password != [] && name != [] ==>
        (error == "" &&
         (navigateTo.Some? <==> !EmailTaken(auth.accounts, email)) &&
         (navigateTo.Some? ==> navigateTo.value == "/" && auth.user == Some(NewUser(email, name, role, stamp, now))) &&
         (navigateTo.None? ==> auth.user == old(auth.user) && auth.error == Some(EmailInUse)) &&
         !auth.isLoading)
    {
      error := "";
      if email == [] || password == [] || name == [] {
        error := MissingFields;
        return None;
      }
      var ok := auth.Register(email, password, name, role, stamp, now);
      if ok {
        navigateTo := Some("/");
      } else {
        navigateTo := None;
      }
    }
  }
}

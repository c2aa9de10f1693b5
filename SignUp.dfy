/**
 * The signup page: the same form as the login page and the same change
 * handler, but no submit handler and no access to the session, so nothing
 * done on this page can log anyone in.
 */
module SignUp {
  import opened AuthForm

  class SignUpPage {
    var form: map<string, string>

    /** First render: the form maps `email` and `password` to `''`. */
    constructor ()
      ensures form.Keys == {"email", "password"}
      ensures forall k :: k in form ==> form[k] == ""
    {
      AuthFieldNames();
      var fieldState := InitialFieldState(AuthFields);
      form := fieldState;
    }

    /** `handleChange`: the input named `name` now holds `value`; the other keys keep theirs. */
    method HandleChange(name: string, value: string)
      modifies this
      ensures form == WithField(old(form), name, value)
    {
      form := WithField(form, name, value);
    }

    /** The "Login into an existing account" button: its handler does nothing. */
    method OnLoginButtonClick()
      ensures form == old(form)
    {
    }
  }
}

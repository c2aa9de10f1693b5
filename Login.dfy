/**
 * The login page: a form built from the shared field list, and a submit
 * handler that clears the error, shows the loading label while `login` is
 * awaited, then navigates on success or shows an error on failure.
 */
module Login {
  import opened Wrappers
  import opened AuthService
  import opened AuthContext
  import opened AuthForm

  /** The route a successful login navigates to. */
  const UploadRoute: string := "/upload"
  /** The route the "Create an account" button navigates to. */
  const SignUpRoute: string := "/signup"
  /** The message shown when `login` rejects, whatever the reason. */
  const InvalidCredentialsMessage: string := "Invalid email or password"
  const LoggingInLabel: string := "Logging in..."
  const LoginLabel: string := "Login"

  /** The `error` and `loading` state a render shows. */
  datatype SubmitView = SubmitView(error: string, loading: bool)

  /** The submit button's label: "Logging in..." exactly while loading. */
  function SubmitLabel(loading: bool): (r: string)
    ensures r == LoggingInLabel <==> loading
    ensures !loading ==> r == LoginLabel
  {
    if loading then LoggingInLabel else LoginLabel
  }

  class LoginPage {
    /** The `login` obtained from `useAuth()`. */
    const auth: AuthProvider
    var form: map<string, string>
    var error: string
    var loading: bool
    /** The last route `navigate` was called with, if any. */
    var navigatedTo: Option<string>

    /** The form holds both keys `handleSubmit` reads. */
    predicate Valid()
      reads this
    {
      "email" in form && "password" in form
    }

    /** First render: the form maps `email` and `password` to `''`, no error, not loading. */
    constructor (auth: AuthProvider)
      ensures this.auth == auth && Valid()
      ensures form.Keys == {"email", "password"}
      ensures forall k :: k in form ==> form[k] == ""
      ensures error == "" && !loading && navigatedTo == None
    {
      this.auth := auth;
      AuthFieldNames();
      var fieldState := InitialFieldState(AuthFields);
      form := fieldState;
      error := "";
      loading := false;
      navigatedTo := None;
    }

    /** `handleChange`: the input named `name` now holds `value`; nothing else changes. */
    method HandleChange(name: string, value: string)
      modifies this
      ensures form == WithField(old(form), name, value)
      ensures old(Valid()) ==> Valid()
      ensures error == old(error) && loading == old(loading) && navigatedTo == old(navigatedTo)
    {
      form := WithField(form, name, value);
    }

    /**
     * `handleSubmit`. `during` is what a render shows while `login` is
     * awaited; `request` is the body `login` sent, built from the form's
     * `email` and `password`.
     */
    method HandleSubmit(outcome: AuthOutcome) returns (during: SubmitView, request: LoginData)
      requires Valid()
      modifies this, auth, auth.store
      ensures during == SubmitView("", true) && SubmitLabel(during.loading) == LoggingInLabel
      ensures request == LoginData(old(form)["email"], old(form)["password"])
      ensures form == old(form) && Valid()
      ensures !loading && SubmitLabel(loading) == LoginLabel
      ensures auth.isLoading == old(auth.isLoading)
      ensures outcome.Succeeded? ==>
        && error == ""
        && navigatedTo == Some(UploadRoute)
        && auth.isAuthenticated
        && auth.store.items == old(auth.store.items)[TokenKey := outcome.response.access_token]
      ensures outcome.Rejected? ==>
        && error == InvalidCredentialsMessage
        && navigatedTo == old(navigatedTo)
        && auth.isAuthenticated == old(auth.isAuthenticated)
        && auth.store.items == old(auth.store.items)
    {
      error := "";
      loading := true;
      during := SubmitView(error, loading);
      var settled;
      request, settled := auth.Login(form["email"], form["password"], outcome);
      match settled {
        case Pass =>
          navigatedTo := Some(UploadRoute);
        case Fail(_) =>
          error := InvalidCredentialsMessage;
      }
      loading := false;
    }

    /** The "Create an account" button: navigates to the signup page. */
    method GoToSignUp()
      modifies this
      ensures navigatedTo == Some(SignUpRoute)
      ensures form == old(form) && error == old(error) && loading == old(loading)
    {
      navigatedTo := Some(SignUpRoute);
    }
  }
}

/** The login page: the empty-field guard, the redirect target and when the
    page navigates after signing in. The sign-in call's answer is an input. */
module LoginPage {
  import opened Js
  import AuthContext

  /** `location.state?.from?.pathname || '/'`. */
  function RedirectTarget(from: Option<string>): (r: string)
    ensures from.Some? && from.value != "" ==> r == from.value
    ensures from.None? || from.value == "" ==> r == "/"
  {
    OrElse(from, "/")
  }

  const MissingFields := Toast("Error", "Please enter both email and password", true)

  /** What a submission does: the sign-in call it makes (e-mail and password),
      the toast it raises itself and where it navigates. */
  datatype Login = Login(call: Option<(string, string)>, toast: Option<Toast>, navigateTo: Option<string>)

  /** `handleLogin`, given the error the sign-in call answers with. An empty
      field stops the submission with a toast; white space is not trimmed. */
  function HandleLogin(email: string, password: string, from: Option<string>, error: Option<string>): (r: Login)
    ensures email == "" || password == "" ==> r == Login(None, Some(MissingFields), None)
    ensures email != "" && password != "" ==> r.call == Some((email, password)) && r.toast.None?
    ensures r.navigateTo.Some? <==> email != "" && password != "" && error.None?
    ensures r.navigateTo.Some? ==> r.navigateTo.value == RedirectTarget(from)
  {
    if email == "" || password == "" then Login(None, Some(MissingFields), None)
    else Login(Some((email, password)), None, if error.None? then Some(RedirectTarget(from)) else None)
  }

  /** For any filled fields the handler calls sign-in with them as typed,
      spaces included, and navigates exactly when the auth handler's answer
      carries no error, which is when its toast is the green welcome rather
      than the red error. */
  lemma LoginAgreesWithSignIn<D>(a: AuthContext.Auth, email: string, password: string, from: Option<string>,
                                 result: AuthContext.AuthReply<D>)
    requires email != "" && password != ""
    ensures var s := AuthContext.SignIn(a, result);
            var l := HandleLogin(email, password, from, s.returned.error);
            && l.call == Some((email, password))
            && (l.navigateTo.Some? <==> !s.toast.destructive)
            && (l.navigateTo.Some? ==> s.toast.title == "Welcome back!" && l.navigateTo.value == RedirectTarget(from))
  {
  }

  /** The submit button: disabled, and labelled `Signing in...`, exactly
      while authentication is loading. */
  datatype Button = Button(caption: string, disabled: bool)

  function SubmitButton(loading: bool): (b: Button)
    ensures b.disabled <==> loading
    ensures b.disabled <==> b.caption == "Signing in..."
    ensures !b.disabled ==> b.caption == "Sign in"
  {
    if loading then Button("Signing in...", true) else Button("Sign in", false)
  }
}

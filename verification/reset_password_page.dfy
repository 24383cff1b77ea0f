/** The reset-password page: the request form (an e-mail address) and the
    update form (a new password and its confirmation), the validation rules
    of the update form, and what each submission leads to. The e-mail check
    is a parameter. */
module ResetPasswordPage {
  import opened Js
  import AuthContext

  /** A validation issue: the field it is shown under and its message. */
  datatype Issue = Issue(path: string, message: string)

  const TooShort := Issue("password", "Password must be at least 8 characters")
  const Mismatch := Issue("confirmPassword", "Passwords don't match")
  const BadEmail := Issue("email", "Please enter a valid email")

  /** `passwordSchema`: the length rule on `password`, then the equality rule
      reported under `confirmPassword`. The equality rule is checked even when
      the length rule fails, so both issues can be reported at once. */
  function PasswordIssues(password: string, confirm: string): (r: seq<Issue>)
    ensures TooShort in r <==> |password| < 8
    ensures Mismatch in r <==> password != confirm
    ensures forall i :: 0 <= i < |r| ==> r[i] in {TooShort, Mismatch}
  {
    (if |password| < 8 then [TooShort] else []) + (if password != confirm then [Mismatch] else [])
  }

  /** A password passes exactly when it has at least 8 characters and the
      confirmation equals it; a mismatch is always reported on the
      confirmation field. */
  lemma PasswordRule(password: string, confirm: string)
    ensures PasswordIssues(password, confirm) == [] <==> |password| >= 8 && password == confirm
    ensures forall i :: 0 <= i < |PasswordIssues(password, confirm)| && PasswordIssues(password, confirm)[i].message == Mismatch.message ==>
              PasswordIssues(password, confirm)[i].path == "confirmPassword"
  {
    if |password| < 8 {
      assert TooShort in PasswordIssues(password, confirm);
    } else if password != confirm {
      assert Mismatch in PasswordIssues(password, confirm);
    }
  }

  /** `resetSchema`, with the e-mail format check as a parameter. */
  function EmailIssues(email: string, isEmail: string -> bool): (r: seq<Issue>)
    ensures r == [] <==> isEmail(email)
    ensures r != [] ==> r == [BadEmail]
  {
    if isEmail(email) then [] else [BadEmail]
  }

  /** The page asks for an e-mail address exactly when the `type` parameter is
      missing or empty; otherwise it asks for a new password. */
  predicate IsResetRequest(typeParam: Option<string>) {
    OrElse(typeParam, "") == ""
  }

  datatype Screen = CheckEmail | RequestForm | UpdateForm

  datatype Reset = Reset(sent: bool, resetting: bool, navigatedTo: Option<string>)

  const Initial := Reset(false, false, None)

  function ScreenOf(r: Reset, typeParam: Option<string>): (s: Screen)
    ensures s == CheckEmail <==> r.sent
    ensures s == RequestForm <==> !r.sent && IsResetRequest(typeParam)
  {
    if r.sent then CheckEmail else if IsResetRequest(typeParam) then RequestForm else UpdateForm
  }

  /** A submission: the gateway call made (its argument), the toast raised,
      and the page after the call settled. */
  datatype Submitted = Submitted(call: Option<string>, toast: Option<Toast>, after: Reset)

  /** `onResetRequest` behind the form's validation. Once the call returns,
      the "check your email" screen follows whether or not it reported an
      error; the error only changes the toast. */
  function SubmitRequest(r: Reset, email: string, isEmail: string -> bool, error: Option<string>): (s: Submitted)
    ensures EmailIssues(email, isEmail) != [] ==> s == Submitted(None, None, r)
    ensures EmailIssues(email, isEmail) == [] ==>
              s.call == Some(email) && s.after.sent && !s.after.resetting && s.after.navigatedTo == r.navigatedTo
    ensures EmailIssues(email, isEmail) == [] ==> s.toast.Some? && (s.toast.value.destructive <==> error.Some?)
  {
    if EmailIssues(email, isEmail) != [] then Submitted(None, None, r)
    else Submitted(Some(email), AuthContext.CallToast(AuthContext.ResetPassword, error), r.(sent := true, resetting := false))
  }

  /** `onPasswordUpdate` behind the form's validation: after the call returns
      the page goes to `/login`, whether or not it reported an error. */
  function SubmitUpdate(r: Reset, password: string, confirm: string, error: Option<string>): (s: Submitted)
    ensures PasswordIssues(password, confirm) != [] ==> s == Submitted(None, None, r)
    ensures PasswordIssues(password, confirm) == [] ==>
              s.call == Some(password) && s.after.navigatedTo == Some("/login") && !s.after.resetting && s.after.sent == r.sent
    ensures PasswordIssues(password, confirm) == [] ==> s.toast.Some? && (s.toast.value.destructive <==> error.Some?)
  {
    if PasswordIssues(password, confirm) != [] then Submitted(None, None, r)
    else Submitted(Some(password), AuthContext.CallToast(AuthContext.UpdatePassword, error), r.(navigatedTo := Some("/login"), resetting := false))
  }

  /** A new password is sent exactly when it is long enough and confirmed. */
  lemma UpdateSentIffValid(r: Reset, password: string, confirm: string, error: Option<string>)
    ensures SubmitUpdate(r, password, confirm, error).call.Some? <==> |password| >= 8 && password == confirm
  {
    PasswordRule(password, confirm);
  }

  /** From the request form, a valid submission always reaches the "check
      your email" screen, error or not. */
  lemma RequestReachesCheckEmail(email: string, isEmail: string -> bool, error: Option<string>, typeParam: Option<string>)
    requires isEmail(email)
    ensures ScreenOf(SubmitRequest(Initial, email, isEmail, error).after, typeParam) == CheckEmail
  {
  }
}

/** The authentication context: the signed-in user and a loading flag, the
    auth-event listener, the loading bracket around sign-in, sign-up and
    sign-out, the toasts each call raises, and the profile update guard. */
module AuthContext {
  import opened Js

  /** The session user: an id, an optional e-mail and the free-form
      `user_metadata` (username, full name, avatar, bio, ...). */
  datatype User = User(id: string, email: Option<string>, metadata: map<string, string>)

  datatype Session = Session(user: Option<User>)

  datatype Auth = Auth(user: Option<User>, loading: bool)

  /** Before anything is known: no user, loading. */
  const Initial := Auth(None, true)

  /** The `onAuthStateChange` listener: a session with a user replaces the user
      wholesale, any other event (sign-out, no session) clears it; loading ends
      either way. */
  function OnAuthEvent(a: Auth, session: Option<Session>): (r: Auth)
    ensures !r.loading
    ensures r.user.Some? <==> session.Some? && session.value.user.Some?
    ensures r.user.Some? ==> r.user == session.value.user
  {
    match session
    case Some(Session(Some(u))) => Auth(Some(u), false)
    case _ => Auth(None, false)
  }

  /** `checkUser` on mount: the current user (or null) when the lookup
      resolves; a lookup that throws keeps the user. Loading ends either way. */
  function CheckUser(a: Auth, current: Result<Option<User>>): (r: Auth)
    ensures !r.loading
    ensures current.Success? ==> r.user == current.value
    ensures current.Failure? ==> r.user == a.user
  {
    match current
    case Success(u) => Auth(u, false)
    case Failure(_) => a.(loading := false)
  }

  /** What the gateway's auth calls resolve to; `data` is passed through. */
  datatype AuthReply<D> = AuthReply(data: D, error: Option<string>)

  /** One bracketed call: the state while it is pending, the state after it
      resolves, what the handler returns and the toast it raises. */
  datatype Bracketed<D> = Bracketed(during: Auth, after: Auth, returned: AuthReply<D>, toast: Toast)

  function Bracket<D>(a: Auth, result: AuthReply<D>, errorTitle: string, okTitle: string, okText: string): (r: Bracketed<D>)
    ensures r.during == a.(loading := true) && r.after == a.(loading := false)
    ensures r.returned == result
    ensures result.error.Some? ==> r.toast == Toast(errorTitle, result.error.value, true)
    ensures result.error.None? ==> r.toast == Toast(okTitle, okText, false)
  {
    var toast := if result.error.Some? then Toast(errorTitle, result.error.value, true) else Toast(okTitle, okText, false);
    Bracketed(a.(loading := true), a.(loading := false), result, toast)
  }

  /** `handleSignIn`. The user itself is set by the auth listener, not here. */
  function SignIn<D>(a: Auth, result: AuthReply<D>): (r: Bracketed<D>)
    ensures r.during.loading && !r.after.loading && r.after.user == a.user
    ensures r.returned == result
    ensures r.toast.destructive <==> result.error.Some?
    ensures r.toast.title == if result.error.Some? then "Authentication error" else "Welcome back!"
  {
    Bracket(a, result, "Authentication error", "Welcome back!", "You have successfully signed in.")
  }

  /** `handleSignUp`. */
  function SignUp<D>(a: Auth, result: AuthReply<D>): (r: Bracketed<D>)
    ensures r.during.loading && !r.after.loading && r.after.user == a.user
    ensures r.returned == result
    ensures r.toast.destructive <==> result.error.Some?
    ensures r.toast.title == if result.error.Some? then "Registration error" else "Account created"
  {
    Bracket(a, result, "Registration error", "Account created", "Please check your email to confirm your account.")
  }

  /** `handleSignOut`. */
  function SignOut<D>(a: Auth, result: AuthReply<D>): (r: Bracketed<D>)
    ensures r.during.loading && !r.after.loading && r.after.user == a.user
    ensures r.returned == result
    ensures r.toast.destructive <==> result.error.Some?
    ensures r.toast.title == if result.error.Some? then "Sign out error" else "Signed out"
  {
    Bracket(a, result, "Sign out error", "Signed out", "You have been successfully signed out.")
  }

  /** The unbracketed calls (Google and Facebook sign-in, password reset and
      update): the result is returned as is, with the toast each raises. The
      social sign-ins raise one only on error. */
  datatype Unbracketed = SocialSignIn | ResetPassword | UpdatePassword

  function CallToast(call: Unbracketed, error: Option<string>): (t: Option<Toast>)
    ensures error.Some? ==> t.Some? && t.value.destructive && t.value.description == error.value
    ensures error.None? ==> (t.Some? <==> call != SocialSignIn)
    ensures t.Some? && !t.value.destructive ==> error.None?
  {
    match error
    case Some(m) =>
      Some(Toast(match call
                 case SocialSignIn => "Authentication error"
                 case ResetPassword => "Password reset error"
                 case UpdatePassword => "Password update error", m, true))
    case None =>
      match call
      case SocialSignIn => None
      case ResetPassword => Some(Toast("Password reset email sent", "Please check your email for the password reset link.", false))
      case UpdatePassword => Some(Toast("Password updated", "Your password has been successfully updated.", false))
  }

  /** The profile update a signed-in user asks for: their id and the fields. */
  datatype ProfileCall = ProfileCall(userId: string, updates: map<string, string>)

  datatype ProfileUpdate = ProfileUpdate(call: Option<ProfileCall>, error: Option<string>, toast: Option<Toast>)

  const NotAuthenticated := "User not authenticated"

  /** `handleUpdateProfile`: without a user it answers `User not
      authenticated` and never reaches the gateway; otherwise it sends the
      updates for the user's id and reports what the gateway answered. */
  function UpdateProfile(a: Auth, updates: map<string, string>, gatewayError: Option<string>): (r: ProfileUpdate)
    ensures a.user.None? ==> r.call.None? && r.error == Some(NotAuthenticated) && r.toast.None?
    ensures a.user.Some? ==> r.call == Some(ProfileCall(a.user.value.id, updates)) && r.error == gatewayError
    ensures a.user.Some? ==> r.toast.Some? && (r.toast.value.destructive <==> gatewayError.Some?)
  {
    match a.user
    case None => ProfileUpdate(None, Some(NotAuthenticated), None)
    case Some(u) =>
      var toast := if gatewayError.Some? then Toast("Profile update error", gatewayError.value, true)
                   else Toast("Profile updated", "Your profile has been successfully updated.", false);
      ProfileUpdate(Some(ProfileCall(u.id, updates)), gatewayError, Some(toast))
  }

  /** `useAuth`: the context value, or the error thrown outside a provider. */
  function UseAuth(context: Option<Auth>): (r: Result<Auth>)
    ensures r.Success? <==> context.Some?
    ensures r.Success? ==> r.value == context.value
    ensures r.Failure? ==> r.error == "useAuth must be used within an AuthProvider"
  {
    match context
    case Some(c) => Success(c)
    case None => Failure("useAuth must be used within an AuthProvider")
  }

  /** After any sequence of auth events the state is settled (not loading),
      and the user is exactly the last event's session user. */
  function Listen(a: Auth, events: seq<Option<Session>>): Auth
    decreases |events|
  {
    if |events| == 0 then a else Listen(OnAuthEvent(a, events[0]), events[1..])
  }

  lemma {:induction false} ListenSettles(a: Auth, events: seq<Option<Session>>)
    requires |events| > 0
    ensures var r := Listen(a, events);
            var last := events[|events| - 1];
            && !r.loading
            && r.user == (if last.Some? then last.value.user else None)
    decreases |events|
  {
    if |events| > 1 {
      ListenSettles(OnAuthEvent(a, events[0]), events[1..]);
    }
  }
}

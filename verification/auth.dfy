/** The authentication hooks of `hooks/auth.ts`: the signed-in user as the
    auth listener reports it, and signup, login and logout with the error
    and loading state each hook keeps. The identity provider's calls are
    parameters: each resolves or rejects with an error code and message. */
module Auth {
  import opened Outcomes

  /** The signed-in user, as far as the app reads it. */
  datatype User = User(uid: string, email: Option<string>)

  /** The outcome of `createUserWithEmailAndPassword`. */
  datatype CreateReply = Created(user: User) | CreateFailed(code: string, message: string)

  const PasswordMismatch := "Passwords do not match"
  const EmailInUse := "auth/email-already-in-use"
  const AlreadyRegistered := "Diese E-Mail-Adresse ist bereits registriert. Bitte melden Sie sich an."

  // ------------------------------------------------------------ auth state

  /** `useAuthState`'s `user` and `loading`. */
  datatype AuthState = AuthState(user: Option<User>, loading: bool)

  /** Before the listener has called back: no user, loading. */
  const Initial := AuthState(None, true)

  /** One listener callback: `setUser(user); setLoading(false)`. */
  function Notify(s: AuthState, user: Option<User>): AuthState {
    AuthState(user, false)
  }

  /** The hook's state after the listener has called back with each of
      `callbacks` in turn: loading until the first, and then the user of
      the latest. */
  function Replay(s: AuthState, callbacks: seq<Option<User>>): (r: AuthState)
    ensures |callbacks| == 0 ==> r == s
    ensures |callbacks| > 0 ==> r == AuthState(callbacks[|callbacks| - 1], false)
    decreases |callbacks|
  {
    if |callbacks| == 0 then s else Replay(Notify(s, callbacks[0]), callbacks[1..])
  }

  /** From the initial state, loading is true exactly while no callback has
      arrived, and the user is then absent. */
  lemma LoadingUntilFirstCallback(callbacks: seq<Option<User>>)
    ensures Replay(Initial, callbacks).loading <==> |callbacks| == 0
    ensures |callbacks| == 0 ==> Replay(Initial, callbacks).user.None?
  {
  }

  // ---------------------------------------------------------------- signup

  /** `signup`'s `{ userCredential, emailExists }`. */
  datatype SignupResult = SignupResult(userCredential: Option<User>, emailExists: bool)

  /** A `signup` call: its result, the hook's `error` afterwards, and the
      `(email, password)` it sent to the identity provider, if it sent any. */
  datatype SignupCall = SignupCall(result: SignupResult, error: Option<string>, sent: Option<(string, string)>)

  /** `signup(email, password, confirmPassword)`. */
  function Signup(email: string, password: string, confirmPassword: string, create: CreateReply): (c: SignupCall)
    ensures password != confirmPassword ==>
              c == SignupCall(SignupResult(None, false), Some(PasswordMismatch), None)
    ensures password == confirmPassword ==> c.sent == Some((email, password))
    ensures c.result.userCredential.Some? <==> password == confirmPassword && create.Created?
    ensures c.result.userCredential.Some? ==> c.result.userCredential == Some(create.user) && c.error.None?
    ensures c.result.emailExists <==> password == confirmPassword && create.CreateFailed? && create.code == EmailInUse
    ensures c.result.emailExists ==> c.error == Some(AlreadyRegistered)
    ensures password == confirmPassword && create.CreateFailed? && create.code != EmailInUse ==>
              c.result == SignupResult(None, false) && c.error == Some(create.message)
    ensures !(c.result.emailExists && c.result.userCredential.Some?)
  {
    if password != confirmPassword then
      SignupCall(SignupResult(None, false), Some(PasswordMismatch), None)
    else
      var sent := Some((email, password));
      match create
      case Created(user) => SignupCall(SignupResult(Some(user), false), None, sent)
      case CreateFailed(code, message) =>
        if code == EmailInUse then SignupCall(SignupResult(None, true), Some(AlreadyRegistered), sent)
        else SignupCall(SignupResult(None, false), Some(message), sent)
  }

  /** The outcome of a signup is decided before the provider is asked when
      the passwords differ: whatever the provider would answer, nothing is
      sent and the result is the same. */
  lemma MismatchIgnoresProvider(email: string, password: string, confirmPassword: string, a: CreateReply, b: CreateReply)
    requires password != confirmPassword
    ensures Signup(email, password, confirmPassword, a) == Signup(email, password, confirmPassword, b)
  {
  }

  // ---------------------------------------------------------- login, logout

  /** `useLogin`'s `error` and `loading`. */
  datatype LoginHook = LoginHook(error: Option<string>, loading: bool)

  /** A `login` call: the hook's state while the sign-in is awaited, and
      after it. */
  datatype LoginCall = LoginCall(pending: LoginHook, settled: LoginHook)

  /** `login(email, password)`: clear the error and set loading, await the
      sign-in, record its error if it rejects, and clear loading either
      way. */
  function Login(signIn: Reply): (c: LoginCall)
    ensures c.pending == LoginHook(None, true)
    ensures !c.settled.loading
    ensures c.settled.error.None? <==> signIn.Committed?
    ensures signIn.Threw? ==> c.settled.error == Some(signIn.message)
  {
    var pending := LoginHook(None, true);
    match signIn
    case Committed => LoginCall(pending, pending.(loading := false))
    case Threw(m) => LoginCall(pending, LoginHook(Some(m), false))
  }

  /** A `logout` call: the hook's `error` while signing out, and after. */
  datatype LogoutCall = LogoutCall(pending: Option<string>, settled: Option<string>)

  /** `logout()`: clear the error, sign out, record the error if that
      rejects. */
  function Logout(signOut: Reply): (c: LogoutCall)
    ensures c.pending.None?
    ensures c.settled.None? <==> signOut.Committed?
    ensures signOut.Threw? ==> c.settled == Some(signOut.message)
  {
    match signOut
    case Committed => LogoutCall(None, None)
    case Threw(m) => LogoutCall(None, Some(m))
  }
}

/** The account screens and auth provider of `app/me.tsx`: the input checks
    the login and signup screens make before calling the provider, and the
    provider's `login`, `signup` and `logout`, which hold a shared `loading`
    flag and, on signup, write a profile document. */
module Screens {
  import opened Outcomes
  import Auth

  // ----------------------------------------------------------- login screen

  /** `handleLogin()`: the `(email, password)` passed to `login`, or `None`
      when the screen stops at its alert. */
  function HandleLogin(email: string, password: string): (call: Option<(string, string)>)
    ensures call.Some? <==> email != "" && password != ""
    ensures call.Some? ==> call.value == (email, password)
  {
    if email == "" || password == "" then None else Some((email, password))
  }

  // ---------------------------------------------------------- signup screen

  /** The signup screen's inputs. */
  datatype SignupForm = SignupForm(
    lastName: string, firstName: string, email: string, password: string, repeatPassword: string,
    newsletterChecked: bool, privacyChecked: bool)

  /** Where `handleSignup` stops: at one of its three alerts, or by calling
      `signup(email, password, firstName, lastName)`. */
  datatype SignupDecision =
    | MissingField
    | PasswordsDiffer
    | PrivacyUnchecked
    | Submit(email: string, password: string, firstName: string, lastName: string)

  /** Whether every one of the five text fields is filled in. */
  predicate Filled(f: SignupForm) {
    f.lastName != "" && f.firstName != "" && f.email != "" && f.password != "" && f.repeatPassword != ""
  }

  /** `handleSignup()`. */
  function HandleSignup(f: SignupForm): (d: SignupDecision)
    ensures d == MissingField <==> !Filled(f)
    ensures d == PasswordsDiffer <==> Filled(f) && f.password != f.repeatPassword
    ensures d == PrivacyUnchecked <==> Filled(f) && f.password == f.repeatPassword && !f.privacyChecked
    ensures d.Submit? <==> Filled(f) && f.password == f.repeatPassword && f.privacyChecked
    ensures d.Submit? ==> d == Submit(f.email, f.password, f.firstName, f.lastName)
  {
    if f.lastName == "" || f.firstName == "" || f.email == "" || f.password == "" || f.repeatPassword == "" then
      MissingField
    else if f.password != f.repeatPassword then PasswordsDiffer
    else if !f.privacyChecked then PrivacyUnchecked
    else Submit(f.email, f.password, f.firstName, f.lastName)
  }

  /** The newsletter box is read by no check. */
  lemma NewsletterIrrelevant(f: SignupForm, checked: bool)
    ensures HandleSignup(f.(newsletterChecked := checked)) == HandleSignup(f)
  {
  }

  /** Any empty field is reported whatever the passwords and the privacy
      box say: the field check comes first. */
  lemma MissingFieldFirst(f: SignupForm, privacyChecked: bool)
    requires !Filled(f)
    ensures HandleSignup(f.(privacyChecked := privacyChecked)) == MissingField
  {
  }

  /** The credentials a submitted signup form sends are ones the login
      screen passes on unchanged. */
  lemma SignedUpCanLogIn(f: SignupForm)
    requires HandleSignup(f).Submit?
    ensures HandleLogin(HandleSignup(f).email, HandleSignup(f).password) == Some((f.email, f.password))
  {
  }

  // ---------------------------------------------------------------- provider

  /** The provider's `loading` while a call is awaited and after it, and the
      alert message it showed, if any. */
  datatype ProviderCall = ProviderCall(pending: bool, settled: bool, alert: Option<string>)

  /** The `try … catch … finally` shape that `login`, `signup` and `logout`
      share: set loading, await the call, alert its message if it rejects,
      and clear loading either way. */
  function Busy(reply: Reply): (c: ProviderCall)
    ensures c.pending && !c.settled
    ensures c.alert.None? <==> reply.Committed?
    ensures reply.Threw? ==> c.alert == Some(reply.message)
  {
    match reply
    case Committed => ProviderCall(true, false, None)
    case Threw(m) => ProviderCall(true, false, Some(m))
  }

  /** The provider's `login` and `logout` report a failure exactly as the
      hooks `useLogin` and `useLogout` do: the alert is the error the hook
      records, and both end not loading. */
  lemma ProviderMatchesHooks(reply: Reply)
    ensures Busy(reply).alert == Auth.Login(reply).settled.error
    ensures Busy(reply).settled == Auth.Login(reply).settled.loading
    ensures Busy(reply).alert == Auth.Logout(reply).settled
  {
  }

  /** The document `signup` writes at
      `artifacts/{appId}/users/{uid}/profile/data`. */
  datatype ProfileDoc = ProfileDoc(appId: string, uid: string, firstName: string, lastName: string,
                                   email: string, createdAt: string)

  /** A provider `signup` call: the loading flags and alert, and the
      profile document it wrote, if any. */
  datatype SignupCall = SignupCall(call: ProviderCall, written: Option<ProfileDoc>)

  /** `signup(email, password, firstName, lastName)`: create the account;
      when that returns a user and the database is configured, write the
      profile document. A failure of either step is alerted. */
  function Signup(appId: string, email: string, password: string, firstName: string, lastName: string,
                  create: Auth.CreateReply, dbConfigured: bool, write: Reply, now: string): (c: SignupCall)
    ensures c.call.pending && !c.call.settled
    ensures c.written.Some? <==> create.Created? && dbConfigured && write.Committed?
    ensures c.written.Some? ==> c.written.value == ProfileDoc(appId, create.user.uid, firstName, lastName, email, now)
    ensures create.CreateFailed? ==> c.call.alert == Some(create.message)
    ensures c.call.alert.None? <==> create.Created? && (!dbConfigured || write.Committed?)
  {
    match create
    case CreateFailed(_, m) => SignupCall(Busy(Threw(m)), None)
    case Created(user) =>
      if !dbConfigured then SignupCall(Busy(Committed), None)
      else
        var profile := ProfileDoc(appId, user.uid, firstName, lastName, email, now);
        match write
        case Committed => SignupCall(Busy(Committed), Some(profile))
        case Threw(m) => SignupCall(Busy(Threw(m)), None)
  }

  /** A form that passes the screen's checks, followed by a successful
      account creation and write, stores the form's names and email under
      the new user. */
  lemma SubmittedFormIsStored(f: SignupForm, appId: string, user: Auth.User, now: string)
    requires Filled(f) && f.password == f.repeatPassword && f.privacyChecked
    ensures var d := HandleSignup(f);
            var c := Signup(appId, d.email, d.password, d.firstName, d.lastName, Auth.Created(user), true, Committed, now);
            c.written == Some(ProfileDoc(appId, user.uid, f.firstName, f.lastName, f.email, now))
  {
  }
}

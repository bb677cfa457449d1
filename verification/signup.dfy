/** The sign-up form (ui/signup/SignUpViewModel.kt).

    Like the sign-in form, with an email field checked first. A complete form
    registers the account and then signs in with the same credentials; the
    sign-in call is made only after a successful registration. Both answers
    are inputs.
 */
module SignUpScreen {
  import opened Wrappers
  import opened Text
  import opened Domain

  /** `SignUpUiState`: loading, done, and the error text (empty when none). */
  datatype UiState = UiState(isLoading: bool, isSignUpDone: bool, errorMsg: UiText)

  const Idle: UiState := UiState(false, false, EmptyText)

  datatype Form = Form(email: string, username: string, password: string, uiState: UiState)

  function Initial(): (f: Form)
    ensures f.email == [] && f.username == [] && f.password == []
    ensures !f.uiState.isLoading && !f.uiState.isSignUpDone && f.uiState.errorMsg == EmptyText
  {
    Form("", "", "", Idle)
  }

  function ErrorState(msg: UiText): (u: UiState)
    ensures !u.isSignUpDone && !u.isLoading && u.errorMsg == msg
  {
    Idle.(errorMsg := msg)
  }

  /** `updateEmail`: store the trimmed input. */
  function UpdateEmail(f: Form, input: string): (r: Form)
    ensures IsTrimmed(r.email) && IsTrimOf(input, r.email, LeadingWhitespace(input))
    ensures r.username == f.username && r.password == f.password && r.uiState == f.uiState
  {
    f.(email := Trim(input))
  }

  /** `updateUsername`: store the trimmed input. */
  function UpdateUsername(f: Form, input: string): (r: Form)
    ensures IsTrimmed(r.username) && IsTrimOf(input, r.username, LeadingWhitespace(input))
    ensures r.email == f.email && r.password == f.password && r.uiState == f.uiState
  {
    f.(username := Trim(input))
  }

  /** `updatePassword`: store the trimmed input. */
  function UpdatePassword(f: Form, input: string): (r: Form)
    ensures IsTrimmed(r.password) && IsTrimOf(input, r.password, LeadingWhitespace(input))
    ensures r.email == f.email && r.username == f.username && r.uiState == f.uiState
  {
    f.(password := Trim(input))
  }

  /** The first empty field, in the order the form checks them. */
  function Missing(f: Form): (m: Option<StringRes>)
    ensures m.None? <==> f.email != [] && f.username != [] && f.password != []
    ensures f.email == [] ==> m == Some(ErrEnterEmail)
    ensures f.email != [] && f.username == [] ==> m == Some(ErrEnterUsername)
    ensures f.email != [] && f.username != [] && f.password == [] ==> m == Some(ErrEnterPassword)
  {
    if f.email == [] then Some(ErrEnterEmail)
    else if f.username == [] then Some(ErrEnterUsername)
    else if f.password == [] then Some(ErrEnterPassword)
    else None
  }

  /** One attempt: the form afterwards, the states written, and the two
      requests made (registration, then sign-in), each only if it was sent. */
  datatype Attempt = Attempt(
    form: Form,
    written: seq<UiState>,
    signUpRequest: Option<SignUpDto>,
    signInRequest: Option<SignInDto>)

  /** `signUp()` with the answers of the registration and the sign-in calls. */
  function SignUp(f: Form, signUpAnswer: Return<()>, signInAnswer: Return<()>): (r: Attempt)
    ensures 1 <= |r.written| <= 2
    ensures r.form == f.(uiState := r.written[|r.written| - 1])
    ensures Missing(f).Some? ==>
      r.written == [ErrorState(Res(Missing(f).value))] && r.signUpRequest.None? && r.signInRequest.None?
    ensures Missing(f).None? ==>
      && r.signUpRequest == Some(SignUpDto(f.email, f.username, f.password))
      && |r.written| == 2 && r.written[0] == Idle.(isLoading := true)
    ensures r.signInRequest.Some? <==> Missing(f).None? && signUpAnswer.Ok?
    ensures r.signInRequest.Some? ==> r.signInRequest.value == NewSignInDto(f.username, f.password)
    ensures Missing(f).None? ==>
      (r.written[1].isSignUpDone <==> signUpAnswer.Ok? && signInAnswer.Ok?)
    ensures Missing(f).None? && signUpAnswer.Fail? ==> r.written[1] == ErrorState(signUpAnswer.message)
    ensures Missing(f).None? && signUpAnswer.Ok? && signInAnswer.Fail? ==>
      r.written[1] == ErrorState(signInAnswer.message)
  {
    match Missing(f)
    case Some(res) =>
      Attempt(f.(uiState := ErrorState(Res(res))), [ErrorState(Res(res))], None, None)
    case None =>
      var signUpRequest := SignUpDto(f.email, f.username, f.password);
      var signInRequest := if signUpAnswer.Ok? then Some(NewSignInDto(f.username, f.password)) else None;
      var last :=
        if signUpAnswer.Fail? then ErrorState(signUpAnswer.message)
        else if signInAnswer.Fail? then ErrorState(signInAnswer.message)
        else Idle.(isSignUpDone := true);
      Attempt(f.(uiState := last), [Idle.(isLoading := true), last], Some(signUpRequest), signInRequest)
  }

  /** The sign-in that follows a registration uses exactly the registered
      username and password. */
  lemma SignInUsesRegisteredCredentials(f: Form, a1: Return<()>, a2: Return<()>)
    requires SignUp(f, a1, a2).signInRequest.Some?
    ensures var r := SignUp(f, a1, a2);
      r.signUpRequest.Some?
      && r.signInRequest.value.username == r.signUpRequest.value.username
      && r.signInRequest.value.password == r.signUpRequest.value.password
  {
  }

  /** A blank email stops the form before any call, whatever else was typed. */
  lemma BlankEmailSendsNothing(f: Form, email: string, a1: Return<()>, a2: Return<()>)
    requires AllWhitespace(email)
    ensures var r := SignUp(UpdateEmail(f, email), a1, a2);
      r.signUpRequest.None? && r.signInRequest.None? && r.form.uiState == ErrorState(Res(ErrEnterEmail))
  {
    TrimEmptyIff(email);
  }
}

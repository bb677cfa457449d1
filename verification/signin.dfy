/** The sign-in form (ui/signin/SignInViewModel.kt).

    The form keeps the trimmed username and password and one UI state. A
    sign-in attempt validates the fields in order, username first; only when
    both are present does it write the loading state, ask the session
    repository, and write the outcome. The repository's answer is an input.
 */
module SignInScreen {
  import opened Wrappers
  import opened Text
  import opened Domain

  /** `SignInUiState`: done, loading, and the error text (empty when none). */
  datatype UiState = UiState(isSignInDone: bool, isLoading: bool, errorMsg: UiText)

  /** The state with every field at its default. */
  const Idle: UiState := UiState(false, false, EmptyText)

  datatype Form = Form(username: string, password: string, uiState: UiState)

  /** A fresh form: empty fields, default state. */
  function Initial(): (f: Form)
    ensures f.username == [] && f.password == []
    ensures !f.uiState.isSignInDone && !f.uiState.isLoading && f.uiState.errorMsg == EmptyText
  {
    Form("", "", Idle)
  }

  /** A state written with only an error set. */
  function ErrorState(msg: UiText): (u: UiState)
    ensures !u.isSignInDone && !u.isLoading && u.errorMsg == msg
  {
    Idle.(errorMsg := msg)
  }

  /** Each state sets at most one of loading, done, or a non-empty error. */
  predicate Exclusive(u: UiState) {
    && !(u.isLoading && u.isSignInDone)
    && (u.isLoading || u.isSignInDone ==> u.errorMsg == EmptyText)
  }

  /** `updateUsername`: store the trimmed input. */
  function UpdateUsername(f: Form, input: string): (r: Form)
    ensures IsTrimmed(r.username) && IsTrimOf(input, r.username, LeadingWhitespace(input))
    ensures r.password == f.password && r.uiState == f.uiState
  {
    f.(username := Trim(input))
  }

  /** `updatePassword`: store the trimmed input. */
  function UpdatePassword(f: Form, input: string): (r: Form)
    ensures IsTrimmed(r.password) && IsTrimOf(input, r.password, LeadingWhitespace(input))
    ensures r.username == f.username && r.uiState == f.uiState
  {
    f.(password := Trim(input))
  }

  /** One sign-in attempt: the form afterwards, the states written in order,
      and the credentials sent to the repository, if any. */
  datatype Attempt = Attempt(form: Form, written: seq<UiState>, request: Option<SignInDto>)

  /** `signIn()`. */
  function SignIn(f: Form, answer: Return<()>): (r: Attempt)
    ensures 1 <= |r.written| <= 2
    ensures r.form == f.(uiState := r.written[|r.written| - 1])
    ensures r.request.Some? <==> f.username != [] && f.password != []
    ensures f.username == [] ==> r.written == [ErrorState(Res(ErrEnterUsername))]
    ensures f.username != [] && f.password == [] ==> r.written == [ErrorState(Res(ErrEnterPassword))]
    ensures r.request.Some? ==>
      && r.request.value == NewSignInDto(f.username, f.password)
      && r.written[0] == Idle.(isLoading := true)
      && |r.written| == 2
      && (answer.Ok? ==> r.written[1] == Idle.(isSignInDone := true))
      && (answer.Fail? ==> r.written[1] == ErrorState(answer.message))
  {
    var written :=
      if f.username == [] then [ErrorState(Res(ErrEnterUsername))]
      else if f.password == [] then [ErrorState(Res(ErrEnterPassword))]
      else
        [Idle.(isLoading := true),
         if answer.Ok? then Idle.(isSignInDone := true) else ErrorState(answer.message)];
    var request := if f.username != [] && f.password != [] then Some(NewSignInDto(f.username, f.password)) else None;
    Attempt(f.(uiState := written[|written| - 1]), written, request)
  }

  /** Every state an attempt writes keeps loading, done and error apart. */
  lemma WrittenStatesExclusive(f: Form, answer: Return<()>)
    ensures forall i :: 0 <= i < |SignIn(f, answer).written| ==> Exclusive(SignIn(f, answer).written[i])
  {
  }

  /** Typed input reaches the repository exactly when neither field is blank,
      and what is sent is the trimmed text. */
  lemma RequestIffNotBlank(user: string, pass: string, answer: Return<()>)
    ensures var f := UpdatePassword(UpdateUsername(Initial(), user), pass);
      var r := SignIn(f, answer);
      && (r.request.Some? <==> !AllWhitespace(user) && !AllWhitespace(pass))
      && (r.request.Some? ==> r.request.value.username == Trim(user) && r.request.value.password == Trim(pass))
  {
    TrimEmptyIff(user);
    TrimEmptyIff(pass);
  }

  /** Retyping a stored field does not change it: the setters are idempotent. */
  lemma SettersIdempotent(f: Form, user: string, pass: string)
    ensures UpdateUsername(UpdateUsername(f, user), UpdateUsername(f, user).username) == UpdateUsername(f, user)
    ensures UpdatePassword(UpdatePassword(f, pass), UpdatePassword(f, pass).password) == UpdatePassword(f, pass)
  {
    TrimIdempotent(user);
    TrimIdempotent(pass);
  }
}

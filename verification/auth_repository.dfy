/** The session repository (data/auth/impl/AuthRepositoryImpl.kt).

    It holds the current session, persists it through the local store and
    publishes the access token on a token stream every time the session is
    assigned. The backend's answers and the clock are inputs; the refresh work
    handed to the scheduler is recorded as its initial delay.
 */
module AuthRepository {
  import opened Wrappers
  import opened Domain
  import LocalAuth

  /** What the token stream carries when there is no session. */
  const EmptyToken: string := ""

  /** The prefix the repository puts in front of every received access token. */
  const BearerPrefix: string := "Bearer "

  /** `PeriodicWorkRequest.MIN_PERIODIC_INTERVAL_MILLIS`: fifteen minutes. */
  const MinPeriodicIntervalMillis: int := 900000

  /** How long before expiry the refresh work is meant to run. */
  const RefreshMarginMillis: int := 60000

  datatype Repo = Repo(
    authData: Option<AuthData>,
    prefs: LocalAuth.Prefs,
    tokenChanges: seq<string>,
    authEvents: nat,
    scheduledDelays: seq<int>)

  /** The token published for a session value. */
  function PublishedToken(d: Option<AuthData>): (t: string)
    ensures d.None? ==> t == EmptyToken
    ensures d.Some? ==> t == d.value.accessToken
  {
    match d
    case None => EmptyToken
    case Some(data) => data.accessToken
  }

  /** The token stream's latest value is the current session's token. */
  predicate TokenInSync(repo: Repo) {
    |repo.tokenChanges| > 0 && repo.tokenChanges[|repo.tokenChanges| - 1] == PublishedToken(repo.authData)
  }

  /** The property setter: publish the new value's token, then store it. */
  function Assign(repo: Repo, d: Option<AuthData>): (r: Repo)
    ensures r.authData == d
    ensures r.tokenChanges == repo.tokenChanges + [PublishedToken(d)]
    ensures TokenInSync(r)
    ensures r.prefs == repo.prefs && r.authEvents == repo.authEvents && r.scheduledDelays == repo.scheduledDelays
  {
    repo.(authData := d, tokenChanges := repo.tokenChanges + [PublishedToken(d)])
  }

  /** Construction: the token stream starts at the empty token, the stored
      session is loaded and assigned, and a loaded session raises the auth event. */
  function Init(prefs: LocalAuth.Prefs): (r: Repo)
    ensures r.authData == LocalAuth.Load(prefs).data && r.prefs == LocalAuth.Load(prefs).prefs
    ensures r.tokenChanges == [EmptyToken, PublishedToken(r.authData)]
    ensures r.authEvents == (if r.authData.Some? then 1 else 0)
    ensures r.scheduledDelays == []
    ensures TokenInSync(r)
  {
    var loaded := LocalAuth.Load(prefs);
    var r := Assign(Repo(None, loaded.prefs, [EmptyToken], 0, []), loaded.data);
    if loaded.data.Some? then r.(authEvents := 1) else r
  }

  /** `getUserId`: the session's user id, or "" without one. */
  function GetUserId(repo: Repo): (id: string)
    ensures repo.authData.None? ==> id == ""
    ensures repo.authData.Some? && repo.authData.value.userId.Some? ==> id == repo.authData.value.userId.value
    ensures repo.authData.Some? && repo.authData.value.userId.None? ==> id == ""
  {
    match repo.authData
    case None => ""
    case Some(d) => d.userId.GetOr("")
  }

  /** `isSignedIn`. */
  predicate IsSignedIn(repo: Repo) {
    repo.authData.Some?
  }

  /** `formatAccessToken`. */
  function FormatAccessToken(token: string): (t: string)
    ensures |t| == |BearerPrefix| + |token|
    ensures t[..|BearerPrefix|] == BearerPrefix && t[|BearerPrefix|..] == token
  {
    BearerPrefix + token
  }

  /** The session `setNewAuthData` stores for the backend's answer: the current
      user id fills a missing one, and the access token gets its prefix. */
  function NewSession(repo: Repo, received: AuthData): (d: AuthData)
    ensures d.userId == Some(received.userId.GetOr(GetUserId(repo)))
    ensures d.accessToken == FormatAccessToken(received.accessToken)
    ensures d.accessTokenExp == received.accessTokenExp
    ensures d.refreshToken == received.refreshToken && d.refreshTokenExp == received.refreshTokenExp
  {
    received.(userId := Some(received.userId.GetOr(GetUserId(repo))), accessToken := FormatAccessToken(received.accessToken))
  }

  /** `setNewAuthData`: assign the new session and persist it. */
  function SetNewAuthData(repo: Repo, received: AuthData): (r: Repo)
    ensures r.authData == Some(NewSession(repo, received))
    ensures r.prefs == LocalAuth.Save(repo.prefs, NewSession(repo, received))
    ensures r.tokenChanges == repo.tokenChanges + [NewSession(repo, received).accessToken]
    ensures r.authEvents == repo.authEvents && r.scheduledDelays == repo.scheduledDelays
  {
    var d := NewSession(repo, received);
    Assign(repo, Some(d)).(prefs := LocalAuth.Save(repo.prefs, d))
  }

  /** `refreshToken()`: without a session nothing happens; otherwise the
      backend's answer replaces the session on success and changes nothing on
      failure. The flag says whether the session was replaced. */
  function RefreshToken(repo: Repo, answer: Return<AuthData>): (r: (Repo, bool))
    ensures r.1 <==> repo.authData.Some? && answer.Ok?
    ensures r.1 ==> r.0 == SetNewAuthData(repo, answer.value)
    ensures !r.1 ==> r.0 == repo
  {
    if repo.authData.Some? && answer.Ok? then (SetNewAuthData(repo, answer.value), true)
    else (repo, false)
  }

  /** `getToken()`: "" without a session; an expired token is refreshed first,
      and the stored token (refreshed or not) is returned. */
  function GetToken(repo: Repo, now: int, answer: Return<AuthData>): (r: (Repo, string))
    ensures repo.authData.None? ==> r == (repo, EmptyToken)
    ensures repo.authData.Some? && IsTokenAlive(repo.authData.value, now) ==>
      r == (repo, repo.authData.value.accessToken)
    ensures repo.authData.Some? && !IsTokenAlive(repo.authData.value, now) ==>
      r.0 == RefreshToken(repo, answer).0
    ensures r.0.authData.Some? ==> r.1 == r.0.authData.value.accessToken
  {
    match repo.authData
    case None => (repo, EmptyToken)
    case Some(d) =>
      var repo' := if IsTokenAlive(d, now) then repo else RefreshToken(repo, answer).0;
      (repo', repo'.authData.value.accessToken)
  }

  /** The initial delay of the refresh work: a minute before expiry, but never
      sooner than the scheduler's minimum period. */
  function RefreshDelay(d: AuthData, now: int): (delay: int)
    ensures delay >= MinPeriodicIntervalMillis
    ensures delay >= RemainingLifetime(d, now) - RefreshMarginMillis
    ensures delay == MinPeriodicIntervalMillis || delay == RemainingLifetime(d, now) - RefreshMarginMillis
  {
    var wanted := RemainingLifetime(d, now) - RefreshMarginMillis;
    if wanted > MinPeriodicIntervalMillis then wanted else MinPeriodicIntervalMillis
  }

  /** `scheduleRefreshTokenWork()`: enqueue the work when there is a session. */
  function ScheduleRefreshTokenWork(repo: Repo, now: int): (r: Repo)
    ensures repo.authData.None? ==> r == repo
    ensures repo.authData.Some? ==> r == repo.(scheduledDelays := repo.scheduledDelays + [RefreshDelay(repo.authData.value, now)])
  {
    match repo.authData
    case None => repo
    case Some(d) => repo.(scheduledDelays := repo.scheduledDelays + [RefreshDelay(d, now)])
  }

  /** `signIn(data)`: on success store the new session, schedule its refresh
      and raise the auth event; in every case answer with the call's outcome
      without its value. */
  function SignIn(repo: Repo, answer: Return<AuthData>, now: int): (r: (Repo, Return<()>))
    ensures r.1 == answer.Convert()
    ensures answer.Fail? ==> r.0 == repo
    ensures answer.Ok? ==>
      var stored := SetNewAuthData(repo, answer.value);
      r.0 == ScheduleRefreshTokenWork(stored, now).(authEvents := repo.authEvents + 1)
  {
    if answer.Ok? then
      var stored := ScheduleRefreshTokenWork(SetNewAuthData(repo, answer.value), now);
      (stored.(authEvents := repo.authEvents + 1), answer.Convert())
    else (repo, answer.Convert())
  }

  /** The request `signIn` sends for the user's credentials. */
  function SignInRequest(username: string, password: string): (dto: SignInDto)
    ensures dto.username == username && dto.password == password
    ensures dto.rememberMe && dto.authStrategy == "jwt"
  {
    NewSignInDto(username, password)
  }

  /** `signUp(data)`: the call's outcome without its value; no state. */
  function SignUp(answer: Return<()>): (r: Return<()>)
    ensures r.Ok? <==> answer.Ok?
    ensures answer.Fail? ==> r == answer
  {
    answer.Convert()
  }

  /** Every operation that assigns the session keeps the token stream's latest
      value equal to the current session's token. */
  lemma TokenStaysInSync(repo: Repo, received: AuthData, answer: Return<AuthData>, now: int)
    requires TokenInSync(repo)
    ensures TokenInSync(SetNewAuthData(repo, received))
    ensures TokenInSync(RefreshToken(repo, answer).0)
    ensures TokenInSync(GetToken(repo, now, answer).0)
    ensures TokenInSync(SignIn(repo, answer, now).0)
  {
  }

  /** A signed-in session keeps its user id across a refresh whose answer
      carries none, and the new token carries the prefix. */
  lemma RefreshKeepsUserId(repo: Repo, answer: Return<AuthData>)
    requires repo.authData.Some? && repo.authData.value.userId.Some?
    requires answer.Ok? && answer.value.userId.None?
    ensures RefreshToken(repo, answer).0.authData.value.userId == repo.authData.value.userId
    ensures RefreshToken(repo, answer).0.authData.value.accessToken == BearerPrefix + answer.value.accessToken
  {
  }

  /** After a successful sign-in the stored session reads back from the store,
      user id included, provided the backend's expiries are not zero. */
  lemma SignInPersists(repo: Repo, answer: Return<AuthData>, now: int)
    requires answer.Ok? && answer.value.accessTokenExp != 0 && answer.value.refreshTokenExp != 0
    ensures var r := SignIn(repo, answer, now).0;
      IsSignedIn(r) && LocalAuth.Load(r.prefs).data == r.authData
  {
    LocalAuth.SaveLoadRoundTrip(repo.prefs, NewSession(repo, answer.value));
  }
}

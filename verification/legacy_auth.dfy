/** The earlier session repository (data/auth/AuthRepositoryImpl.kt), still in
    the tree. It stores the backend's access token without a prefix and adds
    "Bearer " when handing it out; its refresh call is unprotected, so a
    failure propagates to the caller. Its store uses the same keys and the
    same load/save rules as LocalAuth.
 */
module LegacyAuth {
  import opened Wrappers
  import opened Domain
  import opened ApiCaller
  import LocalAuth

  datatype LegacyRepo = LegacyRepo(authData: Option<AuthData>, prefs: LocalAuth.Prefs)

  /** `loadAuthData()`: a complete stored session, or null after clearing. */
  function LoadAuthData(p: LocalAuth.Prefs): (r: LocalAuth.Loaded)
    ensures r.data.Some? <==> LocalAuth.HoldsSession(p)
    ensures r.data.None? ==> r.prefs == LocalAuth.EmptyPrefs()
    ensures r.data.Some? ==> r.prefs == p && r.data.value.userId == Some(p.strings[LocalAuth.UserIdKey])
  {
    LocalAuth.Load(p)
  }

  /** `saveAuthData(data)`: four entries always, the user id only when present. */
  function SaveAuthData(p: LocalAuth.Prefs, d: AuthData): (r: LocalAuth.Prefs)
    ensures LocalAuth.AccessTokenKey in r.strings && r.strings[LocalAuth.AccessTokenKey] == d.accessToken
    ensures LocalAuth.RefreshTokenKey in r.strings && r.strings[LocalAuth.RefreshTokenKey] == d.refreshToken
    ensures LocalAuth.AccessTokenExpKey in r.longs && r.longs[LocalAuth.AccessTokenExpKey] == d.accessTokenExp
    ensures LocalAuth.RefreshTokenExpKey in r.longs && r.longs[LocalAuth.RefreshTokenExpKey] == d.refreshTokenExp
    ensures d.userId.Some? ==> LocalAuth.UserIdKey in r.strings && r.strings[LocalAuth.UserIdKey] == d.userId.value
    ensures d.userId.None? ==> (LocalAuth.UserIdKey in r.strings <==> LocalAuth.UserIdKey in p.strings)
  {
    LocalAuth.Save(p, d)
  }

  /** `init(ctx)`: load the stored session; the flag says whether the
      signed-in callback runs. */
  function Init(p: LocalAuth.Prefs): (r: (LegacyRepo, bool))
    ensures r.0.authData == LoadAuthData(p).data && r.0.prefs == LoadAuthData(p).prefs
    ensures r.1 <==> r.0.authData.Some?
  {
    var loaded := LoadAuthData(p);
    (LegacyRepo(loaded.data, loaded.prefs), loaded.data.Some?)
  }

  /** `signIn(data)`: store and save the backend's session, as it is, only on
      success. */
  function SignIn(repo: LegacyRepo, answer: Return<AuthData>): (r: (LegacyRepo, Return<()>))
    ensures r.1 == answer.Convert()
    ensures answer.Fail? ==> r.0 == repo
    ensures answer.Ok? ==> r.0 == LegacyRepo(Some(answer.value), SaveAuthData(repo.prefs, answer.value))
  {
    if answer.Ok? then (LegacyRepo(Some(answer.value), SaveAuthData(repo.prefs, answer.value)), answer.Convert())
    else (repo, answer.Convert())
  }

  /** `refreshToken(data)`: the backend's new session with the previous user id. */
  function RefreshToken(current: AuthData, received: AuthData): (d: AuthData)
    ensures d.userId == current.userId
    ensures d.accessToken == received.accessToken && d.accessTokenExp == received.accessTokenExp
    ensures d.refreshToken == received.refreshToken && d.refreshTokenExp == received.refreshTokenExp
  {
    received.(userId := current.userId)
  }

  /** `getToken()`: "" without a session; an expired session is refreshed and
      saved first (a failing refresh call propagates); the answer is the
      stored token with the "Bearer " prefix. */
  function GetToken(repo: LegacyRepo, now: int, refresh: Call<AuthData>): (r: Call<(LegacyRepo, string)>)
    ensures repo.authData.None? ==> r == Returns((repo, ""))
    ensures repo.authData.Some? && IsTokenAlive(repo.authData.value, now) ==>
      r == Returns((repo, "Bearer " + repo.authData.value.accessToken))
    ensures repo.authData.Some? && !IsTokenAlive(repo.authData.value, now) ==>
      (r.Returns? <==> refresh.Returns?)
    ensures repo.authData.Some? && !IsTokenAlive(repo.authData.value, now) && refresh.Returns? ==>
      var d := RefreshToken(repo.authData.value, refresh.value);
      r == Returns((LegacyRepo(Some(d), SaveAuthData(repo.prefs, d)), "Bearer " + d.accessToken))
  {
    match repo.authData
    case None => Returns((repo, ""))
    case Some(current) =>
      if IsTokenAlive(current, now) then Returns((repo, "Bearer " + current.accessToken))
      else
        match UnsafeApiCall(refresh)
        case Returns(received) =>
          var d := RefreshToken(current, received);
          Returns((LegacyRepo(Some(d), SaveAuthData(repo.prefs, d)), "Bearer " + d.accessToken))
        case ThrowsHttp(b) => ThrowsHttp(b)
        case ThrowsIo => ThrowsIo
        case ThrowsOther => ThrowsOther
  }

  /** `getUserId`. */
  function GetUserId(repo: LegacyRepo): (id: string)
    ensures repo.authData.None? ==> id == ""
    ensures repo.authData.Some? ==> id == repo.authData.value.userId.GetOr("")
  {
    match repo.authData
    case None => ""
    case Some(d) => d.userId.GetOr("")
  }

  /** `isSignedIn`. */
  predicate IsSignedIn(repo: LegacyRepo) {
    repo.authData.Some?
  }

  /** Every token handed out for a session starts with the prefix, and the
      part after it is the stored token. */
  lemma TokenAlwaysPrefixed(repo: LegacyRepo, now: int, refresh: Call<AuthData>)
    requires repo.authData.Some?
    requires GetToken(repo, now, refresh).Returns?
    ensures var (r, token) := GetToken(repo, now, refresh).value;
      r.authData.Some? && token == "Bearer " + r.authData.value.accessToken
  {
  }

  /** A refresh keeps the user id, and the refreshed session survives a reload
      of the store when the previous session had an id and the new expiries are set. */
  lemma RefreshSurvivesReload(repo: LegacyRepo, now: int, received: AuthData)
    requires repo.authData.Some? && repo.authData.value.userId.Some?
    requires !IsTokenAlive(repo.authData.value, now)
    requires received.accessTokenExp != 0 && received.refreshTokenExp != 0
    ensures var (r, _) := GetToken(repo, now, Returns(received)).value;
      r.authData.value.userId == repo.authData.value.userId
      && LoadAuthData(r.prefs).data == r.authData
  {
    LocalAuth.SaveLoadRoundTrip(repo.prefs, RefreshToken(repo.authData.value, received));
  }
}

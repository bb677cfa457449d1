/** Persisting the session in the key-value store (data/auth/LocalAuthDataSource.kt).

    The store is modelled as its string entries and its long entries; reading
    an absent long yields the default 0 the code passes. A session is stored
    as five entries under fixed keys.
 */
module LocalAuth {
  import opened Wrappers
  import opened Domain

  datatype Prefs = Prefs(strings: map<string, string>, longs: map<string, int>)

  const AccessTokenKey: string := "access_token"
  const AccessTokenExpKey: string := "access_token_exp"
  const RefreshTokenKey: string := "refresh_token"
  const RefreshTokenExpKey: string := "refresh_token_exp"
  const UserIdKey: string := "user_id_key"

  /** An empty store, as `clear()` leaves it. */
  function EmptyPrefs(): (p: Prefs)
    ensures p.strings == map[] && p.longs == map[]
  {
    Prefs(map[], map[])
  }

  /** `getLong(key, 0)`. */
  function GetLong(p: Prefs, key: string): (v: int)
    ensures key in p.longs ==> v == p.longs[key]
    ensures key !in p.longs ==> v == 0
  {
    if key in p.longs then p.longs[key] else 0
  }

  /** `save(data)`: the two tokens and their expiries are always written; the
      user id only when there is one, so an older stored id survives otherwise.
      Nothing else in the store changes. */
  function Save(p: Prefs, d: AuthData): (r: Prefs)
    ensures AccessTokenKey in r.strings && r.strings[AccessTokenKey] == d.accessToken
    ensures RefreshTokenKey in r.strings && r.strings[RefreshTokenKey] == d.refreshToken
    ensures AccessTokenExpKey in r.longs && r.longs[AccessTokenExpKey] == d.accessTokenExp
    ensures RefreshTokenExpKey in r.longs && r.longs[RefreshTokenExpKey] == d.refreshTokenExp
    ensures d.userId.Some? ==> UserIdKey in r.strings && r.strings[UserIdKey] == d.userId.value
    ensures d.userId.None? ==> (UserIdKey in r.strings <==> UserIdKey in p.strings)
    ensures d.userId.None? && UserIdKey in p.strings ==> r.strings[UserIdKey] == p.strings[UserIdKey]
    ensures forall k :: k in p.strings && k !in {AccessTokenKey, RefreshTokenKey, UserIdKey} ==>
      k in r.strings && r.strings[k] == p.strings[k]
    ensures forall k :: k in p.longs && k !in {AccessTokenExpKey, RefreshTokenExpKey} ==>
      k in r.longs && r.longs[k] == p.longs[k]
    ensures r.strings.Keys <= p.strings.Keys + {AccessTokenKey, RefreshTokenKey, UserIdKey}
    ensures r.longs.Keys == p.longs.Keys + {AccessTokenExpKey, RefreshTokenExpKey}
  {
    var strings := p.strings[AccessTokenKey := d.accessToken][RefreshTokenKey := d.refreshToken];
    var strings' := match d.userId
      case Some(id) => strings[UserIdKey := id]
      case None => strings;
    Prefs(strings', p.longs[AccessTokenExpKey := d.accessTokenExp][RefreshTokenExpKey := d.refreshTokenExp])
  }

  /** The store holds a complete session: all three strings, non-zero expiries. */
  predicate HoldsSession(p: Prefs) {
    && AccessTokenKey in p.strings && RefreshTokenKey in p.strings && UserIdKey in p.strings
    && GetLong(p, AccessTokenExpKey) != 0 && GetLong(p, RefreshTokenExpKey) != 0
  }

  /** What `load()` returns, and the store it leaves behind. */
  datatype Loaded = Loaded(data: Option<AuthData>, prefs: Prefs)

  /** `load()`: the stored session, or null after clearing the whole store when
      any part of it is missing or an expiry is 0. */
  function Load(p: Prefs): (r: Loaded)
    ensures r.data.Some? <==> HoldsSession(p)
    ensures r.data.None? ==> r.prefs == EmptyPrefs()
    ensures r.data.Some? ==> r.prefs == p && r.data.value == AuthData(
      Some(p.strings[UserIdKey]),
      p.strings[AccessTokenKey], GetLong(p, AccessTokenExpKey),
      p.strings[RefreshTokenKey], GetLong(p, RefreshTokenExpKey))
  {
    if !HoldsSession(p) then Loaded(None, EmptyPrefs())
    else Loaded(Some(AuthData(
      Some(p.strings[UserIdKey]),
      p.strings[AccessTokenKey], GetLong(p, AccessTokenExpKey),
      p.strings[RefreshTokenKey], GetLong(p, RefreshTokenExpKey))), p)
  }

  /** A session with a user id and non-zero expiries reads back as saved,
      whatever the store held before. */
  lemma SaveLoadRoundTrip(p: Prefs, d: AuthData)
    requires d.userId.Some? && d.accessTokenExp != 0 && d.refreshTokenExp != 0
    ensures Load(Save(p, d)).data == Some(d)
    ensures Load(Save(p, d)).prefs == Save(p, d)
  {
  }

  /** A session saved without a user id reads back with the id stored before,
      and does not read back at all when there was none. */
  lemma SaveWithoutUserId(p: Prefs, d: AuthData)
    requires d.userId.None? && d.accessTokenExp != 0 && d.refreshTokenExp != 0
    ensures UserIdKey in p.strings ==> Load(Save(p, d)).data == Some(d.(userId := Some(p.strings[UserIdKey])))
    ensures UserIdKey !in p.strings ==> Load(Save(p, d)).data == None
  {
  }

  /** A session with a zero expiry never reads back. */
  lemma ZeroExpiryNeverLoads(p: Prefs, d: AuthData)
    requires d.accessTokenExp == 0 || d.refreshTokenExp == 0
    ensures Load(Save(p, d)).data == None
    ensures Load(Save(p, d)).prefs == EmptyPrefs()
  {
  }

  /** A failed load empties the store, so the next load fails as well. */
  lemma FailedLoadIsFinal(p: Prefs)
    requires Load(p).data.None?
    ensures Load(Load(p).prefs) == Loaded(None, EmptyPrefs())
  {
  }
}

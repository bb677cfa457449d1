/** The user directory (data/user/impl/UserRepositoryImpl.kt).

    A per-id cache filled on first request. The backend's answer for the id
    and the clock are inputs; the answer is only used on a cache miss.
 */
module UserRepository {
  import opened Wrappers
  import opened Domain

  datatype UserRepo = UserRepo(users: map<string, User>)

  /** The stand-in cached for an id the backend cannot resolve. */
  function Placeholder(id: string, now: int): (u: User)
    ensures u.id == id && u.name == "хто_я#" + id && u.avatar == None && u.lastActivity == now
  {
    User(id, "хто_я#" + id, None, now)
  }

  /** `requestUser`: the backend's user, or the stand-in. */
  function RequestUser(id: string, fetched: Return<User>, now: int): (u: User)
    ensures fetched.Ok? ==> u == fetched.value
    ensures fetched.Fail? ==> u == Placeholder(id, now)
  {
    match fetched
    case Ok(u) => u
    case Fail(_, _) => Placeholder(id, now)
  }

  datatype Answer = Answer(repo: UserRepo, user: User, requested: bool)

  /** `getUserById`: ask the backend only on a miss, cache whatever comes back
      (a stand-in included), and always answer with a user. */
  function GetUserById(repo: UserRepo, id: string, fetched: Return<User>, now: int): (r: Answer)
    ensures r.requested <==> id !in repo.users
    ensures id in r.repo.users && r.user == r.repo.users[id]
    ensures id in repo.users ==> r.repo == repo
    ensures id !in repo.users ==> r.repo.users == repo.users[id := RequestUser(id, fetched, now)]
  {
    if id in repo.users then Answer(repo, repo.users[id], false)
    else
      var u := RequestUser(id, fetched, now);
      Answer(UserRepo(repo.users[id := u]), u, true)
  }

  /** `getCurrentUser`: the signed-in user's entry (`""` when signed out). */
  function GetCurrentUser(repo: UserRepo, currentUserId: string, fetched: Return<User>, now: int): (r: Answer)
    ensures r.requested <==> currentUserId !in repo.users
    ensures currentUserId in r.repo.users && r.user == r.repo.users[currentUserId]
  {
    GetUserById(repo, currentUserId, fetched, now)
  }

  /** At most one request per id: once an id has been asked for, later calls
      answer from the cache, whatever the backend or the clock would say. */
  lemma RequestedAtMostOnce(repo: UserRepo, id: string, f1: Return<User>, f2: Return<User>, t1: int, t2: int)
    ensures var first := GetUserById(repo, id, f1, t1);
      var second := GetUserById(first.repo, id, f2, t2);
      !second.requested && second.user == first.user && second.repo == first.repo
  {
  }

  /** A failed request answers with the stand-in for that id. */
  lemma FailureGivesPlaceholder(repo: UserRepo, id: string, f: Return<User>, now: int)
    requires id !in repo.users && f.Fail?
    ensures GetUserById(repo, id, f, now).user.id == id
    ensures GetUserById(repo, id, f, now).user.name == "хто_я#" + id
  {
  }
}

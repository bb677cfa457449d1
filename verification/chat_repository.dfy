/** The chat repository (data/chat/impl/ChatRepositoryImpl.kt).

    On top of the chat store it keeps, per chat id, the members list and the
    message list fetched from the backend, and the log of chats announced on
    the "messages changed" stream. Backend answers, confirmation streams from
    the socket, the user directory and the clock are inputs; an answer the
    code would only ask for when a cache misses is ignored on a hit, and the
    result says whether the backend was asked.
 */
module ChatRepository {
  import opened Wrappers
  import opened Domain
  import opened ApiCaller
  import opened FlowKtx
  import ChatCache
  import Socket

  datatype Repo = Repo(
    cache: ChatCache.Cache,
    members: map<string, seq<User>>,
    messages: map<string, seq<Message>>,
    messagesChanged: seq<Chat>)

  /** The state right after construction. */
  function Initial(): (r: Repo)
    ensures r.cache == ChatCache.Empty() && r.members == map[] && r.messages == map[]
    ensures r.messagesChanged == []
  {
    Repo(ChatCache.Empty(), map[], map[], [])
  }

  /** The answer of a call that may or may not have reached the backend. */
  datatype Fetched<T> = Fetched(repo: Repo, value: T, requested: bool)

  // ---------------------------------------------------------------- syncing

  /** The syncing action registered at construction: replace the chat store
      with the backend's list when it arrives, forget every message list, and
      report success in every case. */
  function SyncAction(repo: Repo, remote: Return<seq<Chat>>): (r: (Repo, bool))
    ensures r.1
    ensures remote.Ok? ==> r.0.cache == ChatCache.SetList(repo.cache, remote.value)
    ensures remote.Fail? ==> r.0.cache == repo.cache
    ensures r.0.messages == map[]
    ensures r.0.members == repo.members && r.0.messagesChanged == repo.messagesChanged
  {
    var cache := if remote.Ok? then ChatCache.SetList(repo.cache, remote.value) else repo.cache;
    (repo.(cache := cache, messages := map[]), true)
  }

  // ---------------------------------------------------------- live messages

  /** A message relayed by the socket: for a chat in the store, make it the
      chat's last message, append it to the chat's message list when one is
      cached, and announce the chat as it was before the update. A message for
      an unknown chat is dropped. */
  function OnMessage(repo: Repo, msg: Message): (r: Repo)
    ensures msg.chatId !in repo.cache.chats ==> r == repo
    ensures msg.chatId in repo.cache.chats ==>
      var chat := repo.cache.chats[msg.chatId];
      && r.cache == ChatCache.UpdateOne(repo.cache, chat.(lastMessage := Some(msg)))
      && r.messagesChanged == repo.messagesChanged + [chat]
      && r.members == repo.members
      && r.messages.Keys == repo.messages.Keys
      && (chat.id in repo.messages ==> r.messages[chat.id] == repo.messages[chat.id] + [msg])
      && (forall id :: id in repo.messages && id != chat.id ==> r.messages[id] == repo.messages[id])
  {
    match ChatCache.FindById(repo.cache, msg.chatId)
    case None => repo
    case Some(chat) =>
      var messages := if chat.id in repo.messages
        then repo.messages[chat.id := repo.messages[chat.id] + [msg]]
        else repo.messages;
      Repo(ChatCache.UpdateOne(repo.cache, chat.(lastMessage := Some(msg))),
           repo.members, messages, repo.messagesChanged + [chat])
  }

  // ---------------------------------------------------------- chat ordering

  /** The sort key of `getChatsList`: the last message's time, or the current
      time for a chat without messages. */
  function SortKey(c: Chat, now: int): (k: int)
    ensures c.lastMessage.Some? ==> k == c.lastMessage.value.sentTime
    ensures c.lastMessage.None? ==> k == now
  {
    match c.lastMessage
    case Some(m) => m.sentTime
    case None => now
  }

  predicate SortedDescending(xs: seq<Chat>, now: int) {
    forall i, j :: 0 <= i < j < |xs| ==> SortKey(xs[i], now) >= SortKey(xs[j], now)
  }

  /** Insert `x` before the first element whose key it reaches. */
  function Insert(x: Chat, xs: seq<Chat>, now: int): (r: seq<Chat>)
    requires SortedDescending(xs, now)
    ensures SortedDescending(r, now)
    ensures multiset(r) == multiset(xs) + multiset{x}
    ensures |r| > 0 && (r[0] == x || (|xs| > 0 && r[0] == xs[0]))
    decreases |xs|
  {
    if |xs| == 0 then [x]
    else if SortKey(x, now) >= SortKey(xs[0], now) then [x] + xs
    else
      var rest := Insert(x, xs[1..], now);
      assert xs == [xs[0]] + xs[1..];
      assert SortKey(xs[0], now) >= SortKey(rest[0], now);
      [xs[0]] + rest
  }

  /** `sortedByDescending`, as an insertion sort. */
  function SortDescending(xs: seq<Chat>, now: int): (r: seq<Chat>)
    ensures SortedDescending(r, now)
    ensures multiset(r) == multiset(xs)
    decreases |xs|
  {
    if |xs| == 0 then []
    else
      assert xs == [xs[0]] + xs[1..];
      Insert(xs[0], SortDescending(xs[1..], now), now)
  }

  /** A chat that occurs once in a list occurs once in any rearrangement of it. */
  lemma {:induction false} DistinctCount(xs: seq<Chat>, x: Chat)
    requires ChatCache.Distinct(xs)
    ensures multiset(xs)[x] <= 1
    decreases |xs|
  {
    if |xs| > 0 {
      var init := xs[..|xs| - 1];
      assert xs == init + [xs[|xs| - 1]];
      assert ChatCache.Distinct(init) by {
        forall i, j | 0 <= i < j < |init| ensures init[i] != init[j] {
          assert init[i] == xs[i] && init[j] == xs[j];
        }
      }
      DistinctCount(init, x);
      if xs[|xs| - 1] == x {
        assert x !in init by {
          forall i | 0 <= i < |init| ensures init[i] != x {
            assert init[i] == xs[i];
          }
        }
      }
    }
  }

  lemma DistinctPermutation(xs: seq<Chat>, ys: seq<Chat>)
    requires ChatCache.Distinct(xs) && multiset(ys) == multiset(xs)
    ensures ChatCache.Distinct(ys)
  {
    forall i, j | 0 <= i < j < |ys| ensures ys[i] != ys[j] {
      if ys[i] == ys[j] {
        assert ys == ys[..j] + ys[j..];
        assert ys[i] in multiset(ys[..j]) by { assert ys[..j][i] == ys[i]; }
        assert ys[j] in multiset(ys[j..]) by { assert ys[j..][0] == ys[j]; }
        assert multiset(ys)[ys[i]] == multiset(ys[..j])[ys[i]] + multiset(ys[j..])[ys[i]];
        DistinctCount(xs, ys[i]);
        assert false;
      }
    }
  }

  /** `getChatsList`: every cached chat exactly once, newest activity first. */
  method GetChatsList(repo: Repo, now: int) returns (r: seq<Chat>)
    ensures SortedDescending(r, now)
    ensures |r| == |repo.cache.chats|
    ensures forall id :: id in repo.cache.chats ==> repo.cache.chats[id] in r
    ensures forall x :: x in r ==> x in repo.cache.chats.Values
    ensures ChatCache.Wf(repo.cache) ==> ChatCache.Distinct(r)
  {
    var list := ChatCache.GetList(repo.cache);
    r := SortDescending(list, now);
    if ChatCache.Wf(repo.cache) {
      DistinctPermutation(list, r);
    }
    assert |r| == |multiset(r)| == |multiset(list)| == |list|;
    assert forall x :: x in r <==> x in list by {
      forall x ensures x in r <==> x in list {
        assert x in r <==> x in multiset(r);
        assert x in list <==> x in multiset(list);
      }
    }
  }

  // ---------------------------------------------------------------- lookups

  /** `getChatById`. */
  function GetChatById(repo: Repo, id: string): (r: Option<Chat>)
    ensures r.Some? <==> id in repo.cache.chats
    ensures r.Some? ==> r.value == repo.cache.chats[id]
  {
    ChatCache.FindById(repo.cache, id)
  }

  /** `isUserAMemberOfTheChat`: the chat is in the store. */
  function IsUserAMemberOfTheChat(repo: Repo, id: string): (r: bool)
    ensures r <==> GetChatById(repo, id).Some?
    ensures r <==> id in repo.cache.chats
  {
    id in repo.cache.chats
  }

  /** `getChatMembers`: a cached list answers without asking; otherwise the
      backend's answer is cached when it succeeds, and a failure answers with
      the empty list and caches nothing. */
  function GetChatMembers(repo: Repo, id: string, remote: Return<seq<User>>): (r: Fetched<seq<User>>)
    ensures r.requested <==> id !in repo.members
    ensures id in repo.members ==> r.repo == repo && r.value == repo.members[id]
    ensures id !in repo.members && remote.Ok? ==>
      r.repo == repo.(members := repo.members[id := remote.value]) && r.value == remote.value
    ensures id !in repo.members && remote.Fail? ==> r.repo == repo && r.value == []
  {
    if id in repo.members then Fetched(repo, repo.members[id], false)
    else if remote.Ok? then Fetched(repo.(members := repo.members[id := remote.value]), remote.value, true)
    else Fetched(repo, [], true)
  }

  /** Every message of a fetched list has a known sender. */
  predicate SendersKnown(dtos: seq<MessageDto>, lookup: UserLookup) {
    forall i :: 0 <= i < |dtos| ==> SenderKnown(dtos[i], lookup)
  }

  /** `map { it.toMessage(userRepository) }`. */
  function ToMessages(dtos: seq<MessageDto>, lookup: UserLookup): (r: seq<Message>)
    requires SendersKnown(dtos, lookup)
    ensures |r| == |dtos|
    ensures forall i :: 0 <= i < |dtos| ==> r[i] == ToMessage(dtos[i], lookup)
    decreases |dtos|
  {
    if |dtos| == 0 then []
    else [ToMessage(dtos[0], lookup)] + ToMessages(dtos[1..], lookup)
  }

  /** `fetchMessages`: the converted list, or the empty list on any failure. */
  function FetchMessages(ret: Return<seq<MessageDto>>, lookup: UserLookup): (r: seq<Message>)
    requires ret.Ok? ==> SendersKnown(ret.value, lookup)
    ensures ret.Fail? ==> r == []
    ensures ret.Ok? ==> r == ToMessages(ret.value, lookup)
  {
    if ret.Ok? then ToMessages(ret.value, lookup) else []
  }

  function Reverse<T>(s: seq<T>): (r: seq<T>)
    ensures |r| == |s|
    ensures forall i :: 0 <= i < |s| ==> r[i] == s[|s| - 1 - i]
    decreases |s|
  {
    if |s| == 0 then [] else Reverse(s[1..]) + [s[0]]
  }

  lemma ReverseReverse<T>(s: seq<T>)
    ensures Reverse(Reverse(s)) == s
  {
  }

  /** `getMessages`: fetch once per chat id (a failed fetch caches the empty
      list) and answer with the stored list reversed, most recently added first. */
  function GetMessages(repo: Repo, id: string, fetched: Return<seq<MessageDto>>, lookup: UserLookup): (r: Fetched<seq<Message>>)
    requires id !in repo.messages && fetched.Ok? ==> SendersKnown(fetched.value, lookup)
    ensures r.requested <==> id !in repo.messages
    ensures id in repo.messages ==> r.repo == repo
    ensures id !in repo.messages ==>
      r.repo == repo.(messages := repo.messages[id := FetchMessages(fetched, lookup)])
    ensures id in r.repo.messages && Reverse(r.value) == r.repo.messages[id]
  {
    var stored := if id in repo.messages then repo.messages[id] else FetchMessages(fetched, lookup);
    ReverseReverse(stored);
    Fetched(repo.(messages := repo.messages[id := stored]), Reverse(stored), id !in repo.messages)
  }

  /** Fetch-once: right after `getMessages`, a second call asks nothing, whatever
      the backend would say, and answers the same list. */
  lemma MessagesFetchedOnce(repo: Repo, id: string, f1: Return<seq<MessageDto>>, f2: Return<seq<MessageDto>>, lookup: UserLookup)
    requires id !in repo.messages && f1.Ok? ==> SendersKnown(f1.value, lookup)
    ensures var first := GetMessages(repo, id, f1, lookup);
      var second := GetMessages(first.repo, id, f2, lookup);
      !second.requested && second.repo == first.repo && second.value == first.value
  {
    var first := GetMessages(repo, id, f1, lookup);
    ReverseReverse(first.value);
  }

  /** A failed members fetch is retried by the next call, and a successful one
      is not. */
  lemma MembersFailureRetried(repo: Repo, id: string, r1: Return<seq<User>>, r2: Return<seq<User>>)
    requires id !in repo.members
    ensures GetChatMembers(GetChatMembers(repo, id, r1).repo, id, r2).requested <==> r1.Fail?
  {
  }

  /** A live message for a chat whose messages are cached shows up first in the
      next `getMessages`, and becomes the chat's last message. */
  lemma LiveMessageShownFirst(repo: Repo, msg: Message, fetched: Return<seq<MessageDto>>, lookup: UserLookup)
    requires ChatCache.Wf(repo.cache)
    requires msg.chatId in repo.cache.chats && msg.chatId in repo.messages
    ensures var after := OnMessage(repo, msg);
      var shown := GetMessages(after, msg.chatId, fetched, lookup);
      !shown.requested && |shown.value| > 0 && shown.value[0] == msg
      && GetChatById(after, msg.chatId).value.lastMessage == Some(msg)
  {
  }

  // ---------------------------------------------------------------- actions

  /** `sendMessage`: hand the text to the socket. */
  function SendMessage(sock: Socket.Service, userId: string, chatId: string, text: string, now: int): (r: Socket.Service)
    ensures sock.socket.Some? ==> |r.emitted| == |sock.emitted| + 1 && r.emitted[|sock.emitted|].event == "newMessage"
    ensures sock.socket.Some? ==> "text" in r.emitted[|sock.emitted|].payload && r.emitted[|sock.emitted|].payload["text"] == Socket.Str(text)
    ensures sock.socket.None? ==> r == sock
  {
    Socket.Send(sock, userId, chatId, text, now)
  }

  /** `removeChat`: forget the members, the messages and the store entry. */
  function RemoveChat(repo: Repo, id: string): (r: Repo)
    ensures id !in r.members && id !in r.messages && id !in r.cache.chats
    ensures r.members == repo.members - {id} && r.messages == repo.messages - {id}
    ensures r.cache == ChatCache.Remove(repo.cache, id)
    ensures r.messagesChanged == repo.messagesChanged
  {
    repo.(members := repo.members - {id}, messages := repo.messages - {id},
          cache := ChatCache.Remove(repo.cache, id))
  }

  /** The state after a socket request that waits for a confirmation, and how
      many confirmation events the wait consumed. */
  datatype Confirmed<T> = Confirmed(repo: Repo, sock: Socket.Service, value: T, consumed: nat)

  /** `createChat(name)`: ask the socket to create the room, take the first id
      the server announces, fetch that chat's details and store them when the
      fetch succeeds. The wait never ends without an announcement. */
  function CreateChat(repo: Repo, sock: Socket.Service, userId: string, name: string,
                      created: seq<string>, details: Return<Chat>): (r: Confirmed<string>)
    requires |created| > 0
    ensures r.sock == Socket.CreateChat(sock, userId, name)
    ensures r.value == created[0] && r.consumed == 1
    ensures details.Ok? ==> r.repo == repo.(cache := ChatCache.UpdateOne(repo.cache, details.value))
    ensures details.Fail? ==> r.repo == repo
  {
    var w := WaitForAny(created);
    var repo' := if details.Ok? then repo.(cache := ChatCache.UpdateOne(repo.cache, details.value)) else repo;
    Confirmed(repo', Socket.CreateChat(sock, userId, name), w.value, w.index + 1)
  }

  /** `joinChat(id)`: ask the socket to join and wait until the server confirms
      this very id. The store is not touched. */
  function JoinChat(repo: Repo, sock: Socket.Service, userId: string, id: string, joined: seq<string>): (r: Confirmed<()>)
    requires id in joined
    ensures r.repo == repo
    ensures r.sock == Socket.JoinChat(sock, userId, id)
    ensures 0 < r.consumed <= |joined| && joined[r.consumed - 1] == id
    ensures id !in joined[..r.consumed - 1]
  {
    var w := WaitForValue(joined, id);
    Confirmed(repo, Socket.JoinChat(sock, userId, id), (), w.index + 1)
  }

  /** `leaveChat(id)`: ask the socket to leave, wait until the server confirms
      this very id, then forget everything about the chat. */
  function LeaveChat(repo: Repo, sock: Socket.Service, userId: string, id: string, left: seq<string>): (r: Confirmed<()>)
    requires id in left
    ensures r.repo == RemoveChat(repo, id)
    ensures r.sock == Socket.LeaveChat(sock, userId, id)
    ensures 0 < r.consumed <= |left| && left[r.consumed - 1] == id
    ensures id !in left[..r.consumed - 1]
  {
    var w := WaitForValue(left, id);
    Confirmed(RemoveChat(repo, id), Socket.LeaveChat(sock, userId, id), (), w.index + 1)
  }

  /** After leaving, the chat is neither a member chat nor cached anywhere. */
  lemma LeaveChatPurges(repo: Repo, sock: Socket.Service, userId: string, id: string, left: seq<string>)
    requires id in left
    ensures var r := LeaveChat(repo, sock, userId, id, left).repo;
      !IsUserAMemberOfTheChat(r, id) && id !in r.members && id !in r.messages
  {
  }

  /** `toggleNotifications(id, enabled)`: the mute or unmute request runs
      unprotected, so a failure propagates and nothing changes; on success a
      cached chat gets `isMuted = !enabled` and an absent chat is left absent. */
  function ToggleNotifications(repo: Repo, id: string, enabled: bool, call: Call<()>): (r: Call<Repo>)
    ensures r.Returns? <==> call.Returns?
    ensures call.ThrowsHttp? ==> r == ThrowsHttp(call.body)
    ensures call.ThrowsIo? ==> r == ThrowsIo
    ensures call.ThrowsOther? ==> r == ThrowsOther
    ensures call.Returns? && id !in repo.cache.chats ==> r.value == repo
    ensures call.Returns? && id in repo.cache.chats ==>
      r.value == repo.(cache := ChatCache.UpdateOne(repo.cache, repo.cache.chats[id].(isMuted := !enabled)))
  {
    match UnsafeApiCall(call)
    case Returns(_) =>
      (match ChatCache.FindById(repo.cache, id)
       case None => Returns(repo)
       case Some(chat) => Returns(repo.(cache := ChatCache.UpdateOne(repo.cache, chat.(isMuted := !enabled)))))
    case ThrowsHttp(b) => ThrowsHttp(b)
    case ThrowsIo => ThrowsIo
    case ThrowsOther => ThrowsOther
  }

  /** A successful toggle on a cached chat is seen by the next lookup, with the
      chat otherwise unchanged. */
  lemma ToggleSeenByLookup(repo: Repo, id: string, enabled: bool)
    requires ChatCache.Wf(repo.cache) && id in repo.cache.chats
    ensures var r := ToggleNotifications(repo, id, enabled, Returns(()));
      && GetChatById(r.value, id) == Some(repo.cache.chats[id].(isMuted := !enabled))
      && GetChatById(r.value, id).value.isMuted != enabled
  {
  }
}

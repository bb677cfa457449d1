/** The backend-facing chat source (data/chat/impl/RemoteChatDSImpl.kt).

    Each operation takes the classified answer of its backend call and either
    converts the transfer objects or passes the failure on as it is. The user
    directory is the lookup the conversions consult.
 */
module RemoteChat {
  import opened Wrappers
  import opened Domain

  /** `unknownUser(id)`: the stand-in for a member the directory cannot name. */
  function UnknownUser(id: string): (u: User)
    ensures u.id == id && u.name == "хтоя#" + id && u.avatar == None && u.lastActivity == 0
  {
    User(id, "хтоя#" + id, None, 0)
  }

  /** `MemberDto.toUser()`: the directory's user, or the stand-in. */
  function MemberToUser(m: MemberDto, lookup: UserLookup): (u: User)
    ensures lookup(m.userId).Some? ==> u == lookup(m.userId).value
    ensures lookup(m.userId).None? ==> u == UnknownUser(m.userId)
    ensures u.id == m.userId || lookup(m.userId).Some?
  {
    lookup(m.userId).GetOr(UnknownUser(m.userId))
  }

  predicate ChatSendersKnown(dtos: seq<ChatDto>, lookup: UserLookup) {
    forall i :: 0 <= i < |dtos| ==> LastMessageSenderKnown(dtos[i], lookup)
  }

  function ToChats(dtos: seq<ChatDto>, lookup: UserLookup): (r: seq<Chat>)
    requires ChatSendersKnown(dtos, lookup)
    ensures |r| == |dtos|
    ensures forall i :: 0 <= i < |dtos| ==> r[i] == ToChat(dtos[i], lookup)
    decreases |dtos|
  {
    if |dtos| == 0 then [] else [ToChat(dtos[0], lookup)] + ToChats(dtos[1..], lookup)
  }

  function ToUsers(members: seq<MemberDto>, lookup: UserLookup): (r: seq<User>)
    ensures |r| == |members|
    ensures forall i :: 0 <= i < |members| ==> r[i] == MemberToUser(members[i], lookup)
    decreases |members|
  {
    if |members| == 0 then [] else [MemberToUser(members[0], lookup)] + ToUsers(members[1..], lookup)
  }

  /** `getById`. */
  function GetById(ret: Return<ChatDto>, lookup: UserLookup): (r: Return<Chat>)
    requires ret.Ok? ==> LastMessageSenderKnown(ret.value, lookup)
    ensures ret.Ok? ==> r == Return.Ok(ToChat(ret.value, lookup))
    ensures ret.Fail? ==> r == Fail(ret.message, ret.failCode)
  {
    match ret
    case Ok(dto) => Return.Ok(ToChat(dto, lookup))
    case Fail(m, c) => Fail(m, c)
  }

  /** `getChatsList`: one chat per transfer object, in the same order. */
  function GetChatsList(ret: Return<seq<ChatDto>>, lookup: UserLookup): (r: Return<seq<Chat>>)
    requires ret.Ok? ==> ChatSendersKnown(ret.value, lookup)
    ensures ret.Ok? ==> r.Ok? && r.value == ToChats(ret.value, lookup)
    ensures ret.Fail? ==> r == Fail(ret.message, ret.failCode)
  {
    match ret
    case Ok(dtos) => Return.Ok(ToChats(dtos, lookup))
    case Fail(m, c) => Fail(m, c)
  }

  /** `getChatMembers`: one user per member, in the same order. */
  function GetChatMembers(ret: Return<seq<MemberDto>>, lookup: UserLookup): (r: Return<seq<User>>)
    ensures ret.Ok? ==> r.Ok? && r.value == ToUsers(ret.value, lookup)
    ensures ret.Fail? ==> r == Fail(ret.message, ret.failCode)
  {
    match ret
    case Ok(ms) => Return.Ok(ToUsers(ms, lookup))
    case Fail(m, c) => Fail(m, c)
  }

  /** The three operations agree with the result code of the call they wrap. */
  lemma CodesPassThrough(chat: Return<ChatDto>, chats: Return<seq<ChatDto>>, members: Return<seq<MemberDto>>, lookup: UserLookup)
    requires chat.Ok? ==> LastMessageSenderKnown(chat.value, lookup)
    requires chats.Ok? ==> ChatSendersKnown(chats.value, lookup)
    ensures GetById(chat, lookup).Code() == chat.Code()
    ensures GetChatsList(chats, lookup).Code() == chats.Code()
    ensures GetChatMembers(members, lookup).Code() == members.Code()
  {
  }

  /** Chat ids survive the conversion of a list, position by position. */
  lemma ChatIdsPreserved(dtos: seq<ChatDto>, lookup: UserLookup)
    requires ChatSendersKnown(dtos, lookup)
    ensures forall i :: 0 <= i < |dtos| ==> ToChats(dtos, lookup)[i].id == dtos[i].id
  {
  }

  /** Every member keeps its id when the directory returns users under the id
      asked for. */
  lemma MemberIdsPreserved(members: seq<MemberDto>, lookup: UserLookup)
    requires forall id :: lookup(id).Some? ==> lookup(id).value.id == id
    ensures forall i :: 0 <= i < |members| ==> ToUsers(members, lookup)[i].id == members[i].userId
  {
  }
}

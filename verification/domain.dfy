/** The data classes of the backend API and of the chat domain
    (api/BackendService.kt, data/chat/ChatRepository.kt) and the conversions
    from the API's transfer objects to domain values.

    Timestamps and lifetimes are Kotlin `Long` milliseconds, modelled as
    unbounded integers.
 */
module Domain {
  import opened Wrappers

  datatype User = User(id: string, name: string, avatar: Option<string>, lastActivity: int)

  datatype MessageState = NoState | Pending | Sent

  datatype Message = Message(
    chatId: string,
    from: User,
    content: string,
    sentTime: int,
    state: MessageState)

  /** Fields as declared in data/chat/ChatRepository.kt; conversions match
      them by name. */
  datatype Chat = Chat(
    id: string,
    avatar: Option<string>,
    title: string,
    lastMessage: Option<Message>,
    isMuted: bool,
    isPinned: bool,
    membersCount: int)

  /** Tokens and their expiry instants; `userId` is absent in refresh responses. */
  datatype AuthData = AuthData(
    userId: Option<string>,
    accessToken: string,
    accessTokenExp: int,
    refreshToken: string,
    refreshTokenExp: int)

  datatype SignInDto = SignInDto(username: string, password: string, rememberMe: bool, authStrategy: string)

  datatype SignUpDto = SignUpDto(email: string, username: string, password: string)

  datatype MessageDto = MessageDto(userId: string, chatId: Option<string>, content: Option<string>, sentTime: int)

  datatype ChatDto = ChatDto(
    id: string,
    avatar: Option<string>,
    title: string,
    lastMessageDto: Option<MessageDto>,
    membersCount: int,
    isMuted: bool,
    isPinned: bool)

  datatype MemberDto = MemberDto(userId: string, role: int)

  /** The user directory consulted by the conversions (`UserRepository.getUserById`),
      whose declared result is nullable. */
  type UserLookup = string -> Option<User>

  /** `SignInDto(username, password)` with the declared defaults. */
  function NewSignInDto(username: string, password: string): (d: SignInDto)
    ensures d.username == username && d.password == password
    ensures d.rememberMe && d.authStrategy == "jwt"
  {
    SignInDto(username, password, true, "jwt")
  }

  /** `remainingLifetime`: milliseconds until the access token expires, never negative. */
  function RemainingLifetime(d: AuthData, now: int): (r: int)
    ensures r >= 0 && r >= d.accessTokenExp - now
    ensures r == 0 || r == d.accessTokenExp - now
  {
    if d.accessTokenExp - now > 0 then d.accessTokenExp - now else 0
  }

  /** `isTokenAlive`: some lifetime remains. */
  predicate IsTokenAlive(d: AuthData, now: int) {
    RemainingLifetime(d, now) > 0
  }

  /** The token is alive exactly while its expiry lies in the future. */
  lemma TokenAliveIff(d: AuthData, now: int)
    ensures IsTokenAlive(d, now) <==> d.accessTokenExp > now
    ensures !IsTokenAlive(d, now) <==> RemainingLifetime(d, now) == 0
  {
  }

  /** The sender of a message can be resolved (the code dereferences the lookup
      with `!!`, which throws on null). */
  predicate SenderKnown(dto: MessageDto, lookup: UserLookup) {
    lookup(dto.userId).Some?
  }

  /** `MessageDto.toMessage`. */
  function ToMessage(dto: MessageDto, lookup: UserLookup): (m: Message)
    requires SenderKnown(dto, lookup)
    ensures m.chatId == dto.chatId.GetOr("") && m.content == dto.content.GetOr("")
    ensures m.sentTime == dto.sentTime
    ensures Some(m.from) == lookup(dto.userId)
    ensures m.state == NoState
  {
    Message(dto.chatId.GetOr(""), lookup(dto.userId).value, dto.content.GetOr(""), dto.sentTime, NoState)
  }

  predicate LastMessageSenderKnown(dto: ChatDto, lookup: UserLookup) {
    dto.lastMessageDto.Some? ==> SenderKnown(dto.lastMessageDto.value, lookup)
  }

  /** `ChatDto.toChat`, fields matched by name. */
  function ToChat(dto: ChatDto, lookup: UserLookup): (c: Chat)
    requires LastMessageSenderKnown(dto, lookup)
    ensures c.id == dto.id && c.avatar == dto.avatar && c.title == dto.title
    ensures c.membersCount == dto.membersCount
    ensures c.isMuted == dto.isMuted && c.isPinned == dto.isPinned
    ensures c.lastMessage.Some? <==> dto.lastMessageDto.Some?
    ensures c.lastMessage.Some? ==> c.lastMessage.value == ToMessage(dto.lastMessageDto.value, lookup)
  {
    var last := match dto.lastMessageDto
      case Some(m) => Some(ToMessage(m, lookup))
      case None => None;
    Chat(dto.id, dto.avatar, dto.title, last, dto.isMuted, dto.isPinned, dto.membersCount)
  }
}

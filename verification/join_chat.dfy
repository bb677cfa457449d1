/** The invitation screen (ui/joinchat/JoinChatViewModel.kt).

    Opening an invitation link asks the chat repository whether the user is
    already a member and, if not, for the chat itself; the screen then shows
    the chat or an error. Joining and cancelling are recorded as effects: the
    repository's join request and the two navigations.
 */
module JoinChatScreen {
  import opened Wrappers
  import opened Domain
  import ChatRepository

  const AlreadyMemberText: string := "Вы уже состоите в этом чате"
  const UnknownChatText: string := "Вас пригласили в несуществующий чат"

  /** `JoinScreenUiState`. */
  datatype UiState =
    | Loading
    | Error(msg: string)
    | Data(chatId: string, chatName: string, avatar: Option<string>, membersCount: int, isJoining: bool)

  datatype Effect = JoinRequested(chatId: string) | NavToChat(chatId: string) | NavHome

  datatype Screen = Screen(chatId: string, uiState: UiState, effects: seq<Effect>)

  /** Before the first answer arrives. */
  function Initial(chatId: string): (s: Screen)
    ensures s.uiState.Loading? && s.effects == [] && s.chatId == chatId
  {
    Screen(chatId, Loading, [])
  }

  /** The state `init` writes from the membership answer and, for a
      non-member, the chat lookup (which a member never makes). */
  function Opened(isMember: bool, found: Option<Chat>): (u: UiState)
    ensures isMember ==> u == Error(AlreadyMemberText)
    ensures !isMember && found.None? ==> u == Error(UnknownChatText)
    ensures !isMember && found.Some? ==>
      u == Data(found.value.id, found.value.title, found.value.avatar, found.value.membersCount, false)
    ensures u.Data? <==> !isMember && found.Some?
  {
    if isMember then Error(AlreadyMemberText)
    else match found
      case None => Error(UnknownChatText)
      case Some(chat) => Data(chat.id, chat.title, chat.avatar, chat.membersCount, false)
  }

  /** `joinChat()`: only an invitation on screen can be accepted; it is marked
      as joining and the join is requested for the screen's chat id. `joined`
      holds the confirmations the socket delivers afterwards: the repository
      waits for this id on a stream that never completes, so the screen
      navigates to the chat only once the confirmation arrives, and without it
      stays joining for good. */
  function JoinChat(s: Screen, joined: seq<string>): (r: Screen)
    ensures !s.uiState.Data? ==> r == s
    ensures s.uiState.Data? ==>
      && r.uiState == s.uiState.(isJoining := true)
      && r.effects == s.effects + [JoinRequested(s.chatId)] + (if s.chatId in joined then [NavToChat(s.chatId)] else [])
      && r.chatId == s.chatId
  {
    if s.uiState.Data? then
      var navigation := if s.chatId in joined then [NavToChat(s.chatId)] else [];
      s.(uiState := s.uiState.(isJoining := true),
         effects := s.effects + [JoinRequested(s.chatId)] + navigation)
    else s
  }

  /** `cancelInvite()`: navigate home, nothing else. */
  function CancelInvite(s: Screen): (r: Screen)
    ensures r.effects == s.effects + [NavHome]
    ensures r.uiState == s.uiState && r.chatId == s.chatId
  {
    s.(effects := s.effects + [NavHome])
  }

  /** An error screen can only be left by cancelling: accepting does nothing. */
  lemma ErrorScreenIgnoresJoin(s: Screen, joined: seq<string>)
    requires s.uiState.Error?
    ensures JoinChat(s, joined) == s
    ensures JoinChat(CancelInvite(s), joined).effects == s.effects + [NavHome]
  {
  }

  /** Accepting twice requests the join twice: the screen does not guard
      against a second press while the first join is under way. */
  lemma SecondPressJoinsAgain(s: Screen, joined: seq<string>)
    requires s.uiState.Data? && s.chatId in joined
    ensures JoinChat(JoinChat(s, joined), joined).effects ==
      s.effects + [JoinRequested(s.chatId), NavToChat(s.chatId), JoinRequested(s.chatId), NavToChat(s.chatId)]
  {
  }

  /** Opening the screen against the chat repository as written: both
      questions are answered from the same local store. */
  function OpenFromRepository(repo: ChatRepository.Repo, chatId: string): (s: Screen)
    ensures s.chatId == chatId && s.effects == []
    ensures ChatRepository.IsUserAMemberOfTheChat(repo, chatId) ==> s.uiState == Error(AlreadyMemberText)
  {
    var member := ChatRepository.IsUserAMemberOfTheChat(repo, chatId);
    var found := if member then None else ChatRepository.GetChatById(repo, chatId);
    Screen(chatId, Opened(member, found), [])
  }

  /** As written the invitation is never shown: a chat the store lacks is not
      a member chat, and for the same reason the store cannot find it either,
      so a non-member always reads "invited to a chat that does not exist". */
  lemma InvitationNeverShown(repo: ChatRepository.Repo, chatId: string)
    ensures !OpenFromRepository(repo, chatId).uiState.Data?
    ensures !ChatRepository.IsUserAMemberOfTheChat(repo, chatId) ==>
      OpenFromRepository(repo, chatId).uiState == Error(UnknownChatText)
  {
  }

  /** Opening the screen with the lookup a non-member needs: a chat missing
      from the local store is asked of the backend (the chat source's
      `getById`), whose answer is an input. */
  function OpenWithRemoteLookup(repo: ChatRepository.Repo, chatId: string, remote: Return<Chat>): (s: Screen)
    ensures s.chatId == chatId && s.effects == []
    ensures ChatRepository.IsUserAMemberOfTheChat(repo, chatId) ==> s.uiState == Error(AlreadyMemberText)
    ensures !ChatRepository.IsUserAMemberOfTheChat(repo, chatId) ==>
      (s.uiState.Data? <==> remote.Ok?)
  {
    var member := ChatRepository.IsUserAMemberOfTheChat(repo, chatId);
    var found := if member then None else if remote.Ok? then Some(remote.value) else None;
    Screen(chatId, Opened(member, found), [])
  }

  /** With the remote lookup a non-member sees the invited chat, and accepting
      it requests the join and, once the server confirms, opens the chat. */
  lemma InvitationShownWithRemoteLookup(repo: ChatRepository.Repo, chatId: string, chat: Chat, joined: seq<string>)
    requires !ChatRepository.IsUserAMemberOfTheChat(repo, chatId) && chatId in joined
    ensures var s := OpenWithRemoteLookup(repo, chatId, Return.Ok(chat));
      && s.uiState == Data(chat.id, chat.title, chat.avatar, chat.membersCount, false)
      && JoinChat(s, joined).effects == [JoinRequested(chatId), NavToChat(chatId)]
      && JoinChat(s, joined).uiState.isJoining
  {
  }
}

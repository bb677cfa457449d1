/** The conversation screen (ui/chat/ChatViewModel.kt).

    The screen shows one chat's header and messages and holds the text being
    typed. The chat lookup and every message list come from the chat
    repository and are inputs here; sending hands trimmed text to the
    repository, recorded in order.
 */
module ChatScreen {
  import opened Wrappers
  import opened Text
  import opened Domain
  import ChatCache
  import ChatRepository

  const UnknownChatTitle: string := "unknown chat"

  /** `ChatUiState`. */
  datatype UiState = UiState(
    isLoading: bool,
    chatTitle: string,
    avatar: Option<string>,
    membersCount: int,
    messages: seq<Message>)

  datatype Screen = Screen(chatId: string, uiState: UiState, enteredMessage: string, sent: seq<string>)

  /** Before the lookup answers: loading, nothing to show. */
  function Initial(chatId: string): (s: Screen)
    ensures s.uiState.isLoading && s.uiState.chatTitle == [] && s.uiState.avatar.None?
    ensures s.uiState.membersCount == 0 && s.uiState.messages == []
    ensures s.chatId == chatId && s.enteredMessage == [] && s.sent == []
  {
    Screen(chatId, UiState(true, "", None, 0, []), "", [])
  }

  /** The states `init` writes, in order, given the chat lookup and the
      repository's messages for the chat (asked for only when it exists). */
  function Opened(found: Option<Chat>, messages: seq<Message>): (written: seq<UiState>)
    ensures found.None? ==> written == [UiState(false, UnknownChatTitle, None, 0, [])]
    ensures found.Some? ==>
      && |written| == 2
      && written[0] == UiState(true, found.value.title, found.value.avatar, found.value.membersCount, [])
      && written[1] == written[0].(isLoading := false, messages := messages)
    ensures !written[|written| - 1].isLoading
  {
    match found
    case None => [UiState(false, UnknownChatTitle, None, 0, [])]
    case Some(chat) =>
      var header := UiState(true, chat.title, chat.avatar, chat.membersCount, []);
      [header, header.(isLoading := false, messages := messages)]
  }

  /** The screen after `init` has run. */
  function Open(chatId: string, found: Option<Chat>, messages: seq<Message>): (s: Screen)
    ensures s.chatId == chatId && s.enteredMessage == [] && s.sent == [] && !s.uiState.isLoading
    ensures found.None? ==> s.uiState.chatTitle == UnknownChatTitle && s.uiState.messages == []
    ensures found.Some? ==> s.uiState.chatTitle == found.value.title && s.uiState.messages == messages
  {
    var written := Opened(found, messages);
    Initial(chatId).(uiState := written[|written| - 1])
  }

  /** A chat announced on the repository's "messages changed" stream: only
      this screen's chat reloads its messages; everything else stays. */
  function OnMessagesChanged(s: Screen, changed: Chat, messages: seq<Message>): (r: Screen)
    ensures changed.id != s.chatId ==> r == s
    ensures changed.id == s.chatId ==> r == s.(uiState := s.uiState.(messages := messages))
  {
    if changed.id == s.chatId then s.(uiState := s.uiState.(messages := messages)) else s
  }

  /** `updateEnteredMessage`: stored as typed. */
  function UpdateEnteredMessage(s: Screen, text: string): (r: Screen)
    ensures r.enteredMessage == text
    ensures r.(enteredMessage := s.enteredMessage) == s
  {
    s.(enteredMessage := text)
  }

  /** `sendMessage()`: text that is not blank is sent trimmed and the input is
      cleared; blank text is neither sent nor cleared. */
  function SendMessage(s: Screen): (r: Screen)
    ensures AllWhitespace(s.enteredMessage) ==> r == s
    ensures !AllWhitespace(s.enteredMessage) ==>
      && r == s.(enteredMessage := "", sent := s.sent + [Trim(s.enteredMessage)])
      && |Trim(s.enteredMessage)| > 0 && IsTrimmed(Trim(s.enteredMessage))
  {
    TrimEmptyIff(s.enteredMessage);
    var text := Trim(s.enteredMessage);
    if |text| > 0 then s.(enteredMessage := "", sent := s.sent + [text]) else s
  }

  /** Everything ever sent is non-empty and already trimmed. */
  predicate SentClean(s: Screen) {
    forall i :: 0 <= i < |s.sent| ==> |s.sent[i]| > 0 && IsTrimmed(s.sent[i])
  }

  /** Typing and sending keep the sent log clean. */
  lemma SendKeepsLogClean(s: Screen, text: string)
    requires SentClean(s)
    ensures SentClean(UpdateEnteredMessage(s, text))
    ensures SentClean(SendMessage(UpdateEnteredMessage(s, text)))
  {
  }

  /** A second send right after a successful one sends nothing: the input was
      cleared. */
  lemma NoDoubleSend(s: Screen)
    requires !AllWhitespace(s.enteredMessage)
    ensures SendMessage(SendMessage(s)) == SendMessage(s)
    ensures |SendMessage(s).sent| == |s.sent| + 1
  {
    assert AllWhitespace(SendMessage(s).enteredMessage);
  }

  /** A live message makes the repository announce its chat, and only the
      screen showing that chat reloads. */
  lemma LiveMessageRefreshesItsScreen(repo: ChatRepository.Repo, msg: Message, s: Screen, messages: seq<Message>)
    requires ChatCache.Wf(repo.cache) && msg.chatId in repo.cache.chats
    ensures var after := ChatRepository.OnMessage(repo, msg);
      var announced := after.messagesChanged[|after.messagesChanged| - 1];
      && (s.chatId == msg.chatId ==> OnMessagesChanged(s, announced, messages).uiState.messages == messages)
      && (s.chatId != msg.chatId ==> OnMessagesChanged(s, announced, messages) == s)
  {
  }
}

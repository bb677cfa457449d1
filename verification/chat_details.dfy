/** The chat details screen (ui/chatdetails/ChatDetailsViewModel.kt).

    The screen shows a chat's name and members and a notifications switch.
    Details are read from the chat repository when the screen opens and again
    for each change event about this chat (or about no chat in particular).
    The switch is debounced: a flip replaces any request still waiting, and a
    waiting request is sent to the repository when its delay ends.
 */
module ChatDetailsScreen {
  import opened Wrappers
  import opened Domain
  import ChatRepository
  import ChatCache
  import ApiCaller

  /** `ChatDetailsUiState`. */
  datatype UiState = UiState(chatId: string, chatName: string, members: seq<User>)

  datatype Details = Details(
    chatId: string,
    uiState: UiState,
    isNotificationsEnabled: bool,
    pending: Option<bool>,
    sent: seq<bool>)

  /** Before the details arrive: the id only, notifications shown off. */
  function Initial(chatId: string): (d: Details)
    ensures d.uiState == UiState(chatId, "", [])
    ensures !d.isNotificationsEnabled && d.pending.None? && d.sent == [] && d.chatId == chatId
  {
    Details(chatId, UiState(chatId, "", []), false, None, [])
  }

  /** `requestChatDetails()` against the repository, with the backend's answer
      for the members should the repository need to ask. An unknown chat
      leaves the screen and the repository as they were. */
  function RequestChatDetails(d: Details, repo: ChatRepository.Repo, remote: Return<seq<User>>): (r: (Details, ChatRepository.Repo))
    ensures ChatRepository.GetChatById(repo, d.chatId).None? ==> r == (d, repo)
    ensures ChatRepository.GetChatById(repo, d.chatId).Some? ==>
      var chat := ChatRepository.GetChatById(repo, d.chatId).value;
      var members := ChatRepository.GetChatMembers(repo, d.chatId, remote);
      && r.0 == d.(uiState := UiState(d.chatId, chat.title, members.value), isNotificationsEnabled := !chat.isMuted)
      && r.1 == members.repo
  {
    match ChatRepository.GetChatById(repo, d.chatId)
    case None => (d, repo)
    case Some(chat) =>
      var members := ChatRepository.GetChatMembers(repo, d.chatId, remote);
      (d.(uiState := UiState(d.chatId, chat.title, members.value), isNotificationsEnabled := !chat.isMuted), members.repo)
  }

  /** The change-event filter: this chat's id, or the empty id that stands for
      "any chat". */
  predicate Concerns(d: Details, changedId: string) {
    changedId == d.chatId || changedId == ""
  }

  /** A change event: re-request the details only when it concerns this chat. */
  function OnChatChanged(d: Details, changedId: string, repo: ChatRepository.Repo, remote: Return<seq<User>>): (r: (Details, ChatRepository.Repo))
    ensures !Concerns(d, changedId) ==> r == (d, repo)
    ensures Concerns(d, changedId) ==> r == RequestChatDetails(d, repo, remote)
  {
    if Concerns(d, changedId) then RequestChatDetails(d, repo, remote) else (d, repo)
  }

  /** `toggleNotifications(enabled)`: the switch moves at once, and the request
      waiting to be sent becomes this one, replacing any earlier one. */
  function ToggleNotifications(d: Details, enabled: bool): (r: Details)
    ensures r.isNotificationsEnabled == enabled && r.pending == Some(enabled)
    ensures r.uiState == d.uiState && r.sent == d.sent && r.chatId == d.chatId
  {
    d.(isNotificationsEnabled := enabled, pending := Some(enabled))
  }

  /** What the end of the delay leads to: the screen and the repository after
      the request, or an uncaught exception. `toggleNotifications` of the
      repository lets a failed call throw, and nothing in the launched
      coroutine catches it. */
  datatype Elapsed = Delivered(screen: Details, repo: ChatRepository.Repo) | Crashes

  /** The delay ends: the waiting request, if any, goes to the repository,
      whose backend call ends as `call`. */
  function DelayElapsed(d: Details, repo: ChatRepository.Repo, call: ApiCaller.Call<()>): (r: Elapsed)
    ensures d.pending.None? ==> r == Delivered(d, repo)
    ensures d.pending.Some? ==> (r.Crashes? <==> !call.Returns?)
    ensures r.Delivered? ==>
      && r.screen.pending.None?
      && r.screen.isNotificationsEnabled == d.isNotificationsEnabled && r.screen.uiState == d.uiState
    ensures d.pending.Some? && r.Delivered? ==>
      && r.screen.sent == d.sent + [d.pending.value]
      && r.repo == ChatRepository.ToggleNotifications(repo, d.chatId, d.pending.value, call).value
  {
    match d.pending
    case None => Delivered(d, repo)
    case Some(e) =>
      match ChatRepository.ToggleNotifications(repo, d.chatId, e, call)
      case Returns(next) => Delivered(d.(pending := None, sent := d.sent + [e]), next)
      case _ => Crashes
  }

  /** Flipping the switch several times within the delay sends one request,
      for the final position; when the backend accepts it, the repository
      records that position. */
  lemma DebounceSendsLast(d: Details, flips: seq<bool>, repo: ChatRepository.Repo, call: ApiCaller.Call<()>)
    requires |flips| > 0
    ensures var r := DelayElapsed(Flips(d, flips), repo, call);
      var last := flips[|flips| - 1];
      && (r.Crashes? <==> !call.Returns?)
      && (r.Delivered? ==>
          && r.screen.sent == d.sent + [last] && r.screen.isNotificationsEnabled == last
          && r.repo == ChatRepository.ToggleNotifications(repo, d.chatId, last, call).value)
  {
    FlipsLast(d, flips);
  }

  function Flips(d: Details, flips: seq<bool>): Details
    decreases |flips|
  {
    if |flips| == 0 then d else Flips(ToggleNotifications(d, flips[0]), flips[1..])
  }

  lemma {:induction false} FlipsLast(d: Details, flips: seq<bool>)
    requires |flips| > 0
    ensures Flips(d, flips).pending == Some(flips[|flips| - 1])
    ensures Flips(d, flips).isNotificationsEnabled == flips[|flips| - 1]
    ensures Flips(d, flips).sent == d.sent && Flips(d, flips).uiState == d.uiState
    decreases |flips|
  {
    if |flips| > 1 {
      FlipsLast(ToggleNotifications(d, flips[0]), flips[1..]);
    }
  }

  /** After a successful toggle of a cached chat reaches the repository, the
      next details request shows the switch where the user left it. */
  lemma ToggleSurvivesReload(d: Details, repo: ChatRepository.Repo, enabled: bool, remote: Return<seq<User>>)
    requires ChatCache.Wf(repo.cache) && d.chatId in repo.cache.chats
    ensures var toggled := ChatRepository.ToggleNotifications(repo, d.chatId, enabled, ApiCaller.Returns(()));
      toggled.Returns? && RequestChatDetails(d, toggled.value, remote).0.isNotificationsEnabled == enabled
  {
    ChatRepository.ToggleSeenByLookup(repo, d.chatId, enabled);
  }
}

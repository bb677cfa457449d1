/** The home screen (ui/home/HomeViewModel.kt).

    The screen shows the application's connection state and the chat list.
    It follows two streams, the application state and the store's change
    events; each chat list it shows is the repository's sorted list at that
    moment, which is an input here.
 */
module HomeScreen {
  import opened Text
  import opened Domain
  import opened AppState

  /** `HomeUiState`. */
  datatype UiState = UiState(state: ApplicationState, chats: seq<Chat>)

  /** Before either stream delivers: waiting for the network, no chats. */
  function Initial(): (u: UiState)
    ensures u.state == WaitingForNetwork && u.chats == []
  {
    UiState(WaitingForNetwork, [])
  }

  /** An application-state value: it replaces the displayed state; the chat
      list is fetched again only once the state is Ready. */
  function OnAppState(u: UiState, state: ApplicationState, fetched: seq<Chat>): (r: UiState)
    ensures r.state == state
    ensures state == Ready ==> r.chats == fetched
    ensures state != Ready ==> r.chats == u.chats
  {
    UiState(state, if state == Ready then fetched else u.chats)
  }

  /** A store change event: the chat list is fetched again, the state stays. */
  function OnChatsChanged(u: UiState, fetched: seq<Chat>): (r: UiState)
    ensures r.state == u.state && r.chats == fetched
  {
    u.(chats := fetched)
  }

  /** What reaches the screen, with the list the repository would give at
      that moment. */
  datatype Event =
    | StateValue(state: ApplicationState, fetched: seq<Chat>)
    | ChatsChanged(fetched: seq<Chat>)

  function Step(u: UiState, e: Event): UiState {
    match e
    case StateValue(state, fetched) => OnAppState(u, state, fetched)
    case ChatsChanged(fetched) => OnChatsChanged(u, fetched)
  }

  function Run(u: UiState, es: seq<Event>): UiState
    decreases |es|
  {
    if |es| == 0 then u else Run(Step(u, es[0]), es[1..])
  }

  /** The state shown after a run: the last application-state value, or the
      starting one when none arrived. */
  function LatestState(start: ApplicationState, es: seq<Event>): ApplicationState
    decreases |es|
  {
    if |es| == 0 then start
    else if es[|es| - 1].StateValue? then es[|es| - 1].state
    else LatestState(start, es[..|es| - 1])
  }

  /** Whether an event makes the screen fetch the list. */
  predicate Refetches(e: Event) {
    e.ChatsChanged? || e.state == Ready
  }

  /** The list shown after a run: the one fetched by the last event that
      fetched, or the starting one when none did. */
  function LatestList(start: seq<Chat>, es: seq<Event>): seq<Chat>
    decreases |es|
  {
    if |es| == 0 then start
    else if Refetches(es[|es| - 1]) then es[|es| - 1].fetched
    else LatestList(start, es[..|es| - 1])
  }

  lemma {:induction false} RunSnoc(u: UiState, es: seq<Event>, e: Event)
    ensures Run(u, es + [e]) == Step(Run(u, es), e)
    decreases |es|
  {
    if |es| > 0 {
      assert (es + [e])[1..] == es[1..] + [e];
      RunSnoc(Step(u, es[0]), es[1..], e);
    }
  }

  /** The screen always shows the latest application state, and the list from
      the latest fetch: a state other than Ready never clears or replaces it. */
  lemma {:induction false} ShowsLatest(u: UiState, es: seq<Event>)
    ensures Run(u, es).state == LatestState(u.state, es)
    ensures Run(u, es).chats == LatestList(u.chats, es)
    decreases |es|
  {
    if |es| > 0 {
      var init := es[..|es| - 1];
      assert es == init + [es[|es| - 1]];
      RunSnoc(u, init, es[|es| - 1]);
      ShowsLatest(u, init);
    }
  }

  const ChatNamePrefix: string := "Chat #"

  /** The name `createChat` gives a new chat: "Chat #" and the clock's
      milliseconds modulo 20 plus one, with Kotlin's sign-following remainder.
      For a clock at or after the epoch the number is between 1 and 20. */
  function GeneratedChatName(now: int): (name: string)
    ensures |name| > |ChatNamePrefix| && name[..|ChatNamePrefix|] == ChatNamePrefix
    ensures now >= 0 ==>
      && IsDigitString(name[|ChatNamePrefix|..])
      && ParseDigits(name[|ChatNamePrefix|..]) == now % 20 + 1
      && 1 <= ParseDigits(name[|ChatNamePrefix|..]) <= 20
  {
    var n := TruncRem(now, 20) + 1;
    var name := ChatNamePrefix + IntToString(n);
    assert name[|ChatNamePrefix|..] == IntToString(n);
    if n >= 0 then NatToStringRoundTrip(n); name else name
  }
}

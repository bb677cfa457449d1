# Reaction client core in Dafny

This project models the data and synchronisation layer of the "reaction"
Android chat client, together with the small state machines of its screens.
The source is written in Kotlin. Every part is immutable state plus pure
transition functions. Whatever the Kotlin code receives from outside becomes
an explicit input:

- coroutines, flows and backend calls;
- whether the network is reachable;
- the outcome of each registered action;
- backend answers;
- confirmation events from the socket;
- the clock.

The modules follow the source's structure:

| module | file | models |
|---|---|---|
| `Wrappers` | wrappers.dfy | `Return`, `ReturnCode`, `UiText`, nullable values |
| `Text` | text.dfy | Kotlin `trim()`, decimal rendering, the truncating `%` |
| `Domain` | domain.dfy | the backend's data classes, token lifetime, transfer-object conversions |
| `ApiCaller` | api_caller.dfy | turning a call's outcome (value or exception) into a `Return` |
| `FlowKtx` | flow.dfy | waiting for the first matching element of a stream |
| `AppState` | app_state.dfy | the connectivity state machine and its ordered action lists |
| `ChatCache` | chat_cache.dfy | the in-memory chat store and its change notifications |
| `ChatRepository` | chat_repository.dfy | syncing, live messages, ordering, fetch-once caches, room operations |
| `RemoteChat` | remote_chat.dfy | the backend chat source: failure pass-through and list conversion |
| `UserRepository` | user_repository.dfy | the per-id user cache with stand-ins |
| `Socket` | socket.dfy | the socket service as a state machine with a log of emitted events |
| `LocalAuth` | local_auth.dfy | persisting a session in a key-value store |
| `AuthRepository` | auth_repository.dfy | the session repository: token publication, refresh, sign-in |
| `LegacyAuth` | legacy_auth.dfy | the older session repository, still in the tree |
| `SignInScreen`, `SignUpScreen` | signin.dfy, signup.dfy | form validation and sign-in/sign-up flows |
| `ChatEditor` | chat_editor.dfy | the unsaved-changes dialog |
| `JoinChatScreen` | join_chat.dfy | the invitation screen |
| `ChatScreen` | chat_screen.dfy | the conversation screen |
| `HomeScreen` | home.dfy | the home screen and the generated chat name |
| `ChatDetailsScreen` | chat_details.dfy | chat details and the debounced notifications switch |
| `Palette` | color.dfy | avatar colour and gradient chosen from a name |

Kotlin semantics that matter are written out:

- `Int` sums wrap at 32 bits.
- `%` truncates toward zero.
- `Char.code` counts a UTF-16 code unit, so a character above U+FFFF counts as
  its surrogate pair.
- `trim()` removes the characters `isWhitespace` accepts.
- A `!!` on a value that can be null becomes a precondition.
- `Long` values are unbounded integers.

Behaviours of the code worth noting:

- `getMessages` answers the stored list reversed, that is newest arrival
  first. It does not sort by sent time.
- `toggleNotifications` calls the backend without protection. A failure
  propagates as an exception and leaves the store untouched.
- `ChatDto.toChat` passes its arguments by position in an order different
  from `Chat`'s declaration. Fields are matched by name here.
- The chat store emits `onChatsChanged` with payload 0, while the screens
  collect `onChatChanged` with chat ids. The screens are modelled on the ids
  they filter by.
- `ApiResult` and `Return` are used interchangeably in the code and are one
  type here.

## Model

| member | source | states |
|---|---|---|
| Text.Trim | app/src/main/java/com/subreax/reaction/ui/signin/SignInViewModel.kt:34-40 | the result is the input with its leading and trailing whitespace runs removed (Kotlin `isWhitespace`), and neither end of it is whitespace |
| Text.TrimIdempotent | app/src/main/java/com/subreax/reaction/ui/signin/SignInViewModel.kt:34-40 | trimming an already trimmed field changes nothing |
| Text.TrimEmptyIff | app/src/main/java/com/subreax/reaction/ui/chat/ChatViewModel.kt:84-92 | a text trims to the empty string exactly when every character of it is whitespace |
| Text.TruncRem | app/src/main/java/com/subreax/reaction/ui/home/HomeViewModel.kt:49 | Kotlin's `%` for a positive divisor: in [0, b) and equal to the Euclidean remainder for a non-negative dividend, in (-b, 0] for a negative one |
| Text.NatToStringRoundTrip | app/src/main/java/com/subreax/reaction/ui/home/HomeViewModel.kt:49 | the decimal text a string template renders for a number reads back as that number |
| Domain.NewSignInDto | app/src/main/java/com/subreax/reaction/api/BackendService.kt:68-73 | the request carries the given username and password, `rememberMe` true and strategy "jwt" |
| Domain.RemainingLifetime | app/src/main/java/com/subreax/reaction/api/BackendService.kt:97-98 | the remaining lifetime is never negative, is at least expiry minus now, and is either 0 or exactly expiry minus now |
| Domain.TokenAliveIff | app/src/main/java/com/subreax/reaction/api/BackendService.kt:100-101 | a token is alive exactly when its expiry lies after now, and dead exactly when no lifetime remains |
| Domain.ToMessage | app/src/main/java/com/subreax/reaction/api/BackendService.kt:161-169 | an absent room id and an absent text become "", the time is copied, the sender is the user the directory returns for the id, and the state is NoState |
| Domain.ToChat | app/src/main/java/com/subreax/reaction/api/BackendService.kt:127-137 | id, avatar, title, member count, muted and pinned flags are copied by name; a last message is present exactly when the transfer object has one, and is then its conversion |
| ApiCaller.ParseHttpException | app/src/main/java/com/subreax/reaction/api/ApiCaller.kt:47-63 | always a failure; BadRequest exactly when the body ("{}" when absent) is a JSON object with a `message` that is not an empty array, carrying that string, the text of a number, boolean or null, or the array's first element; otherwise ServerError with "Failed to parse error body: " and the body |
| ApiCaller.SafeApiCall | app/src/main/java/com/subreax/reaction/api/ApiCaller.kt:15-36 | Ok exactly when the call returns, with its value; an I/O exception gives the connection-error text with NetworkError, an HTTP exception the parsed body, anything else the unknown-error text with Unspecified |
| ApiCaller.SafeApiCallCodes | app/src/main/java/com/subreax/reaction/api/ApiCaller.kt:15-36 | each result code identifies its outcome: Ok iff returned, NetworkError iff I/O failure, Unspecified iff another throwable, BadRequest or ServerError iff an HTTP error |
| ApiCaller.SafeAgreesWithUnsafe | app/src/main/java/com/subreax/reaction/api/ApiCaller.kt:15-45 | the safe and the unsafe wrapper give the same value when the call returns, and the safe one turns every throw into a failure |
| FlowKtx.WaitFor | app/src/main/java/com/subreax/reaction/utils/FlowKtx.kt:11-24 | the answer is an element of the stream that satisfies the condition, and no earlier element does; a stream without a match is excluded (the code's `!!` throws) |
| FlowKtx.WaitForValue | app/src/main/java/com/subreax/reaction/utils/FlowKtx.kt:26 | the answer equals the value and is its first occurrence in the stream |
| FlowKtx.WaitForAny | app/src/main/java/com/subreax/reaction/utils/FlowKtx.kt:27 | the answer is the stream's first element, at position 0 |
| FlowKtx.WaitForIsFirstMatch | app/src/main/java/com/subreax/reaction/utils/FlowKtx.kt:15-20 | any matching position with no match before it is exactly the one the wait returns |
| FlowKtx.WaitReadsOnlyUpToMatch | app/src/main/java/com/subreax/reaction/utils/FlowKtx.kt:15-20 | collection stops at the first match: replacing everything after the matching element by any other elements leaves the wait's answer and position unchanged |
| AppState.Initial | app/src/main/java/com/subreax/reaction/data/ApplicationStateSource.kt:16 | a new source waits for the network with both action lists empty |
| AppState.OnStatus | app/src/main/java/com/subreax/reaction/data/ApplicationStateSource.kt:55-64 | the state is Connecting iff the observer reports Connected and WaitingForNetwork iff it reports Disconnected, whatever it was; the action lists are kept |
| AppState.Restart | app/src/main/java/com/subreax/reaction/data/ApplicationStateSource.kt:67-74 | the state becomes Connecting iff the network is available, otherwise WaitingForNetwork; the action lists are kept |
| AppState.DefaultOnErrorAction | app/src/main/java/com/subreax/reaction/data/ApplicationStateSource.kt:76-85 | the next state is never Syncing or Ready: Connecting iff the network is available, whatever state failed |
| AppState.DoActions | app/src/main/java/com/subreax/reaction/data/ApplicationStateSource.kt:103-119 | reports success iff every action succeeds (an empty list succeeds); on failure the last action invoked is the first failing one and every earlier one succeeded, and no later one ran |
| AppState.OnStateCollected | app/src/main/java/com/subreax/reaction/data/ApplicationStateSource.kt:26-53 | Connecting moves to Syncing when all connecting actions succeed, Syncing to Ready when all syncing actions succeed, otherwise the error handler decides; WaitingForNetwork and Ready change nothing |
| AppState.IndexOf | app/src/main/java/com/subreax/reaction/data/ApplicationStateSource.kt:87-101 | the position holds the element and no earlier position does |
| AppState.RemoveFirst | app/src/main/java/com/subreax/reaction/data/ApplicationStateSource.kt:87-101 | `MutableList.remove`: an absent element leaves the list as it is; otherwise exactly its first occurrence is cut out, the rest in order, one copy fewer in the multiset |
| AppState.AddConnectingAction | app/src/main/java/com/subreax/reaction/data/ApplicationStateSource.kt:87-89 | the action is appended to the connecting list; the state and the syncing list are untouched |
| AppState.RemoveConnectingAction | app/src/main/java/com/subreax/reaction/data/ApplicationStateSource.kt:91-93 | one copy of the action leaves the connecting list; the state and the syncing list are untouched |
| AppState.AddSyncingAction | app/src/main/java/com/subreax/reaction/data/ApplicationStateSource.kt:95-97 | the action is appended to the syncing list; the state and the connecting list are untouched |
| AppState.RemoveSyncingAction | app/src/main/java/com/subreax/reaction/data/ApplicationStateSource.kt:99-101 | one copy of the action leaves the syncing list; the state and the connecting list are untouched |
| AppState.AddThenRemoveRestores | app/src/main/java/com/subreax/reaction/data/ApplicationStateSource.kt:87-93 | removing an action just added, that was not registered before, restores the source |
| AppState.StepIntoSyncingOrReady | app/src/main/java/com/subreax/reaction/data/ApplicationStateSource.kt:31-46 | Syncing is only entered from Connecting after every connecting action succeeded, and Ready only from Syncing after every syncing action succeeded (or by staying Ready) |
| AppState.OfflineStaysWaiting | app/src/main/java/com/subreax/reaction/data/ApplicationStateSource.kt:50-74 | with no Connected event and no restart that finds the network, a waiting source keeps waiting through any sequence of events |
| AppState.RunKeepsActions | app/src/main/java/com/subreax/reaction/data/ApplicationStateSource.kt:26-74 | no event of the running machine changes the registered action lists |
| ChatCache.Empty | app/src/main/java/com/subreax/reaction/data/chat/impl/InMemoryChatDataSource.kt:13-20 | a new store holds no chats and has emitted nothing |
| ChatCache.FromList | app/src/main/java/com/subreax/reaction/data/chat/impl/InMemoryChatDataSource.kt:29-35 | the keys are exactly the ids of the list and each entry sits under its own id |
| ChatCache.FromListLastWins | app/src/main/java/com/subreax/reaction/data/chat/impl/InMemoryChatDataSource.kt:29-35 | for a duplicated id the last chat of the list with that id is the one stored |
| ChatCache.SetList | app/src/main/java/com/subreax/reaction/data/chat/impl/InMemoryChatDataSource.kt:29-37 | the store holds exactly the list's ids, the last chat per id, and one notification with payload 0 is added |
| ChatCache.UpdateOne | app/src/main/java/com/subreax/reaction/data/chat/impl/InMemoryChatDataSource.kt:39-44 | the chat is stored under its id, every other entry is unchanged, and one notification is added |
| ChatCache.Remove | app/src/main/java/com/subreax/reaction/data/chat/impl/InMemoryChatDataSource.kt:46-53 | an absent id changes nothing and notifies nothing; a present one loses only its key and adds one notification |
| ChatCache.FindById | app/src/main/java/com/subreax/reaction/data/chat/impl/InMemoryChatDataSource.kt:55-57 | the entry under the id, present exactly when the id is stored |
| ChatCache.GetList | app/src/main/java/com/subreax/reaction/data/chat/impl/InMemoryChatDataSource.kt:25-27 | one chat per key: as many chats as keys, every stored chat included, nothing else, and in a store whose entries sit under their own ids no chat twice |
| ChatCache.FindAfterUpdate | app/src/main/java/com/subreax/reaction/data/chat/impl/InMemoryChatDataSource.kt:39-57 | after an upsert the lookup finds the chat under its id and every other lookup is as before |
| ChatCache.FindAfterRemove | app/src/main/java/com/subreax/reaction/data/chat/impl/InMemoryChatDataSource.kt:46-57 | after a removal the id is not found and every other lookup is as before |
| ChatCache.UpdateOneIdempotent | app/src/main/java/com/subreax/reaction/data/chat/impl/InMemoryChatDataSource.kt:39-44 | upserting the same chat twice leaves the same map as once, with two notifications |
| ChatCache.SetListDistinct | app/src/main/java/com/subreax/reaction/data/chat/impl/InMemoryChatDataSource.kt:29-37 | a list with distinct ids is stored whole: each chat is found under its id and the store has as many entries as the list |
| ChatCache.DistinctIdsCount | app/src/main/java/com/subreax/reaction/data/chat/impl/InMemoryChatDataSource.kt:29-35 | a list with distinct ids has as many ids as chats |
| ChatRepository.Initial | app/src/main/java/com/subreax/reaction/data/chat/impl/ChatRepositoryImpl.kt:31-39 | a new repository has an empty store, no cached members or messages, and has announced nothing |
| ChatRepository.SyncAction | app/src/main/java/com/subreax/reaction/data/chat/impl/ChatRepositoryImpl.kt:45-64 | the action always reports success; the fetched list replaces the store on success and the store is untouched on failure; all message lists are forgotten either way |
| ChatRepository.OnMessage | app/src/main/java/com/subreax/reaction/data/chat/impl/ChatRepositoryImpl.kt:66-80 | a message for an unknown chat changes nothing; otherwise it becomes the chat's last message, is appended to a cached message list, and the chat (as it was) is announced; other lists are untouched |
| ChatRepository.SortKey | app/src/main/java/com/subreax/reaction/data/chat/impl/ChatRepositoryImpl.kt:82-85 | the key is the last message's time, or now for a chat without messages |
| ChatRepository.Insert | app/src/main/java/com/subreax/reaction/data/chat/impl/ChatRepositoryImpl.kt:82-85 | inserting into a list sorted by descending key keeps it sorted and adds exactly that chat |
| ChatRepository.SortDescending | app/src/main/java/com/subreax/reaction/data/chat/impl/ChatRepositoryImpl.kt:82-85 | the result is sorted by descending key and is a permutation of the input |
| ChatRepository.GetChatsList | app/src/main/java/com/subreax/reaction/data/chat/impl/ChatRepositoryImpl.kt:82-85 | sorted by newest activity first; as many chats as keys, every stored chat included, nothing else, and in a store whose entries sit under their own ids no chat twice |
| ChatRepository.GetChatById | app/src/main/java/com/subreax/reaction/data/chat/impl/ChatRepositoryImpl.kt:87-89 | found exactly when the id is in the store, and then the stored chat |
| ChatRepository.IsUserAMemberOfTheChat | app/src/main/java/com/subreax/reaction/data/chat/impl/ChatRepositoryImpl.kt:145-147 | true exactly when the chat is in the store, i.e. when `getChatById` finds it |
| ChatRepository.GetChatMembers | app/src/main/java/com/subreax/reaction/data/chat/impl/ChatRepositoryImpl.kt:91-103 | the backend is asked iff the list is not cached; a success is cached and returned, a failure returns the empty list and caches nothing |
| ChatRepository.ToMessages | app/src/main/java/com/subreax/reaction/data/chat/impl/ChatRepositoryImpl.kt:163-176 | one message per transfer object, position by position |
| ChatRepository.FetchMessages | app/src/main/java/com/subreax/reaction/data/chat/impl/ChatRepositoryImpl.kt:163-176 | the converted list on success and the empty list on any failure |
| ChatRepository.Reverse | app/src/main/java/com/subreax/reaction/data/chat/impl/ChatRepositoryImpl.kt:105-110 | the same elements in the opposite order |
| ChatRepository.ReverseReverse | app/src/main/java/com/subreax/reaction/data/chat/impl/ChatRepositoryImpl.kt:105-110 | reversing twice gives the list back |
| ChatRepository.GetMessages | app/src/main/java/com/subreax/reaction/data/chat/impl/ChatRepositoryImpl.kt:105-110 | the backend is asked iff the chat's list is not cached, the fetch (empty on failure) is cached, and the answer reversed is the stored list |
| ChatRepository.MessagesFetchedOnce | app/src/main/java/com/subreax/reaction/data/chat/impl/ChatRepositoryImpl.kt:105-110 | right after one call a second asks nothing, whatever the backend would say, and answers the same list |
| ChatRepository.MembersFailureRetried | app/src/main/java/com/subreax/reaction/data/chat/impl/ChatRepositoryImpl.kt:91-103 | the next members call asks the backend again exactly when the first one failed |
| ChatRepository.LiveMessageShownFirst | app/src/main/java/com/subreax/reaction/data/chat/impl/ChatRepositoryImpl.kt:66-110 | a live message for a chat with cached messages is the first message of the next `getMessages` (no fetch) and the chat's last message |
| ChatRepository.SendMessage | app/src/main/java/com/subreax/reaction/data/chat/impl/ChatRepositoryImpl.kt:112-114 | with an open socket exactly one `newMessage` carrying the text is emitted; without one nothing happens |
| ChatRepository.RemoveChat | app/src/main/java/com/subreax/reaction/data/chat/impl/ChatRepositoryImpl.kt:184-188 | the members, the messages and the store entry of the chat are gone and everything else stays |
| ChatRepository.CreateChat | app/src/main/java/com/subreax/reaction/data/chat/impl/ChatRepositoryImpl.kt:116-128 | the create request is emitted, the first announced id is the answer after one event, and the fetched chat is stored only when the fetch succeeds |
| ChatRepository.JoinChat | app/src/main/java/com/subreax/reaction/data/chat/impl/ChatRepositoryImpl.kt:130-135 | the join request is emitted and the wait consumes events up to the first confirmation of this very id; the store is untouched |
| ChatRepository.LeaveChat | app/src/main/java/com/subreax/reaction/data/chat/impl/ChatRepositoryImpl.kt:137-143 | the leave request is emitted, the wait ends at the first confirmation of this id, and then the chat is purged |
| ChatRepository.LeaveChatPurges | app/src/main/java/com/subreax/reaction/data/chat/impl/ChatRepositoryImpl.kt:137-147 | after leaving, the user is no member of the chat and no members or messages are cached for it |
| ChatRepository.ToggleNotifications | app/src/main/java/com/subreax/reaction/data/chat/impl/ChatRepositoryImpl.kt:149-161 | succeeds iff the call returns, a throw propagating as it is; on success a cached chat gets `isMuted = !enabled` and an absent one stays absent |
| ChatRepository.ToggleSeenByLookup | app/src/main/java/com/subreax/reaction/data/chat/impl/ChatRepositoryImpl.kt:149-161 | after a successful toggle the lookup finds the chat with only its muted flag changed, to the opposite of `enabled` |
| Socket.Initial | app/src/main/java/com/subreax/reaction/data/WebSocketIoService.kt:27 | a new service has no socket, no headers, is not connected and has emitted nothing |
| Socket.Start | app/src/main/java/com/subreax/reaction/data/WebSocketIoService.kt:56-82 | with a socket open nothing changes; otherwise a socket is opened with the headers in force |
| Socket.Stop | app/src/main/java/com/subreax/reaction/data/WebSocketIoService.kt:123-129 | no socket afterwards; headers, flag and log unchanged |
| Socket.Emit | app/src/main/java/com/subreax/reaction/data/WebSocketIoService.kt:84-121 | an emission is logged exactly when a socket is open |
| Socket.Send | app/src/main/java/com/subreax/reaction/data/WebSocketIoService.kt:84-94 | with a socket open, `newMessage` with text, userId, roomId, date and type "text" is logged; otherwise nothing |
| Socket.CreateChat | app/src/main/java/com/subreax/reaction/data/WebSocketIoService.kt:96-103 | with a socket open, `createRoom` with userId and name is logged; otherwise nothing |
| Socket.JoinChat | app/src/main/java/com/subreax/reaction/data/WebSocketIoService.kt:105-112 | with a socket open, `joinToRoom` with userId and roomId is logged; otherwise nothing |
| Socket.LeaveChat | app/src/main/java/com/subreax/reaction/data/WebSocketIoService.kt:114-121 | with a socket open, `leaveFromRoom` with userId and roomId is logged; otherwise nothing |
| Socket.OnConnect | app/src/main/java/com/subreax/reaction/data/WebSocketIoService.kt:131-143 | `connectToRooms` with the user id is emitted, then the service is connected |
| Socket.OnConnectError | app/src/main/java/com/subreax/reaction/data/WebSocketIoService.kt:145-148 | the service is not connected; nothing else changes |
| Socket.OnDisconnect | app/src/main/java/com/subreax/reaction/data/WebSocketIoService.kt:150-153 | the service is not connected; nothing else changes |
| Socket.OnTokenChanged | app/src/main/java/com/subreax/reaction/data/WebSocketIoService.kt:208-219 | the empty token stops the socket; any other token becomes the Authorization header and a socket is opened with it |
| Socket.ConnectingAction | app/src/main/java/com/subreax/reaction/data/WebSocketIoService.kt:45-50 | reports success and leaves a socket freshly built with the current headers |
| Socket.FieldText | app/src/main/java/com/subreax/reaction/data/WebSocketIoService.kt:168-199 | a string member reads as it is, a number as its decimal text |
| Socket.RoomIdOf | app/src/main/java/com/subreax/reaction/data/WebSocketIoService.kt:168-199 | no argument: nothing relayed; a first argument without `roomId`: the handler throws (`getString`); otherwise that member's text is relayed |
| Socket.MessageOf | app/src/main/java/com/subreax/reaction/data/WebSocketIoService.kt:155-166 | a message is relayed exactly when there is an argument, and it is the first argument's conversion |
| Socket.ObserveConnected | app/src/main/java/com/subreax/reaction/data/WebSocketIoService.kt:221-229 | a false value restarts the application state; a true value changes nothing |
| Socket.StartStopIdempotent | app/src/main/java/com/subreax/reaction/data/WebSocketIoService.kt:56-129 | starting twice is starting once, stopping twice is stopping once, and stop after start is stop |
| Socket.TokenChangeRebuildsSocket | app/src/main/java/com/subreax/reaction/data/WebSocketIoService.kt:208-219 | after a token change a socket is open iff the token is non-empty, and it was built with that token |
| Socket.InitialValueRestarts | app/src/main/java/com/subreax/reaction/data/WebSocketIoService.kt:221-229 | the initial not-connected value restarts the application state: Connecting iff the network is there |
| Socket.NumericRoomIdRoundTrip | app/src/main/java/com/subreax/reaction/data/WebSocketIoService.kt:168-199 | a numeric room id is relayed as decimal text that reads back as the number |
| RemoteChat.UnknownUser | app/src/main/java/com/subreax/reaction/data/chat/impl/RemoteChatDSImpl.kt:61-63 | the stand-in has the id, name "хтоя#" and the id, no avatar and activity 0 |
| RemoteChat.MemberToUser | app/src/main/java/com/subreax/reaction/data/chat/impl/RemoteChatDSImpl.kt:57-59 | the directory's user when it has one, the stand-in otherwise |
| RemoteChat.ToChats | app/src/main/java/com/subreax/reaction/data/chat/impl/RemoteChatDSImpl.kt:33-35 | one chat per transfer object, position by position |
| RemoteChat.ToUsers | app/src/main/java/com/subreax/reaction/data/chat/impl/RemoteChatDSImpl.kt:47-49 | one user per member, position by position |
| RemoteChat.GetById | app/src/main/java/com/subreax/reaction/data/chat/impl/RemoteChatDSImpl.kt:18-28 | a success carries the converted chat; a failure passes through with its message and code |
| RemoteChat.GetChatsList | app/src/main/java/com/subreax/reaction/data/chat/impl/RemoteChatDSImpl.kt:30-41 | a success carries the converted list; a failure passes through unchanged |
| RemoteChat.GetChatMembers | app/src/main/java/com/subreax/reaction/data/chat/impl/RemoteChatDSImpl.kt:43-55 | a success carries the converted members; a failure passes through unchanged |
| RemoteChat.CodesPassThrough | app/src/main/java/com/subreax/reaction/data/chat/impl/RemoteChatDSImpl.kt:18-55 | each operation's result code is the wrapped call's code |
| RemoteChat.ChatIdsPreserved | app/src/main/java/com/subreax/reaction/data/chat/impl/RemoteChatDSImpl.kt:33-35 | every converted chat keeps its transfer object's id |
| RemoteChat.MemberIdsPreserved | app/src/main/java/com/subreax/reaction/data/chat/impl/RemoteChatDSImpl.kt:47-63 | every member keeps its id when the directory answers with the user asked for |
| UserRepository.Placeholder | app/src/main/java/com/subreax/reaction/data/user/impl/UserRepositoryImpl.kt:42 | the stand-in has the id, name "хто_я#" and the id, no avatar, and the current time |
| UserRepository.RequestUser | app/src/main/java/com/subreax/reaction/data/user/impl/UserRepositoryImpl.kt:31-44 | the backend's user on success, the stand-in on failure |
| UserRepository.GetUserById | app/src/main/java/com/subreax/reaction/data/user/impl/UserRepositoryImpl.kt:22-28 | the backend is asked iff the id is not cached; afterwards the id is cached and the answer is its entry |
| UserRepository.GetCurrentUser | app/src/main/java/com/subreax/reaction/data/user/impl/UserRepositoryImpl.kt:18-20 | asks the backend iff the signed-in id is not cached, and answers that id's cached entry |
| UserRepository.RequestedAtMostOnce | app/src/main/java/com/subreax/reaction/data/user/impl/UserRepositoryImpl.kt:22-28 | once an id has been asked for, later calls ask nothing and answer the same user |
| UserRepository.FailureGivesPlaceholder | app/src/main/java/com/subreax/reaction/data/user/impl/UserRepositoryImpl.kt:39-43 | a failed request answers a user with the requested id and the stand-in name |
| LocalAuth.EmptyPrefs | app/src/main/java/com/subreax/reaction/data/auth/LocalAuthDataSource.kt:47-49 | the cleared store holds no entries |
| LocalAuth.GetLong | app/src/main/java/com/subreax/reaction/data/auth/LocalAuthDataSource.kt:22-28 | a stored long, or the default 0 |
| LocalAuth.Save | app/src/main/java/com/subreax/reaction/data/auth/LocalAuthDataSource.kt:7-20 | both tokens and both expiries are written, the user id only when present (an older one survives otherwise), and nothing else changes |
| LocalAuth.Load | app/src/main/java/com/subreax/reaction/data/auth/LocalAuthDataSource.kt:22-45 | a session is returned exactly when all three strings are stored and both expiries are non-zero, built from the five entries; otherwise null and the store is cleared |
| LocalAuth.SaveLoadRoundTrip | app/src/main/java/com/subreax/reaction/data/auth/LocalAuthDataSource.kt:7-45 | a session with a user id and non-zero expiries reads back as saved, whatever the store held |
| LocalAuth.SaveWithoutUserId | app/src/main/java/com/subreax/reaction/data/auth/LocalAuthDataSource.kt:14-16 | a session saved without a user id reads back with the previously stored id, or not at all when there was none |
| LocalAuth.ZeroExpiryNeverLoads | app/src/main/java/com/subreax/reaction/data/auth/LocalAuthDataSource.kt:29-36 | a session with a zero expiry never reads back and the load clears the store |
| LocalAuth.FailedLoadIsFinal | app/src/main/java/com/subreax/reaction/data/auth/LocalAuthDataSource.kt:22-49 | after a failed load the store is empty, so the next load fails too |
| AuthRepository.PublishedToken | app/src/main/java/com/subreax/reaction/data/auth/impl/AuthRepositoryImpl.kt:146-150 | the session's access token, or the empty token without a session |
| AuthRepository.Assign | app/src/main/java/com/subreax/reaction/data/auth/impl/AuthRepositoryImpl.kt:24-28 | the session is replaced and its token is published, so the stream's latest value matches the session |
| AuthRepository.Init | app/src/main/java/com/subreax/reaction/data/auth/impl/AuthRepositoryImpl.kt:37-46 | the stream starts at "", the loaded session is assigned and published, and the auth event is raised only for a loaded session |
| AuthRepository.GetUserId | app/src/main/java/com/subreax/reaction/data/auth/impl/AuthRepositoryImpl.kt:83-85 | the session's user id, and "" without a session or without an id |
| AuthRepository.FormatAccessToken | app/src/main/java/com/subreax/reaction/data/auth/impl/AuthRepositoryImpl.kt:144 | the token behind the "Bearer " prefix |
| AuthRepository.NewSession | app/src/main/java/com/subreax/reaction/data/auth/impl/AuthRepositoryImpl.kt:106-108 | a missing user id is filled with the current one, the access token gets the prefix, everything else is the backend's |
| AuthRepository.SetNewAuthData | app/src/main/java/com/subreax/reaction/data/auth/impl/AuthRepositoryImpl.kt:106-111 | the new session is assigned, its token published and the session persisted |
| AuthRepository.RefreshToken | app/src/main/java/com/subreax/reaction/data/auth/impl/AuthRepositoryImpl.kt:91-104 | true exactly when signed in and the backend answers; then the session is replaced, otherwise nothing changes |
| AuthRepository.GetToken | app/src/main/java/com/subreax/reaction/data/auth/impl/AuthRepositoryImpl.kt:68-81 | "" without a session; a live token is returned as stored; a dead one is refreshed first; the answer is always the stored token |
| AuthRepository.RefreshDelay | app/src/main/java/com/subreax/reaction/data/auth/impl/AuthRepositoryImpl.kt:122-125 | the larger of the remaining lifetime less one minute and the fifteen-minute minimum, so never below the minimum |
| AuthRepository.ScheduleRefreshTokenWork | app/src/main/java/com/subreax/reaction/data/auth/impl/AuthRepositoryImpl.kt:119-142 | work is enqueued, with that delay, exactly when there is a session |
| AuthRepository.SignIn | app/src/main/java/com/subreax/reaction/data/auth/impl/AuthRepositoryImpl.kt:48-60 | the session changes only on success (stored, refresh scheduled, auth event raised); the answer is the call's outcome without its value |
| AuthRepository.SignInRequest | app/src/main/java/com/subreax/reaction/data/auth/impl/AuthRepositoryImpl.kt:50 | the request carries the credentials as given with the declared defaults |
| AuthRepository.SignUp | app/src/main/java/com/subreax/reaction/data/auth/impl/AuthRepositoryImpl.kt:62-66 | succeeds exactly when the call does, passing a failure on unchanged |
| AuthRepository.TokenStaysInSync | app/src/main/java/com/subreax/reaction/data/auth/impl/AuthRepositoryImpl.kt:24-28 | every operation that assigns the session keeps the published token equal to the session's token |
| AuthRepository.RefreshKeepsUserId | app/src/main/java/com/subreax/reaction/data/auth/impl/AuthRepositoryImpl.kt:91-111 | a refresh whose answer has no user id keeps the current one, and the new token carries the prefix |
| AuthRepository.SignInPersists | app/src/main/java/com/subreax/reaction/data/auth/impl/AuthRepositoryImpl.kt:48-60 | after a successful sign-in with non-zero expiries the stored session reads back from the store |
| LegacyAuth.LoadAuthData | app/src/main/java/com/subreax/reaction/data/auth/AuthRepositoryImpl.kt:74-97 | a session exactly when the store holds all five fields with non-zero expiries; otherwise null and the store is cleared |
| LegacyAuth.SaveAuthData | app/src/main/java/com/subreax/reaction/data/auth/AuthRepositoryImpl.kt:99-111 | tokens and expiries are always written; the user id only when present |
| LegacyAuth.Init | app/src/main/java/com/subreax/reaction/data/auth/AuthRepositoryImpl.kt:17-25 | the loaded session is kept and the signed-in callback runs exactly when there is one |
| LegacyAuth.SignIn | app/src/main/java/com/subreax/reaction/data/auth/AuthRepositoryImpl.kt:27-38 | the backend's session is stored and saved, as it is, only on success |
| LegacyAuth.RefreshToken | app/src/main/java/com/subreax/reaction/data/auth/AuthRepositoryImpl.kt:61-64 | the new session is the backend's with the previous user id |
| LegacyAuth.GetToken | app/src/main/java/com/subreax/reaction/data/auth/AuthRepositoryImpl.kt:46-59 | "" without a session; "Bearer " and the stored token for a live one; a dead one is refreshed and saved first, and a failing refresh propagates |
| LegacyAuth.GetUserId | app/src/main/java/com/subreax/reaction/data/auth/AuthRepositoryImpl.kt:66-68 | the session's user id, or "" |
| LegacyAuth.TokenAlwaysPrefixed | app/src/main/java/com/subreax/reaction/data/auth/AuthRepositoryImpl.kt:46-59 | every token handed out for a session is "Bearer " followed by the stored token |
| LegacyAuth.RefreshSurvivesReload | app/src/main/java/com/subreax/reaction/data/auth/AuthRepositoryImpl.kt:46-64 | a refresh keeps the user id and the refreshed session reads back from the store |
| SignInScreen.Initial | app/src/main/java/com/subreax/reaction/ui/signin/SignInViewModel.kt:16-32 | empty fields, nothing loading, not done, no error |
| SignInScreen.ErrorState | app/src/main/java/com/subreax/reaction/ui/signin/SignInViewModel.kt:45-57 | a state with only the error set |
| SignInScreen.UpdateUsername | app/src/main/java/com/subreax/reaction/ui/signin/SignInViewModel.kt:34-36 | the username becomes the trim of the input; the rest is unchanged |
| SignInScreen.UpdatePassword | app/src/main/java/com/subreax/reaction/ui/signin/SignInViewModel.kt:38-40 | the password becomes the trim of the input; the rest is unchanged |
| SignInScreen.SignIn | app/src/main/java/com/subreax/reaction/ui/signin/SignInViewModel.kt:42-61 | an empty username gives the username error, else an empty password the password error, both without a request; a request is sent iff both are present, then loading and done or the failure's message |
| SignInScreen.WrittenStatesExclusive | app/src/main/java/com/subreax/reaction/ui/signin/SignInViewModel.kt:42-61 | each state written sets at most one of loading, done and an error |
| SignInScreen.RequestIffNotBlank | app/src/main/java/com/subreax/reaction/ui/signin/SignInViewModel.kt:34-52 | typed credentials reach the repository exactly when neither is blank, and are sent trimmed |
| SignInScreen.SettersIdempotent | app/src/main/java/com/subreax/reaction/ui/signin/SignInViewModel.kt:34-40 | storing a stored field again changes nothing |
| SignUpScreen.Initial | app/src/main/java/com/subreax/reaction/ui/signup/SignUpViewModel.kt:16-41 | empty fields, nothing loading, not done, no error |
| SignUpScreen.ErrorState | app/src/main/java/com/subreax/reaction/ui/signup/SignUpViewModel.kt:58-66 | a state with only the error set |
| SignUpScreen.UpdateEmail | app/src/main/java/com/subreax/reaction/ui/signup/SignUpViewModel.kt:43-45 | the email becomes the trim of the input; the rest is unchanged |
| SignUpScreen.UpdateUsername | app/src/main/java/com/subreax/reaction/ui/signup/SignUpViewModel.kt:47-49 | the username becomes the trim of the input; the rest is unchanged |
| SignUpScreen.UpdatePassword | app/src/main/java/com/subreax/reaction/ui/signup/SignUpViewModel.kt:51-53 | the password becomes the trim of the input; the rest is unchanged |
| SignUpScreen.Missing | app/src/main/java/com/subreax/reaction/ui/signup/SignUpViewModel.kt:58-66 | nothing is missing iff all three fields are filled; otherwise the first empty one in the order email, username, password |
| SignUpScreen.SignUp | app/src/main/java/com/subreax/reaction/ui/signup/SignUpViewModel.kt:56-102 | a missing field gives its error and no call; otherwise registration is sent, sign-in only after it succeeds, done iff both succeed, else the failing call's message |
| SignUpScreen.SignInUsesRegisteredCredentials | app/src/main/java/com/subreax/reaction/ui/signup/SignUpViewModel.kt:80-102 | the sign-in after a registration uses the registered username and password |
| SignUpScreen.BlankEmailSendsNothing | app/src/main/java/com/subreax/reaction/ui/signup/SignUpViewModel.kt:43-66 | a blank email stops the form with the email error before any call |
| ChatEditor.Init | app/src/main/java/com/subreax/reaction/ui/chateditor/ChatEditorViewModel.kt:29-35 | both the edited and the original name start at the chat's title, no dialog, no effects |
| ChatEditor.UpdateChatName | app/src/main/java/com/subreax/reaction/ui/chateditor/ChatEditorViewModel.kt:37-39 | the name is stored verbatim and nothing else changes |
| ChatEditor.ApplyChanges | app/src/main/java/com/subreax/reaction/ui/chateditor/ChatEditorViewModel.kt:41-51 | a changed name is saved and then the screen goes back; without changes it only goes back |
| ChatEditor.DismissWarningDialog | app/src/main/java/com/subreax/reaction/ui/chateditor/ChatEditorViewModel.kt:53-55 | only the dialog flag is cleared |
| ChatEditor.DiscardChanges | app/src/main/java/com/subreax/reaction/ui/chateditor/ChatEditorViewModel.kt:57-59 | goes back without saving; nothing else changes |
| ChatEditor.NavBack | app/src/main/java/com/subreax/reaction/ui/chateditor/ChatEditorViewModel.kt:61-68 | with changes the dialog is shown and nothing navigates; without them the screen goes back |
| ChatEditor.NoSilentLoss | app/src/main/java/com/subreax/reaction/ui/chateditor/ChatEditorViewModel.kt:41-70 | with unsaved changes no command except Discard leaves the screen without first saving the name |
| ChatEditor.RetypingOriginalClearsChanges | app/src/main/java/com/subreax/reaction/ui/chateditor/ChatEditorViewModel.kt:37-70 | typing the original title back clears the changes: back and apply then only navigate |
| ChatEditor.OpenedWithoutChanges | app/src/main/java/com/subreax/reaction/ui/chateditor/ChatEditorViewModel.kt:29-51 | right after opening there are no changes and apply only navigates |
| JoinChatScreen.Initial | app/src/main/java/com/subreax/reaction/ui/joinchat/JoinChatViewModel.kt:31 | the screen starts Loading with no effects |
| JoinChatScreen.Opened | app/src/main/java/com/subreax/reaction/ui/joinchat/JoinChatViewModel.kt:34-55 | a member sees the already-a-member error; a non-member the unknown-chat error or the chat's data, not joining; data is shown iff not a member and the chat is found |
| JoinChatScreen.JoinChat | app/src/main/java/com/subreax/reaction/ui/joinchat/JoinChatViewModel.kt:57-67 | outside Data nothing happens; on Data the screen is marked joining and the join is requested; it navigates to that chat only when the server's confirmation of the id arrives |
| JoinChatScreen.CancelInvite | app/src/main/java/com/subreax/reaction/ui/joinchat/JoinChatViewModel.kt:69-71 | navigates home and changes nothing else |
| JoinChatScreen.ErrorScreenIgnoresJoin | app/src/main/java/com/subreax/reaction/ui/joinchat/JoinChatViewModel.kt:57-71 | on an error screen joining does nothing and only cancelling acts |
| JoinChatScreen.SecondPressJoinsAgain | app/src/main/java/com/subreax/reaction/ui/joinchat/JoinChatViewModel.kt:57-67 | a second press while joining requests the join again |
| JoinChatScreen.OpenFromRepository | app/src/main/java/com/subreax/reaction/ui/joinchat/JoinChatViewModel.kt:34-55 | the screen opened against the repository as written: a member sees the already-a-member error |
| JoinChatScreen.InvitationNeverShown | app/src/main/java/com/subreax/reaction/ui/joinchat/JoinChatViewModel.kt:34-55 | as written no invitation is ever shown: a non-member always sees the unknown-chat error |
| JoinChatScreen.OpenWithRemoteLookup | app/src/main/java/com/subreax/reaction/ui/joinchat/JoinChatViewModel.kt:34-55 | with a backend lookup for a non-member, the invitation is shown exactly when the lookup succeeds |
| JoinChatScreen.InvitationShownWithRemoteLookup | app/src/main/java/com/subreax/reaction/ui/joinchat/JoinChatViewModel.kt:34-67 | with the backend lookup a non-member sees the invited chat and accepting it requests the join and opens it |
| ChatScreen.Initial | app/src/main/java/com/subreax/reaction/ui/chat/ChatViewModel.kt:31 | loading, empty title, no avatar, 0 members, no messages, empty input |
| ChatScreen.Opened | app/src/main/java/com/subreax/reaction/ui/chat/ChatViewModel.kt:39-67 | an unknown chat gives one not-loading state titled "unknown chat"; a known one first the chat's header while loading, then the same with the repository's messages |
| ChatScreen.Open | app/src/main/java/com/subreax/reaction/ui/chat/ChatViewModel.kt:39-67 | after opening the screen is not loading and shows either the unknown-chat title without messages or the chat's title with its messages |
| ChatScreen.OnMessagesChanged | app/src/main/java/com/subreax/reaction/ui/chat/ChatViewModel.kt:70-76 | only an announcement for this chat reloads its messages; any other leaves the screen as it is |
| ChatScreen.UpdateEnteredMessage | app/src/main/java/com/subreax/reaction/ui/chat/ChatViewModel.kt:80-82 | the input is stored verbatim and nothing else changes |
| ChatScreen.SendMessage | app/src/main/java/com/subreax/reaction/ui/chat/ChatViewModel.kt:84-92 | blank input is neither sent nor cleared; other input is sent trimmed (non-empty, trimmed) and cleared |
| ChatScreen.SendKeepsLogClean | app/src/main/java/com/subreax/reaction/ui/chat/ChatViewModel.kt:80-92 | everything ever sent is non-empty and trimmed |
| ChatScreen.NoDoubleSend | app/src/main/java/com/subreax/reaction/ui/chat/ChatViewModel.kt:84-92 | a second send right after a successful one sends nothing |
| ChatScreen.LiveMessageRefreshesItsScreen | app/src/main/java/com/subreax/reaction/ui/chat/ChatViewModel.kt:70-76 | a live message makes the repository announce its chat, and only the screen of that chat reloads |
| HomeScreen.Initial | app/src/main/java/com/subreax/reaction/ui/home/HomeViewModel.kt:24 | waiting for the network with no chats |
| HomeScreen.OnAppState | app/src/main/java/com/subreax/reaction/ui/home/HomeViewModel.kt:34-44 | every value replaces the shown state; the list is refetched only on Ready and kept otherwise |
| HomeScreen.OnChatsChanged | app/src/main/java/com/subreax/reaction/ui/home/HomeViewModel.kt:53-56 | the list is refetched and the state kept |
| HomeScreen.RunSnoc | app/src/main/java/com/subreax/reaction/ui/home/HomeViewModel.kt:28-44 | running one more event is one more step |
| HomeScreen.ShowsLatest | app/src/main/java/com/subreax/reaction/ui/home/HomeViewModel.kt:28-56 | after any events the screen shows the last state received and the list of the last refetch |
| HomeScreen.GeneratedChatName | app/src/main/java/com/subreax/reaction/ui/home/HomeViewModel.kt:47-51 | "Chat #" followed, for a clock at or after the epoch, by the decimal number now mod 20 plus 1, which is between 1 and 20 |
| ChatDetailsScreen.Initial | app/src/main/java/com/subreax/reaction/ui/chatdetails/ChatDetailsViewModel.kt:29-31 | the chat id with an empty name, no members and notifications off |
| ChatDetailsScreen.RequestChatDetails | app/src/main/java/com/subreax/reaction/ui/chatdetails/ChatDetailsViewModel.kt:62-77 | an unknown chat leaves everything untouched; a known one shows its title and members, with notifications enabled iff it is not muted |
| ChatDetailsScreen.OnChatChanged | app/src/main/java/com/subreax/reaction/ui/chatdetails/ChatDetailsViewModel.kt:79-87 | details are re-requested only for this chat's id or the empty id |
| ChatDetailsScreen.ToggleNotifications | app/src/main/java/com/subreax/reaction/ui/chatdetails/ChatDetailsViewModel.kt:41-48 | the switch moves at once and the request waiting to be sent becomes this one |
| ChatDetailsScreen.DelayElapsed | app/src/main/java/com/subreax/reaction/ui/chatdetails/ChatDetailsViewModel.kt:41-48 | the waiting request, if any, goes to the repository; a failed backend call ends in an uncaught exception, a successful one records the request, applies the repository's toggle and leaves nothing waiting |
| ChatDetailsScreen.DebounceSendsLast | app/src/main/java/com/subreax/reaction/ui/chatdetails/ChatDetailsViewModel.kt:41-48 | several flips within one delay send one request, for the final position; it crashes exactly when the call fails, and otherwise the repository receives that final position |
| ChatDetailsScreen.FlipsLast | app/src/main/java/com/subreax/reaction/ui/chatdetails/ChatDetailsViewModel.kt:41-48 | after several flips the waiting request and the switch are the last flip |
| ChatDetailsScreen.ToggleSurvivesReload | app/src/main/java/com/subreax/reaction/ui/chatdetails/ChatDetailsViewModel.kt:41-77 | after a successful toggle of a cached chat the next details request shows the switch where the user left it |
| Palette.UnitSum | app/src/main/java/com/subreax/reaction/ui/theme/Color.kt:49 | a character counts as its code below U+10000 and as the sum of its surrogate pair above |
| Palette.CodeSumPermutation | app/src/main/java/com/subreax/reaction/ui/theme/Color.kt:49 | the code sum depends only on which characters occur how often |
| Palette.WrapInt32 | app/src/main/java/com/subreax/reaction/ui/theme/Color.kt:49 | the 32-bit value congruent to the input, unchanged when it fits |
| Palette.KotlinSum | app/src/main/java/com/subreax/reaction/ui/theme/Color.kt:49 | the `Int` sum equals the true sum whenever that fits |
| Palette.ColorIndexAsWritten | app/src/main/java/com/subreax/reaction/ui/theme/Color.kt:48-51 | the index `sum % 5` as written: in range when it exists, and absent (the crash) exactly when the truncating remainder is negative |
| Palette.ToColorAsWritten | app/src/main/java/com/subreax/reaction/ui/theme/Color.kt:48-51 | `toColor` as written: the colour at that index, absent exactly when the index is |
| Palette.OverflowingNameCrashes | app/src/main/java/com/subreax/reaction/ui/theme/Color.kt:48-56 | a name of 32770 U+FFFD characters makes `toColor` and `toGradient` as written index at -1 |
| Palette.ColorIndex | app/src/main/java/com/subreax/reaction/ui/theme/Color.kt:48-56 | an index in range of both tables, congruent to the sum, and equal to the index as written whenever that exists |
| Palette.ToColor | app/src/main/java/com/subreax/reaction/ui/theme/Color.kt:32-51 | a colour of the table, the one at the name's index |
| Palette.ToGradientAsWritten | app/src/main/java/com/subreax/reaction/ui/theme/Color.kt:53-56 | the gradient at the truncating-remainder index, and a crash exactly when that index is negative |
| Palette.ToGradient | app/src/main/java/com/subreax/reaction/ui/theme/Color.kt:40-56 | the corrected gradient: a two-colour entry of the table at the name's floor-remainder index |
| Palette.AgreesWithoutOverflow | app/src/main/java/com/subreax/reaction/ui/theme/Color.kt:48-56 | whenever the code does not crash it picks the corrected colour and gradient, in particular whenever the sum fits in `Int` |
| Palette.GradientStartsWithColor | app/src/main/java/com/subreax/reaction/ui/theme/Color.kt:32-56 | a name's gradient starts with the name's colour |
| Palette.PermutationKeepsColor | app/src/main/java/com/subreax/reaction/ui/theme/Color.kt:48-56 | rearranging a name's characters keeps its colour and gradient |
| Palette.EmptyNameColors | app/src/main/java/com/subreax/reaction/ui/theme/Color.kt:17-56 | the empty name gets the first colour and the first gradient |

## Left out

- Coroutine scheduling, mutexes, `StateFlow` conflation and shared-flow delivery are not modelled. Each stream is the finite sequence of values it delivers. The 5-second back-off before an error retry is not modelled.
- The socket.io transport, Retrofit, Gson and `JSONObject` parsing are not modelled. An error body is given together with the JSON object it parses to, and inbound socket events arrive already decoded.
- WorkManager and the `RefreshTokenWorker` are not modelled. Scheduling is recorded as the initial delay of the enqueued work.
- Android `SharedPreferences` is modelled as two maps. Only the string and long entries the store uses are modelled.
- String resources are not translated. `UiText.asString`, `StringResource.value` and `errorToString` are not part of this model.
- SignInScreen.SignIn: the error shown after a failed call is the failure's `UiText` itself, not the string `errorToString` would render from it.
- SignUpScreen.SignUp: the error shown after a failed call is the failure's `UiText` itself, not the string `errorToString` would render from it.
- FlowKtx.WaitFor: a stream that completes without a match makes the code throw at `result!!`. That case is excluded by a precondition, not modelled.
- ChatRepository.CreateChat: the wait needs at least one announcement. The socket's streams are shared flows that never complete, so without one the code waits forever. That case is excluded by a precondition.
- ChatRepository.JoinChat: the confirmation stream must contain the chat id. Without it the code waits forever, and the case is excluded the same way. The join screen does model the missing confirmation: it then never navigates.
- ChatRepository.LeaveChat: the confirmation stream must contain the chat id. Without it the code waits forever, and the case is excluded the same way.
- ChatEditor.Init: the chat must exist, because the code dereferences the lookup with `!!`.
- Domain.ToMessage: the sender must be resolvable, because the code applies `!!` to the user lookup.
- HomeScreen.GeneratedChatName: for a clock before the epoch, only the prefix is stated. Kotlin's remainder then gives a suffix from "-18" to "1".
- AuthRepository.RefreshDelay: `Long` arithmetic is unbounded here. A 64-bit wrap-around on absurd expiries is not modelled.
- `Long` timestamps elsewhere are unbounded for the same reason.
- ApiCaller.UnsafeApiCall: the dispatcher switch is not modelled. The function hands the call's outcome through unchanged.
- `getChatsList`: the order among chats with equal sort keys is not stated. The store is a `LinkedHashMap`, so the code lists chats in first-insertion order and its stable sort keeps that order for ties. The model leaves the order open.
- ChatRepository.SortKey: one `now` serves the whole sort. The code's selector reads the clock again for every chat without messages, so such chats may get slightly different keys.
- The DTO conversions take the user lookup as a fixed function. In the code the lookup is `getUserById`, which can ask the backend on a miss and grow the user cache. Those fetches and cache updates are not modelled.
- `WebSocketIoService.start` suspends until the connected flag turns true. That wait is not modelled; the flag is set by `Socket.OnConnect`.
- Which endpoint `toggleNotifications` calls, mute or unmute, is not modelled. Only its effect on the store is.
- The editor's `SaveName` effect stands for the chat repository's rename, which the repository does not implement.
- The editor's `chatAvatar`, which is never set, is not modelled.
- The share, edit and navigate-back callbacks of the details screen are plain navigation and are not modelled.
- The chat screen takes the repository's message list as an input. The home screen takes the sorted chat list as an input.
- `colorGradientFor` in Utils.kt computes a hue from floats and is not modelled.
- The chat-share screen, the UI composables, navigation and dependency wiring are outside the modelled core.

## Findings

| source | as written | input that shows it | evidently intended | confidence | as-written member | corrected member |
|---|---|---|---|---|---|---|
| app/src/main/java/com/subreax/reaction/ui/joinchat/JoinChatViewModel.kt:34-55 | membership is `isUserAMemberOfTheChat`, which is "the chat is in the local store"; a non-member's chat is then looked up with `getChatById`, which reads the same store | any invitation to a chat the user has not joined: the chat is absent from the store, so the lookup returns null and the screen shows "invited to a chat that does not exist" | a non-member sees the invited chat, looked up on the backend (`RemoteChatDataSource.getById`) | medium, not executed | JoinChatScreen.InvitationNeverShown | JoinChatScreen.InvitationShownWithRemoteLookup |
| app/src/main/java/com/subreax/reaction/ui/theme/Color.kt:48-51 | `toColor`: `sumOf { it.code }` is an `Int` that wraps, and `%` keeps the dividend's sign, so the index can be negative | a name of 32770 characters U+FFFD: the sum 2147516410 wraps to -2147450886, whose remainder by 5 is -1, and `colors[-1]` throws | an index in 0..4 for every name, as `mod` gives (the code uses `mod` for the hue in Utils.kt) | low, not executed | Palette.OverflowingNameCrashes | Palette.ToColor |
| app/src/main/java/com/subreax/reaction/ui/theme/Color.kt:53-56 | `toGradient` computes the same wrapping sum and truncating remainder as `toColor` | the same name of 32770 characters U+FFFD: the index is -1 and `colorGradients[-1]` throws | an index in 0..4 for every name, as `mod` gives | low, not executed | Palette.OverflowingNameCrashes | Palette.ToGradient |

/** The real-time socket service (data/WebSocketIoService.kt), with the socket.io
    client abstracted away.

    The service holds an optional open socket (created with the headers in
    force at that moment), the header map, the connected flag and the log of
    events it has emitted. The signed-in user's id and the clock are inputs.
    Inbound events are handed to the service already decoded: an argument list
    whose first element is the JSON object the server sent.
 */
module Socket {
  import opened Wrappers
  import opened Text
  import opened Domain
  import AppState

  /** A JSON member value: the payloads only carry strings and numbers. */
  datatype Field = Str(s: string) | Num(n: int)

  /** One `emit(event, json)` on the open socket. */
  datatype Emission = Emission(event: string, payload: map<string, Field>)

  /** An open socket.io client and the extra headers it was built with. */
  datatype Handle = Handle(headers: map<string, seq<string>>)

  datatype Service = Service(
    socket: Option<Handle>,
    headers: map<string, seq<string>>,
    connected: bool,
    emitted: seq<Emission>)

  const AuthorizationHeader: string := "Authorization"

  /** A new service: no socket, no headers, not connected. */
  function Initial(): (s: Service)
    ensures s.socket == None && s.headers == map[] && !s.connected && s.emitted == []
  {
    Service(None, map[], false, [])
  }

  /** `start()`: open a socket with the current headers unless one is open.
      The code then suspends until the connected flag turns true, which
      happens through `OnConnect`. */
  function Start(s: Service): (r: Service)
    ensures s.socket.Some? ==> r == s
    ensures s.socket.None? ==> r == s.(socket := Some(Handle(s.headers)))
  {
    if s.socket.Some? then s else s.(socket := Some(Handle(s.headers)))
  }

  /** `stop()`: close and forget the socket, if there is one. */
  function Stop(s: Service): (r: Service)
    ensures r.socket == None
    ensures r.headers == s.headers && r.connected == s.connected && r.emitted == s.emitted
  {
    s.(socket := None)
  }

  /** `_socket?.emit(event, json)`: nothing happens without an open socket. */
  function Emit(s: Service, e: Emission): (r: Service)
    ensures s.socket.None? ==> r == s
    ensures s.socket.Some? ==> r == s.(emitted := s.emitted + [e])
  {
    if s.socket.Some? then s.(emitted := s.emitted + [e]) else s
  }

  /** `send(chatId, text)`. */
  function Send(s: Service, userId: string, chatId: string, text: string, now: int): (r: Service)
    ensures s.socket.None? ==> r == s
    ensures s.socket.Some? ==> r.emitted == s.emitted + [Emission("newMessage", map[
      "text" := Str(text), "userId" := Str(userId), "roomId" := Str(chatId),
      "date" := Num(now), "type" := Str("text")])]
    ensures r.socket == s.socket && r.headers == s.headers && r.connected == s.connected
  {
    Emit(s, Emission("newMessage", map[
      "text" := Str(text), "userId" := Str(userId), "roomId" := Str(chatId),
      "date" := Num(now), "type" := Str("text")]))
  }

  /** `createChat(name)`. */
  function CreateChat(s: Service, userId: string, name: string): (r: Service)
    ensures s.socket.None? ==> r == s
    ensures s.socket.Some? ==> r.emitted == s.emitted + [Emission("createRoom", map["userId" := Str(userId), "name" := Str(name)])]
    ensures r.socket == s.socket && r.headers == s.headers && r.connected == s.connected
  {
    Emit(s, Emission("createRoom", map["userId" := Str(userId), "name" := Str(name)]))
  }

  /** `joinChat(chatId)`. */
  function JoinChat(s: Service, userId: string, chatId: string): (r: Service)
    ensures s.socket.None? ==> r == s
    ensures s.socket.Some? ==> r.emitted == s.emitted + [Emission("joinToRoom", map["userId" := Str(userId), "roomId" := Str(chatId)])]
    ensures r.socket == s.socket && r.headers == s.headers && r.connected == s.connected
  {
    Emit(s, Emission("joinToRoom", map["userId" := Str(userId), "roomId" := Str(chatId)]))
  }

  /** `leaveChat(chatId)`. */
  function LeaveChat(s: Service, userId: string, chatId: string): (r: Service)
    ensures s.socket.None? ==> r == s
    ensures s.socket.Some? ==> r.emitted == s.emitted + [Emission("leaveFromRoom", map["userId" := Str(userId), "roomId" := Str(chatId)])]
    ensures r.socket == s.socket && r.headers == s.headers && r.connected == s.connected
  {
    Emit(s, Emission("leaveFromRoom", map["userId" := Str(userId), "roomId" := Str(chatId)]))
  }

  /** The connect event: join the user's rooms, then mark the service connected. */
  function OnConnect(s: Service, userId: string): (r: Service)
    ensures r.connected
    ensures s.socket.Some? ==> r.emitted == s.emitted + [Emission("connectToRooms", map["userId" := Str(userId)])]
    ensures s.socket.None? ==> r.emitted == s.emitted
    ensures r.socket == s.socket && r.headers == s.headers
  {
    Emit(s, Emission("connectToRooms", map["userId" := Str(userId)])).(connected := true)
  }

  /** The connect-error event. */
  function OnConnectError(s: Service): (r: Service)
    ensures !r.connected
    ensures r.socket == s.socket && r.headers == s.headers && r.emitted == s.emitted
  {
    s.(connected := false)
  }

  /** The disconnect event. */
  function OnDisconnect(s: Service): (r: Service)
    ensures !r.connected
    ensures r.socket == s.socket && r.headers == s.headers && r.emitted == s.emitted
  {
    s.(connected := false)
  }

  /** The reaction to a new value on the token stream: always stop; with a real
      token, put it in the Authorization header and start again. */
  function OnTokenChanged(s: Service, token: string): (r: Service)
    ensures token == "" ==> r == Stop(s)
    ensures token != "" ==> r.headers == s.headers[AuthorizationHeader := [token]]
    ensures token != "" ==> r.socket == Some(Handle(r.headers))
    ensures r.connected == s.connected && r.emitted == s.emitted
  {
    var stopped := Stop(s);
    if token != "" then Start(stopped.(headers := stopped.headers[AuthorizationHeader := [token]]))
    else stopped
  }

  /** The connecting action registered with the application state: restart the
      socket and report success. */
  function ConnectingAction(s: Service): (r: (Service, bool))
    ensures r.1
    ensures r.0.socket == Some(Handle(s.headers))
    ensures r.0.headers == s.headers && r.0.connected == s.connected && r.0.emitted == s.emitted
  {
    (Start(Stop(s)), true)
  }

  /** `JSONObject.getString`: a string as it is, a number in decimal. */
  function FieldText(f: Field): (t: string)
    ensures f.Str? ==> t == f.s
    ensures f.Num? ==> t == IntToString(f.n)
  {
    match f
    case Str(x) => x
    case Num(n) => IntToString(n)
  }

  /** What an inbound create/join/leave handler does with its arguments: relay
      a room id on its stream, ignore an empty argument list, or throw because
      `getString` finds no `roomId` member. The create handler throws inside a
      coroutine of the service's scope, which cancels that scope; join and
      leave throw on the socket's event thread. */
  datatype Relay = Relayed(roomId: string) | Ignored | Throws

  /** The room id an inbound create/join/leave event relays. */
  function RoomIdOf(args: seq<map<string, Field>>): (r: Relay)
    ensures r.Ignored? <==> |args| == 0
    ensures r.Throws? <==> |args| > 0 && "roomId" !in args[0]
    ensures r.Relayed? ==> r.roomId == FieldText(args[0]["roomId"])
  {
    if |args| == 0 then Ignored
    else if "roomId" in args[0] then Relayed(FieldText(args[0]["roomId"]))
    else Throws
  }

  /** The message an inbound `onSendMessage` event relays. `args` holds the
      decoded `message` member of each argument object. */
  function MessageOf(args: seq<MessageDto>, lookup: UserLookup): (r: Option<Message>)
    requires |args| > 0 ==> SenderKnown(args[0], lookup)
    ensures r.Some? <==> |args| > 0
    ensures r.Some? ==> r.value == ToMessage(args[0], lookup)
  {
    if |args| > 0 then Some(ToMessage(args[0], lookup)) else None
  }

  /** The observer of the connected flag: every false value restarts the
      application state; a true value changes nothing. */
  function ObserveConnected<A>(src: AppState.Source<A>, value: bool, netAvailable: bool): (r: AppState.Source<A>)
    ensures !value ==> r == AppState.Restart(src, netAvailable)
    ensures value ==> r == src
  {
    if value then src else AppState.Restart(src, netAvailable)
  }

  /** Starting twice is starting once, and so is stopping. */
  lemma StartStopIdempotent(s: Service)
    ensures Start(Start(s)) == Start(s)
    ensures Stop(Stop(s)) == Stop(s)
    ensures Stop(Start(s)) == Stop(s)
  {
  }

  /** After a token change the socket, if any, was built with that very token;
      the empty token leaves the service without a socket. */
  lemma TokenChangeRebuildsSocket(s: Service, token: string)
    ensures OnTokenChanged(s, token).socket.Some? <==> token != ""
    ensures token != "" ==>
      OnTokenChanged(s, token).socket.value.headers[AuthorizationHeader] == [token]
  {
  }

  /** A fresh service reports not connected, and the observer turns that
      initial value into a restart of the application state. */
  lemma InitialValueRestarts<A>(src: AppState.Source<A>, netAvailable: bool)
    ensures ObserveConnected(src, Initial().connected, netAvailable).state ==
      (if netAvailable then AppState.Connecting else AppState.WaitingForNetwork)
  {
  }

  /** Numeric room ids are relayed as their decimal text, which reads back as the
      number for non-negative ids. */
  lemma NumericRoomIdRoundTrip(args: seq<map<string, Field>>, n: nat)
    requires |args| > 0 && "roomId" in args[0] && args[0]["roomId"] == Num(n)
    ensures RoomIdOf(args).Relayed? && ParseDigits(RoomIdOf(args).roomId) == n
  {
    NatToStringRoundTrip(n);
  }
}

/**
 * `SparkMessaging`, the facade applications use. It owns the error
 * subscribers and the connection, creates a message handler and a room
 * handler on every completed connect, queues subscriptions made before the
 * first connect, and keeps three registries of its own: connection-state,
 * room-joined and room-left subscribers.
 *
 * The asynchronous `connect()` is two steps: `Connect` runs up to the `await`
 * on the connection, and `CompleteConnect` is the continuation that runs once
 * the connection's promise has resolved.
 */
module Sdk {
  import opened Wrappers
  import opened Sequences
  import opened Callbacks
  import opened Errors
  import opened ErrorHandling
  import opened Transport
  import opened Rooms
  import opened Messaging
  import opened Config
  import opened Connections

  const NOT_INITIALIZED_MESSAGE := "SDK is not initialized. Call connect() first."
  const SOCKET_CONNECTION_FAILED := "Socket connection failed"

  /** The rejection of every operation that needs a handler before the first completed connect. */
  function NotInitialized(): (e: JsError)
    ensures e.SparkErr? && e.error.code == NOT_INITIALIZED
  {
    CodedError(NOT_INITIALIZED_MESSAGE, NOT_INITIALIZED)
  }

  /** How the synchronous part of the facade's `connect()` ends. */
  datatype ConnectStep =
    /** Initialised and connected: the promise resolves and nothing changes. */
    | AlreadyConnected
    /** The connection's `connect()` was called and its promise stands as given. */
    | Started(start: ConnectStart)

  /** The registries a subscription can be in. */
  datatype Registry = Messages | RoomMessages | ConnectedEvents

  /** The unsubscribe closure an `on*` method returns, with what it captured. */
  datatype Unsubscriber =
    | FromHandler(registry: Registry, handler: MessageHandler, cb: CallbackId)
    | FromQueue(registry: Registry, cb: CallbackId)
    | FromErrors(cb: CallbackId)
    | FromStateChanges(cb: CallbackId)
    | FromRoomJoined(cb: CallbackId)
    | FromRoomLeft(cb: CallbackId)

  /** The facade's own mutable fields, as one value, so a contract can say which of them an operation changes. */
  datatype Facade = Facade(
    messageHandler: MessageHandler?,
    roomHandler: RoomHandler?,
    isInitialized: bool,
    connectedAt: Option<int>,
    pendingMessages: seq<CallbackId>,
    pendingRoomMessages: seq<CallbackId>,
    pendingConnected: seq<CallbackId>,
    stateChanges: seq<CallbackId>,
    roomJoined: seq<CallbackId>,
    roomLeft: seq<CallbackId>)

  /** What `getConnectionStatus()` returns. */
  datatype ConnectionStatus = ConnectionStatus(isConnected: bool, socketId: Option<string>, connectedAt: Option<int>)

  /** What `waitForConnection()` resolves with. */
  datatype ConnectionData = ConnectionData(socketId: Option<string>, connectedAt: int)

  class SparkMessaging {
    const options: Options
    const errorHandler: ErrorHandler
    const connection: Connection
    var messageHandler: MessageHandler?
    var roomHandler: RoomHandler?
    var isInitialized: bool
    /** The clock reading taken when the last connect completed. */
    var connectedAt: Option<int>
    var pendingMessageCallbacks: seq<CallbackId>
    var pendingRoomMessageCallbacks: seq<CallbackId>
    var pendingConnectedCallbacks: seq<CallbackId>
    var connectionStateChangeCallbacks: seq<CallbackId>
    var roomJoinedCallbacks: seq<CallbackId>
    var roomLeftCallbacks: seq<CallbackId>

    /**
     * The facade's invariant: the two handlers are created together on one
     * socket; once they exist nothing is queued any more; a connect time is
     * recorded exactly while the SDK is initialised.
     */
    ghost predicate Valid()
      reads this, connection, messageHandler, roomHandler
    {
      && connection.errorHandler == errorHandler
      && connection.options == options
      && (messageHandler == null <==> roomHandler == null)
      && (messageHandler != null ==> messageHandler.socket == roomHandler.socket && roomHandler.Valid())
      && (messageHandler != null ==>
            pendingMessageCallbacks == [] && pendingRoomMessageCallbacks == [] && pendingConnectedCallbacks == [])
      && (isInitialized <==> connectedAt.Some?)
      && (isInitialized ==> messageHandler != null)
    }

    /** The current values of the facade's mutable fields. */
    function Fields(): Facade
      reads this
    {
      Facade(messageHandler, roomHandler, isInitialized, connectedAt,
             pendingMessageCallbacks, pendingRoomMessageCallbacks, pendingConnectedCallbacks,
             connectionStateChangeCallbacks, roomJoinedCallbacks, roomLeftCallbacks)
    }

    /** The fields the constructor sets once the options are valid. */
    constructor(options: Options)
      ensures Valid() && fresh(connection) && fresh(errorHandler)
      ensures this.options == options
      ensures connection.socket == null && !connection.isConnecting && errorHandler.errorCallbacks == []
      ensures messageHandler == null && roomHandler == null && !isInitialized && connectedAt == None
      ensures pendingMessageCallbacks == [] && pendingRoomMessageCallbacks == [] && pendingConnectedCallbacks == []
      ensures connectionStateChangeCallbacks == [] && roomJoinedCallbacks == [] && roomLeftCallbacks == []
    {
      this.options := options;
      var handler := new ErrorHandler();
      errorHandler := handler;
      connection := new Connection(options, handler);
      messageHandler := null;
      roomHandler := null;
      isInitialized := false;
      connectedAt := None;
      pendingMessageCallbacks := [];
      pendingRoomMessageCallbacks := [];
      pendingConnectedCallbacks := [];
      connectionStateChangeCallbacks := [];
      roomJoinedCallbacks := [];
      roomLeftCallbacks := [];
    }

    /**
     * `new SparkMessaging(...)`: merge and validate the options, throwing
     * `INVALID_OPTIONS` when a required one is falsy; then, unless
     * `autoConnect` is `false`, start a connect. `ioFailure` is what the
     * transport's `io(...)` throws during that connect, if anything.
     */
    static method Create(args: ConstructorArgs, window: Option<EnvSource>, env: Option<EnvSource>, ioFailure: Option<Thrown>)
      returns (r: Result<SparkMessaging, JsError>, autoStart: Option<ConnectStep>)
      ensures ResolveOptions(args, window, env).Failure? ==>
        r == Failure(ResolveOptions(args, window, env).error) && autoStart == None
      ensures ResolveOptions(args, window, env).Success? ==>
        && r.Success? && fresh(r.value) && r.value.Valid()
        && r.value.options == ResolveOptions(args, window, env).value
        && fresh(r.value.connection) && fresh(r.value.errorHandler) && r.value.errorHandler.errorCallbacks == []
        && r.value.Fields() == Facade(null, null, false, None, [], [], [], [], [], [])
        && (autoStart.Some? <==> r.value.options.StartsAutomatically())
        && (autoStart.None? ==> r.value.connection.socket == null && !r.value.connection.isConnecting)
        && (autoStart.Some? ==>
              && autoStart.value.Started?
              && autoStart.value.start ==
                   (if ioFailure.None? then Pending
                    else Rejected(if ioFailure.value.Threw? then ioFailure.value.error else PlainError(UNKNOWN_CONNECTION_ERROR))))
        && (autoStart.Some? && ioFailure.None? ==>
              && r.value.connection.isConnecting
              && r.value.connection.socket != null && fresh(r.value.connection.socket)
              && r.value.connection.socket.url == r.value.options.serverUrl
              && r.value.connection.socket.options == BuildSocketOptions(r.value.options)
              && !r.value.connection.socket.connected && r.value.connection.socket.id == None
              && r.value.connection.socket.emitted == [])
        && (autoStart.Some? && ioFailure.Some? ==> r.value.connection.socket == null && !r.value.connection.isConnecting)
    {
      var resolved := ResolveOptions(args, window, env);
      if resolved.Failure? {
        return Failure(resolved.error), None;
      }
      var sdk := new SparkMessaging(resolved.value);
      autoStart := None;
      if sdk.options.StartsAutomatically() {
        var step, calls := sdk.Connect(ioFailure, {});
        autoStart := Some(step);
      }
      r := Success(sdk);
    }

    /**
     * A caller's own `connect()` straight after `new SparkMessaging(...)` with
     * `autoConnect` left on: the automatic connect is still in flight, so the
     * caller's connect rejects with `Connection already in progress`.
     */
    static method ConnectAfterAutoStart(args: ConstructorArgs, window: Option<EnvSource>, env: Option<EnvSource>)
      returns (step: ConnectStep)
      requires ResolveOptions(args, window, env).Success?
      requires ResolveOptions(args, window, env).value.StartsAutomatically()
      ensures step == Started(Rejected(PlainError(ALREADY_IN_PROGRESS)))
    {
      var r, autoStart := Create(args, window, env, None);
      var calls;
      step, calls := r.value.Connect(None, {});
    }

    /**
     * The synchronous part of `connect()`: nothing to do when initialised and
     * connected; otherwise the connection's `connect()` is started.
     */
    method Connect(ioFailure: Option<Thrown>, throwing: set<CallbackId>) returns (step: ConnectStep, calls: seq<Call<ErrorData>>)
      requires Valid()
      modifies connection
      ensures Valid() && Fields() == old(Fields())
      ensures old(isInitialized) && old(connection.IsConnected()) ==>
        step == AlreadyConnected && calls == [] && connection.socket == old(connection.socket)
        && connection.isConnecting == old(connection.isConnecting)
      ensures !(old(isInitialized) && old(connection.IsConnected())) ==>
        && step.Started?
        && (old(connection.IsConnected()) ==>
              && step.start == Resolved && calls == [] && connection.socket == old(connection.socket)
              && connection.isConnecting == old(connection.isConnecting))
        && (!old(connection.IsConnected()) && old(connection.isConnecting) ==>
              && step.start == Rejected(PlainError(ALREADY_IN_PROGRESS)) && calls == []
              && connection.socket == old(connection.socket) && connection.isConnecting)
        && (!old(connection.IsConnected()) && !old(connection.isConnecting) && ioFailure.None? ==>
              && step.start == Pending && calls == [] && connection.isConnecting
              && connection.socket != null && fresh(connection.socket)
              && connection.socket.url == options.serverUrl && connection.socket.options == BuildSocketOptions(options)
              && !connection.socket.connected && connection.socket.id == None && connection.socket.emitted == [])
        && (!old(connection.IsConnected()) && !old(connection.isConnecting) && ioFailure.Some? ==>
              && step.start == Rejected(if ioFailure.value.Threw? then ioFailure.value.error else PlainError(UNKNOWN_CONNECTION_ERROR))
              && !connection.isConnecting && connection.socket == old(connection.socket)
              && calls == Deliveries(errorHandler.errorCallbacks, Normalize(RaisedError(step.start.error)), throwing))
    {
      if isInitialized && connection.IsConnected() {
        return AlreadyConnected, [];
      }
      var start;
      start, calls := connection.Connect(ioFailure, throwing);
      step := Started(start);
    }

    /**
     * The rest of `connect()`, once the connection's promise has resolved.
     * Without a socket it rejects with `CONNECTION_FAILED`. Otherwise it
     * records `now`, creates fresh handlers on the socket, registers the
     * queued subscriptions with them (connected, then message, then room
     * message, each in its order), invokes the queued connected subscribers
     * at once if the socket is connected, empties the queues, marks the SDK
     * initialised and tells the state-change subscribers `true`.
     */
    method CompleteConnect(now: int, throwing: set<CallbackId>)
      returns (outcome: Outcome, connectedCalls: seq<Call<ConnectedData>>, stateCalls: seq<Call<bool>>)
      requires Valid()
      modifies this
      ensures Valid()
      ensures connectionStateChangeCallbacks == old(connectionStateChangeCallbacks)
      ensures roomJoinedCallbacks == old(roomJoinedCallbacks) && roomLeftCallbacks == old(roomLeftCallbacks)
      ensures connection.socket == null ==>
        && outcome == Failed(CodedError(SOCKET_CONNECTION_FAILED, CONNECTION_FAILED))
        && connectedCalls == [] && stateCalls == []
        && messageHandler == old(messageHandler) && roomHandler == old(roomHandler)
        && isInitialized == old(isInitialized) && connectedAt == old(connectedAt)
        && pendingMessageCallbacks == old(pendingMessageCallbacks)
        && pendingRoomMessageCallbacks == old(pendingRoomMessageCallbacks)
        && pendingConnectedCallbacks == old(pendingConnectedCallbacks)
      ensures connection.socket != null ==>
        && outcome == Done && isInitialized && connectedAt == Some(now)
        && messageHandler != null && fresh(messageHandler) && fresh(roomHandler)
        && messageHandler.socket == connection.socket && roomHandler.joinedRooms == []
        && messageHandler.connectedCallbacks == old(pendingConnectedCallbacks)
        && messageHandler.messageCallbacks == old(pendingMessageCallbacks)
        && messageHandler.roomMessageCallbacks == old(pendingRoomMessageCallbacks)
        && pendingMessageCallbacks == [] && pendingRoomMessageCallbacks == [] && pendingConnectedCallbacks == []
        && (connection.socket.connected ==>
              connectedCalls == Deliveries(old(pendingConnectedCallbacks),
                ConnectedData(DEFAULT_CONNECTED_MESSAGE, Or(connection.socket.id, ""), Some(now)), throwing))
        && (!connection.socket.connected ==> connectedCalls == [])
        && stateCalls == Deliveries(connectionStateChangeCallbacks, true, throwing)
    {
      if connection.socket == null {
        return Failed(CodedError(SOCKET_CONNECTION_FAILED, CONNECTION_FAILED)), [], [];
      }
      connectedCalls, stateCalls := Initialize(now, throwing);
      outcome := Done;
    }

    /** `connect()` past the socket check: handlers created, queues drained, subscribers told. */
    method Initialize(now: int, throwing: set<CallbackId>)
      returns (connectedCalls: seq<Call<ConnectedData>>, stateCalls: seq<Call<bool>>)
      requires Valid() && connection.socket != null
      modifies this
      ensures Valid()
      ensures connectionStateChangeCallbacks == old(connectionStateChangeCallbacks)
      ensures roomJoinedCallbacks == old(roomJoinedCallbacks) && roomLeftCallbacks == old(roomLeftCallbacks)
      ensures isInitialized && connectedAt == Some(now)
      ensures messageHandler != null && fresh(messageHandler) && fresh(roomHandler)
      ensures messageHandler.socket == connection.socket && roomHandler.joinedRooms == []
      ensures messageHandler.connectedCallbacks == old(pendingConnectedCallbacks)
      ensures messageHandler.messageCallbacks == old(pendingMessageCallbacks)
      ensures messageHandler.roomMessageCallbacks == old(pendingRoomMessageCallbacks)
      ensures pendingMessageCallbacks == [] && pendingRoomMessageCallbacks == [] && pendingConnectedCallbacks == []
      ensures connection.socket.connected ==>
        connectedCalls == Deliveries(old(pendingConnectedCallbacks),
          ConnectedData(DEFAULT_CONNECTED_MESSAGE, Or(connection.socket.id, ""), Some(now)), throwing)
      ensures !connection.socket.connected ==> connectedCalls == []
      ensures stateCalls == Deliveries(connectionStateChangeCallbacks, true, throwing)
    {
      var socket := connection.socket;
      connectedAt := Some(now);
      var connectedQueue := pendingConnectedCallbacks;
      messageHandler, roomHandler := NewHandlers(socket, connectedQueue, pendingMessageCallbacks, pendingRoomMessageCallbacks);
      connectedCalls := ConnectedNow(connectedQueue, now, throwing);
      pendingConnectedCallbacks, pendingMessageCallbacks, pendingRoomMessageCallbacks := [], [], [];
      isInitialized := true;
      stateCalls := Dispatch(connectionStateChangeCallbacks, true, throwing);
    }

    /**
     * The immediate invocation of the queued connected subscribers at the end
     * of `connect()`: only when the socket is up and the queue is non-empty,
     * each receives the default message, the socket id and the connection time.
     */
    method ConnectedNow(queue: seq<CallbackId>, now: int, throwing: set<CallbackId>) returns (calls: seq<Call<ConnectedData>>)
      requires connection.socket != null
      ensures connection.socket.connected ==>
        calls == Deliveries(queue, ConnectedData(DEFAULT_CONNECTED_MESSAGE, Or(connection.socket.id, ""), Some(now)), throwing)
      ensures !connection.socket.connected ==> calls == []
    {
      calls := [];
      if connection.IsConnected() && |queue| > 0 {
        var socketId := Or(connection.GetSocketId(), "");
        calls := Dispatch(queue, ConnectedData(DEFAULT_CONNECTED_MESSAGE, socketId, Some(now)), throwing);
      }
    }

    /** The two handlers `connect()` creates on `socket`, the message handler holding the queued subscriptions. */
    static method NewHandlers(socket: Socket, connectedQueue: seq<CallbackId>, messageQueue: seq<CallbackId>, roomMessageQueue: seq<CallbackId>)
      returns (handler: MessageHandler, rooms: RoomHandler)
      ensures fresh(handler) && fresh(rooms)
      ensures handler.socket == socket && rooms.socket == socket
      ensures rooms.joinedRooms == [] && rooms.Valid()
      ensures handler.connectedCallbacks == connectedQueue
      ensures handler.messageCallbacks == messageQueue
      ensures handler.roomMessageCallbacks == roomMessageQueue
    {
      handler := new MessageHandler(socket);
      rooms := new RoomHandler(socket);
      Drain(handler, connectedQueue, messageQueue, roomMessageQueue);
    }

    /**
     * The three `forEach` loops of `connect()` that hand the queued
     * subscriptions to a new handler: connected first, then message, then
     * room message, each queue in its order.
     */
    static method Drain(handler: MessageHandler, connectedQueue: seq<CallbackId>, messageQueue: seq<CallbackId>, roomMessageQueue: seq<CallbackId>)
      requires handler.messageCallbacks == [] && handler.roomMessageCallbacks == [] && handler.connectedCallbacks == []
      modifies handler
      ensures handler.connectedCallbacks == connectedQueue
      ensures handler.messageCallbacks == messageQueue
      ensures handler.roomMessageCallbacks == roomMessageQueue
    {
      var i := 0;
      while i < |connectedQueue|
        invariant 0 <= i <= |connectedQueue|
        invariant handler.connectedCallbacks == connectedQueue[..i]
        invariant handler.messageCallbacks == [] && handler.roomMessageCallbacks == []
      {
        handler.OnConnected(connectedQueue[i]);
        assert connectedQueue[..i + 1] == connectedQueue[..i] + [connectedQueue[i]];
        i := i + 1;
      }
      assert connectedQueue[..i] == connectedQueue;
      i := 0;
      while i < |messageQueue|
        invariant 0 <= i <= |messageQueue|
        invariant handler.messageCallbacks == messageQueue[..i]
        invariant handler.connectedCallbacks == connectedQueue && handler.roomMessageCallbacks == []
      {
        handler.OnMessage(messageQueue[i]);
        assert messageQueue[..i + 1] == messageQueue[..i] + [messageQueue[i]];
        i := i + 1;
      }
      assert messageQueue[..i] == messageQueue;
      i := 0;
      while i < |roomMessageQueue|
        invariant 0 <= i <= |roomMessageQueue|
        invariant handler.roomMessageCallbacks == roomMessageQueue[..i]
        invariant handler.connectedCallbacks == connectedQueue && handler.messageCallbacks == messageQueue
      {
        handler.OnRoomMessage(roomMessageQueue[i]);
        assert roomMessageQueue[..i + 1] == roomMessageQueue[..i] + [roomMessageQueue[i]];
        i := i + 1;
      }
      assert roomMessageQueue[..i] == roomMessageQueue;
    }

    /**
     * `disconnect()`: joined rooms, live message subscribers, error
     * subscribers and queues are emptied, the connection is closed, and the
     * state-change subscribers hear `false` if the SDK was initialised and
     * connected. The handlers themselves stay, as do the facade's own three
     * registries.
     */
    method Disconnect(throwing: set<CallbackId>) returns (stateCalls: seq<Call<bool>>)
      requires Valid()
      modifies this, connection, connection.socket, errorHandler, messageHandler, roomHandler
      ensures Valid()
      ensures messageHandler == old(messageHandler) && roomHandler == old(roomHandler)
      ensures roomHandler != null ==> roomHandler.joinedRooms == []
      ensures messageHandler != null ==>
        messageHandler.messageCallbacks == [] && messageHandler.roomMessageCallbacks == [] && messageHandler.connectedCallbacks == []
      ensures errorHandler.errorCallbacks == []
      ensures connection.socket == null && !connection.isConnecting && !IsConnected()
      ensures old(connection.socket) != null ==> !old(connection.socket).connected
      ensures pendingMessageCallbacks == [] && pendingRoomMessageCallbacks == [] && pendingConnectedCallbacks == []
      ensures !isInitialized && connectedAt == None
      ensures connectionStateChangeCallbacks == old(connectionStateChangeCallbacks)
      ensures roomJoinedCallbacks == old(roomJoinedCallbacks) && roomLeftCallbacks == old(roomLeftCallbacks)
      ensures old(isInitialized) && old(connection.IsConnected()) ==>
        stateCalls == Deliveries(connectionStateChangeCallbacks, false, throwing)
      ensures !(old(isInitialized) && old(connection.IsConnected())) ==> stateCalls == []
    {
      var wasConnected := isInitialized && connection.IsConnected();
      if roomHandler != null {
        roomHandler.Clear();
      }
      if messageHandler != null {
        messageHandler.Clear();
      }
      connection.Disconnect();
      errorHandler.Clear();
      pendingConnectedCallbacks, pendingMessageCallbacks, pendingRoomMessageCallbacks := [], [], [];
      isInitialized := false;
      connectedAt := None;
      stateCalls := [];
      if wasConnected {
        stateCalls := Dispatch(connectionStateChangeCallbacks, false, throwing);
      }
    }

    /** `isConnected()`. */
    predicate IsConnected()
      reads this, connection, connection.socket
      ensures IsConnected() ==> connection.socket != null && connection.socket.connected
      ensures connection.socket == null ==> !IsConnected()
    {
      connection.IsConnected()
    }

    /** `getSocketId()`: an empty id counts as none. */
    function GetSocketId(): (id: Option<string>)
      reads this, connection, connection.socket
      ensures id.Some? ==> id.value != "" && connection.socket != null && connection.socket.id == id
      ensures id.None? ==> connection.socket == null || !Truthy(connection.socket.id)
    {
      var raw := connection.GetSocketId();
      if Truthy(raw) then raw else None
    }

    /** `getConnectionStatus()`. */
    function GetConnectionStatus(): (s: ConnectionStatus)
      reads this, connection, connection.socket
      ensures s.isConnected == IsConnected() && s.socketId == GetSocketId() && s.connectedAt == connectedAt
    {
      ConnectionStatus(IsConnected(), GetSocketId(), connectedAt)
    }

    /**
     * The branch of `waitForConnection()` that returns at once: when connected
     * with a recorded connect time. Otherwise the wait is left to a timer.
     */
    function ImmediateConnection(): (d: Option<ConnectionData>)
      reads this, connection, connection.socket
      ensures d.Some? <==> IsConnected() && connectedAt.Some?
      ensures d.Some? ==> d.value.connectedAt == connectedAt.value && d.value.socketId == connection.socket.id
    {
      if IsConnected() && connectedAt.Some? then Some(ConnectionData(connection.GetSocketId(), connectedAt.value)) else None
    }

    /** `getOptions()`: a copy of the validated options. */
    function GetOptions(): (o: Options)
      ensures o.serverUrl == options.serverUrl && o.projectKey == options.projectKey
    {
      options
    }

    /**
     * `sendMessage(type, content, user)`: `NOT_INITIALIZED` without a message
     * handler, else `NOT_CONNECTED` while the connection is down, else the
     * handler sends; a throw of the handler comes back as
     * `SEND_MESSAGE_FAILED` with its message.
     */
    method SendMessage(kind: MessageType, content: string, user: Option<string>, now: int) returns (outcome: Outcome)
      requires Valid()
      modifies if messageHandler != null then {messageHandler.socket} else {}
      ensures Valid() && Fields() == old(Fields())
      ensures messageHandler == null ==> outcome == Failed(NotInitialized())
      ensures messageHandler != null ==>
        messageHandler.socket.connected == old(messageHandler.socket.connected) && messageHandler.socket.id == old(messageHandler.socket.id)
      ensures messageHandler != null && !old(IsConnected()) ==>
        outcome == Failed(CodedError("Socket is not connected", NOT_CONNECTED))
        && messageHandler.socket.emitted == old(messageHandler.socket.emitted)
      ensures messageHandler != null && old(IsConnected()) && !old(messageHandler.socket.connected) ==>
        outcome == Failed(CodedError(SOCKET_NOT_CONNECTED, SEND_MESSAGE_FAILED))
        && messageHandler.socket.emitted == old(messageHandler.socket.emitted)
      ensures messageHandler != null && old(IsConnected()) && old(messageHandler.socket.connected) ==>
        outcome == Done
        && messageHandler.socket.emitted == old(messageHandler.socket.emitted) + [MessageOut(MessageData(kind, content, user, Some(now), None))]
    {
      if messageHandler == null {
        return Failed(NotInitialized());
      }
      if !connection.IsConnected() {
        return Failed(CodedError("Socket is not connected", NOT_CONNECTED));
      }
      var sent := messageHandler.SendMessage(kind, content, user, now);
      if sent.Failed? {
        outcome := Failed(CodedError(sent.error.Message(), SEND_MESSAGE_FAILED));
      } else {
        outcome := Done;
      }
    }

    /** `sendRoomMessage(room, type, content, user)`: as `SendMessage`, failing with `SEND_ROOM_MESSAGE_FAILED`. */
    method SendRoomMessage(room: string, kind: MessageType, content: string, user: Option<string>, now: int) returns (outcome: Outcome)
      requires Valid()
      modifies if messageHandler != null then {messageHandler.socket} else {}
      ensures Valid() && Fields() == old(Fields())
      ensures messageHandler == null ==> outcome == Failed(NotInitialized())
      ensures messageHandler != null ==>
        messageHandler.socket.connected == old(messageHandler.socket.connected) && messageHandler.socket.id == old(messageHandler.socket.id)
      ensures messageHandler != null && !old(IsConnected()) ==>
        outcome == Failed(CodedError("Socket is not connected", NOT_CONNECTED))
        && messageHandler.socket.emitted == old(messageHandler.socket.emitted)
      ensures messageHandler != null && old(IsConnected()) && !old(messageHandler.socket.connected) ==>
        outcome == Failed(CodedError(SOCKET_NOT_CONNECTED, SEND_ROOM_MESSAGE_FAILED))
        && messageHandler.socket.emitted == old(messageHandler.socket.emitted)
      ensures messageHandler != null && old(IsConnected()) && old(messageHandler.socket.connected) ==>
        outcome == Done
        && messageHandler.socket.emitted ==
           old(messageHandler.socket.emitted) + [RoomMessageOut(RoomMessageData(room, kind, content, user, Some(now)))]
    {
      if messageHandler == null {
        return Failed(NotInitialized());
      }
      if !connection.IsConnected() {
        return Failed(CodedError("Socket is not connected", NOT_CONNECTED));
      }
      var sent := messageHandler.SendRoomMessage(room, kind, content, user, now);
      if sent.Failed? {
        outcome := Failed(CodedError(sent.error.Message(), SEND_ROOM_MESSAGE_FAILED));
      } else {
        outcome := Done;
      }
    }

    /** `onMessage(callback)`: to the live handler once there is one, else to the queue. */
    method OnMessage(cb: CallbackId) returns (u: Unsubscriber)
      requires Valid()
      modifies this, messageHandler
      ensures Valid()
      ensures old(messageHandler) != null ==>
        && Fields() == old(Fields())
        && u == FromHandler(Messages, messageHandler, cb)
        && messageHandler.messageCallbacks == old(messageHandler.messageCallbacks) + [cb]
        && messageHandler.roomMessageCallbacks == old(messageHandler.roomMessageCallbacks)
        && messageHandler.connectedCallbacks == old(messageHandler.connectedCallbacks)
      ensures old(messageHandler) == null ==>
        && u == FromQueue(Messages, cb)
        && Fields() == old(Fields()).(pendingMessages := old(pendingMessageCallbacks) + [cb])
    {
      if messageHandler != null {
        messageHandler.OnMessage(cb);
        return FromHandler(Messages, messageHandler, cb);
      }
      pendingMessageCallbacks := pendingMessageCallbacks + [cb];
      u := FromQueue(Messages, cb);
    }

    /** `onRoomMessage(callback)`: to the live handler once there is one, else to the queue. */
    method OnRoomMessage(cb: CallbackId) returns (u: Unsubscriber)
      requires Valid()
      modifies this, messageHandler
      ensures Valid()
      ensures old(messageHandler) != null ==>
        && Fields() == old(Fields())
        && u == FromHandler(RoomMessages, messageHandler, cb)
        && messageHandler.roomMessageCallbacks == old(messageHandler.roomMessageCallbacks) + [cb]
        && messageHandler.messageCallbacks == old(messageHandler.messageCallbacks)
        && messageHandler.connectedCallbacks == old(messageHandler.connectedCallbacks)
      ensures old(messageHandler) == null ==>
        && u == FromQueue(RoomMessages, cb)
        && Fields() == old(Fields()).(pendingRoomMessages := old(pendingRoomMessageCallbacks) + [cb])
    {
      if messageHandler != null {
        messageHandler.OnRoomMessage(cb);
        return FromHandler(RoomMessages, messageHandler, cb);
      }
      pendingRoomMessageCallbacks := pendingRoomMessageCallbacks + [cb];
      u := FromQueue(RoomMessages, cb);
    }

    /**
     * `onConnected(callback)`: invoked at once when connected with a recorded
     * connect time, and registered in any case, with the live handler once
     * there is one, else in the queue.
     */
    method OnConnected(cb: CallbackId, throwing: set<CallbackId>) returns (u: Unsubscriber, immediate: seq<Call<ConnectedData>>)
      requires Valid()
      modifies this, messageHandler
      ensures Valid()
      ensures old(IsConnected()) && old(connectedAt).Some? ==>
        immediate == [Call(cb, ConnectedData(DEFAULT_CONNECTED_MESSAGE, Or(old(connection.GetSocketId()), ""), old(connectedAt)), cb in throwing)]
      ensures !(old(IsConnected()) && old(connectedAt).Some?) ==> immediate == []
      ensures old(messageHandler) != null ==>
        && Fields() == old(Fields())
        && u == FromHandler(ConnectedEvents, messageHandler, cb)
        && messageHandler.connectedCallbacks == old(messageHandler.connectedCallbacks) + [cb]
        && messageHandler.messageCallbacks == old(messageHandler.messageCallbacks)
        && messageHandler.roomMessageCallbacks == old(messageHandler.roomMessageCallbacks)
      ensures old(messageHandler) == null ==>
        && u == FromQueue(ConnectedEvents, cb)
        && Fields() == old(Fields()).(pendingConnected := old(pendingConnectedCallbacks) + [cb])
    {
      immediate := [];
      if connection.IsConnected() && connectedAt.Some? {
        var socketId := Or(connection.GetSocketId(), "");
        immediate := [Call(cb, ConnectedData(DEFAULT_CONNECTED_MESSAGE, socketId, connectedAt), cb in throwing)];
      }
      if messageHandler != null {
        messageHandler.OnConnected(cb);
        return FromHandler(ConnectedEvents, messageHandler, cb), immediate;
      }
      pendingConnectedCallbacks := pendingConnectedCallbacks + [cb];
      u := FromQueue(ConnectedEvents, cb);
    }

    /** `onError(callback)`: delegated to the error handler. */
    method OnError(cb: CallbackId) returns (u: Unsubscriber)
      modifies errorHandler
      ensures u == FromErrors(cb) && errorHandler.errorCallbacks == old(errorHandler.errorCallbacks) + [cb]
    {
      errorHandler.OnError(cb);
      u := FromErrors(cb);
    }

    /** `onConnectionStateChange(callback)`. */
    method OnConnectionStateChange(cb: CallbackId) returns (u: Unsubscriber)
      requires Valid()
      modifies this
      ensures Valid()
      ensures u == FromStateChanges(cb)
      ensures Fields() == old(Fields()).(stateChanges := old(connectionStateChangeCallbacks) + [cb])
    {
      connectionStateChangeCallbacks := connectionStateChangeCallbacks + [cb];
      u := FromStateChanges(cb);
    }

    /** `onRoomJoined(callback)`. */
    method OnRoomJoined(cb: CallbackId) returns (u: Unsubscriber)
      requires Valid()
      modifies this
      ensures Valid()
      ensures u == FromRoomJoined(cb)
      ensures Fields() == old(Fields()).(roomJoined := old(roomJoinedCallbacks) + [cb])
    {
      roomJoinedCallbacks := roomJoinedCallbacks + [cb];
      u := FromRoomJoined(cb);
    }

    /** `onRoomLeft(callback)`. */
    method OnRoomLeft(cb: CallbackId) returns (u: Unsubscriber)
      requires Valid()
      modifies this
      ensures Valid()
      ensures u == FromRoomLeft(cb)
      ensures Fields() == old(Fields()).(roomLeft := old(roomLeftCallbacks) + [cb])
    {
      roomLeftCallbacks := roomLeftCallbacks + [cb];
      u := FromRoomLeft(cb);
    }

    /**
     * Calling an unsubscribe closure: it removes the first registration of
     * its callback from the one registry it captured, whatever has happened
     * since. A queue closure called after the queue was drained finds nothing.
     */
    method Unsubscribe(u: Unsubscriber)
      requires Valid()
      modifies this, errorHandler, if u.FromHandler? then {u.handler} else {}
      ensures Valid()
      ensures messageHandler == old(messageHandler) && roomHandler == old(roomHandler)
      ensures isInitialized == old(isInitialized) && connectedAt == old(connectedAt)
      ensures u.FromHandler? ==>
        && u.handler.messageCallbacks ==
             (if u.registry == Messages then RemoveFirst(old(u.handler.messageCallbacks), u.cb) else old(u.handler.messageCallbacks))
        && u.handler.roomMessageCallbacks ==
             (if u.registry == RoomMessages then RemoveFirst(old(u.handler.roomMessageCallbacks), u.cb) else old(u.handler.roomMessageCallbacks))
        && u.handler.connectedCallbacks ==
             (if u.registry == ConnectedEvents then RemoveFirst(old(u.handler.connectedCallbacks), u.cb) else old(u.handler.connectedCallbacks))
      ensures pendingMessageCallbacks ==
        if u.FromQueue? && u.registry == Messages then RemoveFirst(old(pendingMessageCallbacks), u.cb) else old(pendingMessageCallbacks)
      ensures pendingRoomMessageCallbacks ==
        if u.FromQueue? && u.registry == RoomMessages then RemoveFirst(old(pendingRoomMessageCallbacks), u.cb) else old(pendingRoomMessageCallbacks)
      ensures pendingConnectedCallbacks ==
        if u.FromQueue? && u.registry == ConnectedEvents then RemoveFirst(old(pendingConnectedCallbacks), u.cb) else old(pendingConnectedCallbacks)
      ensures u.FromQueue? && messageHandler != null ==>
        && messageHandler.messageCallbacks == old(messageHandler.messageCallbacks)
        && messageHandler.roomMessageCallbacks == old(messageHandler.roomMessageCallbacks)
        && messageHandler.connectedCallbacks == old(messageHandler.connectedCallbacks)
      ensures u.FromErrors? ==> errorHandler.errorCallbacks == RemoveFirst(old(errorHandler.errorCallbacks), u.cb)
      ensures !u.FromErrors? ==> errorHandler.errorCallbacks == old(errorHandler.errorCallbacks)
      ensures connectionStateChangeCallbacks ==
        if u.FromStateChanges? then RemoveFirst(old(connectionStateChangeCallbacks), u.cb) else old(connectionStateChangeCallbacks)
      ensures roomJoinedCallbacks ==
        if u.FromRoomJoined? then RemoveFirst(old(roomJoinedCallbacks), u.cb) else old(roomJoinedCallbacks)
      ensures roomLeftCallbacks ==
        if u.FromRoomLeft? then RemoveFirst(old(roomLeftCallbacks), u.cb) else old(roomLeftCallbacks)
    {
      match u
      case FromHandler(registry, handler, cb) =>
        if registry == Messages {
          handler.UnsubscribeMessage(cb);
        } else if registry == RoomMessages {
          handler.UnsubscribeRoomMessage(cb);
        } else {
          handler.UnsubscribeConnected(cb);
        }
      case FromQueue(registry, cb) => UnsubscribeQueued(registry, cb);
      case FromErrors(cb) => errorHandler.UnsubscribeError(cb);
      case FromStateChanges(cb) => connectionStateChangeCallbacks := SpliceOut(connectionStateChangeCallbacks, cb);
      case FromRoomJoined(cb) => roomJoinedCallbacks := SpliceOut(roomJoinedCallbacks, cb);
      case FromRoomLeft(cb) => roomLeftCallbacks := SpliceOut(roomLeftCallbacks, cb);
    }

    /** The unsubscribe closure of a subscription made before the first connect: it only ever touches its queue. */
    method UnsubscribeQueued(registry: Registry, cb: CallbackId)
      requires Valid()
      modifies this
      ensures Valid()
      ensures pendingMessageCallbacks ==
        if registry == Messages then RemoveFirst(old(pendingMessageCallbacks), cb) else old(pendingMessageCallbacks)
      ensures pendingRoomMessageCallbacks ==
        if registry == RoomMessages then RemoveFirst(old(pendingRoomMessageCallbacks), cb) else old(pendingRoomMessageCallbacks)
      ensures pendingConnectedCallbacks ==
        if registry == ConnectedEvents then RemoveFirst(old(pendingConnectedCallbacks), cb) else old(pendingConnectedCallbacks)
      ensures messageHandler == old(messageHandler) && roomHandler == old(roomHandler)
      ensures isInitialized == old(isInitialized) && connectedAt == old(connectedAt)
      ensures connectionStateChangeCallbacks == old(connectionStateChangeCallbacks)
      ensures roomJoinedCallbacks == old(roomJoinedCallbacks) && roomLeftCallbacks == old(roomLeftCallbacks)
    {
      if messageHandler != null {
        // The drain left every queue empty, and removing from an empty queue changes nothing.
        assert RemoveFirst([], cb) == [];
        return;
      }
      if registry == Messages {
        pendingMessageCallbacks := SpliceOut(pendingMessageCallbacks, cb);
      } else if registry == RoomMessages {
        pendingRoomMessageCallbacks := SpliceOut(pendingRoomMessageCallbacks, cb);
      } else {
        pendingConnectedCallbacks := SpliceOut(pendingConnectedCallbacks, cb);
      }
    }

    /**
     * `joinRoom(roomName)`: `NOT_INITIALIZED` without a room handler;
     * otherwise the handler's join, and once it resolves, whether or not the
     * room was already joined, the room-joined subscribers hear the name.
     */
    method JoinRoom(roomName: string, ack: Ack, throwing: set<CallbackId>) returns (outcome: Outcome, notified: seq<Call<string>>)
      requires Valid()
      modifies if roomHandler != null then {roomHandler, roomHandler.socket} else {}
      ensures Valid() && Fields() == old(Fields())
      ensures roomHandler == null ==> outcome == Failed(NotInitialized()) && notified == []
      ensures roomHandler != null ==>
        && roomHandler.socket.connected == old(roomHandler.socket.connected)
        && roomHandler.socket.id == old(roomHandler.socket.id)
        && (!old(roomHandler.socket.connected) ==>
              && outcome == Failed(PlainError(SOCKET_NOT_CONNECTED))
              && roomHandler.joinedRooms == old(roomHandler.joinedRooms)
              && roomHandler.socket.emitted == old(roomHandler.socket.emitted))
        && (old(roomHandler.socket.connected) && roomName in old(roomHandler.joinedRooms) ==>
              && outcome == Done && roomHandler.joinedRooms == old(roomHandler.joinedRooms)
              && roomHandler.socket.emitted == old(roomHandler.socket.emitted))
        && (old(roomHandler.socket.connected) && roomName !in old(roomHandler.joinedRooms) ==>
              && roomHandler.socket.emitted == old(roomHandler.socket.emitted) + [JoinRoomOut(roomName)]
              && (AckError(ack).Some? ==>
                    outcome == Failed(PlainError(AckError(ack).value)) && roomHandler.joinedRooms == old(roomHandler.joinedRooms))
              && (AckError(ack).None? ==> outcome == Done && roomHandler.joinedRooms == old(roomHandler.joinedRooms) + [roomName]))
      ensures outcome.Done? ==> notified == Deliveries(roomJoinedCallbacks, roomName, throwing)
      ensures outcome.Failed? ==> notified == []
    {
      notified := [];
      if roomHandler == null {
        return Failed(NotInitialized()), [];
      }
      outcome := roomHandler.JoinRoom(roomName, ack);
      if outcome.Done? {
        notified := Dispatch(roomJoinedCallbacks, roomName, throwing);
      }
    }

    /**
     * `leaveRoom(roomName)`: `NOT_INITIALIZED` without a room handler;
     * otherwise the handler's leave, and once it resolves, whether or not the
     * room was joined, the room-left subscribers hear the name.
     */
    method LeaveRoom(roomName: string, ack: Ack, throwing: set<CallbackId>) returns (outcome: Outcome, notified: seq<Call<string>>)
      requires Valid()
      modifies if roomHandler != null then {roomHandler, roomHandler.socket} else {}
      ensures Valid() && Fields() == old(Fields())
      ensures roomHandler == null ==> outcome == Failed(NotInitialized()) && notified == []
      ensures roomHandler != null ==>
        && roomHandler.socket.connected == old(roomHandler.socket.connected)
        && roomHandler.socket.id == old(roomHandler.socket.id)
        && (!old(roomHandler.socket.connected) ==>
              && outcome == Failed(PlainError(SOCKET_NOT_CONNECTED))
              && roomHandler.joinedRooms == old(roomHandler.joinedRooms)
              && roomHandler.socket.emitted == old(roomHandler.socket.emitted))
        && (old(roomHandler.socket.connected) && roomName !in old(roomHandler.joinedRooms) ==>
              && outcome == Done && roomHandler.joinedRooms == old(roomHandler.joinedRooms)
              && roomHandler.socket.emitted == old(roomHandler.socket.emitted))
        && (old(roomHandler.socket.connected) && roomName in old(roomHandler.joinedRooms) ==>
              && roomHandler.socket.emitted == old(roomHandler.socket.emitted) + [LeaveRoomOut(roomName)]
              && (AckError(ack).Some? ==>
                    outcome == Failed(PlainError(AckError(ack).value)) && roomHandler.joinedRooms == old(roomHandler.joinedRooms))
              && (AckError(ack).None? ==> outcome == Done && roomHandler.joinedRooms == Without(old(roomHandler.joinedRooms), roomName)))
      ensures outcome.Done? ==> notified == Deliveries(roomLeftCallbacks, roomName, throwing)
      ensures outcome.Failed? ==> notified == []
    {
      notified := [];
      if roomHandler == null {
        return Failed(NotInitialized()), [];
      }
      outcome := roomHandler.LeaveRoom(roomName, ack);
      if outcome.Done? {
        notified := Dispatch(roomLeftCallbacks, roomName, throwing);
      }
    }

    /** `getJoinedRooms()`: none before the first completed connect. */
    function GetJoinedRooms(): (rooms: seq<string>)
      requires Valid()
      reads this, connection, messageHandler, roomHandler
      ensures Distinct(rooms)
      ensures roomHandler == null ==> rooms == []
      ensures forall r :: r in rooms <==> IsInRoom(r)
    {
      if roomHandler == null then [] else roomHandler.GetJoinedRooms()
    }

    /** `isInRoom(roomName)`: false before the first completed connect. */
    predicate IsInRoom(roomName: string)
      reads this, roomHandler
      ensures roomHandler == null ==> !IsInRoom(roomName)
      ensures roomHandler != null ==> (IsInRoom(roomName) <==> Occurrences(roomHandler.joinedRooms, roomName) > 0)
    {
      roomHandler != null && roomHandler.IsInRoom(roomName)
    }

    /**
     * The `catch` attached to the automatic connect: the failure is reported
     * to the error subscribers, a `SparkMessagingError` as its own data, any
     * other error under `AUTO_CONNECT_FAILED`.
     */
    method ReportAutoConnectFailure(error: JsError, throwing: set<CallbackId>) returns (calls: seq<Call<ErrorData>>)
      ensures calls == Deliveries(errorHandler.errorCallbacks, AutoConnectReport(error), throwing)
    {
      var report;
      report, calls := errorHandler.HandleError(RaisedData(AutoConnectReport(error)), throwing);
    }
  }
}

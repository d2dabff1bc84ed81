# spark-messaging-client, modelled in Dafny

This project models the client SDK of Spark Messaging. The SDK is a TypeScript wrapper around a socket.io
connection that lets an application do these things:

- send and receive messages;
- join and leave rooms and send messages to them;
- subscribe to connection, room and error events.

The model covers these parts of the SDK:

- **Configuration** (`Config`): the environment lookup `loadConfig`, the constant `DEFAULT_OPTIONS`, and the
  merge and validation that the `SparkMessaging` constructor performs. JavaScript object spread is modelled
  exactly: a key that is present with the value `undefined` still overrides.
- **Errors** (`Errors`, `ErrorHandling`): the `SparkMessagingError` class and its classification helpers, and
  the `ErrorHandler` registry with its broadcast.
- **Connection** (`Connections`): the socket the SDK owns, the flag for a connect attempt in flight, and the
  four transport listeners.
- **Handlers** (`Messaging`, `Rooms`): `MessageHandler`, with its three subscriber registries and its two send
  operations, and `RoomHandler`, with its set of joined rooms and the acknowledged join/leave protocol.
- **Facade** (`Sdk`): `SparkMessaging`. It queues subscriptions made before the first connect and hands them
  to the handlers when the connect completes. It keeps its own connection-state, room-joined and room-left
  registries.

Each stateful TypeScript class is a Dafny `class` with the same fields. A callback array is a `seq` of
opaque callback ids. The `Set` of joined rooms is a duplicate-free `seq` in insertion order. The socket is a
shared `Socket` object, so a handler that still holds an old socket is modelled faithfully.

An asynchronous operation is one method per step. The facade's `connect()` is split in two:

- `SparkMessaging.Connect` is the part before the `await`;
- `SparkMessaging.CompleteConnect` is the continuation after it.

Transport events (`connect`, `connect_error`, `error`, `disconnect`, `connected`, `message`, `room-message`)
are methods that a driver calls. Server acknowledgements, the clock reading `Date.now()` and which callbacks
throw are parameters.

A dispatch returns the list of calls it made, each with its payload and whether the callback threw. Every
dispatch is proved equal to `Callbacks.Deliveries`: every registered callback, in order, with the same
payload, and a throw never stops the walk.

These behaviours of the code are modelled as written:

- `disconnect()` keeps the old handlers. They still hold the closed socket, so until the next connect
  `sendMessage` fails with `NOT_CONNECTED`, not `NOT_INITIALIZED`.
- The facade's own three registries survive `disconnect()`.
- A queued connected subscriber is handed to the new handler and is also invoked at once when the connect
  completes.
- `joinRoom` and `leaveRoom` notify their subscribers even when the room handler resolved without doing
  anything (already joined, or not joined).
- The unsubscribe closure of a subscription made before the first connect only ever removes from its queue.
  Once the connect has drained the queue into the handler, calling it has no effect: the subscriber stays
  registered with the handler (`Sdk.SparkMessaging.Unsubscribe`). The SDK's intended dual-mode contract is
  that a closure handed out before the connect keeps working after it; the code does not do that, and the
  model follows the code.
- `handleError` given a `SparkMessagingError` as an `Error` keeps only its message
  (`Errors.HandleErrorDropsSparkCode`). The auto-connect path converts the error with `toErrorData()` first and
  keeps the code.

## Model

| member | source | states |
|---|---|---|
| `Sequences.IndexOf` | src/utils/errorHandler.ts:16 | the position is -1 exactly when the callback is absent; otherwise it holds the callback and no earlier position does |
| `Sequences.RemoveFirst` | src/utils/errorHandler.ts:15-20 | an absent callback leaves the registry unchanged; a present one shortens it by exactly one |
| `Sequences.RemoveFirstIsFirst` | src/utils/errorHandler.ts:16-19 | the registration removed is the first one: the prefix before it does not hold the callback |
| `Sequences.SpliceOut` | src/utils/errorHandler.ts:15-20 | the `indexOf` and `splice(index, 1)` pair equals removing the first registration |
| `Sequences.RemoveFirstRemovesOne` | src/utils/errorHandler.ts:15-20 | unsubscribing removes exactly one registration of the callback and leaves the count of every other callback unchanged |
| `Sequences.RemoveFirstKeepsOthers` | src/utils/errorHandler.ts:15-20 | unsubscribing keeps every other registration in its order |
| `Sequences.UnsubscribeHitsEarliest` | src/core/messageHandler.ts:99-108 | registering an already registered callback and calling the new closure removes the earlier registration |
| `Sequences.UnsubscribeTwiceIsNoOp` | src/core/messageHandler.ts:102-107 | for a callback registered once, a second unsubscribe changes nothing |
| `Sequences.Without` | src/core/roomHandler.ts:59 | `Set.delete`: the room is gone, nothing new appears, every other room stays |
| `Sequences.WithoutDistinct` | src/core/roomHandler.ts:59 | deleting from a set keeps it duplicate-free and shrinks it by one exactly when the room was in it |
| `Callbacks.Deliveries` | src/utils/errorHandler.ts:37-43 | one call per registered callback, in registration order, each with the same payload and its own throw flag |
| `Callbacks.Dispatch` | src/utils/errorHandler.ts:37-43 | the `forEach` loop with a `try`/`catch` around each call produces exactly `Deliveries` |
| `Callbacks.ThrowsDoNotStopDispatch` | src/utils/errorHandler.ts:37-43 | the callbacks reached do not depend on which of them throw |
| `Callbacks.DeliveriesAppend` | src/index.ts:522-530 | one more registration adds one call at the end and changes no earlier call |
| `Callbacks.DeliveriesCount` | src/index.ts:522-530 | a callback is invoked as many times per dispatch as it is registered |
| `Errors.NewSparkError` | src/utils/sparkMessagingError.ts:11-25 | a string gives code `UNKNOWN_ERROR`; data keeps message, status and details, and its code when that is truthy, else `UNKNOWN_ERROR`; the name is always `SparkMessagingError` |
| `Errors.CodedError` | src/index.ts:77-80 | the thrown error is a `SparkMessagingError` carrying exactly the given message and code |
| `Errors.ToErrorData` | src/utils/sparkMessagingError.ts:30-37 | all four fields are copied, the code as present |
| `Errors.ErrorDataRoundTrip` | src/utils/sparkMessagingError.ts:11-37 | constructing from data and converting back returns the same data if and only if its code is truthy |
| `Errors.SparkErrorRoundTrip` | src/utils/sparkMessagingError.ts:11-37 | converting an error to data and constructing again rebuilds the same error |
| `Errors.ClassificationsDisjoint` | src/utils/sparkMessagingError.ts:42-48 | no value is both a connection error and an authentication error; a plain `Error` or a non-error is neither |
| `Errors.ConnectionErrorByCode` | src/utils/sparkMessagingError.ts:42-48 | the classification of a `SparkMessagingError` depends on its code alone, in both directions |
| `Errors.Normalize` | src/utils/errorHandler.ts:26-35 | a string or an `Error` becomes a record with only its message; a record passes through unchanged |
| `Errors.HandleErrorDropsSparkCode` | src/utils/errorHandler.ts:29-32 | a `SparkMessagingError` passed as an `Error` loses its code; passed through `toErrorData()` it keeps it |
| `Errors.AutoConnectReport` | src/index.ts:99-107 | a `SparkMessagingError` is reported as its own data; anything else under `AUTO_CONNECT_FAILED`, with its message or `Auto-connect failed` |
| `Errors.IsConnectionError` | src/utils/sparkMessagingError.ts:42-44 | holds only of a `SparkMessagingError`, and never of one coded `AUTHENTICATION_FAILED` |
| `Errors.IsAuthenticationError` | src/utils/sparkMessagingError.ts:46-48 | holds only of a `SparkMessagingError`, and never of one coded `CONNECTION_ERROR` or `CONNECTION_FAILED` |
| `ErrorHandling.ErrorHandler.constructor` | src/utils/errorHandler.ts:7 | the registry starts empty |
| `ErrorHandling.ErrorHandler.OnError` | src/utils/errorHandler.ts:12-14 | the callback is appended to the registry |
| `ErrorHandling.ErrorHandler.UnsubscribeError` | src/utils/errorHandler.ts:15-20 | the registry loses the first registration of the callback; an absent callback changes nothing |
| `ErrorHandling.ErrorHandler.HandleError` | src/utils/errorHandler.ts:26-44 | the error is normalised once and every subscriber, in order, gets that same record |
| `ErrorHandling.ErrorHandler.Clear` | src/utils/errorHandler.ts:49-51 | no subscriber is left |
| `Transport.AckError` | src/core/roomHandler.ts:30 | an acknowledgement reports an error exactly when it is an object whose `error` is truthy, and then that text |
| `Transport.Socket.constructor` | src/core/connection.ts:50 | a new socket keeps its URL and options, is not connected, has no id and has emitted nothing |
| `Transport.Socket.Emit` | src/core/messageHandler.ts:74 | the event is appended to what the socket emitted; the connection state is untouched |
| `Transport.Socket.Opened` | src/core/connection.ts:53-56 | the socket is connected under the id the server gave it |
| `Transport.Socket.Closed` | src/core/connection.ts:100 | the socket is down with no id |
| `Rooms.FirstFailure` | src/core/roomHandler.ts:83-86 | `Promise.all` resolves exactly when every leave resolves; otherwise it rejects with the outcome of one of the leaves |
| `Rooms.FailedLeavesMembers` | src/core/roomHandler.ts:83-86 | after leaving all rooms, a room is still joined exactly when it was joined and its acknowledgement reported an error |
| `Rooms.FailedLeaves` | src/core/roomHandler.ts:83-86 | every room listed was in the snapshot and its acknowledgement reported an error; no more rooms than the snapshot |
| `Rooms.LeaveOutcome` | src/core/roomHandler.ts:43-64 | a leave resolves exactly when the socket is connected and the acknowledgement carries no error; a down socket rejects with `Socket is not connected`; a rejected acknowledgement rejects with its own error text |
| `Rooms.LeaveEmits` | src/core/roomHandler.ts:84-85 | one `leave-room` emit per room of the snapshot, in order |
| `Rooms.RoomHandler.constructor` | src/core/roomHandler.ts:8-12 | the handler listens on the given socket with no joined room |
| `Rooms.RoomHandler.JoinRoom` | src/core/roomHandler.ts:17-38 | a down socket rejects without emitting; a joined room resolves without emitting; otherwise one `join-room` emit, and the acknowledgement either rejects with its error or adds the room at the end; the set stays duplicate-free; success means the room is joined |
| `Rooms.RoomHandler.LeaveRoom` | src/core/roomHandler.ts:43-64 | a down socket rejects without emitting; a room not joined resolves without emitting; otherwise one `leave-room` emit, and the acknowledgement either rejects with its error or removes the room; success means the room is not joined |
| `Rooms.RoomHandler.GetJoinedRooms` | src/core/roomHandler.ts:69-71 | every joined room exactly once, and a room is listed exactly when `isInRoom` holds |
| `Rooms.RoomHandler.IsInRoom` | src/core/roomHandler.ts:76-78 | a room is in the set exactly when it occurs in the joined list |
| `Rooms.RoomHandler.LeaveAllRooms` | src/core/roomHandler.ts:83-86 | every room of the snapshot gets a leave; on a connected socket the rooms left are those whose leave was rejected, and the emits are the snapshot's leaves in order; on a down socket nothing changes; the outcome is the first failure in snapshot order |
| `Rooms.RoomHandler.Clear` | src/core/roomHandler.ts:91-93 | no room is joined |
| `Messaging.ConnectedInfo` | src/core/messageHandler.ts:26-29 | the payload's message when truthy, else `Connected to server`; the payload's socket id when truthy, else the socket's own id when truthy, else empty |
| `Messaging.ConnectedSocketIdPrecedence` | src/core/messageHandler.ts:28 | the server's socket id, when given, makes the local id irrelevant |
| `Messaging.MessageHandler.constructor` | src/core/messageHandler.ts:9-16 | the handler listens on the given socket with three empty registries |
| `Messaging.MessageHandler.OnMessage` | src/core/messageHandler.ts:99-101 | the callback is appended to the message registry; the other two registries are unchanged |
| `Messaging.MessageHandler.UnsubscribeMessage` | src/core/messageHandler.ts:102-107 | the message registry loses the first registration of the callback; the other two are unchanged |
| `Messaging.MessageHandler.OnRoomMessage` | src/core/messageHandler.ts:113-115 | the callback is appended to the room-message registry; the other two are unchanged |
| `Messaging.MessageHandler.UnsubscribeRoomMessage` | src/core/messageHandler.ts:116-121 | the room-message registry loses the first registration of the callback; the other two are unchanged |
| `Messaging.MessageHandler.OnConnected` | src/core/messageHandler.ts:127-129 | the callback is appended to the connected registry; the other two are unchanged |
| `Messaging.MessageHandler.UnsubscribeConnected` | src/core/messageHandler.ts:130-135 | the connected registry loses the first registration of the callback; the other two are unchanged |
| `Messaging.MessageHandler.ConnectedEvent` | src/core/messageHandler.ts:23-34 | every connected subscriber, in order, gets the record built from the payload and the socket's id |
| `Messaging.MessageHandler.MessageEvent` | src/core/messageHandler.ts:37-45 | every message subscriber, in order, gets the payload unchanged |
| `Messaging.MessageHandler.RoomMessageEvent` | src/core/messageHandler.ts:48-56 | every room-message subscriber, in order, gets the payload unchanged |
| `Messaging.MessageHandler.SendMessage` | src/core/messageHandler.ts:62-75 | a down socket throws `Socket is not connected` and emits nothing; otherwise exactly one `message` emit with the arguments and the clock reading |
| `Messaging.MessageHandler.SendRoomMessage` | src/core/messageHandler.ts:80-94 | as `SendMessage`, on `room-message`, carrying the room |
| `Messaging.MessageHandler.Clear` | src/core/messageHandler.ts:141-145 | all three registries are empty |
| `Config.DefaultsComplete` | src/config/index.ts:33-40 | the defaults set every option, the URL and the key to non-empty strings |
| `Config.Assign` | src/config/index.ts:15-16 | a truthy value replaces the option; any other value leaves it |
| `Config.LoadConfig` | src/config/index.ts:6-28 | only the URL and the key can ever be set |
| `Config.LoadConfigPrecedence` | src/config/index.ts:6-28 | a truthy Node value wins over a truthy window value, which wins over nothing |
| `Config.LoadConfigTruthy` | src/config/index.ts:6-28 | a key that is set holds a non-empty string |
| `Config.Spread` | src/index.ts:69-73 | spreading `{}` on either side changes nothing |
| `Config.SpreadAssociative` | src/index.ts:69-73 | the three-way spread can be grouped either way |
| `Config.UserOptions` | src/index.ts:56-66 | a URL with a truthy key gives exactly those two options; a URL without one, or no argument, gives none; an options object is used as given |
| `Config.ResolveOptions` | src/index.ts:53-87 | success holds a non-empty URL and key; failure is `INVALID_OPTIONS` |
| `Config.ResolveFailsOnlyOnCallerFalsy` | src/index.ts:69-87 | construction fails exactly when the caller's own options make the URL or the key falsy, and the URL is reported first |
| `Config.ResolvePrecedence` | src/index.ts:68-73 | caller options win over the environment, which wins over the defaults, key by key; a caller-given `autoConnect`, `reconnection`, `reconnectionAttempts` or `reconnectionDelay` is kept as given |
| `Config.AutoConnectDecidedByCaller` | src/index.ts:98 | the SDK does not connect on its own exactly when the caller passed `autoConnect: false` |
| `Connections.BuildSocketOptions` | src/core/connection.ts:38-48 | the key is sent as auth and query; each reconnection setting is the option when given, else `true`, 5 and 1000 |
| `Connections.DefaultReconnection` | src/core/connection.ts:45-47 | without caller settings the socket reconnects 5 times at 1000 ms, whatever the environment |
| `Connections.SocketErrorReport` | src/core/connection.ts:69-74 | the report always has a message and a code: the payload's when truthy, else `Socket error occurred` and `SOCKET_ERROR` |
| `Connections.ConnectErrorReport` | src/core/connection.ts:61-64 | code `CONNECTION_ERROR`, with the error's message or `Connection failed` |
| `Connections.Connection.constructor` | src/core/connection.ts:9-17 | no socket and no attempt in flight |
| `Connections.Connection.Connect` | src/core/connection.ts:22-91 | a connected socket resolves and changes nothing; an attempt in flight rejects with `Connection already in progress`; otherwise a fresh unconnected socket with the built options and the promise pending, or, if `io` throws, the flag is reset, subscribers hear the error and the promise rejects with it |
| `Connections.Connection.ConnectEvent` | src/core/connection.ts:53-56 | the attempt is over and the socket is connected under the new id |
| `Connections.Connection.ConnectErrorEvent` | src/core/connection.ts:59-66 | the attempt is over, subscribers hear `CONNECTION_ERROR`, and the promise rejects with the transport's error |
| `Connections.Connection.ErrorEvent` | src/core/connection.ts:69-74 | subscribers hear the socket error report |
| `Connections.Connection.DisconnectEvent` | src/core/connection.ts:77-85 | the socket is down; subscribers hear `SERVER_DISCONNECT` only for a server-initiated disconnect |
| `Connections.Connection.Disconnect` | src/core/connection.ts:98-104 | the old socket is closed and dropped, and no attempt is in flight |
| `Connections.Connection.GetSocketId` | src/core/connection.ts:123-125 | no socket gives no id; otherwise the socket's id |
| `Connections.Connection.IsConnected` | src/core/connection.ts:116-118 | connected only with a socket, and then the id reported is that socket's |
| `Sdk.NotInitialized` | src/index.ts:314-318 | a `SparkMessagingError` with code `NOT_INITIALIZED` |
| `Sdk.SparkMessaging.constructor` | src/index.ts:26-41 | every registry and queue is empty, there are no handlers, the SDK is not initialised, and a fresh connection shares the fresh error handler |
| `Sdk.SparkMessaging.Create` | src/index.ts:51-113 | invalid options throw the resolution error; otherwise a new SDK with the resolved options, a fresh connection and error handler, no handlers, and every queue and registry empty; a connect starts exactly when `autoConnect` is not `false`, leaving the attempt in flight on a fresh unconnected socket for the options' URL, or, when `io` throws, no socket and no attempt |
| `Sdk.SparkMessaging.ConnectAfterAutoStart` | src/index.ts:98-99 | with `autoConnect` on, a caller's own `connect()` right after construction rejects with `Connection already in progress`, because the automatic attempt is still in flight |
| `Sdk.SparkMessaging.Connect` | src/index.ts:118-130 | initialised and connected resolves at once; otherwise the connection's `connect()` runs, with each of its outcomes: connected or in flight calls nobody and keeps the socket, a new attempt leaves a fresh socket on the options' URL, not connected, with no id and nothing emitted; the facade's own fields are unchanged |
| `Sdk.SparkMessaging.CompleteConnect` | src/index.ts:130-194 | no socket rejects with `CONNECTION_FAILED` and changes nothing; otherwise the handlers are fresh on the socket and hold the drained queues in their order, the queues are empty, connected subscribers are called once if connected, the SDK is initialised at `now`, and state subscribers hear `true` |
| `Sdk.SparkMessaging.Initialize` | src/index.ts:141-189 | the success path of `connect()`, with the same guarantees as `CompleteConnect` |
| `Sdk.SparkMessaging.ConnectedNow` | src/index.ts:161-179 | queued connected subscribers are called with the default message, the socket id or empty, and the connect time, only when connected |
| `Sdk.SparkMessaging.NewHandlers` | src/index.ts:143-159 | both handlers are fresh on the same socket, no room is joined, and the message handler holds the three queues as registered |
| `Sdk.SparkMessaging.Drain` | src/index.ts:150-159 | the three `forEach` loops register every queued callback with the handler, in queue order |
| `Sdk.SparkMessaging.Disconnect` | src/index.ts:209-239 | rooms, handler registries, error subscribers and queues are emptied; the socket is closed; the SDK is not initialised; state subscribers hear `false` exactly when it was initialised and connected; the handlers and the facade's own registries stay |
| `Sdk.SparkMessaging.GetSocketId` | src/index.ts:251-253 | an id is returned only when it is non-empty and is the socket's |
| `Sdk.SparkMessaging.IsConnected` | src/index.ts:244-246 | connected only when the connection holds a socket whose flag is up; no socket means not connected |
| `Sdk.SparkMessaging.IsInRoom` | src/index.ts:488-493 | false before the first connect; afterwards exactly the room handler's answer, that is, the room occurs in its joined list |
| `Sdk.SparkMessaging.GetConnectionStatus` | src/index.ts:258-264 | connection flag, non-empty id and connect time, as the individual getters give them |
| `Sdk.SparkMessaging.ImmediateConnection` | src/index.ts:270-276 | returns at once exactly when connected with a recorded connect time, with that time and the socket's id |
| `Sdk.SparkMessaging.GetOptions` | src/index.ts:591-593 | the URL and key the SDK was built with |
| `Sdk.SparkMessaging.SendMessage` | src/index.ts:313-338 | `NOT_INITIALIZED` without a handler; `NOT_CONNECTED` while the connection is down, emitting nothing; a handler throw becomes `SEND_MESSAGE_FAILED`; otherwise exactly one emit; the socket's flag and id and the facade's own fields are unchanged |
| `Sdk.SparkMessaging.SendRoomMessage` | src/index.ts:361-386 | as `SendMessage`, with `SEND_ROOM_MESSAGE_FAILED` and a room message |
| `Sdk.SparkMessaging.OnMessage` | src/index.ts:343-356 | registered with the live handler when there is one, else appended to the queue; the closure returned matches where it went; every other registry, queue, handler and the connect state are unchanged |
| `Sdk.SparkMessaging.OnRoomMessage` | src/index.ts:391-404 | as `OnMessage`, for room messages |
| `Sdk.SparkMessaging.OnConnected` | src/index.ts:410-437 | invoked once at once exactly when connected with a connect time, and registered in any case, with the handler or the queue; every other registry, queue, handler and the connect state are unchanged |
| `Sdk.SparkMessaging.OnError` | src/index.ts:500-502 | appended to the error handler's registry |
| `Sdk.SparkMessaging.OnConnectionStateChange` | src/index.ts:509-517 | appended to the state-change registry; every other facade field, handlers, queues and connect state included, is unchanged |
| `Sdk.SparkMessaging.OnRoomJoined` | src/index.ts:537-545 | appended to the room-joined registry; every other facade field, handlers, queues and connect state included, is unchanged |
| `Sdk.SparkMessaging.OnRoomLeft` | src/index.ts:550-558 | appended to the room-left registry; every other facade field, handlers, queues and connect state included, is unchanged |
| `Sdk.SparkMessaging.Unsubscribe` | src/index.ts:509-558 | a closure removes the first registration of its callback from the one registry it captured and changes no other registry, the captured handler's other two included; handlers and connect state are unchanged; a queue closure called after the connect leaves the live handler unchanged |
| `Sdk.SparkMessaging.UnsubscribeQueued` | src/index.ts:350-355 | the captured queue loses the first registration of the callback; the other queues, registries, handlers and connect state are unchanged |
| `Sdk.SparkMessaging.JoinRoom` | src/index.ts:444-456 | `NOT_INITIALIZED` without a room handler; otherwise the room handler's join with all its guarantees (guard paths emit nothing, a rejected acknowledgement leaves the set unchanged, the socket's flag and id stay), and room-joined subscribers hear the name exactly when it resolves; the facade's own fields are unchanged |
| `Sdk.SparkMessaging.LeaveRoom` | src/index.ts:461-473 | `NOT_INITIALIZED` without a room handler; otherwise the room handler's leave with all its guarantees (guard paths emit nothing, a rejected acknowledgement leaves the set unchanged, the socket's flag and id stay), and room-left subscribers hear the name exactly when it resolves; the facade's own fields are unchanged |
| `Sdk.SparkMessaging.GetJoinedRooms` | src/index.ts:478-483 | no rooms before the first connect; otherwise each joined room once, exactly those `isInRoom` accepts |
| `Sdk.SparkMessaging.ReportAutoConnectFailure` | src/index.ts:99-107 | error subscribers hear the auto-connect report |

## Left out

- The socket.io transport itself is not modelled: framing, heartbeats, reconnection and event delivery. The
  socket is reduced to its connected flag, its id and the list of emitted events. Transport events are method
  calls, and acknowledgements are parameters.
- Timers are left out, and so is the waiting branch of `waitForConnection()`: its 30-second timeout and its
  one-shot connected subscription. Only the branch that returns at once is modelled
  (`Sdk.SparkMessaging.ImmediateConnection`).
- `Date` values are integers supplied by the caller (`now`). `Date.now()` in the handlers is the same
  parameter.
- The `debug` option and every `console` call are left out. They only log.
- Callbacks are opaque ids. A callback that re-enters the SDK during a dispatch, for example by unsubscribing
  itself, is not modelled. Each dispatch walks the registry as it was when the dispatch started.
- Events from a socket the SDK has since replaced are not modelled. Each event method acts on the current socket.
- In `Connection.connect`, the `try` block can only throw from `io(...)`. Listener registration is taken not to
  throw.
- A `connected` event whose payload is not an object is not modelled. The payload is a record whose two fields
  may each be missing or empty.
- `Rooms.RoomHandler.JoinRoom` and `Rooms.RoomHandler.LeaveRoom` treat the emit and its acknowledgement as one
  atomic step. Two overlapping calls for the same room, both emitting before either acknowledgement arrives,
  are not modelled, and neither is an acknowledgement that never arrives (a promise left pending).
- `Rooms.RoomHandler.LeaveAllRooms` takes the acknowledgements as a table keyed by room. `Promise.all` is taken
  to reject with the first failing leave in snapshot order. The real order depends on when the
  acknowledgements arrive.
- `Rooms.FailedLeaves` states in its own contract only that every room it lists failed. That every failed room
  is listed is proved in `Rooms.FailedLeavesMembers`.
- `Config.LoadConfig` states in its own contract only which keys it can set. Where each value comes from is
  proved in `Config.LoadConfigPrecedence` and `Config.LoadConfigTruthy`.
- `Config.UserOptions` treats a URL string given without a truthy key as contributing no option. The code
  spreads the string itself, whose character keys are no option name.
- `Sdk.SparkMessaging.GetOptions` states only the URL and the key of the copy. The copy is a value here, so
  it cannot alias the SDK's own options.
- The `createSparkMessaging` factory is not modelled separately. It is `Sdk.SparkMessaging.Create` with an
  options argument.
- `setupRoomEventListeners` does nothing in the code and is not modelled.
- `Connection.getSocket` is read directly as the `socket` field.
- The `types` module has no behaviour. Its records appear as the datatypes of `Transport`, `Messaging`,
  `Errors` and `Sdk`.

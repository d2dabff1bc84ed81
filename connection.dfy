/**
 * `Connection`: the socket the SDK owns and the flag that marks an attempt
 * in flight. `connect` is split at its asynchronous boundary: `Connect` runs
 * the synchronous part up to the point where the promise waits, and the
 * transport's later `connect`, `connect_error`, `error` and `disconnect`
 * events are the methods named after them.
 */
module Connections {
  import opened Wrappers
  import opened Callbacks
  import opened Errors
  import opened Transport
  import opened Config
  import opened ErrorHandling

  const ALREADY_IN_PROGRESS := "Connection already in progress"
  const UNKNOWN_CONNECTION_ERROR := "Unknown connection error"
  const CONNECTION_FAILED_MESSAGE := "Connection failed"
  const SOCKET_ERROR_MESSAGE := "Socket error occurred"
  const SERVER_DISCONNECTED_MESSAGE := "Server disconnected"
  /** The reason socket.io gives when the server closed the connection. */
  const IO_SERVER_DISCONNECT := "io server disconnect"

  /** The options handed to `io(serverUrl, options)`. */
  function BuildSocketOptions(options: Options): (s: SocketOptions)
    ensures s.authKey == s.queryKey == options.projectKey
    ensures options.reconnection.Given? ==> s.reconnection == options.reconnection.value
    ensures !options.reconnection.Given? ==> s.reconnection
    ensures options.reconnectionAttempts.Given? ==> s.reconnectionAttempts == options.reconnectionAttempts.value
    ensures !options.reconnectionAttempts.Given? ==> s.reconnectionAttempts == 5
    ensures options.reconnectionDelay.Given? ==> s.reconnectionDelay == options.reconnectionDelay.value
    ensures !options.reconnectionDelay.Given? ==> s.reconnectionDelay == 1000
  {
    SocketOptions(
      options.projectKey,
      options.projectKey,
      options.reconnection.OrElse(true),
      options.reconnectionAttempts.OrElse(5),
      options.reconnectionDelay.OrElse(1000))
  }

  /** Without explicit settings the socket reconnects with the defaults, whatever the environment. */
  lemma DefaultReconnection(args: ConstructorArgs, window: Option<EnvSource>, env: Option<EnvSource>)
    requires ResolveOptions(args, window, env).Success?
    requires UserOptions(args).reconnection.Absent? && UserOptions(args).reconnectionAttempts.Absent?
    requires UserOptions(args).reconnectionDelay.Absent?
    ensures var s := BuildSocketOptions(ResolveOptions(args, window, env).value);
      s.reconnection && s.reconnectionAttempts == 5 && s.reconnectionDelay == 1000
  {
    ResolvePrecedence(args, window, env);
  }

  /** How the promise of `connect()` stands when its executor returns. */
  datatype ConnectStart =
    | Resolved
    | Rejected(error: JsError)
    /** A socket was created and the promise waits for its first event. */
    | Pending

  /** The payload of a socket `error` event: an object whose `message` and `code` may be missing or empty. */
  datatype SocketErrorPayload = SocketErrorPayload(message: Option<string>, code: Option<string>)

  /** What the `error` listener reports. */
  function SocketErrorReport(payload: SocketErrorPayload): (d: ErrorData)
    ensures d.code.Some? && d.code.value != "" && d.message != ""
    ensures Truthy(payload.code) ==> d.code == payload.code
    ensures Truthy(payload.message) ==> d.message == payload.message.value
    ensures !Truthy(payload.code) ==> d.code == Some(SOCKET_ERROR)
    ensures !Truthy(payload.message) ==> d.message == SOCKET_ERROR_MESSAGE
  {
    Coded(Or(payload.message, SOCKET_ERROR_MESSAGE), Or(payload.code, SOCKET_ERROR))
  }

  /** What the `connect_error` listener reports for an error with message `message`. */
  function ConnectErrorReport(message: string): (d: ErrorData)
    ensures d.code == Some(CONNECTION_ERROR)
    ensures message != "" ==> d.message == message
    ensures message == "" ==> d.message == CONNECTION_FAILED_MESSAGE
  {
    Coded(Or(Some(message), CONNECTION_FAILED_MESSAGE), CONNECTION_ERROR)
  }

  class Connection {
    const options: Options
    const errorHandler: ErrorHandler
    var socket: Socket?
    var isConnecting: bool

    constructor(options: Options, errorHandler: ErrorHandler)
      ensures this.options == options && this.errorHandler == errorHandler
      ensures socket == null && !isConnecting
    {
      this.options := options;
      this.errorHandler := errorHandler;
      socket := null;
      isConnecting := false;
    }

    /**
     * The synchronous part of `connect()`. A connected socket resolves at
     * once and a connect in flight rejects at once, neither touching any
     * state. Otherwise a new socket is created with the built options and the
     * promise waits. `ioFailure` is what `io(...)` throws, if it throws; the
     * catch reports it to the error subscribers (`throwing` are those that
     * throw) and rejects with it, a non-`Error` being replaced by a generic one.
     */
    method Connect(ioFailure: Option<Thrown>, throwing: set<CallbackId>) returns (start: ConnectStart, calls: seq<Call<ErrorData>>)
      modifies this
      ensures old(socket) != null && old(socket.connected) ==>
        start == Resolved && socket == old(socket) && isConnecting == old(isConnecting) && calls == []
      ensures !(old(socket) != null && old(socket.connected)) && old(isConnecting) ==>
        start == Rejected(PlainError(ALREADY_IN_PROGRESS)) && socket == old(socket) && isConnecting && calls == []
      ensures !(old(socket) != null && old(socket.connected)) && !old(isConnecting) && ioFailure.None? ==>
        && start == Pending && isConnecting && calls == []
        && socket != null && fresh(socket)
        && socket.url == options.serverUrl && socket.options == BuildSocketOptions(options)
        && !socket.connected && socket.id == None && socket.emitted == []
      ensures !(old(socket) != null && old(socket.connected)) && !old(isConnecting) && ioFailure.Some? ==>
        var err := if ioFailure.value.Threw? then ioFailure.value.error else PlainError(UNKNOWN_CONNECTION_ERROR);
        && start == Rejected(err) && socket == old(socket) && !isConnecting
        && calls == Deliveries(errorHandler.errorCallbacks, Normalize(RaisedError(err)), throwing)
    {
      calls := [];
      if socket != null && socket.connected {
        return Resolved, [];
      }
      if isConnecting {
        return Rejected(PlainError(ALREADY_IN_PROGRESS)), [];
      }
      isConnecting := true;
      if ioFailure.None? {
        socket := new Socket(options.serverUrl, BuildSocketOptions(options));
        start := Pending;
      } else {
        isConnecting := false;
        var err := if ioFailure.value.Threw? then ioFailure.value.error else PlainError(UNKNOWN_CONNECTION_ERROR);
        var report;
        report, calls := errorHandler.HandleError(RaisedError(err), throwing);
        start := Rejected(err);
      }
    }

    /** The `connect` listener: the transport is up under `newId`; the attempt is over and the promise resolves. */
    method ConnectEvent(newId: string)
      requires socket != null
      modifies this, socket
      ensures socket == old(socket) && !isConnecting
      ensures socket.connected && socket.id == Some(newId) && socket.emitted == old(socket.emitted)
    {
      isConnecting := false;
      socket.Opened(newId);
    }

    /**
     * The `connect_error` listener for an error with message `message`: the
     * attempt is over, subscribers hear of it under `CONNECTION_ERROR`, and the
     * promise rejects with the transport's own error.
     */
    method ConnectErrorEvent(message: string, throwing: set<CallbackId>) returns (rejection: JsError, calls: seq<Call<ErrorData>>)
      requires socket != null
      modifies this
      ensures socket == old(socket) && !isConnecting
      ensures rejection == PlainError(message)
      ensures calls == Deliveries(errorHandler.errorCallbacks, ConnectErrorReport(message), throwing)
    {
      isConnecting := false;
      var report;
      report, calls := errorHandler.HandleError(RaisedData(ConnectErrorReport(message)), throwing);
      rejection := PlainError(message);
    }

    /** The `error` listener: the error is reported with its code, `SOCKET_ERROR` when it has none. */
    method ErrorEvent(payload: SocketErrorPayload, throwing: set<CallbackId>) returns (calls: seq<Call<ErrorData>>)
      requires socket != null
      ensures calls == Deliveries(errorHandler.errorCallbacks, SocketErrorReport(payload), throwing)
    {
      var report;
      report, calls := errorHandler.HandleError(RaisedData(SocketErrorReport(payload)), throwing);
    }

    /**
     * The `disconnect` listener: the transport is down. Only a disconnect the
     * server initiated is reported, as `SERVER_DISCONNECT`.
     */
    method DisconnectEvent(reason: string, throwing: set<CallbackId>) returns (calls: seq<Call<ErrorData>>)
      requires socket != null
      modifies socket
      ensures !socket.connected && socket.id == None && socket.emitted == old(socket.emitted)
      ensures reason == IO_SERVER_DISCONNECT ==>
        calls == Deliveries(errorHandler.errorCallbacks, Coded(SERVER_DISCONNECTED_MESSAGE, SERVER_DISCONNECT), throwing)
      ensures reason != IO_SERVER_DISCONNECT ==> calls == []
    {
      socket.Closed();
      calls := [];
      if reason == IO_SERVER_DISCONNECT {
        var report;
        report, calls := errorHandler.HandleError(RaisedData(Coded(SERVER_DISCONNECTED_MESSAGE, SERVER_DISCONNECT)), throwing);
      }
    }

    /** `disconnect()`: the socket, if any, is closed and dropped, and no attempt is in flight. */
    method Disconnect()
      modifies this, socket
      ensures socket == null && !isConnecting
      ensures old(socket) != null ==>
        !old(socket).connected && old(socket).id == None && old(socket).emitted == old(socket.emitted)
      ensures !IsConnected()
    {
      if socket != null {
        socket.Closed();
        socket := null;
      }
      isConnecting := false;
    }

    /** `isConnected()`. */
    predicate IsConnected()
      reads this, socket
      ensures IsConnected() ==> socket != null && GetSocketId() == socket.id
    {
      socket != null && socket.connected
    }

    /** `getSocketId()`. */
    function GetSocketId(): (id: Option<string>)
      reads this, socket
      ensures socket == null ==> id == None
      ensures socket != null ==> id == socket.id
    {
      if socket == null then None else socket.id
    }
  }
}

/**
 * The socket.io client as the SDK sees it: a socket that is connected or not,
 * has an id once connected, and records what is emitted on it. Framing,
 * heartbeats and reconnection happen inside the library and are not modelled;
 * the transport's reactions reach the model as method calls and parameters.
 */
module Transport {
  import opened Wrappers

  /** The closed set of message kinds. */
  datatype MessageType = Chat | Notification | System | Test

  /** A message event's payload. `timestamp` is the sender's clock reading. */
  datatype MessageData = MessageData(kind: MessageType, content: string, user: Option<string>, timestamp: Option<int>, room: Option<string>)

  /** A room message event's payload. */
  datatype RoomMessageData = RoomMessageData(room: string, kind: MessageType, content: string, user: Option<string>, timestamp: Option<int>)

  /** An event the SDK emits on a socket. */
  datatype Emitted =
    | MessageOut(message: MessageData)
    | RoomMessageOut(roomMessage: RoomMessageData)
    | JoinRoomOut(room: string)
    | LeaveRoomOut(room: string)

  /** The acknowledgement a `join-room` or `leave-room` emit gets back: no payload, or an object with an optional `error`. */
  datatype Ack = NoPayload | AckPayload(error: Option<string>)

  /** The error an acknowledgement reports: its `error` field when that is truthy. */
  function AckError(ack: Ack): (e: Option<string>)
    ensures e.Some? <==> ack.AckPayload? && Truthy(ack.error)
    ensures e.Some? ==> e.value != "" && e == ack.error
  {
    if ack.AckPayload? && Truthy(ack.error) then ack.error else None
  }

  /** The options the SDK passes to `io(url, options)`. */
  datatype SocketOptions = SocketOptions(
    authKey: string,
    queryKey: string,
    reconnection: bool,
    reconnectionAttempts: int,
    reconnectionDelay: int)

  /** A socket.io client socket. */
  class Socket {
    const url: string
    const options: SocketOptions
    var connected: bool
    var id: Option<string>
    var emitted: seq<Emitted>

    /** `io(url, options)`: a new socket, not yet connected. */
    constructor(url: string, options: SocketOptions)
      ensures this.url == url && this.options == options
      ensures !connected && id == None && emitted == []
    {
      this.url := url;
      this.options := options;
      connected := false;
      id := None;
      emitted := [];
    }

    /** `socket.emit(event, ...)`: the event is handed to the transport. */
    method Emit(e: Emitted)
      modifies this
      ensures emitted == old(emitted) + [e]
      ensures connected == old(connected) && id == old(id)
    {
      emitted := emitted + [e];
    }

    /** The transport reports the connection up, under the id the server gave it. */
    method Opened(newId: string)
      modifies this
      ensures connected && id == Some(newId)
      ensures emitted == old(emitted)
    {
      connected := true;
      id := Some(newId);
    }

    /** `socket.disconnect()`, or the transport reports the connection gone. */
    method Closed()
      modifies this
      ensures !connected && id == None
      ensures emitted == old(emitted)
    {
      connected := false;
      id := None;
    }
  }
}

/**
 * `MessageHandler`: the three subscriber registries fed by the socket's
 * `connected`, `message` and `room-message` events, and the two send
 * operations. An inbound event reaches the model as a call of the matching
 * event method with its payload.
 */
module Messaging {
  import opened Wrappers
  import opened Sequences
  import opened Callbacks
  import opened Errors
  import opened Transport

  /** The payload of the server's `connected` event: either field may be missing or empty. */
  datatype ConnectedNotice = ConnectedNotice(message: Option<string>, socketId: Option<string>)

  /**
   * What a connected subscriber receives. The handler's own dispatch carries
   * no `connectedAt`; the facade's immediate invocation adds one.
   */
  datatype ConnectedData = ConnectedData(message: string, socketId: string, connectedAt: Option<int>)

  const DEFAULT_CONNECTED_MESSAGE := "Connected to server"

  /** The record the `connected` dispatch builds from the event payload and the socket's id. */
  function ConnectedInfo(notice: ConnectedNotice, socketId: Option<string>): (d: ConnectedData)
    ensures d.message != "" && d.connectedAt == None
    ensures Truthy(notice.message) ==> d.message == notice.message.value
    ensures !Truthy(notice.message) ==> d.message == DEFAULT_CONNECTED_MESSAGE
    ensures Truthy(notice.socketId) ==> d.socketId == notice.socketId.value
    ensures !Truthy(notice.socketId) && Truthy(socketId) ==> d.socketId == socketId.value
    ensures !Truthy(notice.socketId) && !Truthy(socketId) ==> d.socketId == ""
  {
    ConnectedData(Or(notice.message, DEFAULT_CONNECTED_MESSAGE), Or(notice.socketId, Or(socketId, "")), None)
  }

  /** The server's socket id wins over the local one; the local one is used only when the server sends none. */
  lemma ConnectedSocketIdPrecedence(notice: ConnectedNotice, local: Option<string>, other: Option<string>)
    ensures Truthy(notice.socketId) ==> ConnectedInfo(notice, local).socketId == ConnectedInfo(notice, other).socketId
    ensures ConnectedInfo(notice, local).message == ConnectedInfo(notice, other).message
  {
  }

  class MessageHandler {
    const socket: Socket
    var messageCallbacks: seq<CallbackId>
    var roomMessageCallbacks: seq<CallbackId>
    var connectedCallbacks: seq<CallbackId>

    /** `new MessageHandler(socket)`: empty registries, listening on `socket`. */
    constructor(socket: Socket)
      ensures this.socket == socket
      ensures messageCallbacks == [] && roomMessageCallbacks == [] && connectedCallbacks == []
    {
      this.socket := socket;
      messageCallbacks := [];
      roomMessageCallbacks := [];
      connectedCallbacks := [];
    }

    /** `onMessage(callback)`. */
    method OnMessage(cb: CallbackId)
      modifies this
      ensures messageCallbacks == old(messageCallbacks) + [cb]
      ensures roomMessageCallbacks == old(roomMessageCallbacks) && connectedCallbacks == old(connectedCallbacks)
    {
      messageCallbacks := messageCallbacks + [cb];
    }

    /** The unsubscribe closure returned by `onMessage`. */
    method UnsubscribeMessage(cb: CallbackId)
      modifies this
      ensures messageCallbacks == RemoveFirst(old(messageCallbacks), cb)
      ensures roomMessageCallbacks == old(roomMessageCallbacks) && connectedCallbacks == old(connectedCallbacks)
    {
      messageCallbacks := SpliceOut(messageCallbacks, cb);
    }

    /** `onRoomMessage(callback)`. */
    method OnRoomMessage(cb: CallbackId)
      modifies this
      ensures roomMessageCallbacks == old(roomMessageCallbacks) + [cb]
      ensures messageCallbacks == old(messageCallbacks) && connectedCallbacks == old(connectedCallbacks)
    {
      roomMessageCallbacks := roomMessageCallbacks + [cb];
    }

    /** The unsubscribe closure returned by `onRoomMessage`. */
    method UnsubscribeRoomMessage(cb: CallbackId)
      modifies this
      ensures roomMessageCallbacks == RemoveFirst(old(roomMessageCallbacks), cb)
      ensures messageCallbacks == old(messageCallbacks) && connectedCallbacks == old(connectedCallbacks)
    {
      roomMessageCallbacks := SpliceOut(roomMessageCallbacks, cb);
    }

    /** `onConnected(callback)`. */
    method OnConnected(cb: CallbackId)
      modifies this
      ensures connectedCallbacks == old(connectedCallbacks) + [cb]
      ensures messageCallbacks == old(messageCallbacks) && roomMessageCallbacks == old(roomMessageCallbacks)
    {
      connectedCallbacks := connectedCallbacks + [cb];
    }

    /** The unsubscribe closure returned by `onConnected`. */
    method UnsubscribeConnected(cb: CallbackId)
      modifies this
      ensures connectedCallbacks == RemoveFirst(old(connectedCallbacks), cb)
      ensures messageCallbacks == old(messageCallbacks) && roomMessageCallbacks == old(roomMessageCallbacks)
    {
      connectedCallbacks := SpliceOut(connectedCallbacks, cb);
    }

    /** The `connected` listener: every connected subscriber, in order, gets the same record. */
    method ConnectedEvent(notice: ConnectedNotice, throwing: set<CallbackId>) returns (calls: seq<Call<ConnectedData>>)
      ensures |calls| == |connectedCallbacks|
      ensures forall i :: 0 <= i < |calls| ==>
        calls[i] == Call(connectedCallbacks[i], ConnectedInfo(notice, socket.id), connectedCallbacks[i] in throwing)
    {
      calls := Dispatch(connectedCallbacks, ConnectedInfo(notice, socket.id), throwing);
    }

    /** The `message` listener: every message subscriber, in order, gets the payload as received. */
    method MessageEvent(data: MessageData, throwing: set<CallbackId>) returns (calls: seq<Call<MessageData>>)
      ensures |calls| == |messageCallbacks|
      ensures forall i :: 0 <= i < |calls| ==> calls[i] == Call(messageCallbacks[i], data, messageCallbacks[i] in throwing)
    {
      calls := Dispatch(messageCallbacks, data, throwing);
    }

    /** The `room-message` listener: every room-message subscriber, in order, gets the payload as received. */
    method RoomMessageEvent(data: RoomMessageData, throwing: set<CallbackId>) returns (calls: seq<Call<RoomMessageData>>)
      ensures |calls| == |roomMessageCallbacks|
      ensures forall i :: 0 <= i < |calls| ==> calls[i] == Call(roomMessageCallbacks[i], data, roomMessageCallbacks[i] in throwing)
    {
      calls := Dispatch(roomMessageCallbacks, data, throwing);
    }

    /**
     * `sendMessage(type, content, user)`: throws when the socket is down,
     * otherwise emits one `message` event stamped with `now`, the clock reading.
     */
    method SendMessage(kind: MessageType, content: string, user: Option<string>, now: int) returns (outcome: Outcome)
      modifies socket
      ensures socket.connected == old(socket.connected) && socket.id == old(socket.id)
      ensures !old(socket.connected) ==>
        outcome == Failed(PlainError(SOCKET_NOT_CONNECTED)) && socket.emitted == old(socket.emitted)
      ensures old(socket.connected) ==>
        outcome == Done && socket.emitted == old(socket.emitted) + [MessageOut(MessageData(kind, content, user, Some(now), None))]
    {
      if !socket.connected {
        return Failed(PlainError(SOCKET_NOT_CONNECTED));
      }
      socket.Emit(MessageOut(MessageData(kind, content, user, Some(now), None)));
      outcome := Done;
    }

    /** `sendRoomMessage(room, type, content, user)`: as `SendMessage`, on `room-message`, naming the room. */
    method SendRoomMessage(room: string, kind: MessageType, content: string, user: Option<string>, now: int) returns (outcome: Outcome)
      modifies socket
      ensures socket.connected == old(socket.connected) && socket.id == old(socket.id)
      ensures !old(socket.connected) ==>
        outcome == Failed(PlainError(SOCKET_NOT_CONNECTED)) && socket.emitted == old(socket.emitted)
      ensures old(socket.connected) ==>
        outcome == Done && socket.emitted == old(socket.emitted) + [RoomMessageOut(RoomMessageData(room, kind, content, user, Some(now)))]
    {
      if !socket.connected {
        return Failed(PlainError(SOCKET_NOT_CONNECTED));
      }
      socket.Emit(RoomMessageOut(RoomMessageData(room, kind, content, user, Some(now))));
      outcome := Done;
    }

    /** `clear()`: all three registries emptied. */
    method Clear()
      modifies this
      ensures messageCallbacks == [] && roomMessageCallbacks == [] && connectedCallbacks == []
    {
      messageCallbacks := [];
      roomMessageCallbacks := [];
      connectedCallbacks := [];
    }
  }
}

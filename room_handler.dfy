/**
 * `RoomHandler`: the set of joined rooms and the acknowledged join/leave
 * protocol. A join or leave is one step: the emit, then the acknowledgement
 * the server sends back, which is a parameter.
 */
module Rooms {
  import opened Wrappers
  import opened Sequences
  import opened Errors
  import opened Transport

  /** The acknowledgements the server would send to the leaves of `leaveAllRooms`, by room; a room it has none for gets no payload. */
  type AckTable = map<string, Ack>

  function AckFor(acks: AckTable, room: string): Ack {
    if room in acks then acks[room] else NoPayload
  }

  /** How one `leaveRoom(room)` settles, given the socket state and the acknowledgement it would get. */
  function LeaveOutcome(room: string, ack: Ack, connected: bool): (o: Outcome)
    ensures o.Done? <==> connected && AckError(ack).None?
    ensures !connected ==> o == Failed(PlainError(SOCKET_NOT_CONNECTED))
    ensures connected && o.Failed? ==> o.error.PlainError? && Some(o.error.text) == ack.error
  {
    if !connected then Failed(PlainError(SOCKET_NOT_CONNECTED))
    else if AckError(ack).Some? then Failed(PlainError(AckError(ack).value))
    else Done
  }

  /**
   * How `Promise.all` over the leaves settles: with the first rejection (the
   * acknowledgements are taken to arrive in snapshot order), else it resolves.
   */
  function FirstFailure(rooms: seq<string>, acks: AckTable, connected: bool): (o: Outcome)
    ensures o.Done? <==> forall k :: 0 <= k < |rooms| ==> LeaveOutcome(rooms[k], AckFor(acks, rooms[k]), connected).Done?
    ensures o.Failed? ==> exists k :: 0 <= k < |rooms| && o == LeaveOutcome(rooms[k], AckFor(acks, rooms[k]), connected)
  {
    if rooms == [] then Done
    else
      var first := LeaveOutcome(rooms[0], AckFor(acks, rooms[0]), connected);
      if first.Failed? then first
      else
        var rest := FirstFailure(rooms[1..], acks, connected);
        assert forall k :: 1 <= k < |rooms| ==> rooms[k] == rooms[1..][k - 1];
        rest
  }

  /** The rooms whose leave was rejected by their acknowledgement, in their order. */
  function FailedLeaves(rooms: seq<string>, acks: AckTable): (r: seq<string>)
    ensures |r| <= |rooms|
    ensures forall k :: 0 <= k < |r| ==> r[k] in rooms && AckError(AckFor(acks, r[k])).Some?
  {
    if rooms == [] then []
    else if AckError(AckFor(acks, rooms[0])).Some? then [rooms[0]] + FailedLeaves(rooms[1..], acks)
    else FailedLeaves(rooms[1..], acks)
  }

  /**
   * After `leaveAllRooms` a room is still joined exactly when it was joined
   * and its leave was rejected: the old set minus the rooms whose leave succeeded.
   */
  lemma {:induction false} FailedLeavesMembers(rooms: seq<string>, acks: AckTable, x: string)
    ensures x in FailedLeaves(rooms, acks) <==> x in rooms && AckError(AckFor(acks, x)).Some?
  {
    if rooms != [] {
      FailedLeavesMembers(rooms[1..], acks, x);
      assert rooms == [rooms[0]] + rooms[1..];
    }
  }

  /** The `leave-room` emits for `rooms`, in order. */
  function LeaveEmits(rooms: seq<string>): (e: seq<Emitted>)
    ensures |e| == |rooms|
    ensures forall k :: 0 <= k < |rooms| ==> e[k] == LeaveRoomOut(rooms[k])
  {
    if rooms == [] then [] else [LeaveRoomOut(rooms[0])] + LeaveEmits(rooms[1..])
  }

  /** Settling one more leave extends the aggregate outcome of the earlier ones. */
  lemma {:induction false} FirstFailureAppend(rooms: seq<string>, room: string, acks: AckTable, connected: bool)
    ensures FirstFailure(rooms + [room], acks, connected) ==
      if FirstFailure(rooms, acks, connected).Failed? then FirstFailure(rooms, acks, connected)
      else LeaveOutcome(room, AckFor(acks, room), connected)
  {
    if rooms != [] {
      assert (rooms + [room])[1..] == rooms[1..] + [room];
      FirstFailureAppend(rooms[1..], room, acks, connected);
    } else {
      assert [room][1..] == [];
    }
  }

  /** One more room extends the failed-leave list when its acknowledgement failed. */
  lemma {:induction false} FailedLeavesAppend(rooms: seq<string>, room: string, acks: AckTable)
    ensures FailedLeaves(rooms + [room], acks) ==
      FailedLeaves(rooms, acks) + (if AckError(AckFor(acks, room)).Some? then [room] else [])
  {
    if rooms != [] {
      assert (rooms + [room])[1..] == rooms[1..] + [room];
      FailedLeavesAppend(rooms[1..], room, acks);
    } else {
      assert [room][1..] == [];
    }
  }

  /** One more room extends the emitted leaves by its own. */
  lemma {:induction false} LeaveEmitsAppend(rooms: seq<string>, room: string)
    ensures LeaveEmits(rooms + [room]) == LeaveEmits(rooms) + [LeaveRoomOut(room)]
  {
    var l := LeaveEmits(rooms + [room]);
    var r := LeaveEmits(rooms) + [LeaveRoomOut(room)];
    assert |l| == |r|;
    forall k | 0 <= k < |l| ensures l[k] == r[k] {
      if k < |rooms| {
        assert (rooms + [room])[k] == rooms[k];
      }
    }
  }

  /** The room a distinct snapshot holds between `done` and `rest` occurs in neither. */
  lemma SnapshotSplit(done: seq<string>, room: string, rest: seq<string>)
    requires Distinct(done + [room] + rest)
    ensures room !in done && room !in rest
  {
    var rooms := done + [room] + rest;
    forall j | 0 <= j < |done| ensures done[j] != room {
      assert done[j] == rooms[j] && room == rooms[|done|];
    }
    forall j | 0 <= j < |rest| ensures rest[j] != room {
      assert rest[j] == rooms[|done| + 1 + j] && room == rooms[|done|];
    }
  }

  /** A leave of `leaveAllRooms` that is rejected keeps its room, now among the failed ones. */
  lemma LeaveStepRejected(done: seq<string>, room: string, rest: seq<string>, acks: AckTable)
    requires AckError(AckFor(acks, room)).Some?
    ensures room in FailedLeaves(done, acks) + ([room] + rest)
    ensures FailedLeaves(done, acks) + ([room] + rest) == FailedLeaves(done + [room], acks) + rest
  {
    FailedLeavesAppend(done, room, acks);
  }

  /** A leave of `leaveAllRooms` that succeeds removes its room and nothing else. */
  lemma LeaveStepAccepted(done: seq<string>, room: string, rest: seq<string>, acks: AckTable)
    requires Distinct(done + [room] + rest) && AckError(AckFor(acks, room)).None?
    ensures room in FailedLeaves(done, acks) + ([room] + rest)
    ensures Without(FailedLeaves(done, acks) + ([room] + rest), room) == FailedLeaves(done + [room], acks) + rest
  {
    var failed := FailedLeaves(done, acks);
    SnapshotSplit(done, room, rest);
    FailedLeavesAppend(done, room, acks);
    FailedLeavesMembers(done, acks, room);
    assert failed + ([room] + rest) == failed + [room] + rest;
    WithoutSplice(failed, room, rest);
  }

  class RoomHandler {
    const socket: Socket
    /** The JavaScript `Set` of joined rooms, in its insertion order. */
    var joinedRooms: seq<string>

    ghost predicate Valid()
      reads this
    {
      Distinct(joinedRooms)
    }

    constructor(socket: Socket)
      ensures Valid() && this.socket == socket && joinedRooms == []
    {
      this.socket := socket;
      joinedRooms := [];
    }

    /**
     * `joinRoom(roomName)`. A disconnected socket rejects at once and an
     * already joined room resolves at once, neither emitting; otherwise
     * `join-room` is emitted and the acknowledgement decides: an error
     * rejects with its text, anything else adds the room.
     */
    method JoinRoom(roomName: string, ack: Ack) returns (outcome: Outcome)
      requires Valid()
      modifies this, socket
      ensures Valid()
      ensures socket.connected == old(socket.connected) && socket.id == old(socket.id)
      ensures !old(socket.connected) ==>
        && outcome == Failed(PlainError(SOCKET_NOT_CONNECTED))
        && joinedRooms == old(joinedRooms) && socket.emitted == old(socket.emitted)
      ensures old(socket.connected) && roomName in old(joinedRooms) ==>
        outcome == Done && joinedRooms == old(joinedRooms) && socket.emitted == old(socket.emitted)
      ensures old(socket.connected) && roomName !in old(joinedRooms) ==>
        && socket.emitted == old(socket.emitted) + [JoinRoomOut(roomName)]
        && (AckError(ack).Some? ==> outcome == Failed(PlainError(AckError(ack).value)) && joinedRooms == old(joinedRooms))
        && (AckError(ack).None? ==> outcome == Done && joinedRooms == old(joinedRooms) + [roomName])
      ensures outcome.Done? <==> old(socket.connected) && roomName in joinedRooms
    {
      if !socket.connected {
        return Failed(PlainError(SOCKET_NOT_CONNECTED));
      }
      if roomName in joinedRooms {
        return Done;
      }
      socket.Emit(JoinRoomOut(roomName));
      var error := AckError(ack);
      if error.Some? {
        outcome := Failed(PlainError(error.value));
      } else {
        joinedRooms := joinedRooms + [roomName];
        outcome := Done;
      }
    }

    /**
     * `leaveRoom(roomName)`. A disconnected socket rejects at once and a room
     * not joined resolves at once, neither emitting; otherwise `leave-room` is
     * emitted and the acknowledgement decides: an error rejects with its text,
     * anything else removes the room.
     */
    method LeaveRoom(roomName: string, ack: Ack) returns (outcome: Outcome)
      requires Valid()
      modifies this, socket
      ensures Valid()
      ensures socket.connected == old(socket.connected) && socket.id == old(socket.id)
      ensures !old(socket.connected) ==>
        && outcome == Failed(PlainError(SOCKET_NOT_CONNECTED))
        && joinedRooms == old(joinedRooms) && socket.emitted == old(socket.emitted)
      ensures old(socket.connected) && roomName !in old(joinedRooms) ==>
        outcome == Done && joinedRooms == old(joinedRooms) && socket.emitted == old(socket.emitted)
      ensures old(socket.connected) && roomName in old(joinedRooms) ==>
        && socket.emitted == old(socket.emitted) + [LeaveRoomOut(roomName)]
        && (AckError(ack).Some? ==> outcome == Failed(PlainError(AckError(ack).value)) && joinedRooms == old(joinedRooms))
        && (AckError(ack).None? ==> outcome == Done && joinedRooms == Without(old(joinedRooms), roomName))
      ensures outcome == LeaveOutcome(roomName, ack, old(socket.connected)) || roomName !in old(joinedRooms)
      ensures outcome.Done? <==> old(socket.connected) && roomName !in joinedRooms
    {
      if !socket.connected {
        return Failed(PlainError(SOCKET_NOT_CONNECTED));
      }
      if roomName !in joinedRooms {
        return Done;
      }
      socket.Emit(LeaveRoomOut(roomName));
      var error := AckError(ack);
      if error.Some? {
        outcome := Failed(PlainError(error.value));
      } else {
        WithoutDistinct(joinedRooms, roomName);
        joinedRooms := Without(joinedRooms, roomName);
        outcome := Done;
      }
    }

    /** `getJoinedRooms()`: every joined room exactly once, in the order they were joined. */
    function GetJoinedRooms(): (rooms: seq<string>)
      requires Valid()
      reads this
      ensures Distinct(rooms)
      ensures forall r :: r in rooms <==> IsInRoom(r)
    {
      joinedRooms
    }

    /** `isInRoom(roomName)`. */
    predicate IsInRoom(roomName: string)
      reads this
      ensures IsInRoom(roomName) <==> Occurrences(joinedRooms, roomName) > 0
    {
      roomName in joinedRooms
    }

    /**
     * One leave of `leaveAllRooms`: the leave of the first room not yet left,
     * which moves it from `rest` to `done`. `sofar` is how the leaves of `done`
     * settled and `before` what the socket had emitted before the first of them.
     */
    method LeaveNext(ghost done: seq<string>, rest: seq<string>, acks: AckTable, sofar: Outcome, ghost before: seq<Emitted>)
      returns (settled: Outcome)
      requires Valid() && Distinct(done + rest) && rest != []
      requires sofar == FirstFailure(done, acks, socket.connected)
      requires socket.connected ==>
        joinedRooms == FailedLeaves(done, acks) + rest && socket.emitted == before + LeaveEmits(done)
      requires !socket.connected ==> joinedRooms == done + rest && socket.emitted == before
      modifies this, socket
      ensures Valid()
      ensures socket.connected == old(socket.connected) && socket.id == old(socket.id)
      ensures settled == FirstFailure(done + [rest[0]], acks, socket.connected)
      ensures socket.connected ==>
        && joinedRooms == FailedLeaves(done + [rest[0]], acks) + rest[1..]
        && socket.emitted == before + LeaveEmits(done + [rest[0]])
      ensures !socket.connected ==> joinedRooms == done + rest && socket.emitted == before
    {
      var room := rest[0];
      assert rest == [room] + rest[1..];
      assert done + rest == done + [room] + rest[1..];
      FirstFailureAppend(done, room, acks, socket.connected);
      LeaveEmitsAppend(done, room);
      if socket.connected && AckError(AckFor(acks, room)).Some? {
        LeaveStepRejected(done, room, rest[1..], acks);
      } else if socket.connected {
        LeaveStepAccepted(done, room, rest[1..], acks);
      }
      var o := LeaveRoom(room, AckFor(acks, room));
      settled := if sofar.Failed? then sofar else o;
    }

    /**
     * `leaveAllRooms()`: a leave for each room of a snapshot of the set, all
     * of them attempted. The rooms whose leave failed stay; the aggregate
     * resolves only if every leave does.
     */
    method LeaveAllRooms(acks: AckTable) returns (outcome: Outcome)
      requires Valid()
      modifies this, socket
      ensures Valid()
      ensures socket.connected == old(socket.connected) && socket.id == old(socket.id)
      ensures old(socket.connected) ==>
        && joinedRooms == FailedLeaves(old(joinedRooms), acks)
        && socket.emitted == old(socket.emitted) + LeaveEmits(old(joinedRooms))
      ensures !old(socket.connected) ==> joinedRooms == old(joinedRooms) && socket.emitted == old(socket.emitted)
      ensures outcome == FirstFailure(old(joinedRooms), acks, old(socket.connected))
    {
      var rest := joinedRooms;
      ghost var done: seq<string> := [];
      ghost var connected := socket.connected;
      ghost var before := socket.emitted;
      outcome := Done;
      assert done + rest == rest;
      while rest != []
        invariant Valid() && done + rest == old(joinedRooms)
        invariant socket.connected == connected && socket.id == old(socket.id)
        invariant connected ==>
          joinedRooms == FailedLeaves(done, acks) + rest && socket.emitted == before + LeaveEmits(done)
        invariant !connected ==> joinedRooms == done + rest && socket.emitted == before
        invariant outcome == FirstFailure(done, acks, connected)
        decreases |rest|
      {
        outcome := LeaveNext(done, rest, acks, outcome, before);
        assert done + rest == (done + [rest[0]]) + rest[1..];
        done, rest := done + [rest[0]], rest[1..];
      }
      assert done == old(joinedRooms);
    }

    /** `clear()`: no room is joined afterwards. */
    method Clear()
      modifies this
      ensures Valid() && joinedRooms == []
    {
      joinedRooms := [];
    }
  }
}

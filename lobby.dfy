/** The `/lobby` namespace: at most one current lobby per connection, held in
    the connection's `currentLobbyId` property, with JOINED / LEFT
    announcements, a PEERS list for the initial auto-join and point-to-point
    RTCSIGNAL relay. */
module LobbyProtocol {
  import opened Values
  import opened Rooms

  /** `ids.indexOf(x)`: the first position of `x`, or -1. */
  function IndexIn(ids: seq<ConnId>, x: ConnId): (r: int)
    ensures -1 <= r < |ids|
    ensures r == -1 <==> x !in ids
    ensures 0 <= r ==> ids[r] == x && x !in ids[..r]
  {
    if ids == [] then -1
    else if ids[0] == x then 0
    else
      var k := IndexIn(ids[1..], x);
      assert ids[1..] == ids[1..][..] && (0 <= k ==> ids[..k + 1] == [ids[0]] + ids[1..][..k]);
      if k < 0 then -1 else k + 1
  }

  /** The search `ids.indexOf(x)` performs. */
  method IndexOf(ids: seq<ConnId>, x: ConnId) returns (i: int)
    ensures i == IndexIn(ids, x)
  {
    i := 0;
    while i < |ids|
      invariant 0 <= i <= |ids|
      invariant x !in ids[..i]
    {
      if ids[i] == x {
        assert ids[..i + 1] == ids[..i] + [x];
        return;
      }
      assert ids[..i + 1] == ids[..i] + [ids[i]];
      i := i + 1;
    }
    assert ids[..i] == ids;
    i := -1;
  }

  /** `ids.splice(start, 1)` applied to `ids`: a negative start counts from
      the end, and a start past the end removes nothing. */
  function SpliceOne(ids: seq<ConnId>, start: int): (r: seq<ConnId>)
    ensures 0 <= start < |ids| ==> r == ids[..start] + ids[start + 1..]
    ensures -|ids| <= start < 0 ==> r == ids[..|ids| + start] + ids[|ids| + start + 1..]
    ensures start < -|ids| && ids != [] ==> r == ids[1..]
    ensures start >= |ids| ==> r == ids
    ensures ids != [] && start < |ids| ==> |r| == |ids| - 1
    ensures forall c | c in r :: c in ids
  {
    var k := if start < 0 then (if |ids| + start < 0 then 0 else |ids| + start)
             else (if start > |ids| then |ids| else start);
    if k < |ids| then ids[..k] + ids[k + 1..] else ids
  }

  /** The PEERS list the auto-join callback sends: the room's member list
      with one element spliced out at `indexOf(self)`. */
  function Peers(ids: seq<ConnId>, self: ConnId): (r: seq<ConnId>)
    ensures ids != [] ==> |r| == |ids| - 1
    ensures self in ids ==> r == ids[..IndexIn(ids, self)] + ids[IndexIn(ids, self) + 1..]
    ensures forall c | c in r :: c in ids
  {
    SpliceOne(ids, IndexIn(ids, self))
  }

  lemma {:induction false} RemovedConcat(a: seq<ConnId>, b: seq<ConnId>, x: ConnId)
    ensures Removed(a + b, x) == Removed(a, x) + Removed(b, x)
  {
    if a == [] {
      assert a + b == b;
    } else {
      assert (a + b)[1..] == a[1..] + b;
      RemovedConcat(a[1..], b, x);
    }
  }

  /** When the joiner is in the room once, PEERS is every other member, in
      room order. */
  lemma PeersOmitJoiner(ids: seq<ConnId>, self: ConnId)
    requires NoDups(ids) && self in ids
    ensures Peers(ids, self) == Removed(ids, self)
    ensures self !in Peers(ids, self)
  {
    var i := IndexIn(ids, self);
    var before, after := ids[..i], ids[i + 1..];
    assert Peers(ids, self) == before + after;
    NotAfter(ids, i);
    assert ids == before + ([self] + after);
    RemovedConcat(before, [self] + after, self);
    assert ([self] + after)[1..] == after;
    RemovedAbsent(before, self);
    RemovedAbsent(after, self);
  }

  lemma NotAfter(ids: seq<ConnId>, i: int)
    requires NoDups(ids) && 0 <= i < |ids|
    ensures ids[i] !in ids[i + 1..]
  {
  }

  /** When the joiner is not in the room, `indexOf` gives -1 and the splice
      drops the last member instead. */
  lemma PeersWithoutJoiner(ids: seq<ConnId>, self: ConnId)
    requires self !in ids && ids != []
    ensures Peers(ids, self) == ids[..|ids| - 1]
  {
  }

  /** The events a lobby connection's listeners receive. */
  datatype LobbyEvent =
    | JoinEv(id: Value, hasAck: bool)
    | LeaveEv(id: Value, hasAck: bool)
    | BroadcastEv(msg: Value)
    | SignalEv(signal: Signal)
    | DisconnectEv

  class Lobby {
    const io: Transport

    constructor (io: Transport)
      ensures this.io == io
    {
      this.io := io;
    }

    /** `_onConnect`: without a `lobbyId` in the handshake query the
        connection is dropped and no listener is registered; otherwise the
        listeners are registered, the connection joins that lobby and is sent
        PEERS. */
    method OnConnect(socket: Socket, lobbyId: Value, joinFails: bool)
      requires io.Valid() && socket.connected && !socket.listening
      modifies io, socket`connected, socket`listening, socket`currentLobbyId
      ensures io.Valid()
      ensures !Truthy(lobbyId) ==>
        !socket.connected && !socket.listening && unchanged(io) && socket.currentLobbyId == old(socket.currentLobbyId)
      ensures Truthy(lobbyId) ==> socket.connected && socket.listening
      ensures Truthy(lobbyId) && (Truthy(old(socket.currentLobbyId)) || joinFails) ==>
        && io.rooms == old(io.rooms)
        && socket.currentLobbyId == old(socket.currentLobbyId)
        && io.outbox == old(io.outbox) + [Emit({socket.id}, PEERS, ConnectionList(Peers(io.Members(socket.nsp, lobbyId), socket.id)))]
      ensures Truthy(lobbyId) && !Truthy(old(socket.currentLobbyId)) && !joinFails ==>
        var members := io.Members(socket.nsp, lobbyId);
        && io.rooms == Joined(old(io.rooms), Room(socket.nsp, lobbyId), socket.id)
        && socket.currentLobbyId == lobbyId
        && io.outbox == old(io.outbox) + [Emit(Everyone(members), JOINED, Connection(socket.id)),
                                          Emit({socket.id}, PEERS, ConnectionList(Removed(members, socket.id)))]
      ensures Keeps(old(io.rooms), io.rooms)
    {
      if !Truthy(lobbyId) {
        socket.connected := false;
        KeepsSame(io.rooms);
        return;
      }
      socket.listening := true;
      // The auto-join's callback is called as `ack()`, so its `err` is always
      // undefined and the member lookup always runs.
      var _ := OnJoin(socket, lobbyId, true, joinFails);
      var ids := PeersFor(socket, lobbyId);
      if !Truthy(old(socket.currentLobbyId)) && !joinFails {
        PeersOmitJoiner(io.Members(socket.nsp, lobbyId), socket.id);
      }
      io.Send({socket.id}, PEERS, ConnectionList(ids));
    }

    /** The auto-join callback's lookup: the lobby's member ids with the
        element at `indexOf(socket.id)` spliced out. */
    method PeersFor(socket: Socket, lobbyId: Value) returns (ids: seq<ConnId>)
      ensures ids == Peers(io.Members(socket.nsp, lobbyId), socket.id)
    {
      var members := io.Members(socket.nsp, lobbyId);
      var at := IndexOf(members, socket.id);
      ids := SpliceOne(members, at);
    }

    /** `_onConnect`'s listeners: route one event of an accepted connection.
        The LEAVE listener drops both the id and the callback, so it never
        leaves and never acknowledges; the disconnect listener reads the
        never-assigned `currentLobbyid`, so it never leaves either. */
    method Listen(socket: Socket, ev: LobbyEvent, adapterFails: bool) returns (acked: bool, threw: bool)
      requires io.Valid() && socket.listening
      modifies io, socket`currentLobbyId
      ensures io.Valid()
      ensures threw <==> ev.BroadcastEv?
      ensures acked <==> ev.JoinEv? && ev.hasAck
      ensures ev.JoinEv? && (Truthy(old(socket.currentLobbyId)) || adapterFails) ==>
        unchanged(io) && socket.currentLobbyId == old(socket.currentLobbyId)
      ensures ev.JoinEv? && !Truthy(old(socket.currentLobbyId)) && !adapterFails ==>
        && io.rooms == Joined(old(io.rooms), Room(socket.nsp, ev.id), socket.id)
        && socket.currentLobbyId == ev.id
        && io.outbox == old(io.outbox) + [Emit(Everyone(io.Members(socket.nsp, ev.id)), JOINED, Connection(socket.id))]
      ensures ev.LeaveEv? || ev.BroadcastEv? ==> unchanged(io) && unchanged(socket)
      ensures ev.SignalEv? ==>
        && unchanged(socket) && io.rooms == old(io.rooms)
        && io.outbox == old(io.outbox) + [Emit(Others(io.Members(socket.nsp, ev.signal.to), socket.id), RTCSIGNAL, SignalMessage(ev.signal))]
      ensures ev.DisconnectEv? && !Truthy(socket.currentLobbyid) ==> unchanged(io) && unchanged(socket)
      ensures ev.DisconnectEv? && Truthy(socket.currentLobbyid) && (!Truthy(old(socket.currentLobbyId)) || adapterFails) ==>
        unchanged(io) && unchanged(socket)
      ensures ev.DisconnectEv? && Truthy(socket.currentLobbyid) && Truthy(old(socket.currentLobbyId)) && !adapterFails ==>
        && io.rooms == Left(old(io.rooms), Room(socket.nsp, old(socket.currentLobbyId)), socket.id)
        && socket.currentLobbyId == Null
        && io.outbox == old(io.outbox) + [Emit(Everyone(io.Members(socket.nsp, old(socket.currentLobbyId))), LEFT, Connection(socket.id))]
      ensures !ev.DisconnectEv? || !Truthy(socket.currentLobbyid) ==> Keeps(old(io.rooms), io.rooms)
    {
      acked, threw := false, false;
      match ev
      case JoinEv(id, hasAck) =>
        acked := OnJoin(socket, id, hasAck, adapterFails);
      case LeaveEv(id, hasAck) =>
        acked := OnLeave(socket, Undefined, false, adapterFails);
      case BroadcastEv(msg) =>
        threw := OnBroadcast(socket, msg);
      case SignalEv(msg) =>
        OnRTCSignal(socket, msg);
      case DisconnectEv =>
        OnDisconnect(socket, adapterFails);
    }

    /** JOIN: refused while a lobby is current; otherwise join, record the
        lobby and announce JOINED to the whole room, joiner included. The
        callback is called in every case, never with an error. */
    method OnJoin(socket: Socket, id: Value, hasAck: bool, joinFails: bool) returns (acked: bool)
      requires io.Valid()
      modifies io, socket`currentLobbyId
      ensures io.Valid()
      ensures acked == hasAck
      ensures Truthy(old(socket.currentLobbyId)) || joinFails ==>
        unchanged(io) && socket.currentLobbyId == old(socket.currentLobbyId)
      ensures !Truthy(old(socket.currentLobbyId)) && !joinFails ==>
        && io.rooms == Joined(old(io.rooms), Room(socket.nsp, id), socket.id)
        && socket.currentLobbyId == id
        && io.outbox == old(io.outbox) + [Emit(Everyone(io.Members(socket.nsp, id)), JOINED, Connection(socket.id))]
        && socket.id in io.outbox[|io.outbox| - 1].to
      ensures Keeps(old(io.rooms), io.rooms)
    {
      if Truthy(socket.currentLobbyId) {
        acked := hasAck;
      } else {
        if !joinFails {
          io.Join(socket.nsp, id, socket.id);
          socket.currentLobbyId := id;
          io.Send(Everyone(io.Members(socket.nsp, id)), JOINED, Connection(socket.id));
        }
        acked := hasAck;
      }
    }

    /** LEAVE: refused unless `id` is the current lobby; otherwise leave,
        clear the current lobby and announce LEFT to those still in the room. */
    method OnLeave(socket: Socket, id: Value, hasAck: bool, leaveFails: bool) returns (acked: bool)
      requires io.Valid()
      modifies io, socket`currentLobbyId
      ensures io.Valid()
      ensures acked == hasAck
      ensures !Truthy(old(socket.currentLobbyId)) || old(socket.currentLobbyId) != id || leaveFails ==>
        unchanged(io) && socket.currentLobbyId == old(socket.currentLobbyId)
      ensures Truthy(old(socket.currentLobbyId)) && old(socket.currentLobbyId) == id && !leaveFails ==>
        && io.rooms == Left(old(io.rooms), Room(socket.nsp, id), socket.id)
        && socket.currentLobbyId == Null
        && io.outbox == old(io.outbox) + [Emit(Everyone(io.Members(socket.nsp, id)), LEFT, Connection(socket.id))]
        && socket.id !in io.outbox[|io.outbox| - 1].to
    {
      if !Truthy(socket.currentLobbyId) || socket.currentLobbyId != id {
        acked := hasAck;
      } else {
        if !leaveFails {
          io.Leave(socket.nsp, id, socket.id);
          socket.currentLobbyId := Null;
          io.Send(Everyone(io.Members(socket.nsp, id)), LEFT, Connection(socket.id));
        }
        acked := hasAck;
      }
    }

    /** BROADCAST: the handler reads the undeclared identifier `sg`, so every
        call throws a ReferenceError and nothing is sent. */
    method OnBroadcast(socket: Socket, msg: Value) returns (threw: bool)
      ensures threw
    {
      threw := true;
    }

    /** RTCSIGNAL: the message, unchanged, to the room named by `msg.to`,
        never back to the sender. When `msg.to` is another connection's id,
        that connection's own room delivers the message to it. */
    method OnRTCSignal(socket: Socket, msg: Signal)
      modifies io
      ensures io.rooms == old(io.rooms)
      ensures io.outbox == old(io.outbox) + [Emit(Others(io.Members(socket.nsp, msg.to), socket.id), RTCSIGNAL, SignalMessage(msg))]
      ensures socket.id !in io.outbox[|io.outbox| - 1].to
      ensures forall t: Socket | t.nsp == socket.nsp && msg.to == Str(t.id) && t.id != socket.id && io.Addressable(t) ::
        t.id in io.outbox[|io.outbox| - 1].to
    {
      io.Send(Others(io.Members(socket.nsp, msg.to), socket.id), RTCSIGNAL, SignalMessage(msg));
    }

    /** The disconnect hook: leaves the current lobby only if the misspelled
        property `currentLobbyid` is truthy. */
    method OnDisconnect(socket: Socket, leaveFails: bool)
      requires io.Valid()
      modifies io, socket`currentLobbyId
      ensures io.Valid()
      ensures !Truthy(socket.currentLobbyid) ==> unchanged(io) && unchanged(socket)
      ensures Truthy(socket.currentLobbyid) && (!Truthy(old(socket.currentLobbyId)) || leaveFails) ==>
        unchanged(io) && unchanged(socket)
      ensures Truthy(socket.currentLobbyid) && Truthy(old(socket.currentLobbyId)) && !leaveFails ==>
        && io.rooms == Left(old(io.rooms), Room(socket.nsp, old(socket.currentLobbyId)), socket.id)
        && socket.currentLobbyId == Null
        && io.outbox == old(io.outbox) + [Emit(Everyone(io.Members(socket.nsp, old(socket.currentLobbyId))), LEFT, Connection(socket.id))]
    {
      if Truthy(socket.currentLobbyid) {
        var _ := OnLeave(socket, socket.currentLobbyId, false, leaveFails);
      }
    }
  }

  /** Two connections join lobby room5; an RTCSIGNAL one addresses to the
      other's id reaches it through that connection's own room. */
  method SignalReachesPeer() {
    var io := new Transport();
    var lobby := new Lobby(io);
    var x := io.Accept(LobbyNs, "x");
    var y := io.Accept(LobbyNs, "y");
    lobby.OnConnect(x, Str("room5"), false);
    lobby.OnConnect(y, Str("room5"), false);
    assert io.Addressable(y);
    lobby.OnRTCSignal(x, Signal(Str("y"), Null));
    assert "y" in io.outbox[|io.outbox| - 1].to;
  }
}

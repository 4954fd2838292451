/** The general-purpose namespaces `/layout` and `/bus` of the single-process
    server: JOIN, LEAVE, NOTIFY, CLIENTS and DISCONNECT over room membership
    and a per-namespace presence dictionary (connection id to display name). */
module GeneralProtocol {
  import opened Values
  import opened Rooms

  /** A presence dictionary `nspClients`. `keys` is the order in which its
      properties were first created, which is the order `Object.keys` lists
      them in; `names` holds the display names. */
  class PresenceMap {
    var keys: seq<ConnId>
    var names: map<ConnId, Value>

    ghost predicate Valid()
      reads this
    {
      NoDups(keys) && forall c :: c in keys <==> c in names
    }

    constructor ()
      ensures Valid() && keys == [] && names == map[]
    {
      keys := [];
      names := map[];
    }

    /** `Object.keys(nspClients).map(id => nspClients[id])`. */
    function Names(): (r: seq<Value>)
      reads this
      ensures |r| == |keys|
      ensures forall i | 0 <= i < |keys| && keys[i] in names :: r[i] == names[keys[i]]
    {
      Lookup(keys, names, Undefined)
    }

    /** `nspClients[id] = name`: an existing property keeps its place. */
    method Put(id: ConnId, name: Value)
      requires Valid()
      modifies this
      ensures Valid()
      ensures names == old(names)[id := name]
      ensures keys == Added(old(keys), id)
    {
      keys := Added(keys, id);
      names := names[id := name];
    }

    /** `delete nspClients[id]`. */
    method Delete(id: ConnId)
      requires Valid()
      modifies this
      ensures Valid()
      ensures names == old(names) - {id}
      ensures keys == Removed(old(keys), id)
    {
      keys := Removed(keys, id);
      names := names - {id};
    }
  }

  /** The CLIENTS reply lists one name per presence entry, and every entry's
      name is in it. */
  lemma NamesListEveryEntry(keys: seq<ConnId>, names: map<ConnId, Value>)
    requires NoDups(keys) && forall c :: c in keys <==> c in names
    ensures |Lookup(keys, names, Undefined)| == |names|
    ensures forall c | c in names :: names[c] in Lookup(keys, names, Undefined)
    ensures forall v | v in Lookup(keys, names, Undefined) :: exists c :: c in names && names[c] == v
  {
    var r := Lookup(keys, names, Undefined);
    DistinctCount(keys);
    assert (set c | c in keys) == names.Keys;
    forall c | c in names ensures names[c] in r {
      var k :| 0 <= k < |keys| && keys[k] == c;
      assert r[k] == names[c];
    }
    forall v | v in r ensures exists c :: c in names && names[c] == v {
      var k :| 0 <= k < |r| && r[k] == v;
      assert keys[k] in names;
    }
  }

  /** The NOTIFY sender: the connection's presence name, or 'unknown'. */
  function SenderOf(names: map<ConnId, Value>, id: ConnId): (sender: Value)
    ensures id in names ==> sender == names[id]
    ensures id !in names ==> sender == Str("unknown")
  {
    if id in names then names[id] else Str("unknown")
  }

  /** The events a `/layout` or `/bus` connection sends, as its listeners
      receive them; `hasAck` tells whether the client supplied a callback. */
  datatype GeneralEvent =
    | JoinEv(data: Option<Request>, hasAck: bool)
    | LeaveEv(data: Option<Request>, hasAck: bool)
    | NotifyEv(data: Option<Request>)
    | ClientsEv(data: Option<Request>)
    | DisconnectEv

  class Server {
    const io: Transport
    const layoutClients: PresenceMap
    const busClients: PresenceMap

    ghost predicate Valid()
      reads this, io, layoutClients, busClients
    {
      io.Valid() && layoutClients.Valid() && busClients.Valid() && layoutClients != busClients
    }

    /** `_registerListeners`: each general namespace gets its own, empty,
        presence dictionary. */
    constructor (io: Transport)
      requires io.Valid()
      ensures Valid() && this.io == io
      ensures fresh(layoutClients) && fresh(busClients)
      ensures layoutClients.names == map[] && busClients.names == map[]
    {
      this.io := io;
      layoutClients := new PresenceMap();
      busClients := new PresenceMap();
    }

    /** The dictionary the listeners of a namespace were registered with. */
    function ClientsFor(nsp: Namespace): PresenceMap
      requires nsp == LayoutNs || nsp == BusNs
      reads this
    {
      if nsp == LayoutNs then layoutClients else busClients
    }

    /** `_onConnect`: route one event of a general-namespace connection to
        its handler. Only that namespace's dictionary can change. */
    method Listen(socket: Socket, ev: GeneralEvent) returns (acked: bool)
      requires Valid() && (socket.nsp == LayoutNs || socket.nsp == BusNs)
      modifies io, ClientsFor(socket.nsp)
      ensures Valid()
      ensures socket.nsp == LayoutNs ==> unchanged(busClients)
      ensures socket.nsp == BusNs ==> unchanged(layoutClients)
      ensures acked ==> ev.JoinEv? || ev.LeaveEv?
      ensures ev.JoinEv? ==>
        var named := ev.data.Some? && Truthy(ev.data.value.name);
        && acked == (ev.hasAck && named)
        && io.outbox == old(io.outbox)
        && (!named ==> io.rooms == old(io.rooms) && unchanged(ClientsFor(socket.nsp)))
        && (named ==>
              && io.rooms == Joined(old(io.rooms), Room(socket.nsp, ev.data.value.room), socket.id)
              && ClientsFor(socket.nsp).names == old(ClientsFor(socket.nsp).names)[socket.id := ev.data.value.name]
              && ClientsFor(socket.nsp).keys == Added(old(ClientsFor(socket.nsp).keys), socket.id))
      ensures ev.LeaveEv? ==>
        var hasRoom := ev.data.Some? && Truthy(ev.data.value.room);
        && acked == (ev.hasAck && hasRoom)
        && io.outbox == old(io.outbox)
        && unchanged(ClientsFor(socket.nsp))
        && io.rooms == (if hasRoom then Left(old(io.rooms), Room(socket.nsp, ev.data.value.room), socket.id) else old(io.rooms))
      ensures ev.NotifyEv? ==>
        && io.rooms == old(io.rooms) && unchanged(ClientsFor(socket.nsp))
        && io.outbox == old(io.outbox) + (if ev.data.None? then [] else
             [Emit(Others(io.Members(socket.nsp, ev.data.value.room), socket.id), EVENT,
                   Notice(SenderOf(ClientsFor(socket.nsp).names, socket.id), ev.data.value.room, ev.data.value.message))])
      ensures ev.ClientsEv? ==>
        && io.rooms == old(io.rooms) && unchanged(ClientsFor(socket.nsp))
        && io.outbox == old(io.outbox) + (if ev.data.None? then [] else
             [Emit({socket.id}, CLIENTS, ClientList(ev.data.value.room, ClientsFor(socket.nsp).Names()))])
      ensures ev.DisconnectEv? ==>
        && unchanged(io)
        && ClientsFor(socket.nsp).names == old(ClientsFor(socket.nsp).names) - {socket.id}
        && ClientsFor(socket.nsp).keys == Removed(old(ClientsFor(socket.nsp).keys), socket.id)
    {
      var nspClients := ClientsFor(socket.nsp);
      acked := false;
      match ev
      case JoinEv(data, hasAck) =>
        acked := OnJoin(socket, data, hasAck, nspClients);
      case LeaveEv(data, hasAck) =>
        acked := OnLeave(socket, data, hasAck);
      case NotifyEv(data) =>
        OnNotify(socket, data, nspClients);
      case ClientsEv(data) =>
        OnClients(socket, data, nspClients);
      case DisconnectEv =>
        OnDisconnect(socket, nspClients);
    }

    /** JOIN: a request with a name joins its room, records the name and
        acknowledges; anything else is dropped. */
    method OnJoin(socket: Socket, data: Option<Request>, hasAck: bool, nspClients: PresenceMap)
      returns (acked: bool)
      requires io.Valid() && nspClients.Valid()
      modifies io, nspClients
      ensures io.Valid() && nspClients.Valid()
      ensures io.outbox == old(io.outbox)
      ensures acked <==> hasAck && data.Some? && Truthy(data.value.name)
      ensures data.None? || !Truthy(data.value.name) ==>
        io.rooms == old(io.rooms) && unchanged(nspClients)
      ensures data.Some? && Truthy(data.value.name) ==>
        && io.rooms == Joined(old(io.rooms), Room(socket.nsp, data.value.room), socket.id)
        && nspClients.names == old(nspClients.names)[socket.id := data.value.name]
        && nspClients.keys == Added(old(nspClients.keys), socket.id)
    {
      acked := false;
      if data.None? {
        return;
      }
      var req := data.value;
      if !Truthy(req.name) {
        return;
      }
      io.Join(socket.nsp, req.room, socket.id);
      nspClients.Put(socket.id, req.name);
      acked := hasAck;
    }

    /** LEAVE: a request with a room leaves it and acknowledges; the presence
        dictionary is not involved. */
    method OnLeave(socket: Socket, data: Option<Request>, hasAck: bool) returns (acked: bool)
      requires io.Valid()
      modifies io
      ensures io.Valid()
      ensures io.outbox == old(io.outbox)
      ensures acked <==> hasAck && data.Some? && Truthy(data.value.room)
      ensures data.None? || !Truthy(data.value.room) ==> io.rooms == old(io.rooms)
      ensures data.Some? && Truthy(data.value.room) ==>
        io.rooms == Left(old(io.rooms), Room(socket.nsp, data.value.room), socket.id)
    {
      acked := false;
      if data.None? {
        return;
      }
      var req := data.value;
      if !Truthy(req.room) {
        return;
      }
      io.Leave(socket.nsp, req.room, socket.id);
      acked := hasAck;
    }

    /** NOTIFY: EVENT {sender, room, message} to the room's other members. */
    method OnNotify(socket: Socket, data: Option<Request>, nspClients: PresenceMap)
      modifies io
      ensures io.rooms == old(io.rooms)
      ensures data.None? ==> io.outbox == old(io.outbox)
      ensures data.Some? ==>
        var req := data.value;
        io.outbox == old(io.outbox) + [Emit(Others(io.Members(socket.nsp, req.room), socket.id), EVENT,
                                            Notice(SenderOf(nspClients.names, socket.id), req.room, req.message))]
    {
      if data.None? {
        return;
      }
      var req := data.value;
      var sender := SenderOf(nspClients.names, socket.id);
      io.Send(Others(io.Members(socket.nsp, req.room), socket.id), EVENT, Notice(sender, req.room, req.message));
    }

    /** CLIENTS: reply to the requester alone with every name in the
        namespace's dictionary, whatever room was asked for. */
    method OnClients(socket: Socket, data: Option<Request>, nspClients: PresenceMap)
      modifies io
      ensures io.rooms == old(io.rooms)
      ensures data.None? ==> io.outbox == old(io.outbox)
      ensures data.Some? ==>
        io.outbox == old(io.outbox) + [Emit({socket.id}, CLIENTS, ClientList(data.value.room, nspClients.Names()))]
    {
      if data.None? {
        return;
      }
      var req := data.value;
      var clients := nspClients.Names();
      io.Send({socket.id}, CLIENTS, ClientList(req.room, clients));
    }

    /** DISCONNECT: drop exactly this connection's presence entry. */
    method OnDisconnect(socket: Socket, nspClients: PresenceMap)
      requires nspClients.Valid()
      modifies nspClients
      ensures nspClients.Valid()
      ensures nspClients.names == old(nspClients.names) - {socket.id}
      ensures forall c | c in old(nspClients.names) && c != socket.id ::
        c in nspClients.names && nspClients.names[c] == old(nspClients.names)[c]
      ensures nspClients.keys == Removed(old(nspClients.keys), socket.id)
    {
      nspClients.Delete(socket.id);
    }

    /** POST /bus-message/:roomId: EVENT {sender: 'POST', room, message} to
        every member of the `/bus` room; 400 without a body. */
    method PostBusMessage(roomId: string, body: Value) returns (status: nat)
      modifies io
      ensures io.rooms == old(io.rooms)
      ensures status == 400 <==> !Truthy(body)
      ensures status == 400 ==> io.outbox == old(io.outbox)
      ensures status != 400 ==> status == 200
      ensures status == 200 ==>
        io.outbox == old(io.outbox) + [Emit(Everyone(io.Members(BusNs, Str(roomId))), EVENT,
                                            Notice(Str("POST"), Str(roomId), body))]
    {
      if !Truthy(body) {
        return 400;
      }
      io.Send(Everyone(io.Members(BusNs, Str(roomId))), EVENT, Notice(Str("POST"), Str(roomId), body));
      status := 200;
    }
  }
}

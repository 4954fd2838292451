/** The clustered server: broker address selection, and the general-namespace
    handlers re-implemented over a shared key/value store (connection id to
    display name) and broker-held room membership. */
module ClusterProtocol {
  import opened Values
  import opened Rooms
  import GeneralProtocol

  // ---------------------------------------------------------------------
  // Broker address selection
  // ---------------------------------------------------------------------

  /** `s.split(sep)`: the maximal runs of characters between separators. */
  function Split(s: string, sep: char): (fields: seq<string>)
    ensures |fields| >= 1
    ensures forall f | f in fields :: sep !in f
  {
    if s == [] then [""]
    else
      var rest := Split(s[1..], sep);
      if s[0] == sep then [""] + rest
      else [[s[0]] + rest[0]] + rest[1..]
  }

  /** `fields.join(sep)`. */
  function JoinWith(fields: seq<string>, sep: char): string
    requires |fields| >= 1
  {
    if |fields| == 1 then fields[0] else fields[0] + [sep] + JoinWith(fields[1..], sep)
  }

  /** Splitting loses nothing: joining the fields back gives the string. */
  lemma {:induction false} SplitJoin(s: string, sep: char)
    ensures JoinWith(Split(s, sep), sep) == s
  {
    if s != [] {
      var rest := Split(s[1..], sep);
      SplitJoin(s[1..], sep);
      if s[0] == sep {
        assert ([""] + rest)[1..] == rest;
      } else if |rest| > 1 {
        var fields := [[s[0]] + rest[0]] + rest[1..];
        assert fields[1..] == rest[1..];
        assert JoinWith(rest, sep) == rest[0] + [sep] + JoinWith(rest[1..], sep);
      }
    }
  }

  lemma {:induction false} SplitFree(f: string, sep: char)
    requires sep !in f
    ensures Split(f, sep) == [f]
  {
    if f != [] {
      assert f[0] in f;
      SplitFree(f[1..], sep);
      assert f == [f[0]] + f[1..];
    }
  }

  lemma {:induction false} SplitAtSeparator(f: string, sep: char, t: string)
    requires sep !in f
    ensures Split(f + [sep] + t, sep) == [f] + Split(t, sep)
  {
    if f == [] {
      assert (f + [sep] + t)[1..] == t;
    } else {
      var s := f + [sep] + t;
      assert f[0] in f && s[0] == f[0];
      assert s[1..] == f[1..] + [sep] + t;
      SplitAtSeparator(f[1..], sep, t);
      assert f == [f[0]] + f[1..];
    }
  }

  /** Joining fields free of the separator and splitting again gives the
      same fields back. */
  lemma {:induction false} JoinSplit(fields: seq<string>, sep: char)
    requires |fields| >= 1 && forall f | f in fields :: sep !in f
    ensures Split(JoinWith(fields, sep), sep) == fields
  {
    if |fields| == 1 {
      SplitFree(fields[0], sep);
    } else {
      JoinSplit(fields[1..], sep);
      SplitAtSeparator(fields[0], sep, JoinWith(fields[1..], sep));
    }
  }

  datatype Address = Address(host: string, port: string)

  /** One node of a service-discovery answer. */
  datatype ServiceNode = ServiceNode(serviceAddress: string, servicePort: string)

  /** The answer to the service lookup: whether it reported an error, and the
      node list (None when it is undefined). */
  datatype ServiceLookup = ServiceLookup(failed: bool, nodes: Option<seq<ServiceNode>>)

  /** Where `_configureRedis` connects, or `Exit` when it ends the process. */
  datatype BrokerChoice = Connect(addr: Address) | Exit

  /** `_configureRedis`: a `redis` option containing ':' is read as
      host:port; any other is a service name, resolved by `lookup`. */
  function SelectBroker(redis: string, lookup: ServiceLookup): (r: BrokerChoice)
    ensures ':' in redis ==> r.Connect? && ':' !in r.addr.host && ':' !in r.addr.port
    ensures ':' !in redis ==>
      (r == Exit <==> lookup.failed || lookup.nodes.None? || lookup.nodes.value == [])
    ensures ':' !in redis && r.Connect? ==>
      r.addr == Address(lookup.nodes.value[0].serviceAddress, lookup.nodes.value[0].servicePort)
  {
    if ':' !in redis then
      if lookup.nodes.None? || lookup.nodes.value == [] || lookup.failed then Exit
      else Connect(Address(lookup.nodes.value[0].serviceAddress, lookup.nodes.value[0].servicePort))
    else
      var fields := Split(redis, ':');
      assert |fields| >= 2 by {
        if |fields| == 1 {
          SplitJoin(redis, ':');
        }
      }
      Connect(Address(fields[0], fields[1]))
  }

  /** A direct address is the first two ':'-separated fields of the option:
      the host is everything before the first ':', the port everything up to
      the next ':' or the end. */
  lemma DirectAddress(redis: string, lookup: ServiceLookup)
    requires ':' in redis
    ensures var a := SelectBroker(redis, lookup).addr;
      && |a.host| + 1 + |a.port| <= |redis|
      && redis[..|a.host| + 1 + |a.port|] == a.host + [':'] + a.port
      && (|redis| == |a.host| + 1 + |a.port| || redis[|a.host| + 1 + |a.port|] == ':')
  {
    var fields := Split(redis, ':');
    SplitJoin(redis, ':');
    var a := SelectBroker(redis, lookup).addr;
    assert a == Address(fields[0], fields[1]);
    if |fields| == 2 {
      assert JoinWith(fields[1..], ':') == fields[1];
      assert redis == a.host + [':'] + a.port;
    } else {
      assert JoinWith(fields[1..], ':') == fields[1] + [':'] + JoinWith(fields[2..], ':');
      assert redis == (a.host + [':'] + a.port) + ([':'] + JoinWith(fields[2..], ':'));
    }
  }

  /** Every host:port without further colons is selected as written. */
  lemma DirectAddressRoundTrip(host: string, port: string, lookup: ServiceLookup)
    requires ':' !in host && ':' !in port
    ensures SelectBroker(host + [':'] + port, lookup) == Connect(Address(host, port))
  {
    var fields := [host, port];
    JoinSplit(fields, ':');
    assert JoinWith(fields, ':') == host + [':'] + port by {
      assert fields[1..] == [port];
    }
  }

  // ---------------------------------------------------------------------
  // Handlers over the shared store
  // ---------------------------------------------------------------------

  /** A handler's end: completed (with or without calling the client's
      callback), or an error thrown from a broker callback. */
  datatype Outcome = Done(acked: bool) | Threw

  /** The store's answer to `get id`: the stored name, or null. */
  function StoredName(clients: map<ConnId, Value>, id: ConnId): (v: Value)
    ensures id in clients ==> v == clients[id]
    ensures id !in clients ==> v == Null
  {
    if id in clients then clients[id] else Null
  }

  /** `_sendToRoom`'s sender: 'unknown' in place of null or undefined. */
  function SenderName(sender: Value): (name: Value)
    ensures IsNullish(sender) <==> name == Str("unknown") && sender != Str("unknown")
    ensures !IsNullish(sender) ==> name == sender
  {
    if IsNullish(sender) then Str("unknown") else sender
  }

  /** For stored names that are not null, the clustered NOTIFY attributes a
      message to the same sender as the single-process one. */
  lemma SenderMatchesSingleProcess(clients: map<ConnId, Value>, id: ConnId)
    requires forall c | c in clients :: !IsNullish(clients[c])
    ensures SenderName(StoredName(clients, id)) == GeneralProtocol.SenderOf(clients, id)
  {
  }

  /** When every member has a stored name, the clustered CLIENTS reply is
      exactly the members' names, in member order, one per member. */
  lemma ClientsAreMemberNames(members: seq<ConnId>, clients: map<ConnId, Value>)
    requires forall c | c in members :: c in clients && !IsNullish(clients[c])
    ensures var r := Lookup(members, clients, Null);
      && |r| == |members|
      && (forall i | 0 <= i < |members| :: r[i] == clients[members[i]])
      && Null !in r
  {
  }

  class Cluster {
    const io: Transport
    /** The shared key/value store, keyed by bare connection id. */
    var clients: map<ConnId, Value>

    constructor (io: Transport)
      ensures this.io == io && clients == map[]
    {
      this.io := io;
      clients := map[];
    }

    /** The inherited `_onConnect` wiring: the LEAVE listener passes the
        callback, but the clustered `_onLeave` has no parameter for it, so a
        LEAVE is never acknowledged. */
    method Listen(socket: Socket, ev: GeneralProtocol.GeneralEvent, brokerFails: bool, storeFails: bool)
      returns (outcome: Outcome)
      requires io.Valid() && (socket.nsp == LayoutNs || socket.nsp == BusNs)
      modifies io, this`clients
      ensures io.Valid()
      ensures !ev.JoinEv? && !ev.DisconnectEv? ==> clients == old(clients)
      ensures outcome == Done(true) ==> ev.JoinEv? && ev.hasAck
      ensures ev.JoinEv? ==>
        var named := ev.data.Some? && Truthy(ev.data.value.name);
        && io.outbox == old(io.outbox)
        && (!named ==> outcome == Done(false) && io.rooms == old(io.rooms) && clients == old(clients))
        && (named && brokerFails ==> outcome == Threw && io.rooms == old(io.rooms) && clients == old(clients))
        && (named && !brokerFails ==>
              && outcome == Done(ev.hasAck)
              && io.rooms == Joined(old(io.rooms), Room(socket.nsp, ev.data.value.room), socket.id)
              && clients == (if storeFails then old(clients) else old(clients)[socket.id := ev.data.value.name]))
      ensures ev.LeaveEv? ==>
        var hasRoom := ev.data.Some? && Truthy(ev.data.value.room);
        && io.outbox == old(io.outbox)
        && outcome == (if hasRoom && brokerFails then Threw else Done(false))
        && io.rooms == (if hasRoom && !brokerFails then Left(old(io.rooms), Room(socket.nsp, ev.data.value.room), socket.id)
                        else old(io.rooms))
      ensures ev.NotifyEv? ==>
        && io.rooms == old(io.rooms)
        && outcome == (if ev.data.Some? && brokerFails then Threw else Done(false))
        && io.outbox == old(io.outbox) + (if ev.data.None? || brokerFails then [] else
             [Emit(Others(io.Members(socket.nsp, ev.data.value.room), socket.id), EVENT,
                   Notice(SenderName(StoredName(clients, socket.id)), ev.data.value.room, ev.data.value.message))])
      ensures ev.ClientsEv? ==>
        var hasRoom := ev.data.Some? && Truthy(ev.data.value.room);
        && io.rooms == old(io.rooms)
        && outcome == (if hasRoom && brokerFails then Threw else Done(false))
        && io.outbox == old(io.outbox) + (if !hasRoom || brokerFails then [] else
             [Emit({socket.id}, CLIENTS,
                   ClientList(ev.data.value.room, Lookup(io.Members(socket.nsp, ev.data.value.room), clients, Null)))])
      ensures ev.DisconnectEv? ==>
        && unchanged(io)
        && outcome == (if brokerFails then Threw else Done(false))
        && clients == (if brokerFails then old(clients) else old(clients) - {socket.id})
    {
      outcome := Done(false);
      match ev
      case JoinEv(data, hasAck) =>
        outcome := OnJoin(socket, data, hasAck, brokerFails, storeFails);
      case LeaveEv(data, hasAck) =>
        outcome := OnLeave(socket, data, brokerFails);
      case NotifyEv(data) =>
        outcome := OnNotify(socket, data, brokerFails);
      case ClientsEv(data) =>
        outcome := OnClients(socket, data, brokerFails);
      case DisconnectEv =>
        outcome := OnDisconnect(socket, brokerFails);
    }

    /** JOIN: with a name, join the room through the broker, acknowledge,
        then store id -> name. An error from the store write is ignored: the
        callback has already been called, and the name is simply not stored. */
    method OnJoin(socket: Socket, data: Option<Request>, hasAck: bool, brokerFails: bool, storeFails: bool)
      returns (outcome: Outcome)
      requires io.Valid()
      modifies io, this`clients
      ensures io.Valid()
      ensures io.outbox == old(io.outbox)
      ensures data.None? || !Truthy(data.value.name) ==>
        outcome == Done(false) && io.rooms == old(io.rooms) && clients == old(clients)
      ensures data.Some? && Truthy(data.value.name) && brokerFails ==>
        outcome == Threw && io.rooms == old(io.rooms) && clients == old(clients)
      ensures data.Some? && Truthy(data.value.name) && !brokerFails ==>
        && outcome == Done(hasAck)
        && io.rooms == Joined(old(io.rooms), Room(socket.nsp, data.value.room), socket.id)
        && clients == (if storeFails then old(clients) else old(clients)[socket.id := data.value.name])
    {
      if data.None? {
        return Done(false);
      }
      var req := data.value;
      if !Truthy(req.name) {
        return Done(false);
      }
      if brokerFails {
        return Threw;
      }
      io.Join(socket.nsp, req.room, socket.id);
      outcome := Done(hasAck);
      if !storeFails {
        clients := clients[socket.id := req.name];
      }
    }

    /** LEAVE: with a room, leave it through the broker; there is no callback
        to call. */
    method OnLeave(socket: Socket, data: Option<Request>, brokerFails: bool) returns (outcome: Outcome)
      requires io.Valid()
      modifies io
      ensures io.Valid()
      ensures io.outbox == old(io.outbox)
      ensures outcome != Done(true)
      ensures data.None? || !Truthy(data.value.room) ==> outcome == Done(false) && io.rooms == old(io.rooms)
      ensures data.Some? && Truthy(data.value.room) && brokerFails ==> outcome == Threw && io.rooms == old(io.rooms)
      ensures data.Some? && Truthy(data.value.room) && !brokerFails ==>
        outcome == Done(false) && io.rooms == Left(old(io.rooms), Room(socket.nsp, data.value.room), socket.id)
    {
      if data.None? {
        return Done(false);
      }
      var req := data.value;
      if !Truthy(req.room) {
        return Done(false);
      }
      if brokerFails {
        return Threw;
      }
      io.Leave(socket.nsp, req.room, socket.id);
      // `ack` is not in scope here: `typeof ack` is 'undefined'.
      outcome := Done(false);
    }

    /** NOTIFY: look the sender up in the store, then send to the room. */
    method OnNotify(socket: Socket, data: Option<Request>, brokerFails: bool) returns (outcome: Outcome)
      modifies io
      ensures io.rooms == old(io.rooms)
      ensures outcome == (if data.Some? && brokerFails then Threw else Done(false))
      ensures data.None? || brokerFails ==> io.outbox == old(io.outbox)
      ensures data.Some? && !brokerFails ==>
        io.outbox == old(io.outbox) + [Emit(Others(io.Members(socket.nsp, data.value.room), socket.id), EVENT,
                                            Notice(SenderName(StoredName(clients, socket.id)), data.value.room, data.value.message))]
    {
      if data.None? {
        return Done(false);
      }
      var req := data.value;
      if brokerFails {
        return Threw;
      }
      var sender := StoredName(clients, socket.id);
      SendToRoom(socket, req.room, req.message, sender);
      outcome := Done(false);
    }

    /** `_sendToRoom`: EVENT {sender, room, message} to the room's other
        members, with 'unknown' for a null or undefined sender. */
    method SendToRoom(socket: Socket, room: Value, message: Value, sender: Value)
      modifies io
      ensures io.rooms == old(io.rooms)
      ensures io.outbox == old(io.outbox) + [Emit(Others(io.Members(socket.nsp, room), socket.id), EVENT,
                                                  Notice(SenderName(sender), room, message))]
      ensures socket.id !in io.outbox[|io.outbox| - 1].to
    {
      var name := SenderName(sender);
      io.Send(Others(io.Members(socket.nsp, room), socket.id), EVENT, Notice(name, room, message));
    }

    /** CLIENTS: with a room, reply to the requester with the stored value
        for each member of that room, in member order, null where none. */
    method OnClients(socket: Socket, data: Option<Request>, brokerFails: bool) returns (outcome: Outcome)
      modifies io
      ensures io.rooms == old(io.rooms)
      ensures outcome == (if data.Some? && Truthy(data.value.room) && brokerFails then Threw else Done(false))
      ensures data.None? || !Truthy(data.value.room) || brokerFails ==> io.outbox == old(io.outbox)
      ensures data.Some? && Truthy(data.value.room) && !brokerFails ==>
        && io.outbox == old(io.outbox) + [Emit({socket.id}, CLIENTS,
                                               ClientList(data.value.room, Lookup(io.Members(socket.nsp, data.value.room), clients, Null)))]
        && |io.outbox[|io.outbox| - 1].payload.clients| == |io.Members(socket.nsp, data.value.room)|
    {
      if data.None? {
        return Done(false);
      }
      var req := data.value;
      if !Truthy(req.room) {
        return Done(false);
      }
      if brokerFails {
        return Threw;
      }
      var ids := io.Members(socket.nsp, req.room);
      var names := Lookup(ids, clients, Null);
      io.Send({socket.id}, CLIENTS, ClientList(req.room, names));
      outcome := Done(false);
    }

    /** DISCONNECT: delete exactly the key of this connection. */
    method OnDisconnect(socket: Socket, brokerFails: bool) returns (outcome: Outcome)
      modifies this`clients
      ensures outcome == (if brokerFails then Threw else Done(false))
      ensures brokerFails ==> clients == old(clients)
      ensures !brokerFails ==> clients == old(clients) - {socket.id}
      ensures forall c | c in old(clients) && c != socket.id :: c in clients && clients[c] == old(clients)[c]
    {
      if brokerFails {
        return Threw;
      }
      clients := clients - {socket.id};
      outcome := Done(false);
    }
  }
}

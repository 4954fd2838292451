/** The transport the protocols run on: namespaces, rooms, connections and
    emits. Room membership is a map from (namespace, room id) to the ordered
    list of member connection ids; every emit is appended to an outbox with
    the set of connections it reaches. */
module Rooms {
  import opened Values

  type ConnId = string

  datatype Namespace = LayoutNs | BusNs | LobbyNs | TriggerNs

  /** A room is named by whatever value the handler passed as its id. */
  datatype Room = Room(nsp: Namespace, id: Value)

  datatype Event = EVENT | CLIENTS | JOINED | LEFT | PEERS | RTCSIGNAL | EVENTS | UPDATES | STATUS

  datatype Signal = Signal(to: Value, body: Value)

  datatype Payload =
    | Notice(sender: Value, room: Value, message: Value)  // EVENT {sender, room, message}
    | ClientList(room: Value, clients: seq<Value>)       // CLIENTS {room, clients}
    | Connection(id: ConnId)                             // JOINED / LEFT
    | ConnectionList(ids: seq<ConnId>)                   // PEERS
    | SignalMessage(msg: Signal)                         // RTCSIGNAL
    | Relayed(data: Value)                               // EVENTS / UPDATES / STATUS

  datatype Emit = Emit(to: set<ConnId>, event: Event, payload: Payload)

  predicate NoDups<T(==)>(s: seq<T>) {
    forall i, j | 0 <= i < j < |s| :: s[i] != s[j]
  }

  /** `s` with `x` appended unless it is already there. */
  function Added(s: seq<ConnId>, x: ConnId): (r: seq<ConnId>)
    ensures forall y :: y in r <==> y in s || y == x
    ensures NoDups(s) ==> NoDups(r)
    ensures |r| <= |s| + 1
  {
    if x in s then s else s + [x]
  }

  /** `s` with every occurrence of `x` taken out, the rest in order. */
  function Removed(s: seq<ConnId>, x: ConnId): (r: seq<ConnId>)
    ensures forall y :: y in r <==> y in s && y != x
    ensures NoDups(s) ==> NoDups(r)
    ensures |r| <= |s|
  {
    if s == [] then []
    else if s[0] == x then Removed(s[1..], x)
    else
      var rest := Removed(s[1..], x);
      assert NoDups(s) ==> s[0] !in s[1..] && NoDups(s[1..]) by {
        if NoDups(s) {
          forall k | 0 <= k < |s[1..]| ensures s[1..][k] != s[0] { assert s[1..][k] == s[k + 1]; }
        }
      }
      [s[0]] + rest
  }

  lemma {:induction false} RemovedAbsent(s: seq<ConnId>, x: ConnId)
    requires x !in s
    ensures Removed(s, x) == s
  {
    if s != [] {
      RemovedAbsent(s[1..], x);
    }
  }

  /** With no duplicates, removing a member shortens the list by exactly one. */
  lemma {:induction false} RemovedLength(s: seq<ConnId>, x: ConnId)
    requires NoDups(s) && x in s
    ensures |Removed(s, x)| == |s| - 1
  {
    if s[0] == x {
      assert x !in s[1..] by {
        forall k | 0 <= k < |s[1..]| ensures s[1..][k] != x { assert s[1..][k] == s[k + 1]; }
      }
      RemovedAbsent(s[1..], x);
    } else {
      assert NoDups(s[1..]) by {
        forall i, j | 0 <= i < j < |s[1..]| ensures s[1..][i] != s[1..][j] {
          assert s[1..][i] == s[i + 1] && s[1..][j] == s[j + 1];
        }
      }
      RemovedLength(s[1..], x);
    }
  }

  /** The set of connections an emit to a whole room reaches. */
  function Everyone(members: seq<ConnId>): (r: set<ConnId>)
    ensures forall c :: c in r <==> c in members
  {
    set c | c in members
  }

  /** The set of connections a broadcast from `self` reaches: the sender is
      never among them. */
  function Others(members: seq<ConnId>, self: ConnId): (r: set<ConnId>)
    ensures self !in r
    ensures forall c :: c in r <==> c in members && c != self
  {
    Everyone(members) - {self}
  }

  /** A list of distinct ids has as many elements as the set it lists. */
  lemma {:induction false} DistinctCount(s: seq<ConnId>)
    requires NoDups(s)
    ensures |set c | c in s| == |s|
  {
    if s != [] {
      assert NoDups(s[1..]) by {
        forall i, j | 0 <= i < j < |s[1..]| ensures s[1..][i] != s[1..][j] {
          assert s[1..][i] == s[i + 1] && s[1..][j] == s[j + 1];
        }
      }
      DistinctCount(s[1..]);
      assert s[0] !in s[1..] by {
        forall k | 0 <= k < |s[1..]| ensures s[1..][k] != s[0] { assert s[1..][k] == s[k + 1]; }
      }
      assert (set c | c in s) == {s[0]} + (set c | c in s[1..]) by {
        forall c ensures c in s <==> c == s[0] || c in s[1..] {
          if c in s {
            var k :| 0 <= k < |s| && s[k] == c;
            if k > 0 { assert s[1..][k - 1] == c; }
          }
        }
      }
    }
  }

  /** The entry of `m` for each id of `ids` in turn, or `missing` for an id
      that has none. */
  function Lookup(ids: seq<ConnId>, m: map<ConnId, Value>, missing: Value): (r: seq<Value>)
    ensures |r| == |ids|
    ensures forall i | 0 <= i < |ids| :: r[i] == (if ids[i] in m then m[ids[i]] else missing)
  {
    if ids == [] then []
    else [if ids[0] in m then m[ids[0]] else missing] + Lookup(ids[1..], m, missing)
  }

  type Membership = map<Room, seq<ConnId>>

  /** Rooms without members do not exist, and nobody is listed twice. */
  predicate WellFormed(m: Membership) {
    forall r | r in m :: m[r] != [] && NoDups(m[r])
  }

  function MembersOf(m: Membership, r: Room): seq<ConnId> {
    if r in m then m[r] else []
  }

  /** No connection has left any room between `m` and `m'`. */
  ghost predicate Keeps(m: Membership, m': Membership) {
    forall r, c | c in MembersOf(m, r) :: c in MembersOf(m', r)
  }

  lemma KeepsSame(m: Membership)
    ensures Keeps(m, m)
  {
  }

  /** The membership after connection `c` joins room `r`. */
  function Joined(m: Membership, r: Room, c: ConnId): (m': Membership)
    ensures forall d :: d in MembersOf(m', r) <==> d in MembersOf(m, r) || d == c
    ensures forall q | q != r :: MembersOf(m', q) == MembersOf(m, q)
    ensures WellFormed(m) ==> WellFormed(m')
    ensures Keeps(m, m')
  {
    m[r := Added(MembersOf(m, r), c)]
  }

  /** The membership after connection `c` leaves room `r`; a room left empty
      is dropped. */
  function Left(m: Membership, r: Room, c: ConnId): (m': Membership)
    ensures forall d :: d in MembersOf(m', r) <==> d in MembersOf(m, r) && d != c
    ensures forall q | q != r :: MembersOf(m', q) == MembersOf(m, q)
    ensures WellFormed(m) ==> WellFormed(m')
  {
    var rest := Removed(MembersOf(m, r), c);
    if rest == [] then m - {r} else m[r := rest]
  }

  /** Joining a room one is already in changes nothing. */
  lemma JoinIdempotent(m: Membership, r: Room, c: ConnId)
    requires WellFormed(m)
    ensures Joined(Joined(m, r, c), r, c) == Joined(m, r, c)
    ensures c in MembersOf(m, r) ==> Joined(m, r, c) == m
  {
  }

  /** Leaving a room one is not in changes nothing. */
  lemma LeaveAbsentNoop(m: Membership, r: Room, c: ConnId)
    requires WellFormed(m) && c !in MembersOf(m, r)
    ensures Left(m, r, c) == m
  {
    RemovedAbsent(MembersOf(m, r), c);
  }

  /** A join followed by a leave of the same room restores a membership the
      connection was not part of. */
  lemma JoinLeaveRoundTrip(m: Membership, r: Room, c: ConnId)
    requires WellFormed(m) && c !in MembersOf(m, r)
    ensures Left(Joined(m, r, c), r, c) == m
  {
    var s := MembersOf(m, r);
    RemovedAppend(s, c);
  }

  lemma {:induction false} RemovedAppend(s: seq<ConnId>, x: ConnId)
    requires x !in s
    ensures Removed(s + [x], x) == s
  {
    if s == [] {
    } else {
      assert (s + [x])[1..] == s[1..] + [x];
      RemovedAppend(s[1..], x);
    }
  }

  /** The connection object a namespace hands to its listeners, with the
      properties the protocols set on it. */
  class Socket {
    const id: ConnId
    const nsp: Namespace
    var connected: bool
    /** Whether the protocol registered its listeners on this connection. */
    var listening: bool
    var currentLobbyId: Value
    /** The misspelled property the lobby's disconnect hook reads; no code
        ever assigns it. */
    var currentLobbyid: Value
    var documentid: Value

    constructor (id: ConnId, nsp: Namespace)
      ensures this.id == id && this.nsp == nsp
      ensures connected && !listening
      ensures currentLobbyId == Undefined && currentLobbyid == Undefined && documentid == Undefined
    {
      this.id := id;
      this.nsp := nsp;
      connected := true;
      listening := false;
      currentLobbyId := Undefined;
      currentLobbyid := Undefined;
      documentid := Undefined;
    }
  }

  /** The server's rooms, shared by all namespaces, and everything emitted so far. */
  class Transport {
    var rooms: Membership
    var outbox: seq<Emit>

    ghost predicate Valid()
      reads this
    {
      WellFormed(rooms)
    }

    constructor ()
      ensures Valid() && rooms == map[] && outbox == []
    {
      rooms := map[];
      outbox := [];
    }

    function Members(nsp: Namespace, id: Value): seq<ConnId>
      reads this
    {
      MembersOf(rooms, Room(nsp, id))
    }

    /** Whether a message sent to the room named by connection `t`'s id
        reaches `t`. */
    predicate Addressable(t: Socket)
      reads this
    {
      t.id in Members(t.nsp, Str(t.id))
    }

    /** A connection accepted on `nsp`: before any listener sees it, it is
        put in a room named by its own id, which is how a message can be
        addressed to one connection. */
    method Accept(nsp: Namespace, id: ConnId) returns (socket: Socket)
      requires Valid()
      modifies this
      ensures Valid()
      ensures fresh(socket) && socket.id == id && socket.nsp == nsp
      ensures socket.connected && !socket.listening
      ensures socket.currentLobbyId == Undefined && socket.currentLobbyid == Undefined && socket.documentid == Undefined
      ensures rooms == Joined(old(rooms), Room(nsp, Str(id)), id)
      ensures outbox == old(outbox)
      ensures Addressable(socket)
    {
      socket := new Socket(id, nsp);
      rooms := Joined(rooms, Room(nsp, Str(id)), id);
    }

    method Join(nsp: Namespace, id: Value, who: ConnId)
      requires Valid()
      modifies this
      ensures Valid()
      ensures rooms == Joined(old(rooms), Room(nsp, id), who)
      ensures outbox == old(outbox)
    {
      rooms := Joined(rooms, Room(nsp, id), who);
    }

    method Leave(nsp: Namespace, id: Value, who: ConnId)
      requires Valid()
      modifies this
      ensures Valid()
      ensures rooms == Left(old(rooms), Room(nsp, id), who)
      ensures outbox == old(outbox)
    {
      rooms := Left(rooms, Room(nsp, id), who);
    }

    method Send(to: set<ConnId>, event: Event, payload: Payload)
      modifies this
      ensures rooms == old(rooms)
      ensures outbox == old(outbox) + [Emit(to, event, payload)]
    {
      outbox := outbox + [Emit(to, event, payload)];
    }
  }
}

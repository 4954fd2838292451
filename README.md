# Room relay: per-connection protocol model

A Dafny model of the per-connection protocol logic of a socket.io room relay
(the 2-IMMERSE websocket service). Clients connect to a namespace, join rooms,
and exchange events that the server fans out to the other members of a room.

The model covers four protocols:

- **General namespaces `/layout` and `/bus`** (`src/server.js`). JOIN, LEAVE,
  NOTIFY, CLIENTS and DISCONNECT act on room membership and on a presence
  dictionary per namespace, mapping connection id to display name. The
  `/bus-message` HTTP post is modelled as a room emit.
- **Lobby** (`src/lobby.js`). A connection has at most one current lobby,
  kept in its `currentLobbyId` property. JOIN and LEAVE announce JOINED and
  LEFT. The automatic join at connect time sends PEERS. RTCSIGNAL is relayed
  point to point.
- **Trigger** (`src/trigger.js`). JOIN and LEAVE maintain channel membership
  and the `documentid` property. EVENTS, UPDATES and STATUS are relayed to the
  other members of a channel.
- **Cluster** (`src/cluster.js`). The general handlers run over a shared
  key/value store and broker-held rooms. The broker address comes either from
  a `host:port` option or from a service lookup.

## How the state is modelled

- Socket.io is replaced by one `Rooms.Transport` object.
  - `rooms` maps (namespace, room id) to the ordered list of member connection
    ids. A list has no duplicates, and a room with no members has no entry.
  - `outbox` records every emit as (recipient set, event, payload).
  - `Accept` creates a connection. As socket.io does, it first puts the
    connection in a room named by its own id, so a message sent to that id
    reaches it.
- A connection is a `Rooms.Socket`. Its id and namespace are fixed. The
  properties the protocols set on it (`currentLobbyId`, `documentid`) are
  fields. So is the misspelled `currentLobbyid`, which the lobby's disconnect
  hook reads and no code ever assigns.
- Handlers are methods. Each handler states the complete new state in its
  `ensures` clauses: membership, presence, outbox and socket fields. Each
  `Listen` method states, event by event, the effect of the handler the event
  is routed to.
  - Whether the client's callback is called is the returned `acked`.
  - An error from an adapter, broker or store callback is a boolean
    parameter. Where the source rethrows such an error, the model returns
    `Threw`. Where it ignores one, as for the store write after a clustered
    JOIN, the model leaves that state unchanged.
  - `process.exit()` is the `Exit` choice.
- A JSON payload is `Option<Request>`, where `None` means `JSON.parse`
  failed. A property the payload lacks reads as `Undefined`. JavaScript
  truthiness (`!req.name`) is `Values.Truthy`.

The model follows the code, quirks included:

- CLIENTS in `server.js` replies with every name in the namespace's
  dictionary, not only the names of the room's members.
- Lobby JOIN while a lobby is current refuses even the same lobby. It still
  calls the callback, with no error argument.
- The lobby LEAVE listener drops its arguments, so a client's LEAVE never
  succeeds.
- The lobby disconnect hook never leaves the lobby.
- Trigger LEAVE leaves the room named by the callback value. It never calls
  the callback, and the channel stays joined.
- Cluster LEAVE is never acknowledged.
- Presence keys in the cluster store are bare connection ids, so all
  namespaces share one store.

### Where the code departs from what its protocol suggests

A client reading the event names would expect some behaviours the code does
not have. The model follows the code in each case:

- CLIENTS with a room suggests a list of that room's members. The
  single-process code lists the whole namespace.
- A presence name could be expected to stay fixed after the first JOIN. The
  code overwrites it on every JOIN that carries a name.
- A refused lobby JOIN builds an error but acknowledges with no argument, so
  the client cannot tell a refusal from a success.
- A disconnect would be expected to leave the current lobby. The code never
  does.
- A lobby BROADCAST would be expected to relay a MESSAGE. The code throws a
  ReferenceError on every call.
- Trigger LEAVE would be expected to leave the channel and acknowledge. The
  code does neither.
- Distributed presence would be expected to be per namespace. The code keys
  it by connection id alone.

## Model

| member | source | states |
|---|---|---|
| `Rooms.Joined` | src/server.js:178 | after a join the connection is a member of that room, nobody else is added, every other room keeps its members, and membership stays duplicate-free |
| `Rooms.Left` | src/server.js:198 | after a leave the connection is no longer in that room, every other member stays, other rooms are untouched, and a room left empty disappears |
| `Rooms.JoinIdempotent` | src/trigger.js:56 | joining a room twice is the same as joining once, and joining a room one is in changes nothing |
| `Rooms.LeaveAbsentNoop` | src/trigger.js:63 | leaving a room one is not in changes no membership |
| `Rooms.JoinLeaveRoundTrip` | src/server.js:178-198 | a join followed by a leave of the same room restores the membership the connection was not part of |
| `Rooms.RemovedLength` | src/server.js:198 | with duplicate-free membership, a leave removes exactly one entry from the member list |
| `Rooms.Others` | src/server.js:213 | a broadcast reaches every room member except the sender, and never the sender |
| `Rooms.Everyone` | src/lobby.js:83 | an emit to a room reaches exactly the room's members |
| `Rooms.Lookup` | src/cluster.js:185-189 | one value per id, in id order: the stored entry, or the given default when there is none |
| `Rooms.Transport.Join` | src/server.js:178 | the transport's membership becomes `Joined` of the old one, and nothing is emitted |
| `Rooms.Transport.Leave` | src/server.js:198 | the transport's membership becomes `Left` of the old one, and nothing is emitted |
| `Rooms.Transport.Send` | src/server.js:237 | an emit appends one (recipients, event, payload) record to the outbox and leaves membership alone |
| `Rooms.Transport.Accept` | src/lobby.js:24-27 | a connection arriving on a namespace is a new socket with no protocol properties set, already a member of the room named by its own id, so it is addressable; nothing is emitted |
| `GeneralProtocol.PresenceMap.Put` | src/server.js:179 | `nspClients[id] = name` overwrites any earlier name, and a new key is listed last while an existing key keeps its place |
| `GeneralProtocol.PresenceMap.Delete` | src/server.js:247 | `delete nspClients[id]` removes exactly that key |
| `GeneralProtocol.PresenceMap.Names` | src/server.js:233-235 | `Object.keys(nspClients).map(...)` has one entry per key, in key order, and each entry is that key's name |
| `GeneralProtocol.NamesListEveryEntry` | src/server.js:233-235 | the CLIENTS list has one name per presence entry, every entry's name is in it, and nothing else is |
| `GeneralProtocol.SenderOf` | src/server.js:214 | the NOTIFY sender is the connection's presence name when it has one, and 'unknown' otherwise |
| `GeneralProtocol.Server.constructor` | src/server.js:97-106 | `/layout` and `/bus` get distinct, empty presence dictionaries |
| `GeneralProtocol.Server.Listen` | src/server.js:115-164 | each event reaches its own handler: JOIN joins and names (a new key listed last), LEAVE leaves, NOTIFY sends EVENT to the room's other members, CLIENTS replies with every name, DISCONNECT deletes the entry and its key; only JOIN and LEAVE acknowledge, and the other namespace's dictionary never changes |
| `GeneralProtocol.Server.OnJoin` | src/server.js:166-184 | an unparsable payload or a missing name changes nothing and does not acknowledge; otherwise the connection joins `req.room`, its name is set, and the callback is called exactly when one was given |
| `GeneralProtocol.Server.OnLeave` | src/server.js:186-203 | an unparsable payload or a missing room is ignored; otherwise the connection leaves that one room and acknowledges; presence is not touched |
| `GeneralProtocol.Server.OnNotify` | src/server.js:205-220 | an unparsable payload is dropped; otherwise one EVENT {sender, room, message} goes to the room's members except the sender |
| `GeneralProtocol.Server.OnClients` | src/server.js:222-244 | an unparsable payload is dropped; otherwise the requester alone receives the room and every name in the namespace's dictionary, whatever its room membership |
| `GeneralProtocol.Server.OnDisconnect` | src/server.js:246-249 | exactly the disconnecting connection's entry is deleted, and every other entry keeps its name |
| `GeneralProtocol.Server.PostBusMessage` | src/server.js:62-72 | without a body the answer is 400 and nothing is sent; otherwise EVENT from 'POST' goes to every member of the `/bus` room |
| `LobbyProtocol.IndexIn` | src/lobby.js:57 | `indexOf` gives -1 exactly when the id is absent, and otherwise its first position |
| `LobbyProtocol.IndexOf` | src/lobby.js:57 | the linear search returns the position `IndexIn` specifies |
| `LobbyProtocol.SpliceOne` | src/lobby.js:57 | `splice(start, 1)` removes exactly the element at `start`, or at `length + start` when negative, or the first element when that is still negative; a start past the end removes nothing |
| `LobbyProtocol.Peers` | src/lobby.js:57 | the PEERS list of a non-empty room is one shorter than the room, holds only members, and when the joiner is a member it is the list without the joiner's first position |
| `LobbyProtocol.PeersOmitJoiner` | src/lobby.js:54-60 | when the joiner is in the room once, PEERS is the room's member list without the joiner, in member order |
| `LobbyProtocol.PeersWithoutJoiner` | src/lobby.js:57 | when the joiner is not in the room, `splice(-1, 1)` drops the last member instead |
| `LobbyProtocol.Lobby.OnConnect` | src/lobby.js:30-70 | without `lobbyId` the connection is dropped and no listener is registered; otherwise it auto-joins, the room gets JOINED, and the joiner gets PEERS, which after a successful join is every other member; no connection leaves any room |
| `LobbyProtocol.Lobby.PeersFor` | src/lobby.js:56-57 | the lookup's `indexOf` search and `splice` produce exactly the `Peers` list of the lobby's current members |
| `LobbyProtocol.Lobby.Listen` | src/lobby.js:38-68 | JOIN has the effect of `_onJoin`; a client LEAVE never changes anything and never acknowledges; BROADCAST always throws; RTCSIGNAL relays the message to room `msg.to` except the sender; a disconnect changes nothing while `currentLobbyid` is unset, and would otherwise leave the current lobby with LEFT; no other event removes a connection from any room |
| `LobbyProtocol.Lobby.OnJoin` | src/lobby.js:72-89 | while a lobby is current, or when the join fails, nothing changes; otherwise the connection joins, `currentLobbyId := id`, and JOINED goes to every member, joiner included; the callback is called in every case |
| `LobbyProtocol.Lobby.OnLeave` | src/lobby.js:91-106 | unless `id` is the current lobby, nothing changes; otherwise the connection leaves, `currentLobbyId := null`, and LEFT goes to those remaining, not the leaver |
| `LobbyProtocol.Lobby.OnBroadcast` | src/lobby.js:108-113 | every call throws, and nothing is sent |
| `LobbyProtocol.Lobby.OnRTCSignal` | src/lobby.js:115-117 | the message is relayed unchanged to room `msg.to`, never to the sender, and reaches the addressed connection whenever `msg.to` is the id of another addressable connection of the namespace |
| `LobbyProtocol.Lobby.OnDisconnect` | src/lobby.js:64-68 | when the misspelled `currentLobbyid` is unset, the hook changes nothing: no LEAVE, no LEFT; were it set, the hook would act as `_onLeave` of the current lobby without a callback |
| `TriggerProtocol.Trigger.JoinListener` | src/trigger.js:32-35 | `documentid := id`, the connection joins channel `id` and keeps its earlier channels, and the callback is called when given |
| `TriggerProtocol.Trigger.LeaveListener` | src/trigger.js:37-40 | `documentid` becomes undefined; the room left is the callback value, the callback is never called, every channel named by a string keeps its members, and when the connection is not in the callback-named room no membership changes at all |
| `TriggerProtocol.Trigger.OnJoin` | src/trigger.js:55-60 | the connection is a member of channel `id` afterwards, and the callback is called when given |
| `TriggerProtocol.Trigger.OnLeave` | src/trigger.js:62-67 | the connection is not a member of channel `id` afterwards, and the callback is called when given |
| `TriggerProtocol.Trigger.Forward` | src/trigger.js:69-82 | `data` goes unchanged to the channel's members except the sender; an empty channel reaches nobody; membership is unchanged |
| `TriggerProtocol.Trigger.OnEvents` | src/trigger.js:69-72 | BROADCAST_EVENTS is relayed as EVENTS to the other members of the channel |
| `TriggerProtocol.Trigger.OnUpdates` | src/trigger.js:74-77 | BROADCAST_UPDATES is relayed as UPDATES to the other members of the channel |
| `TriggerProtocol.Trigger.OnStatus` | src/trigger.js:79-82 | BROADCAST_STATUS is relayed as STATUS to the other members of the channel |
| `TriggerProtocol.Trigger.Listen` | src/trigger.js:31-53 | JOIN records and joins the channel; LEAVE clears it, leaves the room named by the callback and never acknowledges; BROADCAST_EVENTS, BROADCAST_UPDATES and BROADCAST_STATUS are relayed as EVENTS, UPDATES and STATUS to the channel's other members, changing neither membership nor `documentid` |
| `ClusterProtocol.Split` | src/cluster.js:69 | `split(':')` yields at least one field, and no field contains the separator |
| `ClusterProtocol.SplitJoin` | src/cluster.js:69 | joining the split fields with ':' gives back the original option string |
| `ClusterProtocol.JoinSplit` | src/cluster.js:69 | splitting joined separator-free fields gives back the same fields |
| `ClusterProtocol.SelectBroker` | src/cluster.js:40-75 | an option containing ':' connects directly; otherwise a lookup error, an undefined answer or an empty answer exits, and any other answer connects to the first node's address and port |
| `ClusterProtocol.DirectAddress` | src/cluster.js:69 | the direct host is the text before the first ':' and the port the text up to the next ':' or the end |
| `ClusterProtocol.DirectAddressRoundTrip` | src/cluster.js:41-73 | `host:port` with no other colon selects exactly that host and port |
| `ClusterProtocol.StoredName` | src/cluster.js:151 | a `get` answers the stored value of a present key, and null for a missing key |
| `ClusterProtocol.SenderName` | src/cluster.js:158-161 | a null or undefined sender becomes 'unknown', and any other sender is kept |
| `ClusterProtocol.SenderMatchesSingleProcess` | src/cluster.js:151-167 | with non-null stored names, the clustered NOTIFY sender equals the single-process one for the same entries |
| `ClusterProtocol.ClientsAreMemberNames` | src/cluster.js:184-195 | when every member has a stored name, the CLIENTS list is exactly the members' names, in member order, with no null |
| `ClusterProtocol.Cluster.Listen` | src/server.js:115-164 | for a `/layout` or `/bus` connection, the inherited wiring routes each event to the clustered handler: JOIN joins and stores the name, LEAVE leaves without acknowledging, NOTIFY sends EVENT with the stored sender, CLIENTS replies with the members' stored values, DISCONNECT deletes the key; broker errors throw |
| `ClusterProtocol.Cluster.OnJoin` | src/cluster.js:98-120 | an unparsable payload or a missing name changes nothing; a broker error throws and changes nothing; otherwise the connection joins and acknowledges when a callback was given, and the store maps its id to the name unless the store write fails, an error the code ignores |
| `ClusterProtocol.Cluster.OnLeave` | src/cluster.js:122-141 | a missing room is ignored; otherwise the connection leaves that room, and no acknowledgement is ever sent |
| `ClusterProtocol.Cluster.OnNotify` | src/cluster.js:143-156 | an unparsable payload is dropped; a store error throws; otherwise EVENT goes to the room except the sender, attributed to the stored name or 'unknown' |
| `ClusterProtocol.Cluster.SendToRoom` | src/cluster.js:158-170 | EVENT {sender, room, message} goes to the room's members except the sender, with 'unknown' for a null or undefined sender |
| `ClusterProtocol.Cluster.OnClients` | src/cluster.js:172-198 | a missing room is ignored; otherwise the requester alone receives one stored value per member of that room, in member order, with null for a missing name and no 'unknown' |
| `ClusterProtocol.Cluster.OnDisconnect` | src/cluster.js:200-206 | exactly key `socket.id` is deleted from the store, and every other key keeps its value; a store error throws and changes nothing |

## Left out

- HTTP(S) server creation, certificate reads, `listen`, the healthcheck
  route, logging, and command-line parsing in `src/index.js` are I/O plumbing
  and are not modelled. `src/logger.js` and `src/index.js` are not part of
  this model.
- The socket.io, socket.io-redis, redis and consul libraries are modelled
  only as the membership map, the outbox and the key/value map.
  - Room ids are kept as the JavaScript values the handlers pass. Socket.io
    would turn them into strings, so two values with the same string form
    would share a room there but not here.
  - Room cleanup on disconnect is done by socket.io, not by these handlers,
    and is not modelled.
  - The broker-held rooms and the shared store are each one map. Cross-process
    fanout, eventual consistency and asynchronous interleaving are left out:
    each handler runs to completion, its callbacks included, before the next
    event.
- An error reported by an adapter or broker callback is a parameter. The
  in-memory adapter's member lookups (single-process CLIENTS and the lobby's
  PEERS lookup) are modelled as never failing. So the lobby's
  `err ? [] : ids` branch is not modelled.
- A payload that parses to `null` is not modelled: reading a property of it
  throws a TypeError. Every parsed payload is a record whose missing
  properties read as undefined.
- Numbers are modelled as integers. A name written to the redis store is kept
  as given, not turned into a string.
- The consul client configuration (parsing of the consul URL) is not
  modelled. The service lookup's answer is a parameter. A consul node's
  numeric port is represented by its text.
- `_createClient` and the installation of the redis adapter are not modelled.
- `ClusterProtocol.Cluster.OnJoin`: the model records the final store and
  whether the callback fires. It does not record that the callback fires
  before the store write.
- The `error` and `disconnecting` listeners only log, and are not modelled.
  Neither is the lobby's `userName` assignment, which nothing reads.

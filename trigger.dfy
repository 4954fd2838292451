/** The `/trigger` namespace: channels joined and left by id, the most recent
    JOIN recorded in the connection's `documentid` property, and EVENTS /
    UPDATES / STATUS relayed to a channel's other members. No presence
    dictionary is involved. */
module TriggerProtocol {
  import opened Values
  import opened Rooms

  /** The events a trigger connection's listeners receive; `data` is passed
      through untouched. */
  datatype TriggerEvent =
    | JoinEv(id: Value, hasAck: bool)
    | LeaveEv(id: Value, hasAck: bool)
    | EventsEv(channel: Value, data: Value)
    | UpdatesEv(channel: Value, data: Value)
    | StatusEv(channel: Value, data: Value)

  class Trigger {
    const io: Transport

    constructor (io: Transport)
      ensures this.io == io
    {
      this.io := io;
    }

    /** The JOIN listener: record the channel, then join it. */
    method JoinListener(socket: Socket, id: Value, hasAck: bool) returns (acked: bool)
      requires io.Valid()
      modifies io, socket`documentid
      ensures io.Valid()
      ensures socket.documentid == id
      ensures acked == hasAck
      ensures io.rooms == Joined(old(io.rooms), Room(socket.nsp, id), socket.id)
      ensures io.outbox == old(io.outbox)
    {
      socket.documentid := id;
      acked := OnJoin(socket, id, hasAck);
    }

    /** The LEAVE listener: clear `documentid`, then call `_onLeave(socket,
        ack)`. The callback lands in the `id` position, so the room left is
        the callback value itself (or undefined without one), the callback is
        never called, and channels joined by name stay joined. */
    method LeaveListener(socket: Socket, id: Value, hasAck: bool) returns (acked: bool)
      requires io.Valid()
      modifies io, socket`documentid
      ensures io.Valid()
      ensures socket.documentid == Undefined
      ensures !acked
      ensures io.rooms == Left(old(io.rooms), Room(socket.nsp, AckValue(hasAck)), socket.id)
      ensures forall name: string :: io.Members(socket.nsp, Str(name)) == old(io.Members(socket.nsp, Str(name)))
      ensures socket.id !in old(io.Members(socket.nsp, AckValue(hasAck))) ==> io.rooms == old(io.rooms)
      ensures io.outbox == old(io.outbox)
    {
      socket.documentid := Undefined;
      if socket.id !in io.Members(socket.nsp, AckValue(hasAck)) {
        LeaveAbsentNoop(io.rooms, Room(socket.nsp, AckValue(hasAck)), socket.id);
      }
      acked := OnLeave(socket, AckValue(hasAck), false);
    }

    /** `_onJoin`: join channel `id`, then call the callback if there is one. */
    method OnJoin(socket: Socket, id: Value, hasAck: bool) returns (acked: bool)
      requires io.Valid()
      modifies io
      ensures io.Valid()
      ensures acked == hasAck
      ensures io.rooms == Joined(old(io.rooms), Room(socket.nsp, id), socket.id)
      ensures socket.id in io.Members(socket.nsp, id)
      ensures io.outbox == old(io.outbox)
    {
      io.Join(socket.nsp, id, socket.id);
      acked := hasAck;
    }

    /** `_onLeave`: leave channel `id`, then call the callback if there is one. */
    method OnLeave(socket: Socket, id: Value, hasAck: bool) returns (acked: bool)
      requires io.Valid()
      modifies io
      ensures io.Valid()
      ensures acked == hasAck
      ensures io.rooms == Left(old(io.rooms), Room(socket.nsp, id), socket.id)
      ensures socket.id !in io.Members(socket.nsp, id)
      ensures io.outbox == old(io.outbox)
    {
      io.Leave(socket.nsp, id, socket.id);
      acked := hasAck;
    }

    /** Relay `data`, unchanged, under `event` to every member of channel `id`
        except the sender; the sender need not be a member. */
    method Forward(socket: Socket, id: Value, event: Event, data: Value)
      modifies io
      ensures io.rooms == old(io.rooms)
      ensures io.outbox == old(io.outbox) + [Emit(Others(io.Members(socket.nsp, id), socket.id), event, Relayed(data))]
      ensures socket.id !in io.outbox[|io.outbox| - 1].to
      ensures io.Members(socket.nsp, id) == [] ==> io.outbox[|io.outbox| - 1].to == {}
    {
      io.Send(Others(io.Members(socket.nsp, id), socket.id), event, Relayed(data));
    }

    /** BROADCAST_EVENTS: relayed as EVENTS. */
    method OnEvents(socket: Socket, id: Value, data: Value)
      modifies io
      ensures io.rooms == old(io.rooms)
      ensures io.outbox == old(io.outbox) + [Emit(Others(io.Members(socket.nsp, id), socket.id), EVENTS, Relayed(data))]
    {
      Forward(socket, id, EVENTS, data);
    }

    /** BROADCAST_UPDATES: relayed as UPDATES. */
    method OnUpdates(socket: Socket, id: Value, data: Value)
      modifies io
      ensures io.rooms == old(io.rooms)
      ensures io.outbox == old(io.outbox) + [Emit(Others(io.Members(socket.nsp, id), socket.id), UPDATES, Relayed(data))]
    {
      Forward(socket, id, UPDATES, data);
    }

    /** BROADCAST_STATUS: relayed as STATUS. */
    method OnStatus(socket: Socket, id: Value, data: Value)
      modifies io
      ensures io.rooms == old(io.rooms)
      ensures io.outbox == old(io.outbox) + [Emit(Others(io.Members(socket.nsp, id), socket.id), STATUS, Relayed(data))]
    {
      Forward(socket, id, STATUS, data);
    }

    /** `_onConnect`'s listeners: route one event. A relay changes neither
        membership nor `documentid`. */
    method Listen(socket: Socket, ev: TriggerEvent) returns (acked: bool)
      requires io.Valid()
      modifies io, socket`documentid
      ensures io.Valid()
      ensures ev.JoinEv? ==>
        && acked == ev.hasAck && socket.documentid == ev.id && io.outbox == old(io.outbox)
        && io.rooms == Joined(old(io.rooms), Room(socket.nsp, ev.id), socket.id)
      ensures ev.LeaveEv? ==>
        && !acked && socket.documentid == Undefined && io.outbox == old(io.outbox)
        && io.rooms == Left(old(io.rooms), Room(socket.nsp, AckValue(ev.hasAck)), socket.id)
      ensures !ev.JoinEv? && !ev.LeaveEv? ==>
        && !acked && io.rooms == old(io.rooms) && socket.documentid == old(socket.documentid)
        && io.outbox == old(io.outbox) + [Emit(Others(io.Members(socket.nsp, ev.channel), socket.id),
                                               if ev.EventsEv? then EVENTS else if ev.UpdatesEv? then UPDATES else STATUS,
                                               Relayed(ev.data))]
    {
      acked := false;
      match ev
      case JoinEv(id, hasAck) =>
        acked := JoinListener(socket, id, hasAck);
      case LeaveEv(id, hasAck) =>
        acked := LeaveListener(socket, id, hasAck);
      case EventsEv(channel, data) =>
        OnEvents(socket, channel, data);
      case UpdatesEv(channel, data) =>
        OnUpdates(socket, channel, data);
      case StatusEv(channel, data) =>
        OnStatus(socket, channel, data);
    }
  }
}

/** One relay instance: the registry of local connections and the bus task
    that owns the pub/sub connection. */
module Hub {
  import opened Store
  import opened Messages

  /** Where the bus task stands between two turns of its loop. */
  datatype BusPc =
    | Ready
    | Acking(device: DeviceId, conn: ConnId)  // Redis subscribed, not recorded yet
    | Checked(device: DeviceId)               // found unregistered, not removed yet
    | Dropping(device: DeviceId)              // removed, Redis not unsubscribed yet
    | Restoring(todo: set<DeviceId>)          // reconnected, channels left to subscribe

  /** `channels` is what Redis holds for this instance's pub/sub connection,
      `subscribed` what the bus task believes. */
  datatype Inst = Inst(
    registry: map<DeviceId, ConnId>,
    requests: seq<Request>,
    subscribed: set<DeviceId>,
    channels: set<DeviceId>,
    stream: seq<Envelope>,
    bus: BusPc)

  const EMPTY := Inst(map[], [], {}, {}, [], Ready)

  function Register(h: Inst, d: DeviceId, c: ConnId): Inst {
    h.(registry := h.registry[d := c])
  }

  function Enqueue(h: Inst, r: Request): Inst {
    h.(requests := h.requests + [r])
  }

  predicate IsCurrent(h: Inst, d: DeviceId, c: ConnId) {
    d in h.registry && h.registry[d] == c
  }

  function Unregister(h: Inst, d: DeviceId): Inst {
    h.(registry := h.registry - {d}, requests := h.requests + [Unsubscribe(d)])
  }

  /** Take the next request: a known channel is confirmed at once, a new one
      is subscribed at Redis; an unsubscribe is dropped when the device is
      registered again. */
  function TakeRequest(h: Inst): Inst
    requires h.bus.Ready? && h.requests != []
  {
    var rest := h.(requests := h.requests[1..]);
    match h.requests[0]
    case Subscribe(d, c) =>
      if d in h.subscribed then rest
      else rest.(channels := h.channels + {d}, bus := Acking(d, c))
    case Unsubscribe(d) =>
      if d in h.registry then rest else rest.(bus := Checked(d))
  }

  function Ack(h: Inst): Inst
    requires h.bus.Acking?
  {
    h.(subscribed := h.subscribed + {h.bus.device}, bus := Ready)
  }

  function Remove(h: Inst): Inst
    requires h.bus.Checked?
  {
    if h.bus.device in h.subscribed
    then h.(subscribed := h.subscribed - {h.bus.device}, bus := Dropping(h.bus.device))
    else h.(bus := Ready)
  }

  function Drop(h: Inst, ok: bool): Inst
    requires h.bus.Dropping?
  {
    h.(channels := if ok then h.channels - {h.bus.device} else h.channels, bus := Ready)
  }

  /** The pub/sub connection is lost and re-opened: nothing is subscribed and
      every registered device has to be subscribed again. */
  function Lose(h: Inst): Inst {
    h.(stream := [], channels := {}, subscribed := {}, bus := Restoring(h.registry.Keys))
  }

  function Resubscribe(h: Inst, d: DeviceId): Inst
    requires h.bus.Restoring?
  {
    h.(subscribed := h.subscribed + {d}, channels := h.channels + {d}, bus := Restoring(h.bus.todo - {d}))
  }

  /** Redis hands a published message to every subscribed instance. */
  function Hear(h: Inst, d: DeviceId, m: BusMsg): Inst {
    if d in h.channels then h.(stream := h.stream + [Envelope(d, m)]) else h
  }
}

/** One `/v1/relay` connection: its life from the upgrade to the end, the
    peer cache it routes by, and what it does with each delivery. */
module Connection {
  import opened Store
  import opened Messages

  /** How far a connection has come; each phase is one await. */
  datatype Phase =
    | Enrolled      // in the registry, its subscribe request not queued yet
    | AwaitSubscribe   // the request is queued
    | AwaitClaim       // subscription confirmed
    | AwaitPublish     // presence claimed
    | Loading          // `Replace` published, pairs not read yet
    | Serving
    | Closing          // left the loop, not unregistered yet
    | Releasing        // unregistered, presence not released yet
    | Over

  /** A reload in progress; `hold` is the frame whose unknown sender caused it. */
  datatype Task =
    | Idle
    | MustRead(hold: Option<BusMsg>)
    | Got(version: nat, view: set<(PairId, DeviceId)>, hold: Option<BusMsg>)

  function HoldOf(t: Task): Option<BusMsg> {
    if t.Idle? then None else t.hold
  }

  /** A frame taken from the queue, whether it was written to the device, and
      the database version the decision rests on. */
  datatype Handled = Handled(from: DeviceId, via: ConnId, frame: Frame, written: bool, at: nat)

  datatype Sent = Sent(to: DeviceId, frame: Frame)

  datatype Conn = Conn(
    inst: InstId,
    device: DeviceId,
    phase: Phase,
    inbox: seq<Delivery>,
    killed: bool,
    pairs: set<(PairId, DeviceId)>,
    readAt: nat,
    stale: bool,
    task: Task,
    handled: seq<Handled>,
    sent: seq<Sent>)
  {
    /** Not ended: the connection has not left its event loop. */
    predicate Live() {
      phase in {Enrolled, AwaitSubscribe, AwaitClaim, AwaitPublish, Loading, Serving}
    }

    predicate Confirmed() {
      phase in {AwaitClaim, AwaitPublish, Loading, Serving}
    }

    predicate Published() {
      phase in {Loading, Serving}
    }

    function Peers(): set<DeviceId> {
      set e | e in pairs :: e.1
    }
  }

  function New(i: InstId, d: DeviceId): Conn {
    Conn(i, d, Enrolled, [], false, {}, 0, false, MustRead(None), [], [])
  }

  /** Deal with a frame: write it if `ok`, drop it otherwise. */
  function Settle(k: Conn, m: BusMsg, ok: bool): Conn {
    if m.Forward?
    then k.(handled := k.handled + [Handled(m.from, m.via, m.frame, ok, k.readAt)])
    else k
  }

  /** `on_delivery`. `retry` says whether an unknown sender causes a reload
      (at most one a second), `held` what `refresh` answered to a resync. */
  function OnDelivery(me: ConnId, k: Conn, m: Delivery, retry: bool, held: bool): Conn {
    match m
    case Resync => if held then k.(task := MustRead(None)) else k.(phase := Closing)
    case Bus(Forward(from, via, frame)) =>
      if from in k.Peers() then Settle(k, m.msg, true)
      else if retry then k.(task := MustRead(Some(m.msg)))
      else Settle(k, m.msg, false)
    case Bus(PairRevoked(_)) => k.(task := MustRead(None))
    case Bus(PairsChanged) => k.(task := MustRead(None))
    case Bus(Replace(c)) => if c != me then k.(phase := Closing) else k
    case Bus(Close) => k.(phase := Closing)
  }

  /** The rows a reload read become the cache; a frame that waited for them
      is written exactly when its sender is now a peer. */
  function Assign(k: Conn): Conn
    requires k.task.Got?
  {
    var k' := k.(pairs := k.task.view, readAt := k.task.version, stale := false, task := Idle,
                 phase := if k.phase.Loading? then Serving else k.phase);
    match k.task.hold
    case None => k'
    case Some(m) => Settle(k', m, m.Forward? && m.from in k'.Peers())
  }

  /** A reload the database refused: while opening it ends the connection,
      later the old cache stays. It is stale if a notice caused the reload. */
  function ReadFails(k: Conn): Conn
    requires k.task.MustRead?
  {
    if k.phase.Loading? then k.(phase := Closing)
    else
      var k' := k.(task := Idle, stale := k.stale || k.task.hold.None?);
      match k.task.hold
      case None => k'
      case Some(m) => Settle(k', m, false)
  }
}

/** End-to-end order: while a receiving connection stays up, the frames one
    sender publishes for it pass through stream, queue and log in order, and
    none is lost or doubled on the way. */
module Order {
  import opened Store
  import opened Messages
  import opened Connection
  import opened Cluster
  import Sub = Subscription
  import T = Takeover
  import C = Cache
  import Presence
  import Hub

  // ---- the frames of sender `x` at each station ----

  function OfMsg(m: BusMsg, x: ConnId): seq<Frame> {
    if m.Forward? && m.via == x then [m.frame] else []
  }

  function InStream(q: seq<Envelope>, d: DeviceId, x: ConnId): seq<Frame> {
    if q == [] then [] else (if q[0].to == d then OfMsg(q[0].msg, x) else []) + InStream(q[1..], d, x)
  }

  function InQueue(q: seq<Delivery>, x: ConnId): seq<Frame> {
    if q == [] then [] else (if q[0].Bus? then OfMsg(q[0].msg, x) else []) + InQueue(q[1..], x)
  }

  function InHand(t: Task, x: ConnId): seq<Frame> {
    if !t.Idle? && t.hold.Some? then OfMsg(t.hold.value, x) else []
  }

  function InLog(q: seq<Handled>, x: ConnId): seq<Frame> {
    if q == [] then [] else (if q[0].via == x then [q[0].frame] else []) + InLog(q[1..], x)
  }

  function SentTo(q: seq<Sent>, d: DeviceId): seq<Frame> {
    if q == [] then [] else (if q[0].to == d then [q[0].frame] else []) + SentTo(q[1..], d)
  }

  lemma {:induction false} StreamAppend(q: seq<Envelope>, e: Envelope, d: DeviceId, x: ConnId)
    ensures InStream(q + [e], d, x) == InStream(q, d, x) + (if e.to == d then OfMsg(e.msg, x) else [])
  {
    if q == [] {
      assert [e][1..] == [] && q + [e] == [e];
    } else {
      assert (q + [e])[1..] == q[1..] + [e];
      StreamAppend(q[1..], e, d, x);
    }
  }

  lemma {:induction false} QueueAppend(q: seq<Delivery>, m: Delivery, x: ConnId)
    ensures InQueue(q + [m], x) == InQueue(q, x) + (if m.Bus? then OfMsg(m.msg, x) else [])
  {
    if q == [] {
      assert [m][1..] == [] && q + [m] == [m];
    } else {
      assert (q + [m])[1..] == q[1..] + [m];
      QueueAppend(q[1..], m, x);
    }
  }

  lemma {:induction false} LogAppend(q: seq<Handled>, y: Handled, x: ConnId)
    ensures InLog(q + [y], x) == InLog(q, x) + (if y.via == x then [y.frame] else [])
  {
    if q == [] {
      assert [y][1..] == [] && q + [y] == [y];
    } else {
      LogAppend(q[1..], y, x);
      assert (q + [y])[1..] == q[1..] + [y] && (q + [y])[0] == q[0];
    }
  }

  lemma {:induction false} SentAppend(q: seq<Sent>, y: Sent, d: DeviceId)
    ensures SentTo(q + [y], d) == SentTo(q, d) + (if y.to == d then [y.frame] else [])
  {
    if q == [] {
      assert [y][1..] == [] && q + [y] == [y];
    } else {
      assert (q + [y])[1..] == q[1..] + [y] && (q + [y])[0] == q[0];
      SentAppend(q[1..], y, d);
      MovesOver(if q[0].to == d then [q[0].frame] else [], SentTo(q[1..], d), if y.to == d then [y.frame] else []);
    }
  }

  /** What connection `c` has taken from its queue so far, and what it holds. */
  function Taken(k: Conn, x: ConnId): seq<Frame> {
    InLog(k.handled, x) + InHand(k.task, x)
  }

  function OnSide(k: Conn, x: ConnId): seq<Frame> {
    Taken(k, x) + InQueue(k.inbox, x)
  }

  /** Every frame of `x` that reached or will reach `c`, in order. */
  function Pipeline(s: State, c: ConnId, x: ConnId): seq<Frame>
    requires Registered(s, c)
  {
    OnSide(s.conns[c], x) + InStream(s.insts[s.conns[c].inst].stream, s.conns[c].device, x)
  }

  function Published(s: State, x: ConnId, d: DeviceId): seq<Frame> {
    if x in s.conns then SentTo(s.conns[x].sent, d) else []
  }

  /** The connection is subscribed and serves, or is on its way to. */
  predicate Up(s: State, c: ConnId) {
    Registered(s, c) && s.conns[c].Confirmed() && !s.conns[c].killed
  }

  // ---- the connection's own side ----

  lemma SettleMoves(k: Conn, m: BusMsg, ok: bool, x: ConnId)
    requires k.task.Idle?
    ensures Taken(Settle(k, m, ok), x) == Taken(k, x) + OfMsg(m, x)
    ensures Settle(k, m, ok).inbox == k.inbox
  {
    if m.Forward? {
      LogAppend(k.handled, Handled(m.from, m.via, m.frame, ok, k.readAt), x);
    }
  }

  lemma DeliveryMoves(me: ConnId, k: Conn, m: Delivery, retry: bool, held: bool, x: ConnId)
    requires k.task.Idle?
    ensures var k' := OnDelivery(me, k, m, retry, held);
            k'.inbox == k.inbox && Taken(k', x) == Taken(k, x) + (if m.Bus? then OfMsg(m.msg, x) else [])
  {
    if m.Bus? && m.msg.Forward? {
      SettleMoves(k, m.msg, m.msg.from in k.Peers(), x);
    }
  }

  lemma ReceiveMoves(s: State, c: ConnId, retry: bool, x: ConnId)
    requires Enabled(s, Receive(c, retry))
    ensures OnSide(ReceiveStep(s, c, retry).conns[c], x) == OnSide(s.conns[c], x)
  {
    var k := s.conns[c];
    var k1 := k.(inbox := k.inbox[1..]);
    var held := Presence.MayHold(s.presence, k.device, k.inst);
    var k' := ReceiveStep(s, c, retry).conns[c];
    var head := if k.inbox[0].Bus? then OfMsg(k.inbox[0].msg, x) else [];
    DeliveryMoves(c, k1, k.inbox[0], retry, held, x);
    assert Taken(k1, x) == Taken(k, x);
    MovesOver(Taken(k, x), head, InQueue(k1.inbox, x));
    assert InQueue(k.inbox, x) == head + InQueue(k1.inbox, x);
    assert OnSide(k', x) == (Taken(k, x) + head) + InQueue(k1.inbox, x);
  }

  lemma AssignMoves(k: Conn, x: ConnId)
    requires k.task.Got?
    ensures OnSide(Assign(k), x) == OnSide(k, x)
  {
    var k' := k.(pairs := k.task.view, readAt := k.task.version, stale := false, task := Idle,
                 phase := if k.phase.Loading? then Serving else k.phase);
    if k.task.hold.Some? {
      var m := k.task.hold.value;
      SettleMoves(k', m, m.Forward? && m.from in k'.Peers(), x);
    }
  }

  lemma ReadFailsMoves(k: Conn, x: ConnId)
    requires k.task.MustRead?
    ensures OnSide(ReadFails(k), x) == OnSide(k, x)
  {
    if !k.phase.Loading? && k.task.hold.Some? {
      SettleMoves(k.(task := Idle, stale := k.stale || k.task.hold.None?), k.task.hold.value, false, x);
    }
  }

  // ---- who touches what ----

  predicate Untouched(k: Conn, k': Conn) {
    && k'.inst == k.inst && k'.device == k.device && k'.sent == k.sent
    && k'.handled == k.handled && k'.task == k.task && k'.inbox == k.inbox
  }

  predicate StreamsKept(s: State, s': State) {
    forall i | i in s.insts :: i in s'.insts && s'.insts[i].stream == s.insts[i].stream
  }

  lemma TalkUntouched(s: State, e: Event, y: ConnId)
    requires Enabled(s, e) && y in s.conns
    requires e.Claim? || e.Refresh? || e.Leave? || e.Release? || e.FailRelease?
    ensures y in Apply(s, e).conns && Untouched(s.conns[y], Apply(s, e).conns[y]) && StreamsKept(s, Apply(s, e))
  {
    TalkTouches(s, e);
  }

  lemma EnqueueUntouched(s: State, z: ConnId, y: ConnId)
    requires Enabled(s, Enqueue(z)) && y in s.conns
    ensures var s' := EnqueueStep(s, z); y in s'.conns && Untouched(s.conns[y], s'.conns[y]) && StreamsKept(s, s')
  {
  }

  lemma UnregisterUntouched(s: State, z: ConnId, y: ConnId)
    requires z in s.conns && s.conns[z].inst in s.insts && y in s.conns
    ensures var s' := UnregisterStep(s, z);
            y in s'.conns && Untouched(s.conns[y], s'.conns[y]) && StreamsKept(s, s')
  {
  }

  lemma ReloadUntouched(s: State, e: Event, y: ConnId)
    requires Enabled(s, e) && y in s.conns && (e.Read? || e.Store? || e.FailRead? || e.Receive?)
    ensures y in Apply(s, e).conns && StreamsKept(s, Apply(s, e)) && Apply(s, e).conns[y].sent == s.conns[y].sent
    ensures Apply(s, e).conns[y].inst == s.conns[y].inst && Apply(s, e).conns[y].device == s.conns[y].device
    ensures y != e.c ==> Untouched(s.conns[y], Apply(s, e).conns[y])
  {
    if e.Receive? { ReceiveTouches(s, e.c, e.retry); } else { ReloadTouches(s, e); }
  }

  lemma ConfirmUntouched(s: State, e: Event, y: ConnId)
    requires Enabled(s, e) && y in s.conns && (e.TakeRequest? || e.Ack?)
    ensures y in Apply(s, e).conns && Untouched(s.conns[y], Apply(s, e).conns[y]) && StreamsKept(s, Apply(s, e))
  {
    ConfirmTouches(s, e, y);
  }

  predicate IsStill(e: Event) {
    || e.Enqueue? || e.Claim? || e.Refresh? || e.Leave? || e.Release? || e.FailRelease? || e.Unregister?
    || e.TakeRequest? || e.Ack? || e.RefuseSubscribe? || e.Remove? || e.Drop? || e.Resubscribe?
    || e.Insert? || e.Revoke? || e.Delete? || e.AddDevice? || e.Expire?
  }

  lemma StillUntouched(s: State, e: Event, y: ConnId)
    requires Enabled(s, e) && y in s.conns && IsStill(e)
    ensures y in Apply(s, e).conns && Untouched(s.conns[y], Apply(s, e).conns[y]) && StreamsKept(s, Apply(s, e))
  {
    if e.Claim? || e.Refresh? || e.Leave? || e.Release? || e.FailRelease? {
      TalkUntouched(s, e, y);
    } else if e.Enqueue? {
      EnqueueUntouched(s, e.c, y);
    } else if e.Unregister? {
      UnregisterUntouched(s, e.c, y);
    } else if e.TakeRequest? || e.Ack? {
      ConfirmUntouched(s, e, y);
    } else if e.RefuseSubscribe? || e.Remove? || e.Drop? || e.Resubscribe? {
      BusUntouched(s, e);
    } else {
      DbUntouched(s, e);
    }
  }

  // ---- one step ----

  /** What an event adds to the frames of `x` for device `d`. */
  function Added(e: Event, x: ConnId, d: DeviceId): seq<Frame> {
    if e.Send? && e.c == x && e.to == d then [e.frame] else []
  }

  /** Handlers publish notices only. */
  predicate Plain(s: State) {
    forall j, a | j in s.jobs && a in s.jobs[j] :: a.Notify? ==> !a.msg.Forward? && !a.msg.Replace?
  }

  predicate Connected(s: State) {
    forall i | i in s.insts :: !s.insts[i].bus.Restoring?
  }

  lemma HearFrames(h: Hub.Inst, to: DeviceId, m: BusMsg, d: DeviceId, x: ConnId)
    ensures InStream(Hub.Hear(h, to, m).stream, d, x)
            == InStream(h.stream, d, x) + (if to == d && d in h.channels then OfMsg(m, x) else [])
  {
    if to in h.channels { StreamAppend(h.stream, Envelope(to, m), d, x); }
  }

  /** The channel of an up connection is subscribed. */
  lemma UpIsSubscribed(s: State, c: ConnId)
    requires Sub.Inv(s) && Connected(s) && Up(s, c)
    ensures s.conns[c].device in s.insts[s.conns[c].inst].channels
  {
    assert Sub.InstOk(s.conns, s.conns[c].inst, s.insts[s.conns[c].inst]);
  }

  /** Publishing adds to the stream of an up connection and nothing else. */
  lemma HeardMoves(s: State, to: DeviceId, m: BusMsg, c: ConnId, x: ConnId)
    requires Sub.Inv(s) && Connected(s) && Up(s, c)
    ensures Registered(Publish(s, to, m), c)
    ensures Pipeline(Publish(s, to, m), c, x)
         == Pipeline(s, c, x) + (if to == s.conns[c].device then OfMsg(m, x) else [])
  {
    UpIsSubscribed(s, c);
    HearFrames(s.insts[s.conns[c].inst], to, m, s.conns[c].device, x);
  }

  lemma SameConnMoves(s: State, y: ConnId, k: Conn, c: ConnId, x: ConnId)
    requires Registered(s, c) && y in s.conns
    requires k.inst == s.conns[y].inst && k.device == s.conns[y].device
    requires k.handled == s.conns[y].handled && k.task == s.conns[y].task && k.inbox == s.conns[y].inbox
    ensures Registered(WithConn(s, y, k), c) && Pipeline(WithConn(s, y, k), c, x) == Pipeline(s, c, x)
  {
  }

  lemma SendMovesPipeline(s: State, y: ConnId, to: DeviceId, frame: Frame, c: ConnId, x: ConnId)
    requires Sub.Inv(s) && Connected(s) && y in s.conns && Up(s, c)
    ensures Registered(SendStep(s, y, to, frame), c)
    ensures Pipeline(SendStep(s, y, to, frame), c, x)
         == Pipeline(s, c, x) + (if y == x && to == s.conns[c].device then [frame] else [])
  {
    var k := s.conns[y];
    var m := Forward(k.device, y, frame);
    HeardMoves(s, to, m, c, x);
    SameConnMoves(Publish(s, to, m), y, k.(sent := k.sent + [Sent(to, frame)]), c, x);
  }

  lemma SendMovesPublished(s: State, y: ConnId, to: DeviceId, frame: Frame, x: ConnId, d: DeviceId)
    requires y in s.conns
    ensures Published(SendStep(s, y, to, frame), x, d)
         == Published(s, x, d) + (if y == x && to == d then [frame] else [])
  {
    SentAppend(s.conns[y].sent, Sent(to, frame), d);
  }

  lemma AnnounceMoves(s: State, y: ConnId, c: ConnId, x: ConnId)
    requires Sub.Inv(s) && Connected(s) && y in s.conns && Up(s, c)
    ensures Registered(AnnounceStep(s, y), c)
    ensures Pipeline(AnnounceStep(s, y), c, x) == Pipeline(s, c, x)
    ensures Published(AnnounceStep(s, y), x, s.conns[c].device) == Published(s, x, s.conns[c].device)
  {
    HeardMoves(s, s.conns[y].device, Replace(y), c, x);
    SameConnMoves(Publish(s, s.conns[y].device, Replace(y)), y, s.conns[y].(phase := Loading), c, x);
  }

  lemma ContinueMoves(s: State, j: JobId, c: ConnId, x: ConnId)
    requires Sub.Inv(s) && Connected(s) && Plain(s) && j in s.jobs && s.jobs[j] != [] && Up(s, c)
    ensures Registered(ContinueStep(s, j), c)
    ensures Pipeline(ContinueStep(s, j), c, x) == Pipeline(s, c, x)
    ensures Published(ContinueStep(s, j), x, s.conns[c].device) == Published(s, x, s.conns[c].device)
  {
    var a := s.jobs[j][0];
    assert a in s.jobs[j];
    if a.Notify? { HeardMoves(s, a.to, a.msg, c, x); }
  }

  lemma DispatchMoves(s: State, i: InstId, overflow: bool, c: ConnId, x: ConnId)
    requires Sub.Inv(s) && i in s.insts && s.insts[i].stream != [] && Up(s, c)
    requires Up(DispatchStep(s, i, overflow), c)
    ensures Pipeline(DispatchStep(s, i, overflow), c, x) == Pipeline(s, c, x)
    ensures Published(DispatchStep(s, i, overflow), x, s.conns[c].device) == Published(s, x, s.conns[c].device)
  {
    var h := s.insts[i];
    var m := h.stream[0];
    var k := s.conns[c];
    assert Sub.InstOk(s.conns, i, h);
    if m.to in h.registry { assert Sub.EntryOk(s.conns, i, m.to, h.registry[m.to]); }
    if i == k.inst && m.to == k.device {
      AppendedSide(k, Bus(m.msg), x);
      MovesOver(OnSide(k, x), OfMsg(m.msg, x), InStream(h.stream[1..], k.device, x));
    } else {
      assert DispatchStep(s, i, overflow).conns[c] == k;
    }
  }

  lemma AppendedSide(k: Conn, m: Delivery, x: ConnId)
    ensures OnSide(k.(inbox := k.inbox + [m]), x) == OnSide(k, x) + (if m.Bus? then OfMsg(m.msg, x) else [])
  {
    QueueAppend(k.inbox, m, x);
    MovesOver(Taken(k, x), InQueue(k.inbox, x), if m.Bus? then OfMsg(m.msg, x) else []);
  }

  lemma MovesOver(a: seq<Frame>, b: seq<Frame>, c: seq<Frame>)
    ensures a + (b + c) == (a + b) + c
  {
  }

  lemma RestoredMoves(s: State, i: InstId, c: ConnId, x: ConnId)
    requires i in s.insts && Registered(s, c)
    ensures Registered(RestoredStep(s, i), c)
    ensures Pipeline(RestoredStep(s, i), c, x) == Pipeline(s, c, x)
    ensures Published(RestoredStep(s, i), x, s.conns[c].device) == Published(s, x, s.conns[c].device)
  {
    QueueAppend(s.conns[c].inbox, Resync, x);
  }

  lemma OpenMoves(s: State, i: InstId, d: DeviceId, y: ConnId, c: ConnId, x: ConnId)
    requires Sub.Inv(s) && i in s.insts && y !in s.conns && Registered(s, c)
    requires Registered(OpenStep(s, i, d, y), c)
    ensures Pipeline(OpenStep(s, i, d, y), c, x) == Pipeline(s, c, x)
    ensures Published(OpenStep(s, i, d, y), x, s.conns[c].device) == Published(s, x, s.conns[c].device)
  {
    assert Sub.InstOk(s.conns, i, s.insts[i]);
  }

  lemma OwnMoves(s: State, e: Event, c: ConnId, x: ConnId)
    requires Enabled(s, e) && (e.Read? || e.Store? || e.FailRead? || e.Receive?) && e.c == c
    ensures c in Apply(s, e).conns && OnSide(Apply(s, e).conns[c], x) == OnSide(s.conns[c], x)
  {
    match e
    case Store(_) => AssignMoves(s.conns[c], x);
    case FailRead(_) => ReadFailsMoves(s.conns[c], x);
    case Receive(_, retry) => ReceiveMoves(s, c, retry, x);
    case Read(_) =>
  }

  lemma SameSides(s: State, s': State, c: ConnId, x: ConnId)
    requires Registered(s, c) && Registered(s', c) && StreamsKept(s, s')
    requires s'.conns[c].inst == s.conns[c].inst && s'.conns[c].device == s.conns[c].device
    requires OnSide(s'.conns[c], x) == OnSide(s.conns[c], x)
    requires x in s'.conns <==> x in s.conns
    requires x in s.conns ==> s'.conns[x].sent == s.conns[x].sent
    ensures Pipeline(s', c, x) == Pipeline(s, c, x)
    ensures Published(s', x, s.conns[c].device) == Published(s, x, s.conns[c].device)
  {
  }

  lemma ReloadMoves(s: State, e: Event, c: ConnId, x: ConnId)
    requires Enabled(s, e) && (e.Read? || e.Store? || e.FailRead? || e.Receive?) && Registered(s, c)
    requires Registered(Apply(s, e), c)
    requires x in Apply(s, e).conns <==> x in s.conns
    ensures Pipeline(Apply(s, e), c, x) == Pipeline(s, c, x)
    ensures Published(Apply(s, e), x, s.conns[c].device) == Published(s, x, s.conns[c].device)
  {
    ReloadUntouched(s, e, c);
    if x in s.conns { ReloadUntouched(s, e, x); }
    if e.c == c { OwnMoves(s, e, c, x); }
    SameSides(s, Apply(s, e), c, x);
  }

  lemma StillMoves(s: State, e: Event, c: ConnId, x: ConnId)
    requires Enabled(s, e) && IsStill(e) && Registered(s, c) && Registered(Apply(s, e), c)
    requires x !in s.conns ==> x !in Apply(s, e).conns
    ensures Pipeline(Apply(s, e), c, x) == Pipeline(s, c, x)
    ensures Published(Apply(s, e), x, s.conns[c].device) == Published(s, x, s.conns[c].device)
  {
    StillUntouched(s, e, c);
    if x in s.conns { StillUntouched(s, e, x); }
  }

  lemma NewSender(s: State, e: Event, x: ConnId)
    requires Enabled(s, e) && !e.Open? && x !in s.conns
    ensures x !in Apply(s, e).conns
  {
    Sub.KeysKept(s, e);
  }

  lemma QuietMoves(s: State, e: Event, c: ConnId, x: ConnId)
    requires Enabled(s, e) && Up(s, c) && Up(Apply(s, e), c)
    requires IsStill(e) || e.Read? || e.Store? || e.FailRead? || e.Receive?
    ensures Pipeline(Apply(s, e), c, x) == Pipeline(s, c, x)
    ensures Published(Apply(s, e), x, s.conns[c].device) == Published(s, x, s.conns[c].device)
  {
    if x !in s.conns { NewSender(s, e, x); } else { T.OnlyForward(s, e, x); }
    if IsStill(e) { StillMoves(s, e, c, x); } else { ReloadMoves(s, e, c, x); }
  }

  lemma DeliveryStepMoves(s: State, e: Event, c: ConnId, x: ConnId)
    requires Sub.Inv(s) && Enabled(s, e) && Up(s, c) && Up(Apply(s, e), c)
    requires e.Dispatch? || e.Restored? || e.Open?
    ensures Pipeline(Apply(s, e), c, x) == Pipeline(s, c, x)
    ensures Published(Apply(s, e), x, s.conns[c].device) == Published(s, x, s.conns[c].device)
  {
    if e.Dispatch? { DispatchMoves(s, e.i, e.overflow, c, x); }
    else if e.Restored? { RestoredMoves(s, e.i, c, x); }
    else { OpenMoves(s, e.i, e.d, e.c, c, x); }
  }

  lemma SilentMoves(s: State, e: Event, c: ConnId, x: ConnId)
    requires Sub.Inv(s) && Connected(s) && Plain(s) && Enabled(s, e) && !e.Lose? && !e.Send?
    requires Up(s, c) && Up(Apply(s, e), c)
    ensures Pipeline(Apply(s, e), c, x) == Pipeline(s, c, x)
    ensures Published(Apply(s, e), x, s.conns[c].device) == Published(s, x, s.conns[c].device)
  {
    if e.Announce? {
      AnnounceMoves(s, e.c, c, x);
    } else if e.Continue? {
      ContinueMoves(s, e.j, c, x);
    } else if e.Dispatch? || e.Restored? || e.Open? {
      DeliveryStepMoves(s, e, c, x);
    } else {
      QuietMoves(s, e, c, x);
    }
  }

  /** One event, with `c` up before and after. */
  lemma StepMoves(s: State, e: Event, c: ConnId, x: ConnId)
    requires Sub.Inv(s) && Connected(s) && Plain(s) && Enabled(s, e) && !e.Lose?
    requires Up(s, c) && Up(Apply(s, e), c)
    ensures Pipeline(Apply(s, e), c, x) == Pipeline(s, c, x) + Added(e, x, s.conns[c].device)
    ensures Published(Apply(s, e), x, s.conns[c].device)
         == Published(s, x, s.conns[c].device) + Added(e, x, s.conns[c].device)
  {
    if e.Send? {
      SendMovesPipeline(s, e.c, e.to, e.frame, c, x);
      SendMovesPublished(s, e.c, e.to, e.frame, x, s.conns[c].device);
    } else {
      SilentMoves(s, e, c, x);
    }
  }

  // ---- being up only ends once ----

  lemma UpBefore(s: State, e: Event, c: ConnId)
    requires Sub.Inv(s) && Enabled(s, e) && c in s.conns && s.conns[c].Confirmed() && Up(Apply(s, e), c)
    ensures Up(s, c)
  {
    if s.conns[c].killed { KilledStays(s, e, c); }
    RegisteredBefore(s, e, c);
  }

  lemma KilledStays(s: State, e: Event, c: ConnId)
    requires Enabled(s, e) && c in s.conns && s.conns[c].killed
    ensures c in Apply(s, e).conns && Apply(s, e).conns[c].killed
  {
    if T.IsSteady(e) {
      T.SteadySteps(s, e);
      assert T.Same(s.conns[c], Apply(s, e).conns[c]);
    }
  }

  lemma RegisteredBefore(s: State, e: Event, c: ConnId)
    requires Enabled(s, e) && c in s.conns && Registered(Apply(s, e), c)
    ensures Registered(s, c)
  {
    if T.IsSteady(e) {
      T.SteadySteps(s, e);
      assert T.Same(s.conns[c], Apply(s, e).conns[c]);
    } else if e.Open? || e.Unregister? {
      RegisteredBeforeMove(s, e, c);
    } else {
      RegisteredBeforeDelivery(s, e, c);
    }
  }

  lemma RegisteredBeforeMove(s: State, e: Event, c: ConnId)
    requires Enabled(s, e) && c in s.conns && Registered(Apply(s, e), c) && (e.Open? || e.Unregister?)
    ensures Registered(s, c)
  {
  }

  lemma RegisteredBeforeDelivery(s: State, e: Event, c: ConnId)
    requires Enabled(s, e) && c in s.conns && Registered(Apply(s, e), c) && (e.Receive? || e.Dispatch? || e.Lose?)
    ensures Registered(s, c)
  {
    T.OnlyForward(s, e, c);
  }

  lemma PlainKept(s: State, e: Event)
    requires Plain(s) && Enabled(s, e)
    ensures Plain(Apply(s, e))
  {
    if e.Continue? {
      var s' := ContinueStep(s, e.j);
      forall j, a | j in s'.jobs && a in s'.jobs[j] ensures a.Notify? ==> !a.msg.Forward? && !a.msg.Replace? {
        assert a in s.jobs[j];
      }
    } else if C.Commits(e) {
      PlainCommit(s, e);
    } else {
      C.StoreKept(s, e);
    }
  }

  lemma PlainCommit(s: State, e: Event)
    requires Plain(s) && Enabled(s, e) && C.Commits(e)
    ensures Plain(Apply(s, e))
  {
  }

  lemma ConnectedKept(s: State, e: Event)
    requires Connected(s) && Enabled(s, e) && !e.Lose?
    ensures Connected(Apply(s, e))
  {
    forall i | i in Apply(s, e).insts ensures !Apply(s, e).insts[i].bus.Restoring? {
      if Apply(s, e).insts[i].bus.Restoring? { Sub.RestoringOnlyByLoss(s, e, i); }
    }
  }

  // ---- whole runs ----

  ghost predicate Sane(s: State) {
    Sub.Inv(s) && Connected(s) && Plain(s)
  }

  /** If `c` is up at the end of a run without a lost pub/sub connection, it
      was up all along, and exactly the frames `x` published for its device
      entered its pipeline, at the end and in order. */
  lemma {:induction false} NothingLostOrDoubled(s: State, es: seq<Event>, c: ConnId, x: ConnId, d: DeviceId)
    returns (more: seq<Frame>)
    requires Sane(s) && IsRun(s, es) && T.NoLoss(es)
    requires c in s.conns && s.conns[c].device == d && s.conns[c].Confirmed() && Up(After(s, es), c)
    ensures Up(s, c)
    ensures Pipeline(After(s, es), c, x) == Pipeline(s, c, x) + more
    ensures Published(After(s, es), x, d) == Published(s, x, d) + more
    decreases |es|
  {
    if es == [] {
      more := [];
    } else {
      assert es[0] in es && forall e | e in es[1..] :: e in es;
      SaneKept(s, es[0]);
      StaysConfirmed(s, es, c);
      var rest := NothingLostOrDoubled(Apply(s, es[0]), es[1..], c, x, d);
      StepFromUp(s, es[0], c, x, d);
      more := Added(es[0], x, d) + rest;
      Joins(Pipeline(After(s, es), c, x), Pipeline(Apply(s, es[0]), c, x), Pipeline(s, c, x), Added(es[0], x, d), rest);
      Joins(Published(After(s, es), x, d), Published(Apply(s, es[0]), x, d), Published(s, x, d), Added(es[0], x, d), rest);
    }
  }

  lemma Joins(t: seq<Frame>, p1: seq<Frame>, p: seq<Frame>, a: seq<Frame>, rest: seq<Frame>)
    requires t == p1 + rest && p1 == p + a
    ensures t == p + (a + rest)
  {
  }

  lemma StepFromUp(s: State, e: Event, c: ConnId, x: ConnId, d: DeviceId)
    requires Sane(s) && Enabled(s, e) && !e.Lose?
    requires c in s.conns && s.conns[c].device == d && s.conns[c].Confirmed() && Up(Apply(s, e), c)
    ensures Up(s, c)
    ensures Pipeline(Apply(s, e), c, x) == Pipeline(s, c, x) + Added(e, x, d)
    ensures Published(Apply(s, e), x, d) == Published(s, x, d) + Added(e, x, d)
  {
    UpBefore(s, e, c);
    StepMoves(s, e, c, x);
  }

  lemma SaneKept(s: State, e: Event)
    requires Sane(s) && Enabled(s, e) && !e.Lose?
    ensures Sane(Apply(s, e))
  {
    Sub.Kept(s, e);
    ConnectedKept(s, e);
    PlainKept(s, e);
  }

  /** A connection up at the end had not left at the first step. */
  lemma {:induction false} StaysConfirmed(s: State, es: seq<Event>, c: ConnId)
    requires IsRun(s, es) && es != [] && c in s.conns && s.conns[c].Confirmed() && Up(After(s, es), c)
    ensures c in Apply(s, es[0]).conns && Apply(s, es[0]).conns[c].Confirmed()
    ensures Apply(s, es[0]).conns[c].device == s.conns[c].device
  {
    T.OnlyForward(s, es[0], c);
    if !Apply(s, es[0]).conns[c].Confirmed() {
      GoneStaysGone(Apply(s, es[0]), es[1..], c);
    }
  }

  lemma {:induction false} GoneStaysGone(s: State, es: seq<Event>, c: ConnId)
    requires IsRun(s, es) && c in s.conns && !s.conns[c].Live()
    ensures c in After(s, es).conns && !After(s, es).conns[c].Live()
    decreases |es|
  {
    if es != [] {
      T.OnlyForward(s, es[0], c);
      GoneStaysGone(Apply(s, es[0]), es[1..], c);
    }
  }

  // ---- what the device receives ----

  /** A frame is refused only when its sender is not in the cache that decides,
      or the reload it waited for failed. */
  lemma RefusedOnlyStrangers(s: State, e: Event, c: ConnId)
    requires Enabled(s, e) && c in s.conns && C.TouchesCache(e, c)
    ensures var k := s.conns[c];
            var k' := Apply(s, e).conns[c];
            k'.handled == k.handled
            || (k'.handled[..|k.handled|] == k.handled && |k'.handled| == |k.handled| + 1
                && (!k'.handled[|k.handled|].written ==> k'.handled[|k.handled|].from !in k'.Peers() || e.FailRead?))
  {
  }

  lemma LogLeads(t: State, c: ConnId, x: ConnId)
    requires Registered(t, c)
    ensures T.Prefix(InLog(t.conns[c].handled, x), Pipeline(t, c, x))
  {
  }

  lemma {:induction false} ReachesSane(s: State, es: seq<Event>)
    requires (Init(s) || Sane(s)) && IsRun(s, es) && T.NoLoss(es)
    ensures Sane(After(s, es))
    decreases |es|
  {
    assert Sane(s);
    if es != [] {
      assert es[0] in es && forall e | e in es[1..] :: e in es;
      SaneKept(s, es[0]);
      ReachesSane(Apply(s, es[0]), es[1..]);
    }
  }
}

/** The whole relay as one state machine: instances, connections, presence
    keys, database versions and REST handlers. An event is what one task does
    between two awaits. A run is any sequence of enabled events, so a
    statement about every run is one about every interleaving. */
module Cluster {
  import opened Store
  import opened Messages
  import opened Connection
  import opened Presence
  import Hub

  /** What a REST handler still has to do after its commit. */
  datatype Action = Notify(to: DeviceId, msg: BusMsg) | ClearPresence(device: DeviceId)

  /** `history` lists the committed database versions, the current one last. */
  datatype State = State(
    insts: map<InstId, Hub.Inst>,
    conns: map<ConnId, Conn>,
    presence: map<DeviceId, InstId>,
    history: seq<Db>,
    jobs: map<JobId, seq<Action>>)

  datatype Event =
    // a connection opens
    | Open(i: InstId, d: DeviceId, c: ConnId)
    | Enqueue(c: ConnId)
    | Claim(c: ConnId)
    | Announce(c: ConnId)
    // it serves
    | Read(c: ConnId)
    | FailRead(c: ConnId)
    | Store(c: ConnId)
    | Receive(c: ConnId, retry: bool)
    | Refresh(c: ConnId)
    | Send(c: ConnId, to: DeviceId, frame: Frame)
    // it ends
    | Leave(c: ConnId)
    | Unregister(c: ConnId)
    | Release(c: ConnId)
    | FailRelease(c: ConnId)
    // the bus task of an instance
    | TakeRequest(i: InstId)
    | RefuseSubscribe(i: InstId)
    | Ack(i: InstId)
    | Remove(i: InstId)
    | Drop(i: InstId, ok: bool)
    | Dispatch(i: InstId, overflow: bool)
    | Lose(i: InstId)
    | Resubscribe(i: InstId, d: DeviceId)
    | Restored(i: InstId)
    // REST handlers and the database
    | Insert(j: JobId, p: PairId, a: DeviceId, b: DeviceId, attestation: Bytes, created: int)
    | Revoke(j: JobId, st: Statement)
    | Delete(j: JobId, gone: DeviceId, held: seq<PairId>, sts: Option<map<PairId, Statement>>)
    | AddDevice(d: DeviceId)
    | Continue(j: JobId)
    // presence keys expire
    | Expire(d: DeviceId)

  predicate Init(s: State) {
    && (forall i :: i in s.insts ==> s.insts[i] == Hub.EMPTY)
    && s.conns == map[]
    && s.presence == map[]
    && |s.history| == 1 && Sound(s.history[0])
    && s.jobs == map[]
  }

  function Now(s: State): Db
    requires s.history != []
  {
    s.history[|s.history| - 1]
  }

  predicate Registered(s: State, c: ConnId) {
    && c in s.conns && s.conns[c].inst in s.insts
    && Hub.IsCurrent(s.insts[s.conns[c].inst], s.conns[c].device, c)
  }

  // ---- the notices a commit owes ----

  function InsertNotices(a: DeviceId, b: DeviceId): seq<Action> {
    [Notify(a, PairsChanged), Notify(b, PairsChanged)]
  }

  function RevokeNotices(db: Db, st: Statement): seq<Action>
    requires CanRevoke(db, st)
  {
    [Notify(db.pairs[st.pair].Other(st.signer), PairRevoked(st)), Notify(st.signer, PairsChanged)]
  }

  function DeleteNotice(db: Db, gone: DeviceId, p: PairId, sts: Option<map<PairId, Statement>>): Action
    requires p in db.pairs
    requires sts.Some? ==> p in sts.value
  {
    Notify(db.pairs[p].Other(gone), if sts.Some? then PairRevoked(sts.value[p]) else PairsChanged)
  }

  function DeleteNotices(db: Db, gone: DeviceId, held: seq<PairId>, sts: Option<map<PairId, Statement>>): seq<Action>
    requires forall p :: p in held ==> p in db.pairs && (sts.Some? ==> p in sts.value)
  {
    seq(|held|, k requires 0 <= k < |held| => DeleteNotice(db, gone, held[k], sts))
      + [ClearPresence(gone), Notify(gone, Close)]
  }

  /** The rows `delete_with_peers` locked: every unrevoked pair of the device. */
  predicate Lists(db: Db, d: DeviceId, held: seq<PairId>) {
    && (forall p | p in held :: Unrevoked(db, d, p))
    && (forall p | p in db.pairs :: Unrevoked(db, d, p) ==> p in held)
  }

  // ---- events ----

  /** A reload is due, or the connection makes one of its own accord: an outgoing
      frame names a device it does not know. A failure of the latter changes
      nothing. */
  predicate MayRead(k: Conn) {
    k.Published() && (k.task.MustRead? || (k.phase.Serving? && k.task.Idle?))
  }

  predicate Enabled(s: State, e: Event) {
    && s.history != []
    && match e
       case Open(i, _, c) => i in s.insts && c !in s.conns
       case Enqueue(c) => c in s.conns && s.conns[c].phase.Enrolled? && s.conns[c].inst in s.insts
       case Claim(c) => c in s.conns && s.conns[c].phase.AwaitClaim?
       case Announce(c) => c in s.conns && s.conns[c].phase.AwaitPublish?
       case Read(c) => c in s.conns && MayRead(s.conns[c])
       case FailRead(c) => c in s.conns && s.conns[c].Published() && s.conns[c].task.MustRead?
       case Store(c) => c in s.conns && s.conns[c].Published() && s.conns[c].task.Got?
       case Receive(c, _) =>
         c in s.conns && s.conns[c].phase.Serving? && s.conns[c].task.Idle? && s.conns[c].inbox != []
       case Refresh(c) => c in s.conns && s.conns[c].phase.Serving? && s.conns[c].task.Idle?
       case Send(c, _, _) => c in s.conns && s.conns[c].phase.Serving?
       case Leave(c) => c in s.conns && s.conns[c].Live()
       case Unregister(c) => c in s.conns && s.conns[c].phase.Closing? && s.conns[c].inst in s.insts
       case Release(c) => c in s.conns && s.conns[c].phase.Releasing?
       case FailRelease(c) => c in s.conns && s.conns[c].phase.Releasing?
       case TakeRequest(i) => i in s.insts && s.insts[i].bus.Ready? && s.insts[i].requests != []
       case RefuseSubscribe(i) =>
         i in s.insts && s.insts[i].bus.Ready? && s.insts[i].requests != []
         && s.insts[i].requests[0].Subscribe? && s.insts[i].requests[0].device !in s.insts[i].subscribed
       case Ack(i) => i in s.insts && s.insts[i].bus.Acking?
       case Remove(i) => i in s.insts && s.insts[i].bus.Checked?
       case Drop(i, _) => i in s.insts && s.insts[i].bus.Dropping?
       case Dispatch(i, _) => i in s.insts && s.insts[i].bus.Ready? && s.insts[i].stream != []
       case Lose(i) => i in s.insts && s.insts[i].bus.Ready?
       case Resubscribe(i, d) => i in s.insts && s.insts[i].bus.Restoring? && d in s.insts[i].bus.todo
       case Restored(i) => i in s.insts && s.insts[i].bus.Restoring? && s.insts[i].bus.todo == {}
       case Insert(j, p, a, b, _, _) => j !in s.jobs && CanInsert(Now(s), p, a, b)
       case Revoke(j, st) => j !in s.jobs && CanRevoke(Now(s), st)
       case Delete(j, gone, held, sts) =>
         j !in s.jobs && gone in Now(s).devices
         && Lists(Now(s), gone, held)
         && (sts.Some? ==> forall p :: p in held ==> p in sts.value && sts.value[p].pair == p && sts.value[p].signer == gone)
       case AddDevice(_) => true
       case Continue(j) => j in s.jobs && s.jobs[j] != []
       case Expire(_) => true
  }

  // ---- what each event does ----

  function WithConn(s: State, c: ConnId, k: Conn): State {
    s.(conns := s.conns[c := k])
  }

  function WithInst(s: State, i: InstId, h: Hub.Inst): State {
    s.(insts := s.insts[i := h])
  }

  /** Publish on `dev:<d>`: every subscribed instance hears it. */
  function Publish(s: State, d: DeviceId, m: BusMsg): State {
    s.(insts := map i | i in s.insts :: Hub.Hear(s.insts[i], d, m))
  }

  /** Hand a delivery to a connection's queue. */
  function Deliver(s: State, c: ConnId, m: Delivery): State {
    if c in s.conns then WithConn(s, c, s.conns[c].(inbox := s.conns[c].inbox + [m])) else s
  }

  /** Tell a waiting connection that its subscription stands. */
  function Confirm(s: State, c: ConnId): State {
    if c in s.conns && s.conns[c].phase.AwaitSubscribe?
    then WithConn(s, c, s.conns[c].(phase := AwaitClaim))
    else s
  }

  function Kill(s: State, c: ConnId): State {
    if c in s.conns then WithConn(s, c, s.conns[c].(killed := true)) else s
  }

  function Commit(s: State, db: Db): State {
    s.(history := s.history + [db])
  }

  function WithJob(s: State, j: JobId, todo: seq<Action>): State {
    s.(jobs := s.jobs[j := todo])
  }

  /** Register and tell the displaced connection. */
  function OpenStep(s: State, i: InstId, d: DeviceId, c: ConnId): State
    requires i in s.insts
  {
    var h := s.insts[i];
    var told := if d in h.registry then Deliver(s, h.registry[d], Bus(Replace(c))) else s;
    WithInst(WithConn(told, c, New(i, d)), i, Hub.Register(h, d, c))
  }

  /** Queue the subscribe request; other threads may have run in between. */
  function EnqueueStep(s: State, c: ConnId): State
    requires c in s.conns && s.conns[c].inst in s.insts
  {
    var k := s.conns[c];
    WithInst(WithConn(s, c, k.(phase := AwaitSubscribe)), k.inst, Hub.Enqueue(s.insts[k.inst], Subscribe(k.device, c)))
  }

  function ClaimStep(s: State, c: ConnId): State
    requires c in s.conns
  {
    var k := s.conns[c];
    WithConn(s, c, k.(phase := AwaitPublish)).(presence := s.presence[k.device := k.inst])
  }

  function AnnounceStep(s: State, c: ConnId): State
    requires c in s.conns
  {
    WithConn(Publish(s, s.conns[c].device, Replace(c)), c, s.conns[c].(phase := Loading))
  }

  function ReadStep(s: State, c: ConnId): State
    requires c in s.conns && s.history != []
  {
    var k := s.conns[c];
    WithConn(s, c, k.(task := Got(|s.history| - 1, ActivePeers(Now(s), k.device), HoldOf(k.task))))
  }

  function ReceiveStep(s: State, c: ConnId, retry: bool): State
    requires c in s.conns && s.conns[c].inbox != []
  {
    var k := s.conns[c];
    var m := k.inbox[0];
    var held := MayHold(s.presence, k.device, k.inst);
    WithConn(s, c, OnDelivery(c, k.(inbox := k.inbox[1..]), m, retry, held))
    .(presence := if m.Resync? then RefreshKey(s.presence, k.device, k.inst) else s.presence)
  }

  function RefreshStep(s: State, c: ConnId): State
    requires c in s.conns
  {
    var k := s.conns[c];
    var held := MayHold(s.presence, k.device, k.inst);
    WithConn(s, c, if held then k else k.(phase := Closing)).(presence := RefreshKey(s.presence, k.device, k.inst))
  }

  function SendStep(s: State, c: ConnId, to: DeviceId, frame: Frame): State
    requires c in s.conns
  {
    var k := s.conns[c];
    WithConn(Publish(s, to, Forward(k.device, c, frame)), c, k.(sent := k.sent + [Sent(to, frame)]))
  }

  /** Leave the registry if still current, and queue the unsubscribe. */
  function UnregisterStep(s: State, c: ConnId): State
    requires c in s.conns && s.conns[c].inst in s.insts
  {
    var k := s.conns[c];
    if Hub.IsCurrent(s.insts[k.inst], k.device, c)
    then WithInst(WithConn(s, c, k.(phase := Releasing)), k.inst, Hub.Unregister(s.insts[k.inst], k.device))
    else WithConn(s, c, k.(phase := Over))
  }

  /** Release presence. */
  function ReleaseStep(s: State, c: ConnId): State
    requires c in s.conns
  {
    var k := s.conns[c];
    WithConn(s, c, k.(phase := Over)).(presence := ReleaseKey(s.presence, k.device, k.inst))
  }

  /** Peers are told "offline" when a release finds the key still its own. */
  predicate AnnouncesOffline(s: State, e: Event, c: ConnId) {
    e == Release(c) && c in s.conns && Holds(s.presence, s.conns[c].device, s.conns[c].inst)
  }

  function TakeRequestStep(s: State, i: InstId): State
    requires i in s.insts && s.insts[i].bus.Ready? && s.insts[i].requests != []
  {
    var h := s.insts[i];
    var r := h.requests[0];
    WithInst(if r.Subscribe? && r.device in h.subscribed then Confirm(s, r.conn) else s, i, Hub.TakeRequest(h))
  }

  function RefuseStep(s: State, i: InstId): State
    requires i in s.insts && s.insts[i].requests != []
  {
    WithInst(s, i, s.insts[i].(requests := s.insts[i].requests[1..]))
  }

  function AckStep(s: State, i: InstId): State
    requires i in s.insts && s.insts[i].bus.Acking?
  {
    WithInst(Confirm(s, s.insts[i].bus.conn), i, Hub.Ack(s.insts[i]))
  }

  /** Hand the next published message to the local connection of its device;
      over the queue limit the connection is killed instead. */
  function DispatchStep(s: State, i: InstId, overflow: bool): State
    requires i in s.insts && s.insts[i].stream != []
  {
    var h := s.insts[i];
    var m := h.stream[0];
    var s1 := WithInst(s, i, h.(stream := h.stream[1..]));
    if m.to !in h.registry then s1
    else if overflow then Kill(s1, h.registry[m.to])
    else Deliver(s1, h.registry[m.to], Bus(m.msg))
  }

  /** Every registered connection is asked to resync. */
  function RestoredStep(s: State, i: InstId): State
    requires i in s.insts
  {
    var h := s.insts[i];
    WithInst(s, i, h.(bus := Hub.Ready))
    .(conns := map c | c in s.conns ::
        if c in h.registry.Values then s.conns[c].(inbox := s.conns[c].inbox + [Resync]) else s.conns[c])
  }

  function ContinueStep(s: State, j: JobId): State
    requires j in s.jobs && s.jobs[j] != []
  {
    var s1 := WithJob(s, j, s.jobs[j][1..]);
    match s.jobs[j][0]
    case Notify(d, m) => Publish(s1, d, m)
    case ClearPresence(d) => s1.(presence := s.presence - {d})
  }

  function Apply(s: State, e: Event): State
    requires Enabled(s, e)
  {
    match e
    case Open(i, d, c) => OpenStep(s, i, d, c)
    case Enqueue(c) => EnqueueStep(s, c)
    case Claim(c) => ClaimStep(s, c)
    case Announce(c) => AnnounceStep(s, c)
    case Read(c) => ReadStep(s, c)
    case FailRead(c) => WithConn(s, c, ReadFails(s.conns[c]))
    case Store(c) => WithConn(s, c, Assign(s.conns[c]))
    case Receive(c, retry) => ReceiveStep(s, c, retry)
    case Refresh(c) => RefreshStep(s, c)
    case Send(c, to, frame) => SendStep(s, c, to, frame)
    case Leave(c) => WithConn(s, c, s.conns[c].(phase := Closing))
    case Unregister(c) => UnregisterStep(s, c)
    case Release(c) => ReleaseStep(s, c)
    case FailRelease(c) => WithConn(s, c, s.conns[c].(phase := Over))
    case TakeRequest(i) => TakeRequestStep(s, i)
    case RefuseSubscribe(i) => RefuseStep(s, i)
    case Ack(i) => AckStep(s, i)
    case Remove(i) => WithInst(s, i, Hub.Remove(s.insts[i]))
    case Drop(i, ok) => WithInst(s, i, Hub.Drop(s.insts[i], ok))
    case Dispatch(i, overflow) => DispatchStep(s, i, overflow)
    case Lose(i) => WithInst(s, i, Hub.Lose(s.insts[i]))
    case Resubscribe(i, d) => WithInst(s, i, Hub.Resubscribe(s.insts[i], d))
    case Restored(i) => RestoredStep(s, i)
    case Insert(j, p, a, b, att, t) => WithJob(Commit(s, InsertPair(Now(s), p, a, b, att, t)), j, InsertNotices(a, b))
    case Revoke(j, st) => WithJob(Commit(s, RevokePair(Now(s), st)), j, RevokeNotices(Now(s), st))
    case Delete(j, gone, held, sts) =>
      WithJob(Commit(s, DeleteDevice(Now(s), gone)), j, DeleteNotices(Now(s), gone, held, sts))
    case AddDevice(d) => Commit(s, RegisterDevice(Now(s), d))
    case Continue(j) => ContinueStep(s, j)
    case Expire(d) => s.(presence := s.presence - {d})
  }

  // ---- which parts an event leaves alone ----

  lemma DbUntouched(s: State, e: Event)
    requires Enabled(s, e) && (e.Insert? || e.Revoke? || e.Delete? || e.AddDevice? || e.Expire?)
    ensures Apply(s, e).conns == s.conns && Apply(s, e).insts == s.insts
  {
  }

  predicate OnlyConn(s: State, s': State, c: ConnId) {
    c in s.conns && c in s'.conns && s'.conns == s.conns[c := s'.conns[c]] && s'.insts == s.insts
    && s'.history == s.history && s'.jobs == s.jobs
  }

  /** A connection only changes its phase. */
  lemma TalkTouches(s: State, e: Event)
    requires Enabled(s, e) && (e.Claim? || e.Refresh? || e.Leave? || e.Release? || e.FailRelease?)
    ensures OnlyConn(s, Apply(s, e), e.c)
    ensures Apply(s, e).conns[e.c] == s.conns[e.c].(phase := Apply(s, e).conns[e.c].phase)
  {
    match e
    case Claim(_) =>
    case Refresh(_) =>
    case Leave(_) =>
    case Release(_) =>
    case FailRelease(_) =>
  }

  /** A connection only changes what it knows and has handled. */
  predicate Reloaded(k: Conn, k': Conn) {
    k'.inst == k.inst && k'.device == k.device && k'.inbox == k.inbox && k'.killed == k.killed && k'.sent == k.sent
  }

  lemma ReloadTouches(s: State, e: Event)
    requires Enabled(s, e) && (e.Read? || e.FailRead? || e.Store?)
    ensures OnlyConn(s, Apply(s, e), e.c) && Reloaded(s.conns[e.c], Apply(s, e).conns[e.c])
    ensures Apply(s, e).presence == s.presence
  {
    match e
    case Read(_) =>
    case FailRead(c) => ReadFailsKeeps(s.conns[c]);
    case Store(c) => AssignKeeps(s.conns[c]);
  }

  lemma ReadFailsKeeps(k: Conn)
    requires k.task.MustRead?
    ensures Reloaded(k, ReadFails(k))
  {
  }

  lemma AssignKeeps(k: Conn)
    requires k.task.Got?
    ensures Reloaded(k, Assign(k))
  {
  }

  lemma DeliveryKeeps(me: ConnId, k: Conn, m: Delivery, retry: bool, held: bool)
    ensures Reloaded(k, OnDelivery(me, k, m, retry, held))
  {
  }

  lemma ReceiveTouches(s: State, c: ConnId, retry: bool)
    requires Enabled(s, Receive(c, retry))
    ensures var s' := ReceiveStep(s, c, retry);
            OnlyConn(s, s', c) && Reloaded(s.conns[c].(inbox := s.conns[c].inbox[1..]), s'.conns[c])
  {
    var k := s.conns[c];
    DeliveryKeeps(c, k.(inbox := k.inbox[1..]), k.inbox[0], retry, MayHold(s.presence, k.device, k.inst));
  }

  /** The bus task confirms at most a phase, and keeps stream and registry. */
  lemma ConfirmTouches(s: State, e: Event, c: ConnId)
    requires Enabled(s, e) && (e.TakeRequest? || e.Ack?) && c in s.conns
    ensures e.i in s.insts && Apply(s, e).insts == s.insts[e.i := Apply(s, e).insts[e.i]]
    ensures Apply(s, e).insts[e.i].stream == s.insts[e.i].stream
    ensures Apply(s, e).insts[e.i].registry == s.insts[e.i].registry
    ensures c in Apply(s, e).conns && Apply(s, e).conns[c] == s.conns[c].(phase := Apply(s, e).conns[c].phase)
    ensures Apply(s, e).conns[c].phase == s.conns[c].phase
         || (s.conns[c].phase.AwaitSubscribe? && Apply(s, e).conns[c].phase.AwaitClaim?)
  {
    match e
    case TakeRequest(_) =>
    case Ack(_) =>
  }

  lemma BusUntouched(s: State, e: Event)
    requires Enabled(s, e) && (e.RefuseSubscribe? || e.Remove? || e.Drop? || e.Resubscribe?)
    ensures Apply(s, e).conns == s.conns && e.i in s.insts
    ensures Apply(s, e).insts == s.insts[e.i := Apply(s, e).insts[e.i]]
    ensures Apply(s, e).insts[e.i].stream == s.insts[e.i].stream
    ensures Apply(s, e).insts[e.i].registry == s.insts[e.i].registry
  {
    match e
    case RefuseSubscribe(_) =>
    case Remove(_) =>
    case Drop(_, _) =>
    case Resubscribe(_, _) =>
  }

  // ---- runs ----

  predicate IsRun(s: State, es: seq<Event>)
    decreases |es|
  {
    es == [] || (Enabled(s, es[0]) && IsRun(Apply(s, es[0]), es[1..]))
  }

  function After(s: State, es: seq<Event>): State
    requires IsRun(s, es)
    decreases |es|
  {
    if es == [] then s else After(Apply(s, es[0]), es[1..])
  }

  /** A run may go on with any enabled event. */
  lemma {:induction false} GoesOn(s: State, es: seq<Event>, e: Event)
    requires IsRun(s, es) && Enabled(After(s, es), e)
    ensures IsRun(s, es + [e]) && After(s, es + [e]) == Apply(After(s, es), e)
    decreases |es|
  {
    if es == [] {
      assert [e][1..] == [];
      assert es + [e] == [e];
    } else {
      GoesOn(Apply(s, es[0]), es[1..], e);
      assert (es + [e])[1..] == es[1..] + [e];
    }
  }

  ghost predicate Reachable(s: State) {
    exists s0, es :: Init(s0) && IsRun(s0, es) && After(s0, es) == s
  }
}

/** Revocation cuts traffic off: once a connection has handled the notice of
    a revocation, every frame it writes is justified by a pair row that was
    valid at a database read made after that revocation, whatever the sender
    had parked or in flight. */
module Cutoff {
  import opened Store
  import opened Messages
  import opened Connection
  import opened Cluster
  import Sub = Subscription
  import T = Takeover
  import C = Cache
  import Presence
  import Hub

  /** Some unrevoked row has the members `d` and `from`, and `from` is not locked. */
  ghost predicate Justified(db: Db, d: DeviceId, from: DeviceId) {
    exists p: PairId :: Joins(db, p, d, from)
  }

  lemma PeerIsJustified(db: Db, d: DeviceId, from: DeviceId, rows: set<(PairId, DeviceId)>)
    requires Sound(db) && rows == ActivePeers(db, d) && from in (set e | e in rows :: e.1)
    ensures Justified(db, d, from)
  {
    var e :| e in rows && e.1 == from;
    ActivePeersExactly(db, e.0, d, from);
  }

  predicate IsVersion(h: seq<Db>, v: nat, d: DeviceId, rows: set<(PairId, DeviceId)>) {
    v < |h| && Sound(h[v]) && rows == ActivePeers(h[v], d)
  }

  ghost predicate EntryOk(h: seq<Db>, d: DeviceId, x: Handled) {
    x.at < |h| && (x.written ==> Justified(h[x.at], d, x.from))
  }

  /** Cache, reload in hand and log of frames all name real versions. */
  ghost predicate Traced(h: seq<Db>, k: Conn) {
    && (k.phase.Serving? ==> IsVersion(h, k.readAt, k.device, k.pairs))
    && (k.task.Got? ==> IsVersion(h, k.task.version, k.device, k.task.view) && k.readAt <= k.task.version)
    && k.readAt < |h|
    && (forall n | 0 <= n < |k.handled| :: EntryOk(h, k.device, k.handled[n]))
  }

  ghost predicate Inv(s: State) {
    && Evolves(s.history)
    && s.history != []
    && (forall c | c in s.conns :: Traced(s.history, s.conns[c]))
  }

  lemma TracedLonger(h: seq<Db>, h': seq<Db>, k: Conn)
    requires Traced(h, k) && T.Prefix(h, h')
    ensures Traced(h', k)
  {
    forall n | 0 <= n < |k.handled| ensures EntryOk(h', k.device, k.handled[n]) {
      assert EntryOk(h, k.device, k.handled[n]);
      assert h'[k.handled[n].at] == h[k.handled[n].at];
    }
  }

  // ---- every event keeps the traces ----

  lemma SettleTraced(h: seq<Db>, k: Conn, m: BusMsg, ok: bool)
    requires Traced(h, k) && (ok && m.Forward? ==> Justified(h[k.readAt], k.device, m.from))
    ensures Traced(h, Settle(k, m, ok))
  {
    var k' := Settle(k, m, ok);
    forall n | 0 <= n < |k'.handled| ensures EntryOk(h, k'.device, k'.handled[n]) {
      if n < |k.handled| { assert EntryOk(h, k.device, k.handled[n]); }
    }
  }

  lemma DeliveryTraced(h: seq<Db>, me: ConnId, k: Conn, m: Delivery, retry: bool, held: bool)
    requires Traced(h, k) && k.phase.Serving? && k.task.Idle?
    ensures Traced(h, OnDelivery(me, k, m, retry, held))
  {
    if m.Bus? && m.msg.Forward? {
      if m.msg.from in k.Peers() {
        PeerIsJustified(h[k.readAt], k.device, m.msg.from, k.pairs);
        SettleTraced(h, k, m.msg, true);
      } else if !retry {
        SettleTraced(h, k, m.msg, false);
      }
    }
  }

  lemma AssignTraced(h: seq<Db>, k: Conn)
    requires Traced(h, k) && k.task.Got? && k.Published()
    ensures Traced(h, Assign(k))
  {
    var k' := k.(pairs := k.task.view, readAt := k.task.version, stale := false, task := Idle, phase := Serving);
    assert Traced(h, k');
    if k.task.hold.Some? {
      var m := k.task.hold.value;
      if m.Forward? && m.from in k'.Peers() { PeerIsJustified(h[k'.readAt], k'.device, m.from, k'.pairs); }
      SettleTraced(h, k', m, m.Forward? && m.from in k'.Peers());
    }
  }

  lemma ReadFailsTraced(h: seq<Db>, k: Conn)
    requires Traced(h, k) && k.task.MustRead?
    ensures Traced(h, ReadFails(k))
  {
    var k' := k.(task := Idle, stale := k.stale || k.task.hold.None?);
    if k.task.hold.Some? { SettleTraced(h, k', k.task.hold.value, false); }
  }

  lemma OwnTraced(s: State, e: Event, c: ConnId)
    requires Enabled(s, e) && Sound(Now(s)) && c in s.conns && Traced(s.history, s.conns[c]) && C.TouchesCache(e, c)
    ensures c in Apply(s, e).conns && Traced(s.history, Apply(s, e).conns[c])
  {
    var k := s.conns[c];
    match e
    case Read(_) =>
    case Store(_) => AssignTraced(s.history, k);
    case FailRead(_) => ReadFailsTraced(s.history, k);
    case Receive(_, retry) =>
      DeliveryTraced(s.history, c, k.(inbox := k.inbox[1..]), k.inbox[0], retry, MayHold(s, c));
  }

  predicate MayHold(s: State, c: ConnId)
    requires c in s.conns
  {
    Presence.MayHold(s.presence, s.conns[c].device, s.conns[c].inst)
  }

  lemma EvolvesOn(h: seq<Db>, ch: Change)
    requires Evolves(h) && h != [] && Allowed(h[|h| - 1], ch)
    ensures Evolves(h + [Changed(h[|h| - 1], ch)])
  {
    var h' := h + [Changed(h[|h| - 1], ch)];
    assert Sound(h'[|h|]);
    assert Follows(h'[|h| - 1], h'[|h|]);
    forall k | 0 < k < |h'| ensures Follows(h'[k - 1], h'[k]) {
      if k < |h| { assert Follows(h[k - 1], h[k]); }
    }
  }

  lemma HistoryGrows(s: State, e: Event)
    requires Enabled(s, e) && Evolves(s.history)
    ensures T.Prefix(s.history, Apply(s, e).history) && Apply(s, e).history != [] && Evolves(Apply(s, e).history)
  {
    if C.Commits(e) {
      C.CommitIsChange(s, e);
      EvolvesOn(s.history, C.ChangeOf(e));
    } else {
      C.HistoryKept(s, e);
    }
  }

  lemma Kept(s: State, e: Event)
    requires Inv(s) && Enabled(s, e)
    ensures Inv(Apply(s, e)) && T.Prefix(s.history, Apply(s, e).history)
  {
    var s' := Apply(s, e);
    HistoryGrows(s, e);
    forall c | c in s'.conns ensures Traced(s'.history, s'.conns[c]) {
      if c in s.conns {
        if C.TouchesCache(e, c) { OwnTraced(s, e, c); } else { C.CacheUntouched(s, e, c); }
        TracedLonger(s.history, s'.history, s'.conns[c]);
      } else {
        NewTraced(s, e, c);
      }
    }
  }

  lemma NewTraced(s: State, e: Event, c: ConnId)
    requires Enabled(s, e) && c in Apply(s, e).conns && c !in s.conns && Apply(s, e).history != []
    ensures Traced(Apply(s, e).history, Apply(s, e).conns[c])
  {
    Sub.Newcomer(s, e, c);
  }

  // ---- cut-off over whole runs ----

  /** Nothing older than version `v` will decide about a frame, once the
      reload at hand is done. */
  predicate FreshSince(k: Conn, v: nat) {
    && (k.task.Got? ==> v <= k.task.version)
    && (!k.task.Got? && k.task != MustRead(None) ==> v <= k.readAt || k.stale)
  }

  lemma FreshKept(s: State, e: Event, c: ConnId, v: nat)
    requires Inv(s) && Enabled(s, e) && c in s.conns && FreshSince(s.conns[c], v) && v < |s.history|
    ensures c in Apply(s, e).conns && FreshSince(Apply(s, e).conns[c], v)
  {
    if C.TouchesCache(e, c) { FreshOwn(s, e, c, v); } else { C.CacheUntouched(s, e, c); }
  }

  lemma FreshOwn(s: State, e: Event, c: ConnId, v: nat)
    requires Enabled(s, e) && c in s.conns && FreshSince(s.conns[c], v) && v < |s.history| && C.TouchesCache(e, c)
    ensures c in Apply(s, e).conns && FreshSince(Apply(s, e).conns[c], v)
  {
  }

  lemma {:induction false} FreshOverRun(s: State, es: seq<Event>, c: ConnId, v: nat)
    requires Inv(s) && IsRun(s, es) && c in s.conns && FreshSince(s.conns[c], v) && v < |s.history|
    ensures Inv(After(s, es)) && T.Prefix(s.history, After(s, es).history)
    ensures c in After(s, es).conns && FreshSince(After(s, es).conns[c], v)
    ensures After(s, es).conns[c].device == s.conns[c].device
    decreases |es|
  {
    if es != [] {
      Kept(s, es[0]);
      FreshKept(s, es[0], c, v);
      T.OnlyForward(s, es[0], c);
      FreshOverRun(Apply(s, es[0]), es[1..], c, v);
    }
  }

  /** From a settled cache on, every frame is judged by that version or a
      later one. */
  ghost predicate LogFrom(k: Conn, n: nat, v: nat) {
    && n <= |k.handled| && v <= k.readAt && (k.task.Got? ==> v <= k.task.version)
    && (forall m | n <= m < |k.handled| :: v <= k.handled[m].at)
  }

  lemma LogKept(s: State, e: Event, c: ConnId, n: nat, v: nat)
    requires Inv(s) && Enabled(s, e) && c in s.conns && LogFrom(s.conns[c], n, v)
    ensures c in Apply(s, e).conns && LogFrom(Apply(s, e).conns[c], n, v)
  {
    if C.TouchesCache(e, c) { LogOwn(s, e, c, n, v); } else { C.CacheUntouched(s, e, c); }
  }

  lemma LogOwn(s: State, e: Event, c: ConnId, n: nat, v: nat)
    requires Enabled(s, e) && c in s.conns && LogFrom(s.conns[c], n, v) && C.TouchesCache(e, c)
    requires Traced(s.history, s.conns[c])
    ensures c in Apply(s, e).conns && LogFrom(Apply(s, e).conns[c], n, v)
  {
    var k := s.conns[c];
    if e.Receive? {
      LogDelivery(c, k.(inbox := k.inbox[1..]), k.inbox[0], e.retry, MayHold(s, c), n, v);
    }
  }

  lemma LogDelivery(me: ConnId, k: Conn, m: Delivery, retry: bool, held: bool, n: nat, v: nat)
    requires LogFrom(k, n, v)
    ensures LogFrom(OnDelivery(me, k, m, retry, held), n, v)
  {
  }

  lemma {:induction false} LogOverRun(s: State, es: seq<Event>, c: ConnId, n: nat, v: nat)
    requires Inv(s) && IsRun(s, es) && c in s.conns && LogFrom(s.conns[c], n, v)
    ensures Inv(After(s, es)) && T.Prefix(s.history, After(s, es).history)
    ensures c in After(s, es).conns && LogFrom(After(s, es).conns[c], n, v)
    ensures After(s, es).conns[c].device == s.conns[c].device
    decreases |es|
  {
    if es != [] {
      Kept(s, es[0]);
      LogKept(s, es[0], c, n, v);
      T.OnlyForward(s, es[0], c);
      LogOverRun(Apply(s, es[0]), es[1..], c, n, v);
    }
  }

  lemma {:induction false} EveryRun(s: State, es: seq<Event>)
    requires Inv(s) && IsRun(s, es)
    ensures Inv(After(s, es)) && T.Prefix(s.history, After(s, es).history)
    decreases |es|
  {
    if es != [] {
      Kept(s, es[0]);
      EveryRun(Apply(s, es[0]), es[1..]);
    }
  }

  // ---- where messages come from ----

  /** Version `w` is the commit that `st` announces: the pair was unrevoked before
      it, and it stored the statement or deleted the signer with its pairs. */
  predicate CommitAt(h: seq<Db>, w: nat, st: Statement) {
    && 0 < w < |h| && Unrevoked(h[w - 1], st.signer, st.pair)
    && (h[w] == RevokePair(h[w - 1], st) || h[w] == DeleteDevice(h[w - 1], st.signer))
  }

  /** The same, where `to` is the member of the pair that did not sign. */
  predicate CommitFor(h: seq<Db>, w: nat, st: Statement, to: DeviceId) {
    CommitAt(h, w, st) && {h[w - 1].pairs[st.pair].a, h[w - 1].pairs[st.pair].b} == {st.signer, to}
  }

  ghost predicate Committed(h: seq<Db>, st: Statement, to: DeviceId) {
    exists w: nat :: CommitFor(h, w, st, to)
  }

  type Owners = map<ConnId, DeviceId>

  function OwnersOf(s: State): Owners {
    map c | c in s.conns :: s.conns[c].device
  }

  /** A notice follows its commit and goes to the other member, and a frame names the
      device of the connection that published it. */
  ghost predicate MsgOk(h: seq<Db>, o: Owners, to: DeviceId, m: BusMsg) {
    match m
    case PairRevoked(st) => Committed(h, st, to)
    case Forward(from, via, _) => via in o && o[via] == from
    case _ => true
  }

  ghost predicate ActionsOk(h: seq<Db>, o: Owners, todo: seq<Action>) {
    forall a | a in todo :: a.Notify? ==> MsgOk(h, o, a.to, a.msg)
  }

  ghost predicate StreamOk(h: seq<Db>, o: Owners, stream: seq<Envelope>) {
    forall e | e in stream :: MsgOk(h, o, e.to, e.msg)
  }

  ghost predicate QueueOk(h: seq<Db>, o: Owners, to: DeviceId, inbox: seq<Delivery>) {
    forall m | m in inbox :: m.Bus? ==> MsgOk(h, o, to, m.msg)
  }

  ghost predicate ConnOk(h: seq<Db>, o: Owners, k: Conn) {
    QueueOk(h, o, k.device, k.inbox) && (HoldOf(k.task).Some? ==> MsgOk(h, o, k.device, HoldOf(k.task).value))
  }

  /** Every message anywhere is sound for history `h` and owners `o`. */
  ghost predicate Sourced(s: State, h: seq<Db>, o: Owners) {
    && (forall j | j in s.jobs :: ActionsOk(h, o, s.jobs[j]))
    && (forall i | i in s.insts :: StreamOk(h, o, s.insts[i].stream))
    && (forall c | c in s.conns :: ConnOk(h, o, s.conns[c]))
  }

  ghost predicate Grows(h: seq<Db>, o: Owners, h': seq<Db>, o': Owners) {
    T.Prefix(h, h') && forall c | c in o :: c in o' && o'[c] == o[c]
  }

  lemma MsgGrows(h: seq<Db>, o: Owners, h': seq<Db>, o': Owners, to: DeviceId, m: BusMsg)
    requires MsgOk(h, o, to, m) && Grows(h, o, h', o')
    ensures MsgOk(h', o', to, m)
  {
    if m.PairRevoked? {
      var w: nat :| CommitFor(h, w, m.statement, to);
      assert h'[w] == h[w] && h'[w - 1] == h[w - 1];
      assert CommitFor(h', w, m.statement, to);
    }
  }

  lemma SourcedGrows(s: State, h: seq<Db>, o: Owners, h': seq<Db>, o': Owners)
    requires Sourced(s, h, o) && Grows(h, o, h', o')
    ensures Sourced(s, h', o')
  {
    forall to: DeviceId, m: BusMsg | MsgOk(h, o, to, m) ensures MsgOk(h', o', to, m) {
      MsgGrows(h, o, h', o', to, m);
    }
    forall j | j in s.jobs ensures ActionsOk(h', o', s.jobs[j]) { assert ActionsOk(h, o, s.jobs[j]); }
    forall i | i in s.insts ensures StreamOk(h', o', s.insts[i].stream) { assert StreamOk(h, o, s.insts[i].stream); }
    forall c | c in s.conns ensures ConnOk(h', o', s.conns[c]) { assert ConnOk(h, o, s.conns[c]); }
  }

  lemma PublishSourced(s: State, d: DeviceId, m: BusMsg, h: seq<Db>, o: Owners)
    requires Sourced(s, h, o) && MsgOk(h, o, d, m)
    ensures Sourced(Publish(s, d, m), h, o)
  {
    var s' := Publish(s, d, m);
    forall i | i in s'.insts ensures StreamOk(h, o, s'.insts[i].stream) {
      assert StreamOk(h, o, s.insts[i].stream);
    }
  }

  lemma WithConnSourced(s: State, c: ConnId, k: Conn, h: seq<Db>, o: Owners)
    requires Sourced(s, h, o) && ConnOk(h, o, k)
    ensures Sourced(WithConn(s, c, k), h, o)
  {
  }

  lemma WithInstSourced(s: State, i: InstId, x: Hub.Inst, h: seq<Db>, o: Owners)
    requires Sourced(s, h, o) && StreamOk(h, o, x.stream)
    ensures Sourced(WithInst(s, i, x), h, o)
  {
  }

  lemma ConnSourced(s: State, e: Event, h: seq<Db>, o: Owners)
    requires Sourced(s, h, o) && Enabled(s, e)
    requires e.Claim? || e.Read? || e.FailRead? || e.Store? || e.Refresh? || e.Leave? || e.Release? || e.FailRelease?
    ensures Sourced(Apply(s, e), h, o)
  {
    assert ConnOk(h, o, s.conns[e.c]);
    if e.Read? || e.FailRead? || e.Store? {
      ReloadTouches(s, e);
      ReloadHolds(s, e);
    } else {
      TalkTouches(s, e);
    }
    WithConnSourced(s, e.c, Apply(s, e).conns[e.c], h, o);
  }

  lemma ReloadHolds(s: State, e: Event)
    requires Enabled(s, e) && (e.Read? || e.FailRead? || e.Store?)
    ensures e.c in Apply(s, e).conns
    ensures HoldOf(Apply(s, e).conns[e.c].task) in {None, HoldOf(s.conns[e.c].task)}
  {
  }

  lemma DeliveryOk(me: ConnId, k: Conn, m: Delivery, retry: bool, held: bool, h: seq<Db>, o: Owners)
    requires ConnOk(h, o, k) && (m.Bus? ==> MsgOk(h, o, k.device, m.msg))
    ensures ConnOk(h, o, OnDelivery(me, k, m, retry, held))
  {
  }

  lemma ReceiveSourced(s: State, c: ConnId, retry: bool, h: seq<Db>, o: Owners)
    requires Sourced(s, h, o) && Enabled(s, Receive(c, retry))
    ensures Sourced(ReceiveStep(s, c, retry), h, o)
  {
    var k := s.conns[c];
    assert ConnOk(h, o, k) && k.inbox[0] in k.inbox;
    assert QueueOk(h, o, k.device, k.inbox[1..]);
    DeliveryOk(c, k.(inbox := k.inbox[1..]), k.inbox[0], retry, MayHold(s, c), h, o);
    WithConnSourced(s, c, ReceiveStep(s, c, retry).conns[c], h, o);
  }

  lemma SpeakSourced(s: State, e: Event, h: seq<Db>)
    requires Sourced(s, h, OwnersOf(s)) && Enabled(s, e) && (e.Announce? || e.Send?)
    ensures Sourced(Apply(s, e), h, OwnersOf(s))
  {
    var k := s.conns[e.c];
    var o := OwnersOf(s);
    assert ConnOk(h, o, k);
    match e
    case Announce(c) =>
      PublishSourced(s, k.device, Replace(c), h, o);
      WithConnSourced(Publish(s, k.device, Replace(c)), c, k.(phase := Loading), h, o);
    case Send(c, to, frame) =>
      PublishSourced(s, to, Forward(k.device, c, frame), h, o);
      WithConnSourced(Publish(s, to, Forward(k.device, c, frame)), c, k.(sent := k.sent + [Sent(to, frame)]), h, o);
  }

  lemma DeliverSourced(s: State, c: ConnId, m: Delivery, h: seq<Db>, o: Owners)
    requires Sourced(s, h, o) && (c in s.conns && m.Bus? ==> MsgOk(h, o, s.conns[c].device, m.msg))
    ensures Sourced(Deliver(s, c, m), h, o)
  {
    if c in s.conns {
      assert ConnOk(h, o, s.conns[c]);
      WithConnSourced(s, c, s.conns[c].(inbox := s.conns[c].inbox + [m]), h, o);
    }
  }

  lemma OpenSourced(s: State, i: InstId, d: DeviceId, c: ConnId, h: seq<Db>, o: Owners)
    requires Sourced(s, h, o) && i in s.insts
    ensures Sourced(OpenStep(s, i, d, c), h, o)
  {
    var x := s.insts[i];
    if d in x.registry { DeliverSourced(s, x.registry[d], Bus(Replace(c)), h, o); }
    var told := if d in x.registry then Deliver(s, x.registry[d], Bus(Replace(c))) else s;
    WithConnSourced(told, c, New(i, d), h, o);
    assert StreamOk(h, o, x.stream);
    WithInstSourced(WithConn(told, c, New(i, d)), i, Hub.Register(x, d, c), h, o);
  }

  lemma EnqueueSourced(s: State, c: ConnId, h: seq<Db>, o: Owners)
    requires Sourced(s, h, o) && Enabled(s, Enqueue(c))
    ensures Sourced(EnqueueStep(s, c), h, o)
  {
    var k := s.conns[c];
    assert ConnOk(h, o, k) && StreamOk(h, o, s.insts[k.inst].stream);
    WithConnSourced(s, c, k.(phase := AwaitSubscribe), h, o);
    WithInstSourced(WithConn(s, c, k.(phase := AwaitSubscribe)), k.inst,
                    Hub.Enqueue(s.insts[k.inst], Subscribe(k.device, c)), h, o);
  }

  lemma DispatchSourced(s: State, i: InstId, overflow: bool, h: seq<Db>, o: Owners)
    requires Sub.Inv(s) && Sourced(s, h, o) && i in s.insts && s.insts[i].stream != []
    ensures Sourced(DispatchStep(s, i, overflow), h, o)
  {
    var x := s.insts[i];
    var m := x.stream[0];
    assert StreamOk(h, o, x.stream) && m in x.stream;
    var s1 := WithInst(s, i, x.(stream := x.stream[1..]));
    WithInstSourced(s, i, x.(stream := x.stream[1..]), h, o);
    if m.to in x.registry {
      var c := x.registry[m.to];
      assert Sub.EntryOk(s.conns, i, m.to, c);
      if !overflow {
        DeliverSourced(s1, c, Bus(m.msg), h, o);
      } else if c in s.conns {
        assert ConnOk(h, o, s.conns[c]);
        WithConnSourced(s1, c, s.conns[c].(killed := true), h, o);
      }
    }
  }

  lemma ConfirmSourced(s: State, c: ConnId, h: seq<Db>, o: Owners)
    requires Sourced(s, h, o)
    ensures Sourced(Confirm(s, c), h, o)
  {
    if c in s.conns {
      assert ConnOk(h, o, s.conns[c]);
      WithConnSourced(s, c, s.conns[c].(phase := AwaitClaim), h, o);
    }
  }

  lemma ConfirmingSourced(s: State, c: ConnId, i: InstId, x: Hub.Inst, h: seq<Db>, o: Owners)
    requires Sourced(s, h, o) && i in s.insts && x.stream == s.insts[i].stream
    ensures Sourced(WithInst(Confirm(s, c), i, x), h, o) && Sourced(WithInst(s, i, x), h, o)
  {
    assert StreamOk(h, o, s.insts[i].stream);
    ConfirmSourced(s, c, h, o);
    WithInstSourced(Confirm(s, c), i, x, h, o);
    WithInstSourced(s, i, x, h, o);
  }

  lemma BusSourced(s: State, e: Event, h: seq<Db>, o: Owners)
    requires Sourced(s, h, o) && Enabled(s, e)
    requires e.RefuseSubscribe? || e.Remove? || e.Drop? || e.Lose? || e.Resubscribe?
    ensures Sourced(Apply(s, e), h, o)
  {
    assert StreamOk(h, o, s.insts[e.i].stream);
    if e.Lose? {
      WithInstSourced(s, e.i, Hub.Lose(s.insts[e.i]), h, o);
    } else {
      BusUntouched(s, e);
      WithInstSourced(s, e.i, Apply(s, e).insts[e.i], h, o);
    }
  }

  lemma UnregisterSourced(s: State, c: ConnId, h: seq<Db>, o: Owners)
    requires Sourced(s, h, o) && Enabled(s, Unregister(c))
    ensures Sourced(UnregisterStep(s, c), h, o)
  {
    var k := s.conns[c];
    var s' := UnregisterStep(s, c);
    assert ConnOk(h, o, k) && StreamOk(h, o, s.insts[k.inst].stream);
    WithConnSourced(s, c, s'.conns[c], h, o);
    WithInstSourced(WithConn(s, c, s'.conns[c]), k.inst, s'.insts[k.inst], h, o);
  }

  lemma RestoredSourced(s: State, i: InstId, h: seq<Db>, o: Owners)
    requires Sourced(s, h, o) && i in s.insts
    ensures Sourced(RestoredStep(s, i), h, o)
  {
    var s' := RestoredStep(s, i);
    forall c | c in s'.conns ensures ConnOk(h, o, s'.conns[c]) {
      assert ConnOk(h, o, s.conns[c]);
    }
    assert StreamOk(h, o, s.insts[i].stream);
  }

  lemma ContinueSourced(s: State, j: JobId, h: seq<Db>, o: Owners)
    requires Sourced(s, h, o) && j in s.jobs && s.jobs[j] != []
    ensures Sourced(ContinueStep(s, j), h, o)
  {
    var a := s.jobs[j][0];
    assert ActionsOk(h, o, s.jobs[j]) && a in s.jobs[j];
    var s1 := WithJob(s, j, s.jobs[j][1..]);
    assert ActionsOk(h, o, s.jobs[j][1..]);
    assert Sourced(s1, h, o);
    if a.Notify? { PublishSourced(s1, a.to, a.msg, h, o); }
  }

  /** The notices of a commit name the version it creates. */
  lemma NewNoticesOk(s: State, e: Event, o: Owners)
    requires Enabled(s, e) && Sound(Now(s)) && C.Commits(e) && !e.AddDevice?
    ensures ActionsOk(Apply(s, e).history, o, Apply(s, e).jobs[e.j])
  {
    var h := Apply(s, e).history;
    var w := |s.history|;
    assert h[w - 1] == Now(s);
    match e
    case Insert(_, _, _, _, _, _) =>
    case Revoke(_, st) => RevokeCommitted(s, e);
    case Delete(j, gone, held, sts) =>
      forall a | a in Apply(s, e).jobs[j] && a.Notify? ensures MsgOk(h, o, a.to, a.msg) {
        if a.msg.PairRevoked? { DeleteCommitted(s, e, a); }
      }
  }

  lemma RevokeCommitted(s: State, e: Event)
    requires Enabled(s, e) && Sound(Now(s)) && e.Revoke?
    ensures var todo := Apply(s, e).jobs[e.j];
            todo == [Notify(todo[0].to, PairRevoked(e.st)), Notify(e.st.signer, PairsChanged)]
            && CommitFor(Apply(s, e).history, |s.history|, e.st, todo[0].to)
  {
    assert CommitAt(Apply(s, e).history, |s.history|, e.st);
  }

  lemma DeleteCommitted(s: State, e: Event, a: Action)
    requires Enabled(s, e) && Sound(Now(s)) && e.Delete? && a in Apply(s, e).jobs[e.j] && a.Notify? && a.msg.PairRevoked?
    ensures CommitFor(Apply(s, e).history, |s.history|, a.msg.statement, a.to)
  {
    var todo := Apply(s, e).jobs[e.j];
    var n :| 0 <= n < |todo| && todo[n] == a;
    assert n < |e.held| && e.held[n] in e.held;
    assert Unrevoked(Now(s), e.gone, e.held[n]);
  }

  lemma CommitSourced(s: State, e: Event, o: Owners)
    requires Sourced(s, s.history, o) && Enabled(s, e) && Sound(Now(s)) && C.Commits(e)
    ensures Sourced(Apply(s, e), Apply(s, e).history, o)
  {
    var s' := Apply(s, e);
    C.CommitIsChange(s, e);
    SourcedGrows(s, s.history, o, s'.history, o);
    if !e.AddDevice? { NewNoticesOk(s, e, o); }
  }

  lemma InstSourced(s: State, e: Event, h: seq<Db>, o: Owners)
    requires Sourced(s, h, o) && Enabled(s, e)
    requires e.TakeRequest? || e.Ack? || e.RefuseSubscribe? || e.Remove? || e.Drop? || e.Lose? || e.Resubscribe?
          || e.Restored?
    ensures Sourced(Apply(s, e), h, o)
  {
    if e.TakeRequest? {
      var r := s.insts[e.i].requests[0];
      ConfirmingSourced(s, if r.Subscribe? then r.conn else 0, e.i, Hub.TakeRequest(s.insts[e.i]), h, o);
    } else if e.Ack? {
      ConfirmingSourced(s, s.insts[e.i].bus.conn, e.i, Hub.Ack(s.insts[e.i]), h, o);
    } else if e.Restored? {
      RestoredSourced(s, e.i, h, o);
    } else {
      BusSourced(s, e, h, o);
    }
  }

  lemma StillSourced(s: State, e: Event)
    requires Sub.Inv(s) && Sourced(s, s.history, OwnersOf(s)) && Enabled(s, e) && !C.Commits(e)
    ensures Sourced(Apply(s, e), s.history, OwnersOf(s))
  {
    var h, o := s.history, OwnersOf(s);
    if e.Open? { OpenSourced(s, e.i, e.d, e.c, h, o); }
    else if e.Enqueue? { EnqueueSourced(s, e.c, h, o); }
    else if e.Announce? || e.Send? { SpeakSourced(s, e, h); }
    else if e.Receive? { ReceiveSourced(s, e.c, e.retry, h, o); }
    else if e.Unregister? { UnregisterSourced(s, e.c, h, o); }
    else if e.Continue? { ContinueSourced(s, e.j, h, o); }
    else if e.Expire? { }
    else if e.Dispatch? { DispatchSourced(s, e.i, e.overflow, h, o); }
    else if e.Claim? || e.Read? || e.FailRead? || e.Store? || e.Refresh? || e.Leave? || e.Release? || e.FailRelease? {
      ConnSourced(s, e, h, o);
    } else { InstSourced(s, e, h, o); }
  }

  lemma OwnersGrow(s: State, e: Event)
    requires Enabled(s, e)
    ensures forall c | c in OwnersOf(s) :: c in OwnersOf(Apply(s, e)) && OwnersOf(Apply(s, e))[c] == OwnersOf(s)[c]
  {
    forall c | c in s.conns ensures c in Apply(s, e).conns && Apply(s, e).conns[c].device == s.conns[c].device {
      T.OnlyForward(s, e, c);
    }
  }

  ghost predicate AllSourced(s: State) {
    Sub.Inv(s) && Sourced(s, s.history, OwnersOf(s))
  }

  lemma SourcedKept(s: State, e: Event)
    requires Inv(s) && AllSourced(s) && Enabled(s, e)
    ensures AllSourced(Apply(s, e))
  {
    var s' := Apply(s, e);
    Sub.Kept(s, e);
    OwnersGrow(s, e);
    if C.Commits(e) { CommitSourced(s, e, OwnersOf(s)); } else { StillSourced(s, e); C.HistoryKept(s, e); }
    SourcedGrows(s', s'.history, OwnersOf(s), s'.history, OwnersOf(s'));
  }

  lemma InitSourced(s: State)
    requires Init(s)
    ensures Inv(s) && AllSourced(s)
  {
  }

  lemma {:induction false} SourcedOverRun(s: State, es: seq<Event>)
    requires Inv(s) && AllSourced(s) && IsRun(s, es)
    ensures Inv(After(s, es)) && AllSourced(After(s, es))
    decreases |es|
  {
    if es != [] {
      Kept(s, es[0]);
      SourcedKept(s, es[0]);
      SourcedOverRun(Apply(s, es[0]), es[1..]);
    }
  }

  lemma ReachableSourced(s: State)
    requires Reachable(s)
    ensures Inv(s) && AllSourced(s)
  {
    var s0, es :| Init(s0) && IsRun(s0, es) && After(s0, es) == s;
    InitSourced(s0);
    SourcedOverRun(s0, es);
  }

  // ---- the theorem ----

  /** From a state in which `c` is about to reload because of a notice, to `mid` where it has done
      so successfully, to `end`: every frame written after `mid` is justified
      by a row valid at a version no older than the start. */
  lemma AfterReload(s: State, c: ConnId, done: seq<Event>, mid: State, more: seq<Event>, end: State, n: nat)
    requires Inv(s) && c in s.conns && s.conns[c].task == MustRead(None)
    requires IsRun(s, done) && mid == After(s, done)
    requires c in mid.conns && mid.conns[c].task.Idle? && !mid.conns[c].stale
    requires IsRun(mid, more) && end == After(mid, more)
    requires c in end.conns && |mid.conns[c].handled| <= n < |end.conns[c].handled| && end.conns[c].handled[n].written
    ensures T.Prefix(s.history, end.history)
    ensures var x := end.conns[c].handled[n];
            |s.history| - 1 <= x.at < |end.history| && Justified(end.history[x.at], s.conns[c].device, x.from)
  {
    var v := |s.history| - 1;
    FreshOverRun(s, done, c, v);
    LogOverRun(mid, more, c, |mid.conns[c].handled|, v);
    assert Traced(end.history, end.conns[c]);
    assert EntryOk(end.history, end.conns[c].device, end.conns[c].handled[n]);
  }

  /** The revocation behind a notice in a queue has been committed, and the device of
      that queue is the member that did not sign: this is the version. */
  lemma NoticeCommitted(s: State, c: ConnId, st: Statement) returns (w: nat)
    requires Reachable(s) && c in s.conns && Bus(PairRevoked(st)) in s.conns[c].inbox
    ensures Inv(s) && CommitAt(s.history, w, st)
    ensures var row := s.history[w - 1].pairs[st.pair];
            {row.a, row.b} == {st.signer, s.conns[c].device} && row.revoked.None?
  {
    ReachableSourced(s);
    var h, o := s.history, OwnersOf(s);
    assert ConnOk(h, o, s.conns[c]);
    assert MsgOk(h, o, s.conns[c].device, PairRevoked(st));
    w :| CommitFor(h, w, st, s.conns[c].device);
  }

  lemma NoticeTaken(s: State, retry: bool, c: ConnId)
    requires Inv(s) && Enabled(s, Receive(c, retry))
    requires s.conns[c].inbox[0].Bus? && s.conns[c].inbox[0].msg.PairRevoked?
    ensures var s1 := ReceiveStep(s, c, retry);
            Inv(s1) && c in s1.conns && s1.conns[c].task == MustRead(None) && s1.history == s.history
            && s1.conns[c].device == s.conns[c].device
  {
    Kept(s, Receive(c, retry));
  }

  /** From commit `w` to version `v` nothing made room for the pair to come back:
      a revoked pair's members stayed, a deleted signer did not register again. */
  predicate Final(h: seq<Db>, w: nat, v: nat, st: Statement)
    requires CommitAt(h, w, st) && w <= v < |h|
  {
    if RevokedBy(h[w], st.pair, st) then forall k | w <= k <= v :: MembersAt(h[k], h[w].pairs[st.pair])
    else forall k | w <= k <= v :: st.signer !in h[k].devices
  }

  /** Some row other than `p` joins them. */
  ghost predicate JustifiedWithout(db: Db, d: DeviceId, from: DeviceId, p: PairId) {
    exists q: PairId :: q != p && Joins(db, q, d, from)
  }

  lemma NotTheRevokedPair(h: seq<Db>, w: nat, v: nat, d: DeviceId, from: DeviceId, st: Statement)
    requires Evolves(h) && CommitAt(h, w, st) && w <= v < |h| && Final(h, w, v, st) && Justified(h[v], d, from)
    requires from == st.signer || d == st.signer
    ensures JustifiedWithout(h[v], d, from, st.pair)
  {
    var q: PairId :| Joins(h[v], q, d, from);
    if RevokedBy(h[w], st.pair, st) {
      NotTheRevokedRow(h, w, v, d, st.pair, st);
      assert q != st.pair;
    } else {
      assert false;
    }
  }

  /** Revocation cut-off. At a reachable `s`, `c` takes the notice of a
      revocation; by `mid` it has reloaded successfully; `n` is a frame it
      writes later. The revocation is the commit of a version `w` no newer than
      `s`, and the frame rests on a row valid at a version no older than `s`, even
      if its sender published it without checking again. Between the two members
      that row is another pair, unless the revoked one was written anew. */
  lemma CutOff(s: State, retry: bool, c: ConnId, st: Statement,
               done: seq<Event>, mid: State, more: seq<Event>, end: State, n: nat)
    returns (w: nat)
    requires Reachable(s) && Enabled(s, Receive(c, retry)) && s.conns[c].inbox[0] == Bus(PairRevoked(st))
    requires IsRun(ReceiveStep(s, c, retry), done) && mid == After(ReceiveStep(s, c, retry), done)
    requires c in mid.conns && mid.conns[c].task.Idle? && !mid.conns[c].stale
    requires IsRun(mid, more) && end == After(mid, more)
    requires c in end.conns && |mid.conns[c].handled| <= n < |end.conns[c].handled| && end.conns[c].handled[n].written
    ensures Evolves(end.history) && T.Prefix(s.history, end.history) && CommitAt(end.history, w, st)
    ensures w <= |s.history| - 1 <= end.conns[c].handled[n].at < |end.history|
    ensures Justified(end.history[end.conns[c].handled[n].at], s.conns[c].device, end.conns[c].handled[n].from)
    ensures var x := end.conns[c].handled[n];
            x.from == st.signer && Final(end.history, w, x.at, st)
            ==> JustifiedWithout(end.history[x.at], s.conns[c].device, x.from, st.pair)
  {
    w := NoticeCommitted(s, c, st);
    NoticeTaken(s, retry, c);
    var s1 := ReceiveStep(s, c, retry);
    AfterReload(s1, c, done, mid, more, end, n);
    EveryRun(s1, done);
    EveryRun(mid, more);
    var x := end.conns[c].handled[n];
    assert CommitAt(end.history, w, st);
    if x.from == st.signer && Final(end.history, w, x.at, st) {
      NotTheRevokedPair(end.history, w, x.at, s.conns[c].device, x.from, st);
    }
  }

  // ---- both members, once nothing is under way ----

  /** Frames from number `n` on are judged by the rows read at `r`, or by a version
      from `v` on. */
  ghost predicate LogSince(k: Conn, n: nat, r: nat, v: nat) {
    && n <= |k.handled| && (k.readAt == r || v <= k.readAt) && (k.task.Got? ==> v <= k.task.version)
    && (forall m | n <= m < |k.handled| :: k.handled[m].at == r || v <= k.handled[m].at)
  }

  lemma SinceDelivery(me: ConnId, k: Conn, m: Delivery, retry: bool, held: bool, n: nat, r: nat, v: nat)
    requires LogSince(k, n, r, v)
    ensures LogSince(OnDelivery(me, k, m, retry, held), n, r, v)
  {
  }

  lemma SinceOwn(s: State, e: Event, c: ConnId, n: nat, r: nat, v: nat)
    requires Enabled(s, e) && c in s.conns && LogSince(s.conns[c], n, r, v) && v < |s.history| && C.TouchesCache(e, c)
    ensures c in Apply(s, e).conns && LogSince(Apply(s, e).conns[c], n, r, v)
  {
    var k := s.conns[c];
    if e.Receive? {
      SinceDelivery(c, k.(inbox := k.inbox[1..]), k.inbox[0], e.retry, MayHold(s, c), n, r, v);
    }
  }

  lemma {:induction false} SinceOverRun(s: State, es: seq<Event>, c: ConnId, n: nat, r: nat, v: nat)
    requires Inv(s) && IsRun(s, es) && c in s.conns && LogSince(s.conns[c], n, r, v) && v < |s.history|
    ensures Inv(After(s, es)) && T.Prefix(s.history, After(s, es).history)
    ensures c in After(s, es).conns && LogSince(After(s, es).conns[c], n, r, v)
    ensures After(s, es).conns[c].device == s.conns[c].device
    decreases |es|
  {
    if es != [] {
      Kept(s, es[0]);
      if C.TouchesCache(es[0], c) { SinceOwn(s, es[0], c, n, r, v); } else { C.CacheUntouched(s, es[0], c); }
      T.OnlyForward(s, es[0], c);
      SinceOverRun(Apply(s, es[0]), es[1..], c, n, r, v);
    }
  }

  lemma SameRowsJustify(db: Db, db': Db, d: DeviceId, from: DeviceId)
    requires Sound(db) && Sound(db') && Justified(db, d, from) && ActivePeers(db, d) == ActivePeers(db', d)
    ensures Justified(db', d, from)
  {
    var p: PairId :| Joins(db, p, d, from);
    ActivePeersExactly(db, p, d, from);
    ActivePeersExactly(db', p, d, from);
  }

  /** A frame judged after `s`, with the cache equal to the query at `s`. */
  lemma SettledFrame(s: State, c: ConnId, end: State, n: nat) returns (v: nat)
    requires Inv(s) && Inv(end) && T.Prefix(s.history, end.history) && c in s.conns && c in end.conns
    requires s.conns[c].phase.Serving? && s.conns[c].pairs == ActivePeers(Now(s), s.conns[c].device)
    requires end.conns[c].device == s.conns[c].device
    requires LogSince(end.conns[c], |s.conns[c].handled|, s.conns[c].readAt, |s.history| - 1)
    requires |s.conns[c].handled| <= n < |end.conns[c].handled| && end.conns[c].handled[n].written
    ensures |s.history| - 1 <= v < |end.history|
    ensures Justified(end.history[v], s.conns[c].device, end.conns[c].handled[n].from)
  {
    var k := s.conns[c];
    v := |s.history| - 1;
    var x := end.conns[c].handled[n];
    assert Traced(end.history, end.conns[c]);
    assert EntryOk(end.history, k.device, x);
    assert Traced(s.history, k);
    if x.at < v {
      assert end.history[x.at] == s.history[k.readAt] && end.history[v] == Now(s);
      SameRowsJustify(end.history[x.at], end.history[v], k.device, x.from);
    } else {
      v := x.at;
    }
  }

  /** The cut-off for either member, the signer included: at a reachable `s` a
      revocation has been committed, and nothing that concerns connection `c` is
      under way. Every frame `c` writes from then on is justified at a version no
      older than `s`; between the members by another pair, unless the revoked one
      was written anew. */
  lemma SettledCutOff(s: State, c: ConnId, st: Statement, w: nat, es: seq<Event>, end: State, n: nat)
    returns (v: nat)
    requires Reachable(s) && CommitAt(s.history, w, st) && c in s.conns
    requires s.conns[c].phase.Serving? && s.conns[c].task.Idle? && !s.conns[c].stale && !C.Pending(s, c)
    requires IsRun(s, es) && end == After(s, es) && c in end.conns
    requires |s.conns[c].handled| <= n < |end.conns[c].handled| && end.conns[c].handled[n].written
    ensures Evolves(end.history) && CommitAt(end.history, w, st) && w <= |s.history| - 1 <= v < |end.history|
    ensures var d, from := s.conns[c].device, end.conns[c].handled[n].from;
            && Justified(end.history[v], d, from)
            && ((d == st.signer || from == st.signer) && Final(end.history, w, v, st)
                ==> JustifiedWithout(end.history[v], d, from, st.pair))
  {
    var d, from := s.conns[c].device, end.conns[c].handled[n].from;
    ReachableSourced(s);
    C.CacheAgreement(s, c);
    SinceOverRun(s, es, c, |s.conns[c].handled|, s.conns[c].readAt, |s.history| - 1);
    v := SettledFrame(s, c, end, n);
    assert CommitAt(end.history, w, st);
    if (d == st.signer || from == st.signer) && Final(end.history, w, v, st) {
      NotTheRevokedPair(end.history, w, v, d, from, st);
    }
  }

  /** The row that justifies a later frame is not the revoked one, as long as
      neither member of that pair was deleted in between. */
  lemma NotTheRevokedRow(h: seq<Db>, w: nat, v: nat, d: DeviceId, p: PairId, st: Statement)
    requires Evolves(h) && w <= v < |h| && RevokedBy(h[w], p, st)
    requires forall k | w <= k <= v :: MembersAt(h[k], h[w].pairs[p])
    ensures forall y: DeviceId :: !Joins(h[v], p, d, y)
  {
    FirstStatementStays(h, w, v, p, st);
  }
}

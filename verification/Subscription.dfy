/** The subscription protocol: whatever the interleaving of opening and
    ending connections with the bus task, a connection that was told its
    subscription stands keeps it for as long as it is registered. */
module Subscription {
  import opened Store
  import opened Messages
  import opened Connection
  import opened Cluster
  import Hub

  type Conns = map<ConnId, Conn>

  predicate At(conns: Conns, c: ConnId, i: InstId, d: DeviceId) {
    c in conns && conns[c].inst == i && conns[c].device == d
  }

  /** A registry entry names a connection of its own device and instance that
      has not been unregistered. */
  predicate EntryOk(conns: Conns, i: InstId, d: DeviceId, c: ConnId) {
    At(conns, c, i, d) && (conns[c].Live() || conns[c].phase.Closing?)
  }

  predicate RequestOk(conns: Conns, i: InstId, r: Request) {
    r.Subscribe? ==> At(conns, r.conn, i, r.device)
  }

  /** What the bus task believes is true at Redis. */
  predicate BusOk(h: Hub.Inst) {
    && h.subscribed <= h.channels
    && (h.bus.Acking? ==> h.bus.device in h.channels)
    && (h.bus.Dropping? ==> h.bus.device !in h.subscribed)
  }

  /** The channels the bus task holds or is about to restore. */
  function Believed(h: Hub.Inst): set<DeviceId> {
    h.subscribed + (if h.bus.Restoring? then h.bus.todo else {})
  }

  /** The channel of `d` is held and the bus task is not between finding `d`
      unregistered and dropping it. */
  predicate Covered(h: Hub.Inst, d: DeviceId) {
    d in Believed(h) && h.bus != Hub.Checked(d) && h.bus != Hub.Dropping(d)
  }

  predicate EntriesOk(conns: Conns, i: InstId, h: Hub.Inst) {
    forall d | d in h.registry ::
      EntryOk(conns, i, d, h.registry[d]) && (conns[h.registry[d]].Confirmed() ==> Covered(h, d))
  }

  predicate InstOk(conns: Conns, i: InstId, h: Hub.Inst) {
    && BusOk(h)
    && EntriesOk(conns, i, h)
    && (forall r | r in h.requests :: RequestOk(conns, i, r))
    && (h.bus.Acking? ==> At(conns, h.bus.conn, i, h.bus.device))
  }

  predicate Inv(s: State) {
    && (forall c | c in s.conns :: s.conns[c].inst in s.insts)
    && (forall i | i in s.insts :: InstOk(s.conns, i, s.insts[i]))
  }

  // ---- events that leave registries and bus tasks alone ----

  predicate SameControl(h: Hub.Inst, h': Hub.Inst) {
    h' == h.(stream := h'.stream)
  }

  /** How a connection may move on by itself. */
  predicate Later(k: Conn, k': Conn) {
    && k'.inst == k.inst && k'.device == k.device
    && (k'.Confirmed() ==> k.Confirmed())
    && (k'.Live() ==> k.Live())
    && (k.Live() || k.phase.Closing? ==> k'.Live() || k'.phase.Closing?)
  }

  predicate ConnsLater(conns: Conns, conns': Conns) {
    conns.Keys == conns'.Keys && forall c | c in conns :: Later(conns[c], conns'[c])
  }

  predicate QuietStep(s: State, s': State) {
    && s'.insts.Keys == s.insts.Keys
    && (forall i | i in s.insts :: SameControl(s.insts[i], s'.insts[i]))
    && ConnsLater(s.conns, s'.conns)
  }

  predicate Quiet(e: Event) {
    !(e.Open? || e.Enqueue? || e.Unregister? || e.TakeRequest? || e.RefuseSubscribe? || e.Ack? || e.Remove? || e.Drop?
      || e.Lose? || e.Resubscribe? || e.Restored?)
  }

  lemma SetConnQuiet(s: State, c: ConnId, k: Conn)
    requires c in s.conns && Later(s.conns[c], k)
    ensures QuietStep(s, WithConn(s, c, k))
  {
  }

  lemma PublishQuiet(s: State, d: DeviceId, m: BusMsg)
    ensures QuietStep(s, Publish(s, d, m))
  {
  }

  lemma DispatchQuiet(s: State, i: InstId, overflow: bool)
    requires i in s.insts && s.insts[i].stream != []
    ensures QuietStep(s, DispatchStep(s, i, overflow))
  {
  }

  lemma ReceiveQuiet(s: State, c: ConnId, retry: bool)
    requires Enabled(s, Receive(c, retry))
    ensures QuietStep(s, ReceiveStep(s, c, retry))
  {
    SetConnQuiet(s, c, ReceiveStep(s, c, retry).conns[c]);
  }

  lemma ReloadQuiet(s: State, e: Event)
    requires Enabled(s, e) && (e.Read? || e.FailRead? || e.Store?)
    ensures QuietStep(s, Apply(s, e))
  {
    ReloadTouches(s, e);
    match e
    case Read(c) =>
    case FailRead(c) => SetConnQuiet(s, c, ReadFails(s.conns[c]));
    case Store(c) => SetConnQuiet(s, c, Assign(s.conns[c]));
  }

  lemma TalkQuiet(s: State, e: Event)
    requires Enabled(s, e) && (e.Claim? || e.Refresh? || e.Leave? || e.Release? || e.FailRelease?)
    ensures QuietStep(s, Apply(s, e))
  {
    TalkTouches(s, e);
  }

  lemma SpeakQuiet(s: State, e: Event)
    requires Enabled(s, e) && (e.Announce? || e.Send?)
    ensures QuietStep(s, Apply(s, e))
  {
    var k := s.conns[e.c];
    if e.Announce? {
      PublishQuiet(s, k.device, Replace(e.c));
      SetConnQuiet(s, e.c, k.(phase := Loading));
    } else {
      PublishQuiet(s, e.to, Forward(k.device, e.c, e.frame));
      SetConnQuiet(s, e.c, k.(sent := k.sent + [Sent(e.to, e.frame)]));
    }
  }

  lemma ContinueQuiet(s: State, j: JobId)
    requires Enabled(s, Continue(j))
    ensures QuietStep(s, ContinueStep(s, j))
  {
    if s.jobs[j][0].Notify? { PublishQuiet(s, s.jobs[j][0].to, s.jobs[j][0].msg); }
  }

  lemma QuietSteps(s: State, e: Event)
    requires Enabled(s, e) && Quiet(e)
    ensures QuietStep(s, Apply(s, e))
  {
    if e.Claim? || e.Refresh? || e.Leave? || e.Release? || e.FailRelease? {
      TalkQuiet(s, e);
    } else if e.Read? || e.FailRead? || e.Store? {
      ReloadQuiet(s, e);
    } else if e.Announce? || e.Send? {
      SpeakQuiet(s, e);
    } else if e.Receive? {
      ReceiveQuiet(s, e.c, e.retry);
    } else if e.Dispatch? {
      DispatchQuiet(s, e.i, e.overflow);
    } else if e.Continue? {
      ContinueQuiet(s, e.j);
    } else {
      DbUntouched(s, e);
    }
  }

  /** Only opening adds a connection; instances are fixed. */
  lemma KeysKept(s: State, e: Event)
    requires Enabled(s, e) && !e.Open?
    ensures Apply(s, e).conns.Keys == s.conns.Keys && Apply(s, e).insts.Keys == s.insts.Keys
  {
    if Quiet(e) {
      QuietSteps(s, e);
    } else if e.Enqueue? || e.Unregister? || e.TakeRequest? || e.Ack? || e.Restored? {
      KeysKeptMoving(s, e);
    } else {
      KeysKeptBus(s, e);
    }
  }

  lemma KeysKeptMoving(s: State, e: Event)
    requires Enabled(s, e) && (e.Enqueue? || e.Unregister? || e.TakeRequest? || e.Ack? || e.Restored?)
    ensures Apply(s, e).conns.Keys == s.conns.Keys && Apply(s, e).insts.Keys == s.insts.Keys
  {
  }

  lemma KeysKeptBus(s: State, e: Event)
    requires Enabled(s, e) && (e.RefuseSubscribe? || e.Remove? || e.Drop? || e.Lose? || e.Resubscribe?)
    ensures Apply(s, e).conns == s.conns && Apply(s, e).insts.Keys == s.insts.Keys
  {
  }

  lemma Newcomer(s: State, e: Event, c: ConnId)
    requires Enabled(s, e) && c in Apply(s, e).conns && c !in s.conns
    ensures e.Open? && e.c == c
  {
    if !e.Open? { KeysKept(s, e); }
  }

  /** Only losing the pub/sub connection starts a restoration. */
  lemma RestoringOnlyByLoss(s: State, e: Event, i: InstId)
    requires Enabled(s, e) && !e.Lose? && i in Apply(s, e).insts && Apply(s, e).insts[i].bus.Restoring?
    ensures i in s.insts && s.insts[i].bus.Restoring?
  {
    if Quiet(e) {
      QuietSteps(s, e);
      assert SameControl(s.insts[i], Apply(s, e).insts[i]);
    } else if e.Open? || e.Enqueue? || e.Unregister? || e.TakeRequest? || e.Ack? {
      RestoringMoving(s, e, i);
    } else {
      RestoringBus(s, e, i);
    }
  }

  lemma RestoringMoving(s: State, e: Event, i: InstId)
    requires Enabled(s, e) && (e.Open? || e.Enqueue? || e.Unregister? || e.TakeRequest? || e.Ack?)
    requires i in Apply(s, e).insts && Apply(s, e).insts[i].bus.Restoring?
    ensures i in s.insts && s.insts[i].bus.Restoring?
  {
  }

  lemma RestoringBus(s: State, e: Event, i: InstId)
    requires Enabled(s, e)
    requires e.RefuseSubscribe? || e.Remove? || e.Drop? || e.Resubscribe? || e.Restored?
    requires i in Apply(s, e).insts && Apply(s, e).insts[i].bus.Restoring?
    ensures i in s.insts && s.insts[i].bus.Restoring?
  {
  }

  lemma InstOkLater(conns: Conns, conns': Conns, i: InstId, h: Hub.Inst, h': Hub.Inst)
    requires InstOk(conns, i, h) && SameControl(h, h')
    requires conns.Keys <= conns'.Keys && forall c | c in conns :: Later(conns[c], conns'[c])
    ensures InstOk(conns', i, h')
  {
    assert Believed(h) == Believed(h');
    forall d | d in h'.registry
      ensures EntryOk(conns', i, d, h'.registry[d]) && (conns'[h'.registry[d]].Confirmed() ==> Covered(h', d))
    {
      assert EntryOk(conns, i, d, h.registry[d]);
    }
    forall r | r in h'.requests ensures RequestOk(conns', i, r) {
      assert RequestOk(conns, i, r);
    }
  }

  lemma QuietKeeps(s: State, s': State)
    requires Inv(s) && QuietStep(s, s')
    ensures Inv(s')
  {
    forall i | i in s'.insts ensures InstOk(s'.conns, i, s'.insts[i]) {
      InstOkLater(s.conns, s'.conns, i, s.insts[i], s'.insts[i]);
    }
  }

  // ---- the other events, one by one ----

  lemma OpenKeeps(s: State, i: InstId, d: DeviceId, c: ConnId)
    requires Inv(s) && i in s.insts && c !in s.conns
    ensures Inv(OpenStep(s, i, d, c))
  {
    var s' := OpenStep(s, i, d, c);
    forall x | x in s.conns ensures Later(s.conns[x], s'.conns[x]) {}
    forall j | j in s'.insts ensures InstOk(s'.conns, j, s'.insts[j]) {
      InstOkLater(s.conns, s'.conns, j, s.insts[j], s.insts[j]);
      if j == i { RegisteredOk(s'.conns, i, s.insts[i], d, c); }
    }
  }

  lemma RegisteredOk(conns: Conns, i: InstId, h: Hub.Inst, d: DeviceId, c: ConnId)
    requires InstOk(conns, i, h) && c in conns && conns[c] == New(i, d)
    ensures InstOk(conns, i, Hub.Register(h, d, c))
  {
    assert Believed(Hub.Register(h, d, c)) == Believed(h);
  }

  lemma EnqueuedOk(conns: Conns, i: InstId, h: Hub.Inst, r: Request)
    requires InstOk(conns, i, h) && RequestOk(conns, i, r)
    ensures InstOk(conns, i, Hub.Enqueue(h, r))
  {
    assert Believed(Hub.Enqueue(h, r)) == Believed(h);
  }

  lemma EnqueueKeeps(s: State, c: ConnId)
    requires Inv(s) && Enabled(s, Enqueue(c))
    ensures Inv(EnqueueStep(s, c))
  {
    var k := s.conns[c];
    SetConnQuiet(s, c, k.(phase := AwaitSubscribe));
    var s1 := WithConn(s, c, k.(phase := AwaitSubscribe));
    QuietKeeps(s, s1);
    EnqueuedOk(s1.conns, k.inst, s1.insts[k.inst], Subscribe(k.device, c));
    WithInstKeeps(s1, k.inst, Hub.Enqueue(s1.insts[k.inst], Subscribe(k.device, c)));
  }

  /** Moving on a connection that no entry names changes nothing. */
  lemma InstOkUnnamed(conns: Conns, c: ConnId, k: Conn, i: InstId, h: Hub.Inst)
    requires InstOk(conns, i, h) && c in conns
    requires k.inst == conns[c].inst && k.device == conns[c].device
    requires forall d | d in h.registry :: h.registry[d] != c
    ensures InstOk(conns[c := k], i, h)
  {
    var conns' := conns[c := k];
    forall d | d in h.registry
      ensures EntryOk(conns', i, d, h.registry[d]) && (conns'[h.registry[d]].Confirmed() ==> Covered(h, d))
    {
      assert EntryOk(conns, i, d, h.registry[d]);
    }
    forall r | r in h.requests ensures RequestOk(conns', i, r) {
      assert RequestOk(conns, i, r);
    }
  }

  lemma InstOkUnregistered(conns: Conns, i: InstId, d: DeviceId, h: Hub.Inst)
    requires InstOk(conns, i, h)
    ensures InstOk(conns, i, Hub.Unregister(h, d))
  {
    assert Believed(Hub.Unregister(h, d)) == Believed(h);
  }

  lemma UnregisterKeeps(s: State, c: ConnId)
    requires Inv(s) && c in s.conns && s.conns[c].phase.Closing?
    ensures Inv(UnregisterStep(s, c))
  {
    var k := s.conns[c];
    var s' := UnregisterStep(s, c);
    forall j | j in s'.insts ensures InstOk(s'.conns, j, s'.insts[j]) {
      if Registered(s, c) && j == k.inst { InstOkUnregistered(s.conns, j, k.device, s.insts[j]); }
      assert InstOk(s.conns, j, s'.insts[j]);
      forall d | d in s'.insts[j].registry ensures s'.insts[j].registry[d] != c {
        assert EntryOk(s.conns, j, d, s'.insts[j].registry[d]);
      }
      InstOkUnnamed(s.conns, c, s'.conns[c], j, s'.insts[j]);
    }
  }

  /** A confirmed connection belongs to the instance that confirms it. */
  lemma ConfirmElsewhere(s: State, c: ConnId, i: InstId, d: DeviceId, j: InstId)
    requires Inv(s) && At(s.conns, c, i, d) && j in s.insts && j != i
    ensures InstOk(Confirm(s, c).conns, j, s.insts[j])
  {
  }

  lemma ConfirmHere(s: State, c: ConnId, i: InstId, d: DeviceId)
    requires Inv(s) && At(s.conns, c, i, d) && i in s.insts && Covered(s.insts[i], d)
    ensures InstOk(Confirm(s, c).conns, i, s.insts[i])
  {
  }

  lemma ConfirmKeeps(s: State, c: ConnId, i: InstId, d: DeviceId)
    requires Inv(s) && At(s.conns, c, i, d) && i in s.insts && Covered(s.insts[i], d)
    ensures Inv(Confirm(s, c))
  {
    var s' := Confirm(s, c);
    forall j | j in s'.insts ensures InstOk(s'.conns, j, s'.insts[j]) {
      if j == i { ConfirmHere(s, c, i, d); } else { ConfirmElsewhere(s, c, i, d, j); }
    }
  }

  lemma WithInstKeeps(s: State, i: InstId, h: Hub.Inst)
    requires Inv(s) && i in s.insts && InstOk(s.conns, i, h)
    ensures Inv(WithInst(s, i, h))
  {
  }

  lemma RestOk(conns: Conns, i: InstId, h: Hub.Inst)
    requires InstOk(conns, i, h) && h.requests != []
    ensures InstOk(conns, i, h.(requests := h.requests[1..]))
  {
    assert Believed(h.(requests := h.requests[1..])) == Believed(h);
  }

  lemma TakeRequestKeeps(s: State, i: InstId)
    requires Inv(s) && i in s.insts && s.insts[i].bus.Ready? && s.insts[i].requests != []
    ensures Inv(TakeRequestStep(s, i))
  {
    var h := s.insts[i];
    var r := h.requests[0];
    var h' := Hub.TakeRequest(h);
    assert InstOk(s.conns, i, h);
    assert RequestOk(s.conns, i, r);
    RestOk(s.conns, i, h);
    assert h'.subscribed == h.subscribed;
    forall d | d in h'.registry && s.conns[h'.registry[d]].Confirmed() ensures Covered(h', d) {
      assert Covered(h, d);
    }
    assert InstOk(s.conns, i, h');
    WithInstKeeps(s, i, h');
    if r.Subscribe? && r.device in h.subscribed {
      ConfirmKeeps(WithInst(s, i, h'), r.conn, i, r.device);
      assert Confirm(WithInst(s, i, h'), r.conn) == TakeRequestStep(s, i);
    }
  }

  lemma AckKeeps(s: State, i: InstId)
    requires Inv(s) && i in s.insts && s.insts[i].bus.Acking?
    ensures Inv(AckStep(s, i))
  {
    var h := s.insts[i];
    var h' := Hub.Ack(h);
    assert InstOk(s.conns, i, h);
    forall d | d in h'.registry && s.conns[h'.registry[d]].Confirmed() ensures Covered(h', d) {
      assert Covered(h, d);
    }
    WithInstKeeps(s, i, h');
    ConfirmKeeps(WithInst(s, i, h'), h.bus.conn, i, h.bus.device);
    assert Confirm(WithInst(s, i, h'), h.bus.conn) == AckStep(s, i);
  }

  lemma BusStepOk(conns: Conns, i: InstId, h: Hub.Inst, e: Event)
    requires InstOk(conns, i, h)
    requires (e.Remove? && h.bus.Checked?) || (e.Drop? && h.bus.Dropping?)
    ensures InstOk(conns, i, if e.Remove? then Hub.Remove(h) else Hub.Drop(h, e.ok))
  {
    var h' := if e.Remove? then Hub.Remove(h) else Hub.Drop(h, e.ok);
    forall d | d in h'.registry && conns[h'.registry[d]].Confirmed() ensures Covered(h', d) {
      assert Covered(h, d);
    }
  }

  lemma LoseOk(conns: Conns, i: InstId, h: Hub.Inst)
    requires InstOk(conns, i, h)
    ensures InstOk(conns, i, Hub.Lose(h))
  {
  }

  lemma ResubscribeOk(conns: Conns, i: InstId, h: Hub.Inst, d: DeviceId)
    requires InstOk(conns, i, h) && h.bus.Restoring?
    ensures InstOk(conns, i, Hub.Resubscribe(h, d))
  {
    var h' := Hub.Resubscribe(h, d);
    forall x | x in h'.registry && conns[h'.registry[x]].Confirmed() ensures Covered(h', x) {
      assert Covered(h, x);
    }
  }

  lemma RestoredKeeps(s: State, i: InstId)
    requires Inv(s) && i in s.insts && s.insts[i].bus == Hub.Restoring({})
    ensures Inv(RestoredStep(s, i))
  {
    var h := s.insts[i];
    var h' := h.(bus := Hub.Ready);
    var s' := RestoredStep(s, i);
    assert Believed(h) == Believed(h');
    forall d | d in h'.registry && s.conns[h'.registry[d]].Confirmed() ensures Covered(h', d) {
      assert Covered(h, d);
    }
    assert InstOk(s.conns, i, h');
    forall j | j in s'.insts ensures InstOk(s'.conns, j, s'.insts[j]) {
      InstOkLater(s.conns, s'.conns, j, s'.insts[j], s'.insts[j]);
    }
  }

  lemma DropStepKeeps(s: State, e: Event)
    requires Inv(s) && Enabled(s, e) && (e.RefuseSubscribe? || e.Remove? || e.Drop?)
    ensures Inv(Apply(s, e))
  {
    assert InstOk(s.conns, e.i, s.insts[e.i]);
    match e
    case RefuseSubscribe(i) =>
      RestOk(s.conns, i, s.insts[i]);
      WithInstKeeps(s, i, s.insts[i].(requests := s.insts[i].requests[1..]));
    case Remove(i) =>
      BusStepOk(s.conns, i, s.insts[i], e);
      WithInstKeeps(s, i, Hub.Remove(s.insts[i]));
    case Drop(i, ok) =>
      BusStepOk(s.conns, i, s.insts[i], e);
      WithInstKeeps(s, i, Hub.Drop(s.insts[i], ok));
  }

  lemma RestoreStepKeeps(s: State, e: Event)
    requires Inv(s) && Enabled(s, e) && (e.Lose? || e.Resubscribe? || e.Restored?)
    ensures Inv(Apply(s, e))
  {
    assert InstOk(s.conns, e.i, s.insts[e.i]);
    match e
    case Lose(i) =>
      LoseOk(s.conns, i, s.insts[i]);
      WithInstKeeps(s, i, Hub.Lose(s.insts[i]));
    case Resubscribe(i, d) =>
      ResubscribeOk(s.conns, i, s.insts[i], d);
      WithInstKeeps(s, i, Hub.Resubscribe(s.insts[i], d));
    case Restored(i) => RestoredKeeps(s, i);
  }

  /** Every event keeps the invariant, a reconnect included. */
  lemma Kept(s: State, e: Event)
    requires Inv(s) && Enabled(s, e)
    ensures Inv(Apply(s, e))
  {
    if Quiet(e) {
      QuietSteps(s, e);
      QuietKeeps(s, Apply(s, e));
    } else if e.Open? {
      OpenKeeps(s, e.i, e.d, e.c);
    } else if e.Enqueue? {
      EnqueueKeeps(s, e.c);
    } else if e.Unregister? {
      UnregisterKeeps(s, e.c);
    } else if e.TakeRequest? {
      TakeRequestKeeps(s, e.i);
    } else if e.Ack? {
      AckKeeps(s, e.i);
    } else if e.Lose? || e.Resubscribe? || e.Restored? {
      RestoreStepKeeps(s, e);
    } else {
      DropStepKeeps(s, e);
    }
  }

  // ---- no channel is held for nobody ----

  /** The last queued request about `d`. */
  function LastWord(q: seq<Request>, d: DeviceId): Option<Request> {
    if q == [] then None
    else if q[|q| - 1].device == d then Some(q[|q| - 1])
    else LastWord(q[..|q| - 1], d)
  }

  lemma {:induction false} LastWordOfRest(q: seq<Request>, d: DeviceId)
    requires q != []
    ensures LastWord(q, d) ==
            if LastWord(q[1..], d).Some? then LastWord(q[1..], d)
            else if q[0].device == d then Some(q[0]) else None
  {
    if |q| > 1 {
      assert q[..|q| - 1][1..] == q[1..][..|q| - 2];
      LastWordOfRest(q[..|q| - 1], d);
    }
  }

  predicate Held(h: Hub.Inst, d: DeviceId) {
    d in Believed(h) || (h.bus.Acking? && h.bus.device == d)
  }

  /** A device nobody serves here is not subscribed, or the bus task is
      dropping it, or an unsubscribe is the last request about it. */
  predicate NoLeakFor(h: Hub.Inst, d: DeviceId) {
    || d in h.registry
    || LastWord(h.requests, d) == Some(Unsubscribe(d))
    || (LastWord(h.requests, d).None? && (Held(h, d) ==> h.bus == Hub.Checked(d)))
  }

  ghost predicate NoLeak(s: State) {
    forall i, d | i in s.insts :: NoLeakFor(s.insts[i], d)
  }

  lemma RegisterNoLeak(h: Hub.Inst, r: Request, d: DeviceId)
    requires NoLeakFor(h, d)
    ensures r.Subscribe? ==> NoLeakFor(Hub.Register(h, r.device, r.conn), d)
    ensures r.Subscribe? && r.device in h.registry ==> NoLeakFor(Hub.Enqueue(h, r), d)
    ensures r.Unsubscribe? ==> NoLeakFor(Hub.Unregister(h, r.device), d)
  {
    var q := h.requests + [r];
    assert q[..|q| - 1] == h.requests;
  }

  lemma TakeNoLeak(h: Hub.Inst, d: DeviceId)
    requires NoLeakFor(h, d) && h.bus.Ready? && h.requests != []
    ensures NoLeakFor(Hub.TakeRequest(h), d)
    ensures h.requests[0].Subscribe? ==> NoLeakFor(h.(requests := h.requests[1..]), d)
  {
    LastWordOfRest(h.requests, d);
  }

  lemma BusNoLeak(h: Hub.Inst, d: DeviceId)
    requires NoLeakFor(h, d)
    ensures h.bus.Acking? ==> NoLeakFor(Hub.Ack(h), d)
    ensures h.bus.Checked? ==> NoLeakFor(Hub.Remove(h), d)
    ensures forall ok :: h.bus.Dropping? ==> NoLeakFor(Hub.Drop(h, ok), d)
    ensures NoLeakFor(Hub.Lose(h), d)
    ensures forall x :: h.bus.Restoring? && x in h.bus.todo ==> NoLeakFor(Hub.Resubscribe(h, x), d)
    ensures h.bus == Hub.Restoring({}) ==> NoLeakFor(h.(bus := Hub.Ready), d)
  {
  }

  /** A subscribe request is queued while its device is still served. */
  predicate Timely(s: State, e: Event)
    requires Enabled(s, e)
  {
    e.Enqueue? ==> s.conns[e.c].device in s.insts[s.conns[e.c].inst].registry
  }

  lemma QueueNoLeak(s: State, e: Event, i: InstId, d: DeviceId)
    requires Enabled(s, e) && Timely(s, e) && i in s.insts && NoLeakFor(s.insts[i], d)
    requires e.Open? || e.Enqueue? || e.Unregister? || e.TakeRequest? || e.RefuseSubscribe?
    ensures i in Apply(s, e).insts && NoLeakFor(Apply(s, e).insts[i], d)
  {
    match e
    case Open(_, x, c) => RegisterNoLeak(s.insts[i], Subscribe(x, c), d);
    case Enqueue(c) => RegisterNoLeak(s.insts[i], Subscribe(s.conns[c].device, c), d);
    case Unregister(c) => RegisterNoLeak(s.insts[i], Unsubscribe(s.conns[c].device), d);
    case TakeRequest(j) => if i == j { TakeNoLeak(s.insts[i], d); }
    case RefuseSubscribe(j) => if i == j { TakeNoLeak(s.insts[i], d); }
  }

  lemma TaskNoLeak(s: State, e: Event, i: InstId, d: DeviceId)
    requires Enabled(s, e) && i in s.insts && NoLeakFor(s.insts[i], d)
    requires e.Ack? || e.Remove? || e.Drop? || e.Lose? || e.Resubscribe? || e.Restored?
    ensures i in Apply(s, e).insts && NoLeakFor(Apply(s, e).insts[i], d)
  {
    BusNoLeak(s.insts[i], d);
  }

  lemma NoLeakKept(s: State, e: Event)
    requires NoLeak(s) && Enabled(s, e) && Timely(s, e)
    ensures NoLeak(Apply(s, e))
  {
    var s' := Apply(s, e);
    if Quiet(e) {
      QuietSteps(s, e);
      forall i, d | i in s'.insts ensures NoLeakFor(s'.insts[i], d) {
        assert NoLeakFor(s.insts[i], d);
        assert Believed(s.insts[i]) == Believed(s'.insts[i]);
      }
    } else {
      InstsKept(s, e);
      forall i, d | i in s'.insts ensures NoLeakFor(s'.insts[i], d) {
        assert NoLeakFor(s.insts[i], d);
        if e.Open? || e.Enqueue? || e.Unregister? || e.TakeRequest? || e.RefuseSubscribe? {
          QueueNoLeak(s, e, i, d);
        } else {
          TaskNoLeak(s, e, i, d);
        }
      }
    }
  }

  lemma InstsKept(s: State, e: Event)
    requires Enabled(s, e)
    ensures Apply(s, e).insts.Keys == s.insts.Keys
  {
    if !e.Open? { KeysKept(s, e); }
  }

  /** Queueing a subscribe request for a device nobody serves any more leaks a
      channel, and nothing else does. */
  lemma LeaksIffLate(s: State, c: ConnId)
    requires NoLeak(s) && Enabled(s, Enqueue(c))
    ensures NoLeak(EnqueueStep(s, c)) <==> Timely(s, Enqueue(c))
  {
    var k := s.conns[c];
    var h := s.insts[k.inst];
    if Timely(s, Enqueue(c)) {
      NoLeakKept(s, Enqueue(c));
    } else {
      var q := h.requests + [Subscribe(k.device, c)];
      assert LastWord(q, k.device) == Some(Subscribe(k.device, c));
      assert !NoLeakFor(EnqueueStep(s, c).insts[k.inst], k.device);
    }
  }

  // ---- every run ----

  /** In every run, with any number of reconnects whose re-subscribes succeed, a
      registered connection whose subscribe was confirmed is subscribed (or
      being re-subscribed). */
  lemma {:induction false} EveryRun(s: State, es: seq<Event>)
    requires Inv(s) && IsRun(s, es)
    ensures Inv(After(s, es))
    decreases |es|
  {
    if es != [] {
      Kept(s, es[0]);
      EveryRun(Apply(s, es[0]), es[1..]);
    }
  }

  predicate TimelyRun(s: State, es: seq<Event>)
    requires IsRun(s, es)
    decreases |es|
  {
    es == [] || (Timely(s, es[0]) && TimelyRun(Apply(s, es[0]), es[1..]))
  }

  /** In every run in which no subscribe request comes late, nothing is held for a
      device nobody serves unless its unsubscribe is under way. */
  lemma {:induction false} NothingLeaks(s: State, es: seq<Event>)
    requires NoLeak(s) && IsRun(s, es) && TimelyRun(s, es)
    ensures NoLeak(After(s, es))
    decreases |es|
  {
    if es != [] {
      NoLeakKept(s, es[0]);
      NothingLeaks(Apply(s, es[0]), es[1..]);
    }
  }

  lemma Initially(s: State)
    requires Init(s)
    ensures Inv(s) && NoLeak(s)
  {
  }

  lemma ReachableInv(s: State)
    requires Reachable(s)
    ensures Inv(s)
  {
    var s0, es :| Init(s0) && IsRun(s0, es) && After(s0, es) == s;
    Initially(s0);
    EveryRun(s0, es);
  }

  /** The invariant in the relay's own terms, at any reachable state. */
  lemma ConfirmedStaysSubscribed(s: State, c: ConnId)
    requires Reachable(s) && Registered(s, c) && s.conns[c].Confirmed()
    ensures var h := s.insts[s.conns[c].inst];
            !h.bus.Restoring? ==> s.conns[c].device in h.subscribed && s.conns[c].device in h.channels
  {
    ReachableInv(s);
    assert InstOk(s.conns, s.conns[c].inst, s.insts[s.conns[c].inst]);
  }

  ghost predicate ReachableTimely(s: State) {
    exists s0, es :: Init(s0) && IsRun(s0, es) && TimelyRun(s0, es) && After(s0, es) == s
  }

  /** When an instance has nothing left to do, it is subscribed exactly to
      devices it serves, and to every one that was confirmed. */
  lemma SettledInstance(s: State, i: InstId)
    requires ReachableTimely(s) && i in s.insts && s.insts[i].bus.Ready? && s.insts[i].requests == []
    ensures s.insts[i].subscribed <= s.insts[i].registry.Keys
    ensures forall c | Registered(s, c) && s.conns[c].inst == i && s.conns[c].Confirmed() ::
              s.conns[c].device in s.insts[i].subscribed
  {
    var s0, es :| Init(s0) && IsRun(s0, es) && TimelyRun(s0, es) && After(s0, es) == s;
    Initially(s0);
    NothingLeaks(s0, es);
    forall d | d in s.insts[i].subscribed ensures d in s.insts[i].registry {
      assert NoLeakFor(s.insts[i], d);
    }
    assert Reachable(s);
    forall c | Registered(s, c) && s.conns[c].inst == i && s.conns[c].Confirmed()
      ensures s.conns[c].device in s.insts[i].subscribed
    {
      ConfirmedStaysSubscribed(s, c);
    }
  }

  // ---- a late subscribe ----

  const LONE := State(map[1 := Hub.EMPTY], map[], map[], [Db({}, {}, map[])], map[])

  /** One instance in this state, and connection 1 of device 7 has not queued its
      subscribe request. */
  predicate Stage(s: State, h: Hub.Inst) {
    && s.insts == map[1 := h] && s.history == LONE.history
    && 1 in s.conns && s.conns[1].phase.Enrolled? && s.conns[1].inst == 1 && s.conns[1].device == 7
  }

  lemma SecondWaits() returns (es: seq<Event>)
    ensures Init(LONE) && IsRun(LONE, es)
    ensures var s := After(LONE, es);
            Stage(s, Hub.Inst(map[7 := 2], [Subscribe(7, 2)], {}, {}, [], Hub.Ready)) && 2 in s.conns
            && s.conns[2].inst == 1 && s.conns[2].device == 7 && s.conns[2].phase.AwaitSubscribe?
  {
    es := [];
    GoesOn(LONE, es, Open(1, 7, 1)); es := es + [Open(1, 7, 1)];
    GoesOn(LONE, es, Open(1, 7, 2)); es := es + [Open(1, 7, 2)];
    GoesOn(LONE, es, Enqueue(2)); es := es + [Enqueue(2)];
    var s := After(LONE, es);
    assert s.insts[1].registry == map[7 := 2] && s.insts[1].requests == [Subscribe(7, 2)];
  }

  lemma SecondConfirmed() returns (es: seq<Event>)
    ensures Init(LONE) && IsRun(LONE, es)
    ensures var s := After(LONE, es);
            Stage(s, Hub.Inst(map[7 := 2], [], {7}, {7}, [], Hub.Ready)) && 2 in s.conns
            && s.conns[2].inst == 1 && s.conns[2].device == 7 && s.conns[2].Live()
  {
    es := SecondWaits();
    GoesOn(LONE, es, TakeRequest(1)); es := es + [TakeRequest(1)];
    GoesOn(LONE, es, Ack(1)); es := es + [Ack(1)];
    var s := After(LONE, es);
    assert s.insts[1].registry == map[7 := 2] && s.insts[1].requests == [];
    assert s.insts[1].subscribed == {7} && s.insts[1].channels == {7};
  }

  lemma SecondCloses() returns (es: seq<Event>)
    ensures Init(LONE) && IsRun(LONE, es)
    ensures var s := After(LONE, es);
            Stage(s, Hub.Inst(map[7 := 2], [], {7}, {7}, [], Hub.Ready)) && 2 in s.conns
            && s.conns[2].inst == 1 && s.conns[2].device == 7 && s.conns[2].phase.Closing?
  {
    es := SecondConfirmed();
    GoesOn(LONE, es, Leave(2)); es := es + [Leave(2)];
  }

  lemma SecondGoes() returns (es: seq<Event>)
    ensures Init(LONE) && IsRun(LONE, es)
    ensures Stage(After(LONE, es), Hub.Inst(map[], [Unsubscribe(7)], {7}, {7}, [], Hub.Ready))
  {
    es := SecondCloses();
    GoesOn(LONE, es, Unregister(2)); es := es + [Unregister(2)];
    assert After(LONE, es).insts[1].registry == map[] && After(LONE, es).insts[1].requests == [Unsubscribe(7)];
  }

  lemma SecondChecked() returns (es: seq<Event>)
    ensures Init(LONE) && IsRun(LONE, es)
    ensures Stage(After(LONE, es), Hub.Inst(map[], [], {}, {7}, [], Hub.Dropping(7)))
  {
    es := SecondGoes();
    GoesOn(LONE, es, TakeRequest(1)); es := es + [TakeRequest(1)];
    GoesOn(LONE, es, Remove(1)); es := es + [Remove(1)];
    assert After(LONE, es).insts[1].subscribed == {} && After(LONE, es).insts[1].requests == [];
  }

  lemma SecondGone() returns (es: seq<Event>)
    ensures Init(LONE) && IsRun(LONE, es)
    ensures Stage(After(LONE, es), Hub.Inst(map[], [], {}, {}, [], Hub.Ready))
  {
    es := SecondChecked();
    GoesOn(LONE, es, Drop(1, true)); es := es + [Drop(1, true)];
    assert After(LONE, es).insts[1].channels == {};
  }

  /** Device 7 on one instance: connection 2 displaces connection 1, is confirmed
      and leaves; then the subscribe request of connection 1 arrives. The instance
      is idle, serves nobody, and stays subscribed. */
  lemma LateSubscribeLeaks() returns (es: seq<Event>)
    ensures Init(LONE) && IsRun(LONE, es)
    ensures var s := After(LONE, es);
            && 1 in s.insts && s.insts[1].bus.Ready? && s.insts[1].requests == []
            && s.insts[1].registry == map[] && s.insts[1].subscribed == {7}
  {
    es := SecondGone();
    GoesOn(LONE, es, Enqueue(1)); es := es + [Enqueue(1)];
    GoesOn(LONE, es, TakeRequest(1)); es := es + [TakeRequest(1)];
    GoesOn(LONE, es, Ack(1)); es := es + [Ack(1)];
    assert After(LONE, es).insts[1].requests == [];
  }
}

/** The other side of takeover: a connection that opens when no rival is
    under way is never evicted, its presence stays its own, and the
    connections it replaced go silently. */
module Handover {
  import opened Store
  import opened Messages
  import opened Connection
  import opened Cluster
  import opened Presence
  import Sub = Subscription
  import T = Takeover
  import Order
  import Hub

  /** A delivery that ends `c`. */
  predicate Ends(m: Delivery, c: ConnId) {
    T.Evicts(m, c) || (m.Bus? && m.msg.Close?)
  }

  /** Another connection of the device that can disturb neither the slot nor
      the presence of one on instance `i`: it is past its own announcement,
      and not about to release the presence of `i`. */
  predicate Harmless(k: Conn, i: InstId) {
    !(k.phase.Enrolled? || k.phase.AwaitSubscribe? || k.phase.AwaitClaim? || k.phase.AwaitPublish?)
    && !(k.phase.Releasing? && k.inst == i)
  }

  /** A handler will not remove device `d` or its presence. */
  predicate Spares(todo: seq<Action>, d: DeviceId) {
    forall a | a in todo :: a != ClearPresence(d) && (a.Notify? && a.to == d ==> !a.msg.Close? && !a.msg.Replace?)
  }

  predicate Clear(s: State, i: InstId, d: DeviceId, c: ConnId)
    requires i in s.insts
  {
    && (forall e | e in s.insts[i].stream :: e.to == d ==> !Ends(Bus(e.msg), c))
    && (forall x | x in s.conns && x != c && s.conns[x].device == d :: Harmless(s.conns[x], i))
    && (forall j | j in s.jobs :: Spares(s.jobs[j], d))
  }

  predicate Claimed(k: Conn) {
    k.phase.AwaitPublish? || k.phase.Loading? || k.phase.Serving?
  }

  /** `c` is the device's only connection that matters. */
  predicate Solo(s: State, c: ConnId) {
    && Registered(s, c) && s.conns[c].Live()
    && Clear(s, s.conns[c].inst, s.conns[c].device, c)
    && (forall m | m in s.conns[c].inbox :: !Ends(m, c))
    && (Claimed(s.conns[c]) ==> Holds(s.presence, s.conns[c].device, s.conns[c].inst))
  }

  /** No other connection of `c`'s device opens, the device is not deleted, its
      presence key does not expire, no pub/sub connection is lost, and `c` neither
      leaves by itself nor fails its first load. */
  predicate Undisturbed(s: State, e: Event, c: ConnId)
    requires c in s.conns
  {
    var d := s.conns[c].device;
    && !(e.Open? && e.d == d) && !(e.Delete? && e.gone == d) && e != Expire(d) && !e.Lose?
    && e != Leave(c) && (e == FailRead(c) ==> s.conns[c].phase.Serving?)
  }

  // ---- how it starts ----

  lemma SoloStarts(s: State, i: InstId, d: DeviceId, c: ConnId)
    requires i in s.insts && c !in s.conns && Clear(s, i, d, c)
    ensures Solo(OpenStep(s, i, d, c), c)
  {
    var s' := OpenStep(s, i, d, c);
    forall x | x in s'.conns && x != c && s'.conns[x].device == d ensures Harmless(s'.conns[x], i) {
      assert Harmless(s.conns[x], i);
    }
  }

  // ---- what the other parties do ----

  lemma PublishSolo(s: State, to: DeviceId, m: BusMsg, c: ConnId)
    requires Solo(s, c) && (to == s.conns[c].device ==> !Ends(Bus(m), c))
    ensures Solo(Publish(s, to, m), c)
  {
  }

  lemma OtherConnSolo(s: State, x: ConnId, k: Conn, keys: Keys, c: ConnId)
    requires Solo(s, c) && x in s.conns && x != c
    requires k.inst == s.conns[x].inst && k.device == s.conns[x].device
    requires k.device == s.conns[c].device ==> Harmless(k, s.conns[c].inst)
    requires Holds(s.presence, s.conns[c].device, s.conns[c].inst) ==> Holds(keys, s.conns[c].device, s.conns[c].inst)
    ensures Solo(WithConn(s, x, k).(presence := keys), c)
  {
  }

  lemma OwnConnSolo(s: State, c: ConnId, k: Conn, keys: Keys)
    requires Solo(s, c)
    requires k.inst == s.conns[c].inst && k.device == s.conns[c].device && k.Live()
    requires forall m | m in k.inbox :: !Ends(m, c)
    requires Claimed(k) ==> Holds(keys, k.device, k.inst)
    ensures Solo(WithConn(s, c, k).(presence := keys), c)
  {
  }

  /** Presence held by `c`'s instance survives the scripts of every other
      connection, and its own. */
  lemma ReceiveSolo(s: State, x: ConnId, retry: bool, c: ConnId)
    requires Solo(s, c) && Enabled(s, Receive(x, retry))
    ensures Solo(ReceiveStep(s, x, retry), c)
  {
    var s' := ReceiveStep(s, x, retry);
    ReceiveTouches(s, x, retry);
    if x == c {
      OwnReceiveSolo(s, retry, c);
    } else {
      ReceivePhase(s, x, retry);
      OtherConnSolo(s, x, s'.conns[x], s'.presence, c);
    }
  }

  lemma ReceivePhase(s: State, x: ConnId, retry: bool)
    requires Enabled(s, Receive(x, retry))
    ensures ReceiveStep(s, x, retry).conns[x].phase.Serving? || ReceiveStep(s, x, retry).conns[x].phase.Closing?
  {
  }

  lemma OwnReceiveSolo(s: State, retry: bool, c: ConnId)
    requires Solo(s, c) && Enabled(s, Receive(c, retry))
    ensures Solo(ReceiveStep(s, c, retry), c)
  {
    var s' := ReceiveStep(s, c, retry);
    assert s.conns[c].inbox[0] in s.conns[c].inbox;
    ReceiveTouches(s, c, retry);
    OwnConnSolo(s, c, s'.conns[c], s'.presence);
  }

  lemma RefreshSolo(s: State, x: ConnId, c: ConnId)
    requires Solo(s, c) && Enabled(s, Refresh(x))
    ensures Solo(RefreshStep(s, x), c)
  {
    var s' := RefreshStep(s, x);
    if x == c {
      OwnConnSolo(s, c, s'.conns[c], s'.presence);
    } else {
      OtherConnSolo(s, x, s'.conns[x], s'.presence, c);
    }
  }

  lemma OpeningSolo(s: State, e: Event, c: ConnId)
    requires Solo(s, c) && Enabled(s, e) && Undisturbed(s, e, c)
    requires e.Claim? || e.Leave?
    ensures Solo(Apply(s, e), c)
  {
    var s' := Apply(s, e);
    if e.c == c {
      OwnConnSolo(s, c, s'.conns[c], s'.presence);
    } else {
      OtherConnSolo(s, e.c, s'.conns[e.c], s'.presence, c);
    }
  }

  lemma ReloadPhase(k: Conn)
    ensures k.task.Got? ==> Assign(k).phase == if k.phase.Loading? then Serving else k.phase
    ensures k.task.MustRead? ==> ReadFails(k).phase == if k.phase.Loading? then Closing else k.phase
  {
  }

  lemma ReloadSolo(s: State, e: Event, c: ConnId)
    requires Solo(s, c) && Enabled(s, e) && Undisturbed(s, e, c) && (e.Read? || e.FailRead? || e.Store?)
    ensures Solo(Apply(s, e), c)
  {
    var s' := Apply(s, e);
    ReloadTouches(s, e);
    ReloadPhase(s.conns[e.c]);
    var k' := s'.conns[e.c];
    assert s'.conns == WithConn(s, e.c, k').conns;
    if e.c == c {
      OwnConnSolo(s, c, k', s.presence);
    } else {
      OtherConnSolo(s, e.c, k', s.presence, c);
    }
  }

  lemma EnqueueSolo(s: State, x: ConnId, c: ConnId)
    requires Solo(s, c) && Enabled(s, Enqueue(x))
    ensures Solo(EnqueueStep(s, x), c)
  {
    var k := s.conns[x].(phase := AwaitSubscribe);
    if x == c {
      OwnConnSolo(s, c, k, s.presence);
    } else {
      OtherConnSolo(s, x, k, s.presence, c);
    }
    WithInstSolo(WithConn(s, x, k), k.inst, Hub.Enqueue(s.insts[k.inst], Subscribe(k.device, x)), c);
  }

  lemma EndingSolo(s: State, e: Event, c: ConnId)
    requires Solo(s, c) && Enabled(s, e) && (e.Release? || e.FailRelease?)
    ensures Solo(Apply(s, e), c)
  {
    var s' := Apply(s, e);
    OtherConnSolo(s, e.c, s'.conns[e.c], s'.presence, c);
  }

  lemma SpeakingSolo(s: State, e: Event, c: ConnId)
    requires Solo(s, c) && Enabled(s, e) && (e.Announce? || e.Send?)
    ensures Solo(Apply(s, e), c)
  {
    var to := if e.Announce? then s.conns[e.c].device else e.to;
    var m := if e.Announce? then Replace(e.c) else Forward(s.conns[e.c].device, e.c, e.frame);
    PublishSolo(s, to, m, c);
    var s1 := Publish(s, to, m);
    var s' := Apply(s, e);
    if e.c == c {
      OwnConnSolo(s1, c, s'.conns[c], s1.presence);
    } else {
      OtherConnSolo(s1, e.c, s'.conns[e.c], s1.presence, c);
    }
  }

  lemma UnregisterSolo(s: State, x: ConnId, c: ConnId)
    requires Sub.Inv(s) && Solo(s, c) && Enabled(s, Unregister(x))
    ensures Solo(UnregisterStep(s, x), c)
  {
    var s' := UnregisterStep(s, x);
    OtherConnSolo(s, x, s'.conns[x], s.presence, c);
    if Registered(s, x) {
      LeftSlotSolo(WithConn(s, x, s'.conns[x]), s.conns[x].inst, s.conns[x].device, c);
    }
  }

  lemma LeftSlotSolo(s: State, i: InstId, d: DeviceId, c: ConnId)
    requires Solo(s, c) && i in s.insts && !(i == s.conns[c].inst && d == s.conns[c].device)
    ensures Solo(WithInst(s, i, Hub.Unregister(s.insts[i], d)), c)
  {
  }

  lemma OpenSolo(s: State, i: InstId, d: DeviceId, x: ConnId, c: ConnId)
    requires Sub.Inv(s) && Solo(s, c) && i in s.insts && x !in s.conns && d != s.conns[c].device
    ensures Solo(OpenStep(s, i, d, x), c)
  {
    var s' := OpenStep(s, i, d, x);
    var k := s.conns[c];
    assert Sub.InstOk(s.conns, i, s.insts[i]);
    assert s'.conns[c] == k;
    forall y | y in s'.conns && y != c && s'.conns[y].device == k.device ensures Harmless(s'.conns[y], k.inst) {
      assert Harmless(s.conns[y], k.inst);
    }
  }

  lemma PopSolo(s: State, i: InstId, c: ConnId)
    requires Solo(s, c) && i in s.insts && s.insts[i].stream != []
    ensures Solo(WithInst(s, i, s.insts[i].(stream := s.insts[i].stream[1..])), c)
  {
  }

  lemma DispatchSolo(s: State, i: InstId, overflow: bool, c: ConnId)
    requires Sub.Inv(s) && Solo(s, c) && i in s.insts && s.insts[i].stream != []
    ensures Solo(DispatchStep(s, i, overflow), c)
  {
    var h := s.insts[i];
    var m := h.stream[0];
    PopSolo(s, i, c);
    var s1 := WithInst(s, i, h.(stream := h.stream[1..]));
    if m.to in h.registry {
      var x := h.registry[m.to];
      assert Sub.InstOk(s.conns, i, h);
      assert Sub.EntryOk(s.conns, i, m.to, x);
      var k := if overflow then s.conns[x].(killed := true) else s.conns[x].(inbox := s.conns[x].inbox + [Bus(m.msg)]);
      if x == c {
        assert m in h.stream;
        OwnConnSolo(s1, c, k, s1.presence);
      } else {
        OtherConnSolo(s1, x, k, s1.presence, c);
      }
    }
  }

  lemma WithInstSolo(s: State, i: InstId, h: Hub.Inst, c: ConnId)
    requires Solo(s, c) && i in s.insts && h.registry == s.insts[i].registry && h.stream == s.insts[i].stream
    ensures Solo(WithInst(s, i, h), c)
  {
  }

  lemma ConfirmSolo(s: State, x: ConnId, c: ConnId)
    requires Solo(s, c)
    ensures Solo(Confirm(s, x), c)
  {
    var s' := Confirm(s, x);
    if x == c {
      OwnConnSolo(s, c, s'.conns[c], s.presence);
    } else if x in s.conns {
      OtherConnSolo(s, x, s'.conns[x], s.presence, c);
    }
  }

  lemma RestoredSolo(s: State, i: InstId, c: ConnId)
    requires Solo(s, c) && i in s.insts
    ensures Solo(RestoredStep(s, i), c)
  {
    var s' := RestoredStep(s, i);
    var k := s.conns[c];
    forall y | y in s'.conns && y != c && s'.conns[y].device == k.device ensures Harmless(s'.conns[y], k.inst) {
      assert Harmless(s.conns[y], k.inst);
    }
  }

  lemma BusSolo(s: State, e: Event, c: ConnId)
    requires Solo(s, c) && Enabled(s, e)
    requires e.TakeRequest? || e.RefuseSubscribe? || e.Ack? || e.Remove? || e.Drop? || e.Resubscribe?
    ensures Solo(Apply(s, e), c)
  {
    if e.TakeRequest? {
      TakeRequestSolo(s, e.i, c);
    } else if e.Ack? {
      AckSolo(s, e.i, c);
    } else {
      BusUntouched(s, e);
      WithInstSolo(s, e.i, Apply(s, e).insts[e.i], c);
      SameForSolo(WithInst(s, e.i, Apply(s, e).insts[e.i]), Apply(s, e), c);
    }
  }

  /** `Solo` does not look at the database versions. */
  lemma SameForSolo(s: State, s': State, c: ConnId)
    requires Solo(s, c) && s'.conns == s.conns && s'.insts == s.insts && s'.presence == s.presence && s'.jobs == s.jobs
    ensures Solo(s', c)
  {
  }

  lemma TakeRequestSolo(s: State, i: InstId, c: ConnId)
    requires Solo(s, c) && Enabled(s, TakeRequest(i))
    ensures Solo(TakeRequestStep(s, i), c)
  {
    var h := s.insts[i];
    var r := h.requests[0];
    WithInstSolo(s, i, Hub.TakeRequest(h), c);
    if r.Subscribe? && r.device in h.subscribed {
      ConfirmSolo(s, r.conn, c);
      WithInstSolo(Confirm(s, r.conn), i, Hub.TakeRequest(h), c);
    }
  }

  lemma AckSolo(s: State, i: InstId, c: ConnId)
    requires Solo(s, c) && Enabled(s, Ack(i))
    ensures Solo(AckStep(s, i), c)
  {
    ConfirmSolo(s, s.insts[i].bus.conn, c);
    WithInstSolo(Confirm(s, s.insts[i].bus.conn), i, Hub.Ack(s.insts[i]), c);
  }

  lemma DbSolo(s: State, e: Event, c: ConnId)
    requires Solo(s, c) && Enabled(s, e) && Undisturbed(s, e, c)
    requires e.Insert? || e.Revoke? || e.Delete? || e.AddDevice? || e.Expire?
    ensures Solo(Apply(s, e), c)
  {
    if e.Insert? || e.Revoke? || e.Delete? {
      NoticesSpare(s, e, s.conns[c].device);
      JobSolo(s, Apply(s, e), e.j, c);
    }
  }

  lemma NoticesSpare(s: State, e: Event, d: DeviceId)
    requires Enabled(s, e) && (e.Insert? || e.Revoke? || (e.Delete? && e.gone != d))
    ensures Spares(Apply(s, e).jobs[e.j], d)
  {
  }

  lemma JobSolo(s: State, s': State, j: JobId, c: ConnId)
    requires Solo(s, c) && j in s'.jobs && Spares(s'.jobs[j], s.conns[c].device)
    requires s' == s.(history := s'.history, jobs := s.jobs[j := s'.jobs[j]])
    ensures Solo(s', c)
  {
  }

  lemma ContinueSolo(s: State, j: JobId, c: ConnId)
    requires Solo(s, c) && j in s.jobs && s.jobs[j] != []
    ensures Solo(ContinueStep(s, j), c)
  {
    var d := s.conns[c].device;
    var a := s.jobs[j][0];
    assert Spares(s.jobs[j], d) && a in s.jobs[j];
    var s1 := WithJob(s, j, s.jobs[j][1..]);
    assert Spares(s.jobs[j][1..], d) by {
      assert forall x | x in s.jobs[j][1..] :: x in s.jobs[j];
    }
    assert Solo(s1, c);
    if a.Notify? { PublishSolo(s1, a.to, a.msg, c); }
  }

  lemma SoloKept(s: State, e: Event, c: ConnId)
    requires Sub.Inv(s) && Solo(s, c) && Enabled(s, e) && Undisturbed(s, e, c)
    ensures Solo(Apply(s, e), c)
  {
    if e.Open? || e.Dispatch? || e.Restored? || e.Continue? {
      DeliverySolo(s, e, c);
    } else if e.Insert? || e.Revoke? || e.Delete? || e.AddDevice? || e.Expire? {
      DbSolo(s, e, c);
    } else if e.TakeRequest? || e.RefuseSubscribe? || e.Ack? || e.Remove? || e.Drop? || e.Resubscribe? {
      BusSolo(s, e, c);
    } else {
      ConnEventSolo(s, e, c);
    }
  }

  lemma DeliverySolo(s: State, e: Event, c: ConnId)
    requires Sub.Inv(s) && Solo(s, c) && Enabled(s, e) && Undisturbed(s, e, c)
    requires e.Open? || e.Dispatch? || e.Restored? || e.Continue?
    ensures Solo(Apply(s, e), c)
  {
    if e.Open? { OpenSolo(s, e.i, e.d, e.c, c); }
    else if e.Dispatch? { DispatchSolo(s, e.i, e.overflow, c); }
    else if e.Restored? { RestoredSolo(s, e.i, c); }
    else { ContinueSolo(s, e.j, c); }
  }

  lemma ConnEventSolo(s: State, e: Event, c: ConnId)
    requires Sub.Inv(s) && Solo(s, c) && Enabled(s, e) && Undisturbed(s, e, c)
    requires e.Enqueue? || e.Claim? || e.Leave? || e.Read? || e.FailRead? || e.Store? || e.Announce? || e.Send?
          || e.Receive? || e.Refresh? || e.Unregister? || e.Release? || e.FailRelease?
    ensures Solo(Apply(s, e), c)
  {
    if e.Enqueue? { EnqueueSolo(s, e.c, c); }
    else if e.Claim? || e.Leave? { OpeningSolo(s, e, c); }
    else if e.Read? || e.FailRead? || e.Store? { ReloadSolo(s, e, c); }
    else if e.Announce? || e.Send? { SpeakingSolo(s, e, c); }
    else if e.Receive? { ReceiveSolo(s, e.c, e.retry, c); }
    else if e.Refresh? { RefreshSolo(s, e.c, c); }
    else if e.Unregister? { UnregisterSolo(s, e.c, c); }
    else { EndingSolo(s, e, c); }
  }

  // ---- whole runs ----

  predicate UndisturbedRun(s: State, es: seq<Event>, c: ConnId)
    requires IsRun(s, es)
    decreases |es|
  {
    es == [] || (c in s.conns && Undisturbed(s, es[0], c) && UndisturbedRun(Apply(s, es[0]), es[1..], c))
  }

  /** While `c` holds presence, no other connection of its device announces
      "offline" or deletes the key. */
  predicate Silent(s: State, es: seq<Event>, c: ConnId)
    requires IsRun(s, es)
    decreases |es|
  {
    es == []
    || (&& (c in s.conns && Claimed(s.conns[c]) && es[0].Release? ==> !Announcing(s, es[0], c))
        && Silent(Apply(s, es[0]), es[1..], c))
  }

  predicate Announcing(s: State, e: Event, c: ConnId)
    requires c in s.conns
  {
    e.Release? && e.c in s.conns && s.conns[e.c].device == s.conns[c].device && AnnouncesOffline(s, e, e.c)
  }

  lemma {:induction false} SoloOverRun(s: State, es: seq<Event>, c: ConnId)
    requires Sub.Inv(s) && Solo(s, c) && IsRun(s, es) && UndisturbedRun(s, es, c)
    ensures Solo(After(s, es), c)
    ensures Silent(s, es, c)
    decreases |es|
  {
    if es != [] {
      Sub.Kept(s, es[0]);
      SoloKept(s, es[0], c);
      SilentStep(s, es[0], c);
      SoloOverRun(Apply(s, es[0]), es[1..], c);
    }
  }

  /** From any reachable state: a connection that opens with no rival under way and
      meets no later one is never evicted, holds presence from its claim on, and
      the connections it replaced leave silently. */
  lemma NeverEvicted(s: State, i: InstId, d: DeviceId, c: ConnId, es: seq<Event>)
    requires Reachable(s) && Enabled(s, Open(i, d, c)) && Clear(s, i, d, c)
    requires IsRun(OpenStep(s, i, d, c), es) && UndisturbedRun(OpenStep(s, i, d, c), es, c)
    ensures Solo(After(OpenStep(s, i, d, c), es), c)
    ensures Silent(OpenStep(s, i, d, c), es, c)
  {
    Sub.ReachableInv(s);
    Sub.Kept(s, Open(i, d, c));
    SoloStarts(s, i, d, c);
    SoloOverRun(OpenStep(s, i, d, c), es, c);
  }

  lemma SilentStep(s: State, e: Event, c: ConnId)
    requires Solo(s, c) && Enabled(s, e)
    ensures Claimed(s.conns[c]) ==> !Announcing(s, e, c)
  {
  }

  // ---- who may still release ----

  /** `x` is out of the registry and has nothing left to release. */
  predicate Displaced(s: State, x: ConnId) {
    x in s.conns && !Registered(s, x) && !s.conns[x].phase.Releasing?
  }

  lemma DisplacedStep(s: State, e: Event, x: ConnId)
    requires Sub.Inv(s) && Enabled(s, e) && Displaced(s, x)
    ensures Displaced(Apply(s, e), x) && e != Release(x) && e != FailRelease(x)
  {
    T.OnlyForward(s, e, x);
    if Registered(Apply(s, e), x) { Order.RegisteredBefore(s, e, x); }
    if e.Unregister? { NotReleasing(s, e.c, x); } else { ReleasingOnlyByUnregister(s, e, x); }
  }

  lemma NotReleasing(s: State, y: ConnId, x: ConnId)
    requires Enabled(s, Unregister(y)) && Displaced(s, x)
    ensures !UnregisterStep(s, y).conns[x].phase.Releasing?
  {
  }

  /** Only unregistering starts a release. */
  lemma ReleasingOnlyByUnregister(s: State, e: Event, x: ConnId)
    requires Enabled(s, e) && !e.Unregister? && x in s.conns && !s.conns[x].phase.Releasing?
    ensures x in Apply(s, e).conns && !Apply(s, e).conns[x].phase.Releasing?
  {
    if e.Enqueue? || e.Claim? || e.Announce? || e.Read? || e.FailRead? || e.Store? || e.Receive? {
      NoReleaseOpening(s, e, x);
    } else if e.Refresh? || e.Send? || e.Leave? || e.Release? || e.FailRelease? {
      NoReleaseEnding(s, e, x);
    } else if e.Open? || e.Dispatch? || e.Restored? || e.TakeRequest? || e.Ack? {
      NoReleaseDelivering(s, e, x);
    } else {
      T.ConnsUntouched(s, e);
    }
  }

  lemma NoReleaseOpening(s: State, e: Event, x: ConnId)
    requires Enabled(s, e) && x in s.conns && !s.conns[x].phase.Releasing?
    requires e.Enqueue? || e.Claim? || e.Announce? || e.Read? || e.FailRead? || e.Store? || e.Receive?
    ensures x in Apply(s, e).conns && !Apply(s, e).conns[x].phase.Releasing?
  {
  }

  lemma NoReleaseEnding(s: State, e: Event, x: ConnId)
    requires Enabled(s, e) && x in s.conns && !s.conns[x].phase.Releasing?
    requires e.Refresh? || e.Send? || e.Leave? || e.Release? || e.FailRelease?
    ensures x in Apply(s, e).conns && !Apply(s, e).conns[x].phase.Releasing?
  {
  }

  lemma NoReleaseDelivering(s: State, e: Event, x: ConnId)
    requires Enabled(s, e) && x in s.conns && !s.conns[x].phase.Releasing?
    requires e.Open? || e.Dispatch? || e.Restored? || e.TakeRequest? || e.Ack?
    ensures x in Apply(s, e).conns && !Apply(s, e).conns[x].phase.Releasing?
  {
  }

  /** In every run, with any losses, expiries and rivals: a connection that was
      displaced from the registry never releases presence, so it deletes nothing
      and announces nothing. */
  lemma {:induction false} DisplacedNeverReleases(s: State, es: seq<Event>, x: ConnId)
    requires Sub.Inv(s) && Displaced(s, x) && IsRun(s, es)
    ensures Displaced(After(s, es), x)
    ensures forall e | e in es :: e != Release(x) && e != FailRelease(x)
    decreases |es|
  {
    if es != [] {
      Sub.Kept(s, es[0]);
      DisplacedStep(s, es[0], x);
      DisplacedNeverReleases(Apply(s, es[0]), es[1..], x);
      assert forall e | e in es :: e == es[0] || e in es[1..];
    }
  }

  predicate NotReleased(es: seq<Event>, x: ConnId) {
    forall e | e in es :: e != Release(x) && e != FailRelease(x)
  }

  /** A release under way stays so until it is done. */
  lemma ReleasingStep(s: State, e: Event, x: ConnId)
    requires Enabled(s, e) && x in s.conns && s.conns[x].phase.Releasing?
    ensures x in Apply(s, e).conns
    ensures Apply(s, e).conns[x].phase.Releasing? <==> e != Release(x) && e != FailRelease(x)
    ensures Apply(s, e).conns[x].phase.Releasing? || Apply(s, e).conns[x].phase.Over?
  {
    if e.Enqueue? || e.Claim? || e.Announce? || e.Read? || e.FailRead? || e.Store? || e.Receive? {
      ReleasingOpening(s, e, x);
    } else if e.Open? || e.Dispatch? || e.Restored? || e.TakeRequest? || e.Ack? {
      ReleasingDelivering(s, e, x);
    } else if e.Refresh? || e.Send? || e.Leave? || e.Release? || e.FailRelease? || e.Unregister? {
      ReleasingEnding(s, e, x);
    } else {
      T.ConnsUntouched(s, e);
    }
  }

  lemma ReleasingOpening(s: State, e: Event, x: ConnId)
    requires Enabled(s, e) && x in s.conns && s.conns[x].phase.Releasing?
    requires e.Enqueue? || e.Claim? || e.Announce? || e.Read? || e.FailRead? || e.Store? || e.Receive?
    ensures x in Apply(s, e).conns && Apply(s, e).conns[x].phase.Releasing?
  {
  }

  lemma ReleasingDelivering(s: State, e: Event, x: ConnId)
    requires Enabled(s, e) && x in s.conns && s.conns[x].phase.Releasing?
    requires e.Open? || e.Dispatch? || e.Restored? || e.TakeRequest? || e.Ack?
    ensures x in Apply(s, e).conns && Apply(s, e).conns[x].phase.Releasing?
  {
  }

  lemma ReleasingEnding(s: State, e: Event, x: ConnId)
    requires Enabled(s, e) && x in s.conns && s.conns[x].phase.Releasing?
    requires e.Refresh? || e.Send? || e.Leave? || e.Release? || e.FailRelease? || e.Unregister?
    ensures x in Apply(s, e).conns
    ensures Apply(s, e).conns[x].phase == if e == Release(x) || e == FailRelease(x) then Over else Releasing
  {
  }

  /** A finished connection is out of every registry. */
  lemma OverIsDisplaced(s: State, x: ConnId)
    requires Sub.Inv(s) && x in s.conns && s.conns[x].phase.Over?
    ensures Displaced(s, x)
  {
    if Registered(s, x) { RegisteredIsOpen(s, x); }
  }

  lemma RegisteredIsOpen(s: State, x: ConnId)
    requires Sub.Inv(s) && Registered(s, x)
    ensures s.conns[x].Live() || s.conns[x].phase.Closing?
  {
    assert Sub.InstOk(s.conns, s.conns[x].inst, s.insts[s.conns[x].inst]);
    assert Sub.EntryOk(s.conns, s.conns[x].inst, s.conns[x].device, x);
  }

  lemma {:induction false} ReleasingOverRun(s: State, es: seq<Event>, x: ConnId)
    requires Sub.Inv(s) && x in s.conns && s.conns[x].phase.Releasing? && IsRun(s, es)
    ensures x in After(s, es).conns
    ensures After(s, es).conns[x].phase.Releasing? <==> NotReleased(es, x)
    decreases |es|
  {
    if es != [] {
      Sub.Kept(s, es[0]);
      ReleasingStep(s, es[0], x);
      assert es[0] in es && forall e | e in es :: e == es[0] || e in es[1..];
      assert forall e | e in es[1..] :: e in es;
      if Apply(s, es[0]).conns[x].phase.Releasing? {
        ReleasingOverRun(Apply(s, es[0]), es[1..], x);
      } else {
        OverIsDisplaced(Apply(s, es[0]), x);
        DisplacedNeverReleases(Apply(s, es[0]), es[1..], x);
      }
    }
  }

  /** Opening `c` displaces the other connections of the device on that instance,
      except those that had already unregistered. */
  lemma OpeningDisplaces(s: State, i: InstId, d: DeviceId, c: ConnId, x: ConnId)
    requires Enabled(s, Open(i, d, c)) && x in s.conns && s.conns[x].inst == i && s.conns[x].device == d
    ensures var s' := OpenStep(s, i, d, c);
            x in s'.conns && s'.conns[x].phase == s.conns[x].phase && !Registered(s', x)
            && s'.conns[x].inst == i && s'.conns[x].device == d
  {
  }

  lemma ReleasingAfterOpen(s: State, i: InstId, d: DeviceId, c: ConnId, es: seq<Event>, x: ConnId)
    requires Sub.Inv(s) && Enabled(s, Open(i, d, c)) && IsRun(OpenStep(s, i, d, c), es)
    requires x in s.conns && s.conns[x].inst == i && s.conns[x].device == d
    ensures var t := After(OpenStep(s, i, d, c), es);
            x in t.conns && (t.conns[x].phase.Releasing? <==> s.conns[x].phase.Releasing? && NotReleased(es, x))
  {
    var s1 := OpenStep(s, i, d, c);
    OpeningDisplaces(s, i, d, c, x);
    Sub.Kept(s, Open(i, d, c));
    if s.conns[x].phase.Releasing? {
      ReleasingOverRun(s1, es, x);
    } else {
      DisplacedNeverReleases(s1, es, x);
    }
  }

  lemma {:induction false} SamePlace(s: State, es: seq<Event>, x: ConnId)
    requires IsRun(s, es) && x in s.conns
    ensures x in After(s, es).conns
    ensures After(s, es).conns[x].inst == s.conns[x].inst && After(s, es).conns[x].device == s.conns[x].device
    decreases |es|
  {
    if es != [] {
      T.OnlyForward(s, es[0], x);
      SamePlace(Apply(s, es[0]), es[1..], x);
    }
  }

  /** Releasing `x` takes away the presence that instance `i` holds for `d`, and
      announces the device offline. */
  predicate TakesPresence(t: State, x: ConnId, i: InstId, d: DeviceId) {
    && Enabled(t, Release(x)) && Holds(t.presence, d, i)
    && !Holds(ReleaseStep(t, x).presence, d, i) && AnnouncesOffline(t, Release(x), x)
  }

  lemma TakesIffReleasing(t: State, x: ConnId, i: InstId, d: DeviceId)
    requires t.history != [] && x in t.conns && t.conns[x].device == d && Holds(t.presence, d, i)
    ensures TakesPresence(t, x, i, d) <==> t.conns[x].inst == i && t.conns[x].phase.Releasing?
  {
  }

  /** Presence handover, exactly. `c` opens on instance `i`; `x` is any older
      connection of the device, on any instance; `t` is any later state of any run,
      losses, expiries and rivals included. The release of `x` takes away the
      presence `i` holds if and only if `x` is on the same instance, had
      unregistered before `c` opened, and has not released since. */
  lemma ReleaseTakesPresenceIff(s: State, i: InstId, d: DeviceId, c: ConnId, es: seq<Event>, t: State, x: ConnId)
    requires Reachable(s) && Enabled(s, Open(i, d, c)) && IsRun(OpenStep(s, i, d, c), es)
    requires t == After(OpenStep(s, i, d, c), es) && t.history != [] && Holds(t.presence, d, i)
    requires x in s.conns && s.conns[x].device == d
    ensures TakesPresence(t, x, i, d)
            <==> s.conns[x].inst == i && s.conns[x].phase.Releasing? && NotReleased(es, x)
  {
    Sub.ReachableInv(s);
    var s1 := OpenStep(s, i, d, c);
    T.OnlyForward(s, Open(i, d, c), x);
    SamePlace(s1, es, x);
    TakesIffReleasing(t, x, i, d);
    if s.conns[x].inst == i {
      ReleasingAfterOpen(s, i, d, c, es, x);
    }
  }

  // ---- what is not promised ----

  lemma FirstWaits() returns (es: seq<Event>)
    ensures Init(Sub.LONE) && IsRun(Sub.LONE, es)
    ensures After(Sub.LONE, es) ==
            Sub.LONE.(insts := map[1 := Hub.Inst(map[7 := 1], [Subscribe(7, 1)], {}, {}, [], Hub.Ready)],
                      conns := map[1 := New(1, 7).(phase := AwaitSubscribe)])
  {
    es := [];
    GoesOn(Sub.LONE, es, Open(1, 7, 1)); es := es + [Open(1, 7, 1)];
    GoesOn(Sub.LONE, es, Enqueue(1)); es := es + [Enqueue(1)];
    assert After(Sub.LONE, es).insts[1].requests == [Subscribe(7, 1)];
  }

  lemma FirstAcking() returns (es: seq<Event>)
    ensures Init(Sub.LONE) && IsRun(Sub.LONE, es)
    ensures After(Sub.LONE, es) ==
            Sub.LONE.(insts := map[1 := Hub.Inst(map[7 := 1], [], {}, {7}, [], Hub.Acking(7, 1))],
                      conns := map[1 := New(1, 7).(phase := AwaitSubscribe)])
  {
    es := FirstWaits();
    GoesOn(Sub.LONE, es, TakeRequest(1)); es := es + [TakeRequest(1)];
    assert After(Sub.LONE, es).insts[1].requests == [] && After(Sub.LONE, es).insts[1].channels == {7};
  }

  lemma FirstConfirmed() returns (es: seq<Event>)
    ensures Init(Sub.LONE) && IsRun(Sub.LONE, es)
    ensures After(Sub.LONE, es) ==
            Sub.LONE.(insts := map[1 := Hub.Inst(map[7 := 1], [], {7}, {7}, [], Hub.Ready)],
                  conns := map[1 := New(1, 7).(phase := AwaitClaim)])
  {
    es := FirstAcking();
    GoesOn(Sub.LONE, es, Ack(1)); es := es + [Ack(1)];
    var s := After(Sub.LONE, es);
    assert s.insts[1].subscribed == {7};
    assert s.conns == map[1 := New(1, 7).(phase := AwaitClaim)];
  }

  lemma FirstLeaves() returns (es: seq<Event>)
    ensures Init(Sub.LONE) && IsRun(Sub.LONE, es)
    ensures After(Sub.LONE, es) ==
            Sub.LONE.(insts := map[1 := Hub.Inst(map[7 := 1], [], {7}, {7}, [], Hub.Ready)],
                      conns := map[1 := New(1, 7).(phase := Closing)],
                      presence := map[7 := 1])
  {
    es := FirstConfirmed();
    GoesOn(Sub.LONE, es, Claim(1)); es := es + [Claim(1)];
    GoesOn(Sub.LONE, es, Leave(1)); es := es + [Leave(1)];
    assert After(Sub.LONE, es).conns == map[1 := New(1, 7).(phase := Closing)];
  }

  lemma FirstServes() returns (es: seq<Event>)
    ensures Init(Sub.LONE) && IsRun(Sub.LONE, es)
    ensures After(Sub.LONE, es) ==
            Sub.LONE.(insts := map[1 := Hub.Inst(map[], [Unsubscribe(7)], {7}, {7}, [], Hub.Ready)],
                  conns := map[1 := New(1, 7).(phase := Releasing)],
                  presence := map[7 := 1])
  {
    es := FirstLeaves();
    GoesOn(Sub.LONE, es, Unregister(1)); es := es + [Unregister(1)];
    var s := After(Sub.LONE, es);
    assert s.insts[1].registry == map[];
    assert s.insts[1].requests == [Unsubscribe(7)];
    assert s.insts[1].subscribed == {7} && s.insts[1].channels == {7};
    assert s.insts == map[1 := Hub.Inst(map[], [Unsubscribe(7)], {7}, {7}, [], Hub.Ready)];
    assert s.conns == map[1 := New(1, 7).(phase := Releasing)];
  }

  lemma SecondWaits() returns (es: seq<Event>)
    ensures Init(Sub.LONE) && IsRun(Sub.LONE, es)
    ensures After(Sub.LONE, es) ==
            Sub.LONE.(insts := map[1 := Hub.Inst(map[7 := 2], [Unsubscribe(7), Subscribe(7, 2)], {7}, {7}, [], Hub.Ready)],
                      conns := map[1 := New(1, 7).(phase := Releasing), 2 := New(1, 7).(phase := AwaitSubscribe)],
                      presence := map[7 := 1])
  {
    es := FirstServes();
    GoesOn(Sub.LONE, es, Open(1, 7, 2)); es := es + [Open(1, 7, 2)];
    GoesOn(Sub.LONE, es, Enqueue(2)); es := es + [Enqueue(2)];
    var s := After(Sub.LONE, es);
    assert s.insts[1].requests == [Unsubscribe(7), Subscribe(7, 2)] && s.insts[1].registry == map[7 := 2];
    assert s.conns == map[1 := New(1, 7).(phase := Releasing), 2 := New(1, 7).(phase := AwaitSubscribe)];
  }

  /** One instance, device 7: connection 1 unregisters, connection 2 opens and
      claims, then the release of connection 1 takes the newer connection's
      presence away and announces the device offline. */
  lemma LateReleaseDeletes() returns (es: seq<Event>)
    ensures Init(Sub.LONE) && IsRun(Sub.LONE, es)
    ensures var s := After(Sub.LONE, es);
            && Enabled(s, Release(1)) && 2 in s.conns && Claimed(s.conns[2]) && Holds(s.presence, 7, 1)
            && AnnouncesOffline(s, Release(1), 1) && 7 !in Apply(s, Release(1)).presence
  {
    es := SecondWaits();
    GoesOn(Sub.LONE, es, TakeRequest(1)); es := es + [TakeRequest(1)];
    GoesOn(Sub.LONE, es, TakeRequest(1)); es := es + [TakeRequest(1)];
    GoesOn(Sub.LONE, es, Claim(2)); es := es + [Claim(2)];
  }
}

/** Connection takeover: a device keeps at most one connection in the whole
    cluster. Of any two that have announced themselves, one is already bound
    to end. */
module Takeover {
  import opened Store
  import opened Messages
  import opened Connection
  import opened Cluster
  import Sub = Subscription
  import Hub

  /** A delivery that ends connection `c`: a newer connection replaced it. */
  predicate Evicts(m: Delivery, c: ConnId) {
    m.Bus? && m.msg.Replace? && m.msg.conn != c
  }

  ghost predicate Told(s: State, c: ConnId)
    requires c in s.conns
  {
    exists m :: m in s.conns[c].inbox && Evicts(m, c)
  }

  /** An evicting message is in the stream bound for `c`'s registry slot. */
  ghost predicate Hunted(s: State, c: ConnId)
    requires c in s.conns
  {
    Registered(s, c)
    && exists e :: e in s.insts[s.conns[c].inst].stream && e.to == s.conns[c].device && Evicts(Bus(e.msg), c)
  }

  /** `c` cannot stay open: it is killed, or the delivery that ends it is in
      its queue or on its way there. */
  ghost predicate Doomed(s: State, c: ConnId)
    requires c in s.conns
  {
    s.conns[c].killed || Told(s, c) || Hunted(s, c)
  }

  predicate Rivals(s: State, c1: ConnId, c2: ConnId) {
    && c1 in s.conns && c2 in s.conns && c1 != c2
    && s.conns[c1].device == s.conns[c2].device
    && s.conns[c1].Published() && s.conns[c2].Published()
  }

  ghost predicate Inv(s: State) {
    && Sub.Inv(s)
    && (forall i | i in s.insts :: !s.insts[i].bus.Restoring?)
    && (forall c | c in s.conns && s.conns[c].Live() :: Registered(s, c) || Told(s, c))
    && (forall c1, c2 | Rivals(s, c1, c2) :: Doomed(s, c1) || Doomed(s, c2))
  }

  // ---- steps that only add to queues and streams ----

  predicate Prefix<T(==)>(a: seq<T>, b: seq<T>) {
    |a| <= |b| && a == b[..|a|]
  }

  predicate Same(k: Conn, k': Conn) {
    k'.inst == k.inst && k'.device == k.device && Prefix(k.inbox, k'.inbox) && (k.killed ==> k'.killed)
  }

  predicate Steady(s: State, s': State) {
    && s'.insts.Keys == s.insts.Keys && s'.conns.Keys == s.conns.Keys
    && (forall i | i in s.insts ::
          s'.insts[i].registry == s.insts[i].registry && Prefix(s.insts[i].stream, s'.insts[i].stream))
    && (forall c | c in s.conns :: Same(s.conns[c], s'.conns[c]))
  }

  lemma SetConnSteady(s: State, c: ConnId, k: Conn)
    requires c in s.conns && Same(s.conns[c], k)
    ensures Steady(s, WithConn(s, c, k))
  {
  }

  lemma SetInstSteady(s: State, i: InstId, h: Hub.Inst)
    requires i in s.insts && h.registry == s.insts[i].registry && h.stream == s.insts[i].stream
    ensures Steady(s, WithInst(s, i, h))
  {
  }

  lemma PublishSteady(s: State, d: DeviceId, m: BusMsg)
    ensures Steady(s, Publish(s, d, m))
  {
  }

  predicate IsSteady(e: Event) {
    !(e.Open? || e.Unregister? || e.Receive? || e.Dispatch? || e.Lose?)
  }

  lemma ConnSteady(s: State, e: Event)
    requires Enabled(s, e)
    requires e.Claim? || e.Announce? || e.Read? || e.FailRead? || e.Store? || e.Refresh? || e.Send?
          || e.Leave? || e.Release? || e.FailRelease?
    ensures Steady(s, Apply(s, e))
  {
    var s' := Apply(s, e);
    if e.Announce? {
      PublishSteady(s, s.conns[e.c].device, Replace(e.c));
    } else if e.Send? {
      PublishSteady(s, e.to, Forward(s.conns[e.c].device, e.c, e.frame));
    }
    SetConnSteady(s, e.c, s'.conns[e.c]);
  }

  lemma ConfirmSteady(s: State, c: ConnId, i: InstId, h: Hub.Inst)
    requires i in s.insts && h.registry == s.insts[i].registry && h.stream == s.insts[i].stream
    ensures Steady(s, WithInst(Confirm(s, c), i, h))
  {
    if c in s.conns { SetConnSteady(s, c, Confirm(s, c).conns[c]); }
    SetInstSteady(Confirm(s, c), i, h);
  }

  lemma EnqueueSteady(s: State, c: ConnId)
    requires Enabled(s, Enqueue(c))
    ensures Steady(s, EnqueueStep(s, c))
  {
    var k := s.conns[c].(phase := AwaitSubscribe);
    SetConnSteady(s, c, k);
    SetInstSteady(WithConn(s, c, k), k.inst, Hub.Enqueue(s.insts[k.inst], Subscribe(k.device, c)));
  }

  lemma TakeRequestSteady(s: State, i: InstId)
    requires Enabled(s, TakeRequest(i))
    ensures Steady(s, TakeRequestStep(s, i))
  {
    var h := s.insts[i];
    if h.requests[0].Subscribe? && h.requests[0].device in h.subscribed {
      ConfirmSteady(s, h.requests[0].conn, i, Hub.TakeRequest(h));
    } else {
      SetInstSteady(s, i, Hub.TakeRequest(h));
    }
  }

  lemma BusSteady(s: State, e: Event)
    requires Enabled(s, e) && (e.RefuseSubscribe? || e.Remove? || e.Drop? || e.Resubscribe?)
    ensures Steady(s, Apply(s, e))
  {
    BusUntouched(s, e);
  }

  lemma RestoredSteady(s: State, i: InstId)
    requires i in s.insts
    ensures Steady(s, RestoredStep(s, i))
  {
  }

  lemma DbSteady(s: State, e: Event)
    requires Enabled(s, e) && (e.Insert? || e.Revoke? || e.Delete? || e.AddDevice? || e.Expire?)
    ensures Steady(s, Apply(s, e))
  {
    DbUntouched(s, e);
  }

  lemma SteadySteps(s: State, e: Event)
    requires Enabled(s, e) && IsSteady(e)
    ensures Steady(s, Apply(s, e))
  {
    if e.Restored? {
      RestoredSteady(s, e.i);
    } else if e.Continue? {
      if s.jobs[e.j][0].Notify? { PublishSteady(s, s.jobs[e.j][0].to, s.jobs[e.j][0].msg); }
    } else if e.TakeRequest? {
      TakeRequestSteady(s, e.i);
    } else if e.Enqueue? {
      EnqueueSteady(s, e.c);
    } else if e.Ack? {
      ConfirmSteady(s, s.insts[e.i].bus.conn, e.i, Hub.Ack(s.insts[e.i]));
    } else if e.RefuseSubscribe? || e.Remove? || e.Drop? || e.Resubscribe? {
      BusSteady(s, e);
    } else if e.Insert? || e.Revoke? || e.Delete? || e.AddDevice? || e.Expire? {
      DbSteady(s, e);
    } else {
      ConnSteady(s, e);
    }
  }

  // ---- doom is final ----

  lemma ToldSteady(s: State, s': State, c: ConnId)
    requires Steady(s, s') && c in s.conns && Told(s, c)
    ensures c in s'.conns && Told(s', c)
  {
    var m :| m in s.conns[c].inbox && Evicts(m, c);
    assert Same(s.conns[c], s'.conns[c]);
    assert m in s'.conns[c].inbox;
  }

  lemma HuntedSteady(s: State, s': State, c: ConnId)
    requires Steady(s, s') && c in s.conns && Hunted(s, c)
    ensures c in s'.conns && Hunted(s', c)
  {
    var i := s.conns[c].inst;
    var e :| e in s.insts[i].stream && e.to == s.conns[c].device && Evicts(Bus(e.msg), c);
    assert Same(s.conns[c], s'.conns[c]);
    assert e in s'.insts[i].stream;
  }

  lemma DoomedSteady(s: State, s': State, c: ConnId)
    requires Steady(s, s') && c in s.conns && Doomed(s, c)
    ensures c in s'.conns && Doomed(s', c)
  {
    if Told(s, c) {
      ToldSteady(s, s', c);
    } else if Hunted(s, c) {
      HuntedSteady(s, s', c);
    } else {
      assert Same(s.conns[c], s'.conns[c]);
    }
  }

  lemma TakenMessage<T>(q: seq<T>, m: T)
    requires m in q
    ensures m == q[0] || m in q[1..]
  {
  }

  lemma ToldReceive(s: State, x: ConnId, retry: bool, c: ConnId)
    requires Enabled(s, Receive(x, retry)) && c in s.conns && Told(s, c)
    ensures var s' := ReceiveStep(s, x, retry); c in s'.conns && (s'.conns[c].Live() ==> Told(s', c))
  {
    var s' := ReceiveStep(s, x, retry);
    var m :| m in s.conns[c].inbox && Evicts(m, c);
    if c == x {
      TakenMessage(s.conns[c].inbox, m);
    }
    assert s'.conns[c].Live() ==> m in s'.conns[c].inbox;
  }

  lemma HuntedReceive(s: State, x: ConnId, retry: bool, c: ConnId)
    requires Enabled(s, Receive(x, retry)) && c in s.conns && Hunted(s, c)
    ensures var s' := ReceiveStep(s, x, retry); c in s'.conns && Hunted(s', c)
  {
    var s' := ReceiveStep(s, x, retry);
    var i := s.conns[c].inst;
    var e :| e in s.insts[i].stream && e.to == s.conns[c].device && Evicts(Bus(e.msg), c);
    assert e in s'.insts[i].stream;
  }

  /** Taking a delivery keeps a connection doomed or ends it. */
  lemma DoomedReceive(s: State, x: ConnId, retry: bool, c: ConnId)
    requires Enabled(s, Receive(x, retry)) && c in s.conns && Doomed(s, c)
    ensures var s' := ReceiveStep(s, x, retry); c in s'.conns && (s'.conns[c].Live() ==> Doomed(s', c))
  {
    if Told(s, c) {
      ToldReceive(s, x, retry, c);
    } else if Hunted(s, c) {
      HuntedReceive(s, x, retry, c);
    }
  }

  /** A dispatched eviction reaches the queue of the connection it is bound
      for, or the queue limit kills that connection. */
  lemma DoomedDispatch(s: State, i: InstId, overflow: bool, c: ConnId)
    requires i in s.insts && s.insts[i].stream != [] && c in s.conns && Doomed(s, c)
    ensures var s' := DispatchStep(s, i, overflow); c in s'.conns && Doomed(s', c)
  {
    var s' := DispatchStep(s, i, overflow);
    if Told(s, c) {
      ToldDispatch(s, i, overflow, c);
    } else if Hunted(s, c) {
      var j := s.conns[c].inst;
      var e :| e in s.insts[j].stream && e.to == s.conns[c].device && Evicts(Bus(e.msg), c);
      if i == j {
        TakenMessage(s.insts[j].stream, e);
        if e == s.insts[j].stream[0] {
          assert !overflow ==> Bus(e.msg) in s'.conns[c].inbox;
        } else {
          assert e in s'.insts[j].stream;
        }
      } else {
        assert e in s'.insts[j].stream;
      }
    }
  }

  lemma ToldDispatch(s: State, i: InstId, overflow: bool, c: ConnId)
    requires i in s.insts && s.insts[i].stream != [] && c in s.conns && Told(s, c)
    ensures var s' := DispatchStep(s, i, overflow); c in s'.conns && Told(s', c)
  {
    var s' := DispatchStep(s, i, overflow);
    var m :| m in s.conns[c].inbox && Evicts(m, c);
    assert Prefix(s.conns[c].inbox, s'.conns[c].inbox);
    assert m in s'.conns[c].inbox;
  }

  lemma ToldOpen(s: State, i: InstId, d: DeviceId, x: ConnId, c: ConnId)
    requires i in s.insts && x !in s.conns && c in s.conns
    requires Told(s, c) || (d in s.insts[i].registry && s.insts[i].registry[d] == c)
    ensures var s' := OpenStep(s, i, d, x); c in s'.conns && Told(s', c)
  {
    var s' := OpenStep(s, i, d, x);
    if Told(s, c) {
      var m :| m in s.conns[c].inbox && Evicts(m, c);
      assert m in s'.conns[c].inbox;
    } else {
      assert Bus(Replace(x)) in s'.conns[c].inbox;
    }
  }

  /** A connection displaced from its slot has the eviction in its queue. */
  lemma DoomedOpen(s: State, i: InstId, d: DeviceId, x: ConnId, c: ConnId)
    requires Sub.Inv(s) && i in s.insts && x !in s.conns && c in s.conns && Doomed(s, c)
    ensures var s' := OpenStep(s, i, d, x); c in s'.conns && Doomed(s', c)
  {
    var s' := OpenStep(s, i, d, x);
    if Told(s, c) || (d in s.insts[i].registry && s.insts[i].registry[d] == c) {
      ToldOpen(s, i, d, x, c);
    } else if Hunted(s, c) {
      var j := s.conns[c].inst;
      var e :| e in s.insts[j].stream && e.to == s.conns[c].device && Evicts(Bus(e.msg), c);
      assert e in s'.insts[j].stream;
    }
  }

  lemma DoomedUnregister(s: State, x: ConnId, c: ConnId)
    requires Sub.Inv(s) && x in s.conns && c in s.conns && Doomed(s, c) && c != x
    ensures var s' := UnregisterStep(s, x); c in s'.conns && Doomed(s', c)
  {
    var s' := UnregisterStep(s, x);
    if Told(s, c) {
      var m :| m in s.conns[c].inbox && Evicts(m, c);
      assert m in s'.conns[c].inbox;
    } else if Hunted(s, c) {
      var j := s.conns[c].inst;
      var e :| e in s.insts[j].stream && e.to == s.conns[c].device && Evicts(Bus(e.msg), c);
      assert e in s'.insts[j].stream;
    }
  }

  /** A doomed connection stays doomed until it ends, whatever happens, unless a
      pub/sub connection is lost. */
  lemma DoomIsFinal(s: State, e: Event, c: ConnId)
    requires Sub.Inv(s) && Enabled(s, e) && !e.Lose? && c in s.conns && Doomed(s, c)
    ensures c in Apply(s, e).conns && (Apply(s, e).conns[c].Live() ==> Doomed(Apply(s, e), c))
  {
    if IsSteady(e) {
      SteadySteps(s, e);
      DoomedSteady(s, Apply(s, e), c);
    } else if e.Open? || e.Unregister? {
      DoomedMoving(s, e, c);
    } else {
      DoomedDelivering(s, e, c);
    }
  }

  lemma DoomedMoving(s: State, e: Event, c: ConnId)
    requires Sub.Inv(s) && Enabled(s, e) && c in s.conns && Doomed(s, c)
    requires e.Open? || e.Unregister?
    ensures c in Apply(s, e).conns && (Apply(s, e).conns[c].Live() ==> Doomed(Apply(s, e), c))
  {
    if e.Open? { DoomedOpen(s, e.i, e.d, e.c, c); } else { DoomedByUnregister(s, e.c, c); }
  }

  lemma DoomedDelivering(s: State, e: Event, c: ConnId)
    requires Enabled(s, e) && c in s.conns && Doomed(s, c) && (e.Receive? || e.Dispatch?)
    ensures c in Apply(s, e).conns && (Apply(s, e).conns[c].Live() ==> Doomed(Apply(s, e), c))
  {
    if e.Receive? { DoomedReceive(s, e.c, e.retry, c); } else { DoomedDispatch(s, e.i, e.overflow, c); }
  }

  lemma DoomedByUnregister(s: State, x: ConnId, c: ConnId)
    requires Sub.Inv(s) && Enabled(s, Unregister(x)) && c in s.conns && Doomed(s, c)
    ensures var s' := UnregisterStep(s, x); c in s'.conns && (s'.conns[c].Live() ==> Doomed(s', c))
  {
    if x != c { DoomedUnregister(s, x, c); }
  }

  /** What a lost pub/sub connection does to doom: it spares exactly those on that
      instance whose eviction was still in the lost stream. */
  lemma LossSparesIff(s: State, i: InstId, c: ConnId)
    requires Enabled(s, Lose(i)) && c in s.conns
    ensures var s' := WithInst(s, i, Hub.Lose(s.insts[i]));
            Doomed(s', c) <==> s.conns[c].killed || Told(s, c) || (Hunted(s, c) && s.conns[c].inst != i)
  {
    var s' := WithInst(s, i, Hub.Lose(s.insts[i]));
    assert s'.conns[c] == s.conns[c];
    assert Told(s', c) <==> Told(s, c);
    if s.conns[c].inst != i {
      assert Hunted(s', c) <==> Hunted(s, c);
    }
  }

  // ---- every event keeps the invariant ----

  /** Connections only move forward: none comes back to life, and only
      announcing itself makes one a rival. */
  predicate Onward(k: Conn, k': Conn, announces: bool) {
    && k'.device == k.device && k'.inst == k.inst
    && (k'.Live() ==> k.Live() && (k.Confirmed() ==> k'.Confirmed()))
    && (k'.Published() ==> k.Published() || announces)
  }

  lemma OnwardOpening(s: State, e: Event, c: ConnId)
    requires Enabled(s, e) && c in s.conns
    requires e.Enqueue? || e.Claim? || e.Announce? || e.Read? || e.FailRead? || e.Store? || e.Receive?
    ensures c in Apply(s, e).conns && Onward(s.conns[c], Apply(s, e).conns[c], e == Announce(c))
  {
  }

  lemma OnwardEnding(s: State, e: Event, c: ConnId)
    requires Enabled(s, e) && c in s.conns
    requires e.Refresh? || e.Send? || e.Leave? || e.Release? || e.FailRelease? || e.Unregister?
    ensures c in Apply(s, e).conns && Onward(s.conns[c], Apply(s, e).conns[c], false)
  {
  }

  lemma OnwardOpen(s: State, i: InstId, d: DeviceId, x: ConnId, c: ConnId)
    requires i in s.insts && x !in s.conns && c in s.conns
    ensures var s' := OpenStep(s, i, d, x); c in s'.conns && Onward(s.conns[c], s'.conns[c], false)
  {
  }

  lemma OnwardDispatch(s: State, i: InstId, overflow: bool, c: ConnId)
    requires i in s.insts && s.insts[i].stream != [] && c in s.conns
    ensures var s' := DispatchStep(s, i, overflow); c in s'.conns && Onward(s.conns[c], s'.conns[c], false)
  {
  }

  lemma OnwardConfirming(s: State, e: Event, c: ConnId)
    requires Enabled(s, e) && c in s.conns && (e.TakeRequest? || e.Ack?)
    ensures c in Apply(s, e).conns && Onward(s.conns[c], Apply(s, e).conns[c], false)
  {
  }

  lemma ConnsUntouched(s: State, e: Event)
    requires Enabled(s, e)
    requires e.RefuseSubscribe? || e.Remove? || e.Drop? || e.Lose? || e.Resubscribe? || e.Insert? || e.Revoke?
          || e.Delete? || e.AddDevice? || e.Continue? || e.Expire?
    ensures Apply(s, e).conns == s.conns
  {
    if e.RefuseSubscribe? || e.Remove? || e.Drop? || e.Resubscribe? {
      BusUntouched(s, e);
    } else if e.Insert? || e.Revoke? || e.Delete? || e.AddDevice? || e.Expire? {
      DbUntouched(s, e);
    }
  }

  lemma OnlyForward(s: State, e: Event, c: ConnId)
    requires Enabled(s, e) && c in s.conns
    ensures c in Apply(s, e).conns && Onward(s.conns[c], Apply(s, e).conns[c], e == Announce(c))
  {
    if e.Enqueue? || e.Claim? || e.Announce? || e.Read? || e.FailRead? || e.Store? || e.Receive? {
      OnwardOpening(s, e, c);
    } else if e.Refresh? || e.Send? || e.Leave? || e.Release? || e.FailRelease? || e.Unregister? {
      OnwardEnding(s, e, c);
    } else if e.Open? {
      OnwardOpen(s, e.i, e.d, e.c, c);
    } else if e.Dispatch? {
      OnwardDispatch(s, e.i, e.overflow, c);
    } else if e.Restored? {
    } else if e.TakeRequest? || e.Ack? {
      OnwardConfirming(s, e, c);
    } else {
      ConnsUntouched(s, e);
    }
  }

  lemma KnownOpen(s: State, i: InstId, d: DeviceId, x: ConnId, c: ConnId)
    requires Sub.Inv(s) && i in s.insts && x !in s.conns && c in s.conns && (Registered(s, c) || Told(s, c))
    ensures var s' := OpenStep(s, i, d, x); Registered(s', c) || Told(s', c)
  {
    if Told(s, c) || (d in s.insts[i].registry && s.insts[i].registry[d] == c) {
      ToldOpen(s, i, d, x, c);
    }
  }

  lemma KnownUnregister(s: State, x: ConnId, c: ConnId)
    requires Sub.Inv(s) && x in s.conns && c in s.conns && c != x && (Registered(s, c) || Told(s, c))
    ensures var s' := UnregisterStep(s, x); Registered(s', c) || Told(s', c)
  {
    var s' := UnregisterStep(s, x);
    if Told(s, c) {
      var m :| m in s.conns[c].inbox && Evicts(m, c);
      assert m in s'.conns[c].inbox;
    }
  }

  lemma KnownSteady(s: State, s': State, c: ConnId)
    requires Steady(s, s') && c in s.conns && (Registered(s, c) || Told(s, c))
    ensures c in s'.conns && (Registered(s', c) || Told(s', c))
  {
    assert Same(s.conns[c], s'.conns[c]);
    if Told(s, c) { ToldSteady(s, s', c); }
  }

  lemma KnownReceive(s: State, x: ConnId, retry: bool, c: ConnId)
    requires Enabled(s, Receive(x, retry)) && c in s.conns && (Registered(s, c) || Told(s, c))
    ensures var s' := ReceiveStep(s, x, retry);
            c in s'.conns && (s'.conns[c].Live() ==> Registered(s', c) || Told(s', c))
  {
    if Told(s, c) { ToldReceive(s, x, retry, c); }
  }

  lemma KnownDispatch(s: State, i: InstId, overflow: bool, c: ConnId)
    requires i in s.insts && s.insts[i].stream != [] && c in s.conns && (Registered(s, c) || Told(s, c))
    ensures var s' := DispatchStep(s, i, overflow); c in s'.conns && (Registered(s', c) || Told(s', c))
  {
    if Told(s, c) { ToldDispatch(s, i, overflow, c); }
  }

  lemma StaysKnown(s: State, e: Event, c: ConnId)
    requires Sub.Inv(s) && Enabled(s, e) && !e.Lose? && c in s.conns && (Registered(s, c) || Told(s, c))
    requires c in Apply(s, e).conns && Apply(s, e).conns[c].Live()
    ensures Registered(Apply(s, e), c) || Told(Apply(s, e), c)
  {
    if IsSteady(e) {
      SteadySteps(s, e);
      KnownSteady(s, Apply(s, e), c);
    } else if e.Open? {
      KnownOpen(s, e.i, e.d, e.c, c);
    } else if e.Unregister? {
      if e.c != c { KnownUnregister(s, e.c, c); }
    } else if e.Receive? {
      KnownReceive(s, e.c, e.retry, c);
    } else {
      KnownDispatch(s, e.i, e.overflow, c);
    }
  }

  /** Announcing dooms every other connection of the device that is open: the
      registered one hears it, a displaced one was told before. */
  lemma AnnounceDooms(s: State, x: ConnId, c: ConnId)
    requires Inv(s) && Enabled(s, Announce(x)) && c in s.conns && c != x
    requires s.conns[c].device == s.conns[x].device && s.conns[c].Confirmed()
    ensures Doomed(AnnounceStep(s, x), c)
  {
    var s' := AnnounceStep(s, x);
    if Told(s, c) {
      var m :| m in s.conns[c].inbox && Evicts(m, c);
      assert m in s'.conns[c].inbox;
    } else {
      var i := s.conns[c].inst;
      assert Registered(s, c);
      assert Sub.InstOk(s.conns, i, s.insts[i]);
      assert s.conns[c].device in s.insts[i].channels;
      assert Envelope(s.conns[c].device, Replace(x)) in s'.insts[i].stream;
    }
  }

  lemma RivalsKept(s: State, e: Event, c1: ConnId, c2: ConnId)
    requires Inv(s) && Enabled(s, e) && !e.Lose? && Rivals(Apply(s, e), c1, c2)
    ensures Doomed(Apply(s, e), c1) || Doomed(Apply(s, e), c2)
  {
    assert c1 in s.conns && c2 in s.conns by { NewIsNoRival(s, e, c1); NewIsNoRival(s, e, c2); }
    OnlyForward(s, e, c1);
    OnlyForward(s, e, c2);
    if e == Announce(c1) {
      AnnounceDooms(s, c1, c2);
    } else if e == Announce(c2) {
      AnnounceDooms(s, c2, c1);
    } else {
      assert Rivals(s, c1, c2);
      if Doomed(s, c1) { DoomIsFinal(s, e, c1); } else { DoomIsFinal(s, e, c2); }
    }
  }

  lemma NewIsNoRival(s: State, e: Event, c: ConnId)
    requires Enabled(s, e) && c in Apply(s, e).conns && Apply(s, e).conns[c].Published()
    ensures c in s.conns
  {
    if c !in s.conns { Sub.Newcomer(s, e, c); }
  }

  lemma NewIsRegistered(s: State, e: Event, c: ConnId)
    requires Enabled(s, e) && c in Apply(s, e).conns && c !in s.conns
    ensures Registered(Apply(s, e), c)
  {
    Sub.Newcomer(s, e, c);
  }

  lemma NoRestoring(s: State, e: Event)
    requires Inv(s) && Enabled(s, e) && !e.Lose?
    ensures forall i | i in Apply(s, e).insts :: !Apply(s, e).insts[i].bus.Restoring?
  {
    forall i | i in Apply(s, e).insts ensures !Apply(s, e).insts[i].bus.Restoring? {
      if Apply(s, e).insts[i].bus.Restoring? { Sub.RestoringOnlyByLoss(s, e, i); }
    }
  }

  lemma Kept(s: State, e: Event)
    requires Inv(s) && Enabled(s, e) && !e.Lose?
    ensures Inv(Apply(s, e))
  {
    var s' := Apply(s, e);
    Sub.Kept(s, e);
    NoRestoring(s, e);
    forall c | c in s'.conns && s'.conns[c].Live() ensures Registered(s', c) || Told(s', c) {
      if c in s.conns { OnlyForward(s, e, c); StaysKnown(s, e, c); } else { NewIsRegistered(s, e, c); }
    }
    forall c1, c2 | Rivals(s', c1, c2) ensures Doomed(s', c1) || Doomed(s', c2) {
      RivalsKept(s, e, c1, c2);
    }
  }

  // ---- every run without a lost pub/sub connection ----

  predicate NoLoss(es: seq<Event>) {
    forall e | e in es :: !e.Lose?
  }

  lemma {:induction false} EveryRun(s: State, es: seq<Event>)
    requires Inv(s) && IsRun(s, es) && NoLoss(es)
    ensures Inv(After(s, es))
    decreases |es|
  {
    if es != [] {
      Kept(s, es[0]);
      assert forall e | e in es[1..] :: e in es;
      EveryRun(Apply(s, es[0]), es[1..]);
    }
  }

  ghost predicate ReachableNoLoss(s: State) {
    exists s0, es :: Init(s0) && IsRun(s0, es) && NoLoss(es) && After(s0, es) == s
  }

  lemma ReachableInv(s: State)
    requires ReachableNoLoss(s)
    ensures Inv(s)
  {
    var s0, es :| Init(s0) && IsRun(s0, es) && NoLoss(es) && After(s0, es) == s;
    EveryRun(s0, es);
  }

  /** At most one survivor: of two connections of one device that have both
      announced themselves and not ended, on any instances, one is doomed. */
  lemma AtMostOneSurvivor(s: State, c1: ConnId, c2: ConnId)
    requires ReachableNoLoss(s) && Rivals(s, c1, c2)
    ensures Doomed(s, c1) || Doomed(s, c2)
  {
    ReachableInv(s);
  }

  /** Nothing is on its way to the connections of `d` and none is killed. */
  predicate Drained(s: State, d: DeviceId) {
    && (forall i, e | i in s.insts && e in s.insts[i].stream :: e.to != d)
    && (forall c | c in s.conns && s.conns[c].device == d && s.conns[c].Live() ::
          s.conns[c].inbox == [] && !s.conns[c].killed)
  }

  /** Once streams and queues have drained, at most one is open. */
  lemma DrainedMeansOne(s: State, d: DeviceId, c1: ConnId, c2: ConnId)
    requires ReachableNoLoss(s) && Drained(s, d)
    requires c1 in s.conns && s.conns[c1].device == d && s.conns[c1].Published()
    requires c2 in s.conns && s.conns[c2].device == d && s.conns[c2].Published()
    ensures c1 == c2
  {
    if c1 != c2 {
      AtMostOneSurvivor(s, c1, c2);
      assert false;
    }
  }
}

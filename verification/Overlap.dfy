/** Two openings of one device that overlap: which of them the announcements doom,
    exactly. The promise is at most one connection, not that the newest wins. */
module Overlap {
  import opened Store
  import opened Messages
  import opened Connection
  import opened Cluster
  import Sub = Subscription
  import T = Takeover
  import Order
  import Hub

  // ---- one announcement ----

  /** Publishing on the device's channel reaches the registry slot of `c`. */
  predicate Reached(s: State, c: ConnId) {
    Registered(s, c) && s.conns[c].device in s.insts[s.conns[c].inst].channels
  }

  /** An announcement dooms another connection of the device exactly when it
      reaches its slot, or that one was doomed before; the announcing connection
      itself is as doomed as it was. */
  lemma AnnounceDoomsIff(s: State, x: ConnId, c: ConnId)
    requires Enabled(s, Announce(x)) && c in s.conns && s.conns[c].device == s.conns[x].device
    ensures T.Doomed(AnnounceStep(s, x), c) <==> T.Doomed(s, c) || (c != x && Reached(s, c))
  {
    var s' := AnnounceStep(s, x);
    assert s'.conns[c].inbox == s.conns[c].inbox;
    assert T.Told(s', c) <==> T.Told(s, c);
    HuntedByAnnounce(s, x, c);
  }

  lemma HuntedByAnnounce(s: State, x: ConnId, c: ConnId)
    requires Enabled(s, Announce(x)) && c in s.conns && s.conns[c].device == s.conns[x].device
    ensures T.Hunted(AnnounceStep(s, x), c) <==> T.Hunted(s, c) || (c != x && Reached(s, c))
  {
    var s' := AnnounceStep(s, x);
    var i, d := s.conns[c].inst, s.conns[c].device;
    if Registered(s, c) {
      var q := s.insts[i].stream;
      var y := Envelope(d, Replace(x));
      assert s'.insts[i].stream == if Reached(s, c) then q + [y] else q;
      if c != x && Reached(s, c) {
        assert y in s'.insts[i].stream && T.Evicts(Bus(y.msg), c);
      }
      forall e | e in q ensures e in s'.insts[i].stream {}
      if T.Hunted(s, c) {
        var e :| e in q && e.to == d && T.Evicts(Bus(e.msg), c);
        assert e in s'.insts[i].stream;
      }
    }
  }

  // ---- events that add no doom ----

  /** No pub/sub connection is lost, no other connection of `c`'s device announces
      itself or opens on `c`'s instance, and `c`'s queue does not overflow. */
  predicate Quiet(s: State, e: Event, c: ConnId)
    requires c in s.conns
  {
    var i, d := s.conns[c].inst, s.conns[c].device;
    && !e.Lose?
    && !(e.Announce? && e.c != c && e.c in s.conns && s.conns[e.c].device == d)
    && !(e.Open? && e.i == i && e.d == d)
    && !(e.Dispatch? && e.overflow && e.i == i && i in s.insts && s.insts[i].stream != [] && s.insts[i].stream[0].to == d)
  }

  /** An envelope on its way that would evict `c`. */
  predicate Aims(x: Envelope, d: DeviceId, c: ConnId) {
    x.to == d && T.Evicts(Bus(x.msg), c)
  }

  /** Nothing that evicts `c` is new in its queue or its instance's stream. */
  predicate Calm(s: State, s': State, c: ConnId) {
    && c in s.conns && c in s'.conns && s.conns[c].inst in s.insts && s.conns[c].inst in s'.insts
    && s'.conns[c].inst == s.conns[c].inst && s'.conns[c].device == s.conns[c].device
    && s'.conns[c].killed == s.conns[c].killed
    && (forall m | m in s'.conns[c].inbox :: m in s.conns[c].inbox || !T.Evicts(m, c))
    && (forall x | x in s'.insts[s.conns[c].inst].stream ::
          x in s.insts[s.conns[c].inst].stream || !Aims(x, s.conns[c].device, c))
  }

  lemma CalmAddsNone(s: State, s': State, c: ConnId)
    requires Calm(s, s', c) && (Registered(s', c) ==> Registered(s, c)) && T.Doomed(s', c)
    ensures T.Doomed(s, c)
  {
    if T.Told(s', c) {
      var m :| m in s'.conns[c].inbox && T.Evicts(m, c);
      assert m in s.conns[c].inbox;
    } else if T.Hunted(s', c) {
      var i := s.conns[c].inst;
      var x :| x in s'.insts[i].stream && x.to == s.conns[c].device && T.Evicts(Bus(x.msg), c);
      assert Aims(x, s.conns[c].device, c);
      assert x in s.insts[i].stream;
    }
  }

  lemma CalmJoins(s: State, s1: State, s2: State, c: ConnId)
    requires Calm(s, s1, c) && Calm(s1, s2, c)
    ensures Calm(s, s2, c)
  {
  }

  predicate SameOrLess(k: Conn, k': Conn) {
    k'.inst == k.inst && k'.device == k.device && k'.killed == k.killed && forall m | m in k'.inbox :: m in k.inbox
  }

  lemma WithConnCalm(s: State, x: ConnId, k: Conn, c: ConnId)
    requires c in s.conns && s.conns[c].inst in s.insts && x in s.conns && SameOrLess(s.conns[x], k)
    ensures Calm(s, WithConn(s, x, k), c)
  {
  }

  lemma WithInstCalm(s: State, i: InstId, h: Hub.Inst, c: ConnId)
    requires c in s.conns && s.conns[c].inst in s.insts && i in s.insts && h.stream == s.insts[i].stream
    ensures Calm(s, WithInst(s, i, h), c)
  {
  }

  lemma PublishCalm(s: State, to: DeviceId, m: BusMsg, c: ConnId)
    requires c in s.conns && s.conns[c].inst in s.insts && !Aims(Envelope(to, m), s.conns[c].device, c)
    ensures Calm(s, Publish(s, to, m), c)
  {
  }

  lemma BothCalm(s: State, x: ConnId, k: Conn, i: InstId, h: Hub.Inst, c: ConnId)
    requires c in s.conns && s.conns[c].inst in s.insts && x in s.conns && SameOrLess(s.conns[x], k)
    requires i in s.insts && h.stream == s.insts[i].stream
    ensures Calm(s, WithInst(WithConn(s, x, k), i, h), c)
  {
    WithConnCalm(s, x, k, c);
    WithInstCalm(WithConn(s, x, k), i, h, c);
    CalmJoins(s, WithConn(s, x, k), WithInst(WithConn(s, x, k), i, h), c);
  }

  // ---- event by event ----

  lemma ReceiveCalm(s: State, x: ConnId, retry: bool, c: ConnId)
    requires Sub.Inv(s) && c in s.conns && Enabled(s, Receive(x, retry))
    ensures Calm(s, ReceiveStep(s, x, retry), c)
  {
    ReceiveTouches(s, x, retry);
  }

  lemma ReloadCalm(s: State, e: Event, c: ConnId)
    requires Sub.Inv(s) && c in s.conns && Enabled(s, e) && (e.Read? || e.FailRead? || e.Store?)
    ensures Calm(s, Apply(s, e), c)
  {
    ReloadTouches(s, e);
  }

  lemma TalkCalm(s: State, e: Event, c: ConnId)
    requires Sub.Inv(s) && c in s.conns && Enabled(s, e)
    requires e.Claim? || e.Refresh? || e.Leave? || e.Release? || e.FailRelease?
    ensures Calm(s, Apply(s, e), c)
  {
    TalkTouches(s, e);
  }

  lemma SpeakCalm(s: State, e: Event, c: ConnId)
    requires Sub.Inv(s) && c in s.conns && Enabled(s, e) && Quiet(s, e, c) && (e.Announce? || e.Send?)
    ensures Calm(s, Apply(s, e), c)
  {
    var k := s.conns[e.c];
    var to := if e.Announce? then k.device else e.to;
    var m := if e.Announce? then Replace(e.c) else Forward(k.device, e.c, e.frame);
    var s1 := Publish(s, to, m);
    PublishCalm(s, to, m, c);
    WithConnCalm(s1, e.c, Apply(s, e).conns[e.c], c);
    CalmJoins(s, s1, Apply(s, e), c);
  }

  lemma EnqueueCalm(s: State, x: ConnId, c: ConnId)
    requires Sub.Inv(s) && c in s.conns && Enabled(s, Enqueue(x))
    ensures Calm(s, EnqueueStep(s, x), c)
  {
    var k := s.conns[x].(phase := AwaitSubscribe);
    BothCalm(s, x, k, k.inst, Hub.Enqueue(s.insts[k.inst], Subscribe(k.device, x)), c);
  }

  lemma UnregisterCalm(s: State, x: ConnId, c: ConnId)
    requires Sub.Inv(s) && c in s.conns && Enabled(s, Unregister(x))
    ensures Calm(s, UnregisterStep(s, x), c)
  {
    var k := UnregisterStep(s, x).conns[x];
    WithConnCalm(s, x, k, c);
    BothCalm(s, x, k, k.inst, Hub.Unregister(s.insts[k.inst], k.device), c);
  }

  lemma RequestCalm(s: State, e: Event, c: ConnId)
    requires Sub.Inv(s) && c in s.conns && Enabled(s, e) && (e.TakeRequest? || e.Ack?)
    ensures Calm(s, Apply(s, e), c)
  {
    ConfirmTouches(s, e, c);
  }

  lemma BusCalm(s: State, e: Event, c: ConnId)
    requires Sub.Inv(s) && c in s.conns && Enabled(s, e)
    requires e.RefuseSubscribe? || e.Remove? || e.Drop? || e.Resubscribe?
    ensures Calm(s, Apply(s, e), c)
  {
    BusUntouched(s, e);
  }

  lemma DbCalm(s: State, e: Event, c: ConnId)
    requires Sub.Inv(s) && c in s.conns && Enabled(s, e)
    requires e.Insert? || e.Revoke? || e.Delete? || e.AddDevice? || e.Expire?
    ensures Calm(s, Apply(s, e), c)
  {
    DbUntouched(s, e);
  }

  lemma ContinueCalm(s: State, j: JobId, c: ConnId)
    requires Sub.Inv(s) && Order.Plain(s) && c in s.conns && Enabled(s, Continue(j))
    ensures Calm(s, ContinueStep(s, j), c)
  {
    var a := s.jobs[j][0];
    assert a in s.jobs[j];
    if a.Notify? { PublishCalm(s, a.to, a.msg, c); }
  }

  lemma OpenCalm(s: State, i: InstId, d: DeviceId, x: ConnId, c: ConnId)
    requires Sub.Inv(s) && c in s.conns && Enabled(s, Open(i, d, x)) && Quiet(s, Open(i, d, x), c)
    ensures Calm(s, OpenStep(s, i, d, x), c)
  {
    assert Sub.InstOk(s.conns, i, s.insts[i]);
    if d in s.insts[i].registry { assert Sub.EntryOk(s.conns, i, d, s.insts[i].registry[d]); }
    assert OpenStep(s, i, d, x).conns[c] == s.conns[c];
  }

  lemma RestoredCalm(s: State, i: InstId, c: ConnId)
    requires Sub.Inv(s) && c in s.conns && i in s.insts
    ensures Calm(s, RestoredStep(s, i), c)
  {
  }

  /** A dispatched eviction was hunting `c` before. */
  lemma DispatchAddsNone(s: State, i: InstId, overflow: bool, c: ConnId)
    requires Sub.Inv(s) && c in s.conns && Enabled(s, Dispatch(i, overflow)) && Quiet(s, Dispatch(i, overflow), c)
    requires c in DispatchStep(s, i, overflow).conns && T.Doomed(DispatchStep(s, i, overflow), c)
    ensures T.Doomed(s, c)
  {
    var s' := DispatchStep(s, i, overflow);
    var m := s.insts[i].stream[0];
    assert Sub.InstOk(s.conns, i, s.insts[i]);
    if m.to in s.insts[i].registry { assert Sub.EntryOk(s.conns, i, m.to, s.insts[i].registry[m.to]); }
    if m.to in s.insts[i].registry && s.insts[i].registry[m.to] == c && T.Evicts(Bus(m.msg), c) {
      assert m in s.insts[i].stream;
      assert T.Hunted(s, c);
    } else {
      DispatchCalm(s, i, overflow, c);
      CalmAddsNone(s, s', c);
    }
  }

  lemma DispatchCalm(s: State, i: InstId, overflow: bool, c: ConnId)
    requires Sub.Inv(s) && c in s.conns && Enabled(s, Dispatch(i, overflow)) && Quiet(s, Dispatch(i, overflow), c)
    requires var m := s.insts[i].stream[0];
             m.to in s.insts[i].registry && s.insts[i].registry[m.to] == c ==> !T.Evicts(Bus(m.msg), c)
    ensures Calm(s, DispatchStep(s, i, overflow), c)
    ensures Registered(DispatchStep(s, i, overflow), c) ==> Registered(s, c)
  {
    var m := s.insts[i].stream[0];
    assert Sub.InstOk(s.conns, i, s.insts[i]);
    if m.to in s.insts[i].registry { assert Sub.EntryOk(s.conns, i, m.to, s.insts[i].registry[m.to]); }
  }

  lemma ConnCalm(s: State, e: Event, c: ConnId)
    requires Sub.Inv(s) && c in s.conns && Enabled(s, e) && Quiet(s, e, c)
    requires e.Enqueue? || e.Claim? || e.Announce? || e.Read? || e.FailRead? || e.Store? || e.Receive? || e.Refresh?
          || e.Send? || e.Leave? || e.Unregister? || e.Release? || e.FailRelease?
    ensures Calm(s, Apply(s, e), c)
  {
    if e.Receive? { ReceiveCalm(s, e.c, e.retry, c); }
    else if e.Read? || e.FailRead? || e.Store? { ReloadCalm(s, e, c); }
    else if e.Announce? || e.Send? { SpeakCalm(s, e, c); }
    else if e.Enqueue? { EnqueueCalm(s, e.c, c); }
    else if e.Unregister? { UnregisterCalm(s, e.c, c); }
    else { TalkCalm(s, e, c); }
  }

  lemma OtherCalm(s: State, e: Event, c: ConnId)
    requires Sub.Inv(s) && Order.Plain(s) && c in s.conns && Enabled(s, e) && Quiet(s, e, c)
    requires e.Open? || e.TakeRequest? || e.Ack? || e.RefuseSubscribe? || e.Remove? || e.Drop? || e.Resubscribe?
          || e.Restored? || e.Insert? || e.Revoke? || e.Delete? || e.AddDevice? || e.Continue? || e.Expire?
    ensures Calm(s, Apply(s, e), c)
  {
    if e.Open? { OpenCalm(s, e.i, e.d, e.c, c); }
    else if e.TakeRequest? || e.Ack? { RequestCalm(s, e, c); }
    else if e.Restored? { RestoredCalm(s, e.i, c); }
    else if e.Continue? { ContinueCalm(s, e.j, c); }
    else if e.RefuseSubscribe? || e.Remove? || e.Drop? || e.Resubscribe? { BusCalm(s, e, c); }
    else { DbCalm(s, e, c); }
  }

  /** A quiet event dooms nobody anew. */
  lemma QuietAddsNone(s: State, e: Event, c: ConnId)
    requires Sub.Inv(s) && Order.Plain(s) && c in s.conns && Enabled(s, e) && Quiet(s, e, c)
    requires c in Apply(s, e).conns && T.Doomed(Apply(s, e), c)
    ensures T.Doomed(s, c)
  {
    if e.Dispatch? {
      DispatchAddsNone(s, e.i, e.overflow, c);
    } else {
      if e.Enqueue? || e.Claim? || e.Announce? || e.Read? || e.FailRead? || e.Store? || e.Receive? || e.Refresh?
         || e.Send? || e.Leave? || e.Unregister? || e.Release? || e.FailRelease?
      {
        ConnCalm(s, e, c);
      } else {
        OtherCalm(s, e, c);
      }
      if Registered(Apply(s, e), c) { Order.RegisteredBefore(s, e, c); }
      CalmAddsNone(s, Apply(s, e), c);
    }
  }

  // ---- whole runs ----

  predicate QuietRun(s: State, es: seq<Event>, c: ConnId)
    requires IsRun(s, es)
    decreases |es|
  {
    es == [] || (c in s.conns && Quiet(s, es[0], c) && QuietRun(Apply(s, es[0]), es[1..], c))
  }

  lemma {:induction false} QuietIsLossless(s: State, es: seq<Event>, c: ConnId)
    requires IsRun(s, es) && QuietRun(s, es, c)
    ensures T.NoLoss(es)
    decreases |es|
  {
    if es != [] {
      QuietIsLossless(Apply(s, es[0]), es[1..], c);
      assert forall e | e in es :: e == es[0] || e in es[1..];
    }
  }

  lemma {:induction false} LiveBefore(s: State, es: seq<Event>, c: ConnId)
    requires IsRun(s, es) && c in s.conns
    ensures c in After(s, es).conns && After(s, es).conns[c].device == s.conns[c].device
    ensures After(s, es).conns[c].Live() ==> s.conns[c].Live()
    decreases |es|
  {
    if es != [] {
      T.OnlyForward(s, es[0], c);
      LiveBefore(Apply(s, es[0]), es[1..], c);
    }
  }

  /** Over a quiet run an open connection is doomed at the end if and only if it was
      at the start. */
  lemma {:induction false} QuietDoom(s: State, es: seq<Event>, c: ConnId)
    requires Sub.Inv(s) && Order.Plain(s) && c in s.conns && IsRun(s, es) && QuietRun(s, es, c)
    requires c in After(s, es).conns && After(s, es).conns[c].Live()
    ensures T.Doomed(After(s, es), c) <==> T.Doomed(s, c)
    decreases |es|
  {
    if es != [] {
      var s1 := Apply(s, es[0]);
      T.OnlyForward(s, es[0], c);
      LiveBefore(s1, es[1..], c);
      Sub.Kept(s, es[0]);
      Order.PlainKept(s, es[0]);
      QuietDoom(s1, es[1..], c);
      if T.Doomed(s, c) { T.DoomIsFinal(s, es[0], c); }
      if T.Doomed(s1, c) { QuietAddsNone(s, es[0], c); }
    }
  }

  lemma {:induction false} PlainOverRun(s: State, es: seq<Event>)
    requires Order.Plain(s) && IsRun(s, es)
    ensures Order.Plain(After(s, es))
    decreases |es|
  {
    if es != [] {
      Order.PlainKept(s, es[0]);
      PlainOverRun(Apply(s, es[0]), es[1..]);
    }
  }

  lemma ReachablePlain(s: State)
    requires T.ReachableNoLoss(s)
    ensures Order.Plain(s)
  {
    var s0, es :| Init(s0) && IsRun(s0, es) && T.NoLoss(es) && After(s0, es) == s;
    PlainOverRun(s0, es);
  }

  lemma SecondDoomedIff(s: State, c1: ConnId, c2: ConnId, es: seq<Event>, t: State)
    requires T.ReachableNoLoss(s) && Enabled(s, Announce(c1)) && c2 in s.conns && c1 != c2
    requires s.conns[c1].device == s.conns[c2].device
    requires IsRun(AnnounceStep(s, c1), es) && QuietRun(AnnounceStep(s, c1), es, c2)
    requires t == After(AnnounceStep(s, c1), es) && Enabled(t, Announce(c2))
    ensures T.Doomed(AnnounceStep(t, c2), c2) <==> T.Doomed(s, c2) || Reached(s, c2)
  {
    T.ReachableInv(s);
    ReachablePlain(s);
    Sub.Kept(s, Announce(c1));
    Order.PlainKept(s, Announce(c1));
    AnnounceDoomsIff(s, c1, c2);
    QuietDoom(AnnounceStep(s, c1), es, c2);
    AnnounceDoomsIff(t, c2, c2);
  }

  lemma FirstDoomed(s: State, c1: ConnId, c2: ConnId, es: seq<Event>, t: State)
    requires T.ReachableNoLoss(s) && Enabled(s, Announce(c1)) && c2 in s.conns && c1 != c2
    requires s.conns[c1].device == s.conns[c2].device
    requires IsRun(AnnounceStep(s, c1), es) && QuietRun(AnnounceStep(s, c1), es, c2)
    requires t == After(AnnounceStep(s, c1), es) && Enabled(t, Announce(c2))
    ensures c1 in t.conns
    ensures t.conns[c1].Published() ==>
              T.Rivals(AnnounceStep(t, c2), c1, c2) && T.Doomed(AnnounceStep(t, c2), c1)
  {
    LiveBefore(AnnounceStep(s, c1), es, c1);
    LiveBefore(AnnounceStep(s, c1), es, c2);
    InvLater(s, c1, es, c2);
    LaterAnnounceDooms(t, c1, c2);
  }

  lemma InvLater(s: State, c1: ConnId, es: seq<Event>, c2: ConnId)
    requires T.ReachableNoLoss(s) && Enabled(s, Announce(c1))
    requires IsRun(AnnounceStep(s, c1), es) && QuietRun(AnnounceStep(s, c1), es, c2)
    ensures T.Inv(After(AnnounceStep(s, c1), es))
  {
    T.ReachableInv(s);
    T.Kept(s, Announce(c1));
    QuietIsLossless(AnnounceStep(s, c1), es, c2);
    T.EveryRun(AnnounceStep(s, c1), es);
  }

  lemma LaterAnnounceDooms(t: State, c1: ConnId, c2: ConnId)
    requires T.Inv(t) && Enabled(t, Announce(c2)) && c1 in t.conns && c1 != c2
    requires t.conns[c1].device == t.conns[c2].device
    ensures t.conns[c1].Published() ==>
              T.Rivals(AnnounceStep(t, c2), c1, c2) && T.Doomed(AnnounceStep(t, c2), c1)
  {
    if t.conns[c1].Published() { T.AnnounceDooms(t, c2, c1); }
  }

  /** Overlapping opens, exactly. `c1` announces itself at `s` while `c2` of the same
      device is opening; after a run that is quiet for `c2` it announces itself at
      `t`. Then `c2` is doomed if and only if the first announcement reached its
      slot, or it was doomed before; and `c1`, if still open, is doomed in any case.
      So both end exactly when `c2` was registered and its instance held the
      device's channel when `c1` announced. */
  lemma OverlapDoomsBothIff(s: State, c1: ConnId, c2: ConnId, es: seq<Event>, t: State)
    requires T.ReachableNoLoss(s) && Enabled(s, Announce(c1)) && c2 in s.conns && c1 != c2
    requires s.conns[c1].device == s.conns[c2].device
    requires IsRun(AnnounceStep(s, c1), es) && QuietRun(AnnounceStep(s, c1), es, c2)
    requires t == After(AnnounceStep(s, c1), es) && Enabled(t, Announce(c2))
    ensures c1 in t.conns
    ensures T.Doomed(AnnounceStep(t, c2), c2) <==> T.Doomed(s, c2) || Reached(s, c2)
    ensures t.conns[c1].Published() ==>
              T.Rivals(AnnounceStep(t, c2), c1, c2) && T.Doomed(AnnounceStep(t, c2), c1)
  {
    SecondDoomedIff(s, c1, c2, es, t);
    FirstDoomed(s, c1, c2, es, t);
  }

  // ---- a run in which both are doomed ----

  const PAIR := State(map[1 := Hub.EMPTY, 2 := Hub.EMPTY], map[], map[], [Db({}, {}, map[])], map[])

  lemma OneWaiting() returns (es: seq<Event>)
    ensures Init(PAIR) && IsRun(PAIR, es) && T.NoLoss(es)
    ensures After(PAIR, es) ==
            PAIR.(insts := map[1 := Hub.Inst(map[7 := 1], [Subscribe(7, 1)], {}, {}, [], Hub.Ready), 2 := Hub.EMPTY],
                  conns := map[1 := New(1, 7).(phase := AwaitSubscribe)])
  {
    es := [];
    GoesOn(PAIR, es, Open(1, 7, 1)); es := es + [Open(1, 7, 1)];
    GoesOn(PAIR, es, Enqueue(1)); es := es + [Enqueue(1)];
    assert After(PAIR, es).insts[1].requests == [Subscribe(7, 1)];
  }

  lemma OneAcking() returns (es: seq<Event>)
    ensures Init(PAIR) && IsRun(PAIR, es) && T.NoLoss(es)
    ensures After(PAIR, es) ==
            PAIR.(insts := map[1 := Hub.Inst(map[7 := 1], [], {}, {7}, [], Hub.Acking(7, 1)), 2 := Hub.EMPTY],
                  conns := map[1 := New(1, 7).(phase := AwaitSubscribe)])
  {
    es := OneWaiting();
    GoesOn(PAIR, es, TakeRequest(1)); es := es + [TakeRequest(1)];
    var s := After(PAIR, es);
    assert s.insts[1].requests == [] && s.insts[1].channels == {7};
    assert s.insts == map[1 := Hub.Inst(map[7 := 1], [], {}, {7}, [], Hub.Acking(7, 1)), 2 := Hub.EMPTY];
  }

  lemma OneConfirmed() returns (es: seq<Event>)
    ensures Init(PAIR) && IsRun(PAIR, es) && T.NoLoss(es)
    ensures After(PAIR, es) ==
            PAIR.(insts := map[1 := Hub.Inst(map[7 := 1], [], {7}, {7}, [], Hub.Ready), 2 := Hub.EMPTY],
                  conns := map[1 := New(1, 7).(phase := AwaitClaim)])
  {
    es := OneAcking();
    GoesOn(PAIR, es, Ack(1)); es := es + [Ack(1)];
    var s := After(PAIR, es);
    assert s.insts[1].subscribed == {7};
    assert s.insts == map[1 := Hub.Inst(map[7 := 1], [], {7}, {7}, [], Hub.Ready), 2 := Hub.EMPTY];
    assert s.conns == map[1 := New(1, 7).(phase := AwaitClaim)];
  }

  lemma OneConfirmedOneEnrolled() returns (es: seq<Event>)
    ensures Init(PAIR) && IsRun(PAIR, es) && T.NoLoss(es)
    ensures After(PAIR, es) ==
            PAIR.(insts := map[1 := Hub.Inst(map[7 := 1], [], {7}, {7}, [], Hub.Ready),
                               2 := Hub.Inst(map[7 := 2], [], {}, {}, [], Hub.Ready)],
                  conns := map[1 := New(1, 7).(phase := AwaitClaim), 2 := New(2, 7)])
  {
    es := OneConfirmed();
    GoesOn(PAIR, es, Open(2, 7, 2)); es := es + [Open(2, 7, 2)];
    assert After(PAIR, es).conns == map[1 := New(1, 7).(phase := AwaitClaim), 2 := New(2, 7)];
  }

  lemma OneConfirmedOneWaiting() returns (es: seq<Event>)
    ensures Init(PAIR) && IsRun(PAIR, es) && T.NoLoss(es)
    ensures After(PAIR, es) ==
            PAIR.(insts := map[1 := Hub.Inst(map[7 := 1], [], {7}, {7}, [], Hub.Ready),
                               2 := Hub.Inst(map[7 := 2], [Subscribe(7, 2)], {}, {}, [], Hub.Ready)],
                  conns := map[1 := New(1, 7).(phase := AwaitClaim), 2 := New(2, 7).(phase := AwaitSubscribe)])
  {
    es := OneConfirmedOneEnrolled();
    GoesOn(PAIR, es, Enqueue(2)); es := es + [Enqueue(2)];
    var s := After(PAIR, es);
    assert s.insts[2].requests == [Subscribe(7, 2)];
    assert s.conns == map[1 := New(1, 7).(phase := AwaitClaim), 2 := New(2, 7).(phase := AwaitSubscribe)];
  }

  lemma OneConfirmedOneAcking() returns (es: seq<Event>)
    ensures Init(PAIR) && IsRun(PAIR, es) && T.NoLoss(es)
    ensures After(PAIR, es) ==
            PAIR.(insts := map[1 := Hub.Inst(map[7 := 1], [], {7}, {7}, [], Hub.Ready),
                               2 := Hub.Inst(map[7 := 2], [], {}, {7}, [], Hub.Acking(7, 2))],
                  conns := map[1 := New(1, 7).(phase := AwaitClaim), 2 := New(2, 7).(phase := AwaitSubscribe)])
  {
    es := OneConfirmedOneWaiting();
    GoesOn(PAIR, es, TakeRequest(2)); es := es + [TakeRequest(2)];
    var s := After(PAIR, es);
    assert s.insts[2].requests == [] && s.insts[2].channels == {7};
    assert s.insts == map[1 := Hub.Inst(map[7 := 1], [], {7}, {7}, [], Hub.Ready),
                          2 := Hub.Inst(map[7 := 2], [], {}, {7}, [], Hub.Acking(7, 2))];
  }

  lemma BothConfirmed() returns (es: seq<Event>)
    ensures Init(PAIR) && IsRun(PAIR, es) && T.NoLoss(es)
    ensures var s := After(PAIR, es);
            && s.insts == map[1 := Hub.Inst(map[7 := 1], [], {7}, {7}, [], Hub.Ready),
                              2 := Hub.Inst(map[7 := 2], [], {7}, {7}, [], Hub.Ready)]
            && s.conns == map[1 := New(1, 7).(phase := AwaitClaim), 2 := New(2, 7).(phase := AwaitClaim)]
            && s.history == PAIR.history
  {
    es := OneConfirmedOneAcking();
    GoesOn(PAIR, es, Ack(2)); es := es + [Ack(2)];
    var s := After(PAIR, es);
    assert s.insts[2].requests == [] && s.insts[2].subscribed == {7} && s.insts[2].channels == {7};
    assert s.conns == map[1 := New(1, 7).(phase := AwaitClaim), 2 := New(2, 7).(phase := AwaitClaim)];
  }

  lemma BothClaimed() returns (es: seq<Event>)
    ensures Init(PAIR) && IsRun(PAIR, es) && T.NoLoss(es)
    ensures var s := After(PAIR, es);
            && s.insts == map[1 := Hub.Inst(map[7 := 1], [], {7}, {7}, [], Hub.Ready),
                              2 := Hub.Inst(map[7 := 2], [], {7}, {7}, [], Hub.Ready)]
            && s.conns == map[1 := New(1, 7).(phase := AwaitPublish), 2 := New(2, 7).(phase := AwaitPublish)]
            && s.history == PAIR.history
  {
    es := BothConfirmed();
    GoesOn(PAIR, es, Claim(1)); es := es + [Claim(1)];
    GoesOn(PAIR, es, Claim(2)); es := es + [Claim(2)];
    var s := After(PAIR, es);
    assert s.conns == map[1 := New(1, 7).(phase := AwaitPublish), 2 := New(2, 7).(phase := AwaitPublish)];
  }

  /** Two openings of device 7 that overlap on two instances doom each other:
      the promise is at most one connection, not that the newest wins. */
  lemma OverlappingOpensDoomBoth() returns (es: seq<Event>)
    ensures Init(PAIR) && IsRun(PAIR, es) && T.NoLoss(es)
    ensures var s := After(PAIR, es); T.Rivals(s, 1, 2) && T.Doomed(s, 1) && T.Doomed(s, 2)
  {
    es := BothClaimed();
    var s := After(PAIR, es);
    GoesOn(PAIR, es, Announce(1)); es := es + [Announce(1)];
    GoesOn(PAIR, es, Announce(2)); es := es + [Announce(2)];
    BothHunted(s);
  }

  lemma BothHunted(s: State)
    requires s.insts == map[1 := Hub.Inst(map[7 := 1], [], {7}, {7}, [], Hub.Ready),
                            2 := Hub.Inst(map[7 := 2], [], {7}, {7}, [], Hub.Ready)]
    requires s.conns == map[1 := New(1, 7).(phase := AwaitPublish), 2 := New(2, 7).(phase := AwaitPublish)]
    ensures var s' := AnnounceStep(AnnounceStep(s, 1), 2); T.Rivals(s', 1, 2) && T.Doomed(s', 1) && T.Doomed(s', 2)
  {
    var s' := AnnounceStep(AnnounceStep(s, 1), 2);
    assert Envelope(7, Replace(2)) in s'.insts[1].stream;
    assert Envelope(7, Replace(1)) in s'.insts[2].stream;
  }
}

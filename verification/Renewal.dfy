/** Presence is renewed every 20 seconds and after a lost pub/sub connection. A
    renewal that finds the key in other hands ends its connection, so that of two
    open connections of a device only one outlasts it, whatever was lost. */
module Renewal {
  import opened Store
  import opened Messages
  import opened Connection
  import opened Presence
  import opened Cluster
  import T = Takeover
  import H = Handover
  import Hub
  import Sub = Subscription

  /** Instance `i` holds the device's key. */
  predicate At(s: State, d: DeviceId, i: InstId) {
    d in s.presence && s.presence[d] == i
  }

  predicate Elsewhere(s: State, k: Conn) {
    k.device in s.presence && s.presence[k.device] != k.inst
  }

  /** A renewal keeps its connection if and only if no other instance holds the key;
      then the key is its own, and otherwise the key stays. */
  lemma RefreshKeepsIff(s: State, c: ConnId)
    requires Enabled(s, Refresh(c))
    ensures var k := s.conns[c];
            var s' := Apply(s, Refresh(c));
            && OnlyConn(s, s', c)
            && (s'.conns[c].phase.Serving? <==> !Elsewhere(s, k))
            && (s'.conns[c].phase.Serving? ==> s'.conns[c] == k && s'.presence == s.presence[k.device := k.inst])
            && (Elsewhere(s, k) ==> s'.conns[c] == k.(phase := Closing) && s'.presence == s.presence)
  {
    TalkTouches(s, Refresh(c));
  }

  /** The same after a resync, and a connection that stays reads its pairs anew. */
  lemma ResyncKeepsIff(s: State, c: ConnId, retry: bool)
    requires Enabled(s, Receive(c, retry)) && s.conns[c].inbox[0].Resync?
    ensures var k := s.conns[c].(inbox := s.conns[c].inbox[1..]);
            var s' := Apply(s, Receive(c, retry));
            && OnlyConn(s, s', c)
            && (s'.conns[c].phase.Serving? <==> !Elsewhere(s, k))
            && (s'.conns[c].phase.Serving? ==> s'.conns[c] == k.(task := MustRead(None))
                                               && s'.presence == s.presence[k.device := k.inst])
            && (Elsewhere(s, k) ==> s'.conns[c] == k.(phase := Closing) && s'.presence == s.presence)
  {
    ReceiveTouches(s, c, retry);
  }

  /** After a lost pub/sub connection exactly the connections registered at the instance
      are asked to resync, once each, and nothing else about any connection changes. */
  lemma ResyncAsksRegistered(s: State, i: InstId, c: ConnId)
    requires Reachable(s) && Enabled(s, Restored(i)) && c in s.conns
    ensures var s' := Apply(s, Restored(i));
            && s'.conns.Keys == s.conns.Keys && s'.presence == s.presence
            && s'.conns[c] == if s.conns[c].inst == i && Registered(s, c)
                              then s.conns[c].(inbox := s.conns[c].inbox + [Resync]) else s.conns[c]
  {
    Sub.ReachableInv(s);
    var registry := s.insts[i].registry;
    if c in registry.Values {
      var d :| d in registry && registry[d] == c;
      assert Sub.EntryOk(s.conns, i, d, c);
    }
    if s.conns[c].inst == i && Registered(s, c) {
      assert registry[s.conns[c].device] in registry.Values;
    }
  }

  // ---- who holds the key over a run ----

  /** The events that can take a key away from the instance that holds it. */
  predicate Unseats(s: State, e: Event, d: DeviceId, i: InstId)
    requires Enabled(s, e)
  {
    || (e.Claim? && s.conns[e.c].device == d && s.conns[e.c].inst != i)
    || (e.Release? && s.conns[e.c].device == d && s.conns[e.c].inst == i)
    || (e.Continue? && s.jobs[e.j][0] == ClearPresence(d))
    || e == Expire(d)
  }

  lemma KeyUntouchedByTalk(s: State, e: Event)
    requires Enabled(s, e)
    requires e.Open? || e.Enqueue? || e.Announce? || e.Read? || e.FailRead? || e.Store? || e.Send? || e.Leave?
          || e.Unregister? || e.FailRelease?
    ensures Apply(s, e).presence == s.presence
  {
  }

  lemma KeyUntouchedByBus(s: State, e: Event)
    requires Enabled(s, e)
    requires e.RefuseSubscribe? || e.Remove? || e.Drop? || e.Lose? || e.Resubscribe? || e.Restored?
    ensures Apply(s, e).presence == s.presence
  {
  }

  lemma KeyUntouchedByDelivery(s: State, e: Event)
    requires Enabled(s, e) && (e.TakeRequest? || e.Ack? || e.Dispatch?)
    ensures Apply(s, e).presence == s.presence
  {
  }

  lemma KeyUntouchedByCommit(s: State, e: Event)
    requires Enabled(s, e) && (e.Insert? || e.Revoke? || e.Delete? || e.AddDevice?)
    ensures Apply(s, e).presence == s.presence
  {
    match e
    case Insert(_, _, _, _, _, _) =>
    case Revoke(_, _) =>
    case Delete(_, _, _, _) =>
    case AddDevice(_) =>
  }

  lemma KeyUntouched(s: State, e: Event)
    requires Enabled(s, e)
    requires !(e.Claim? || e.Release? || e.Continue? || e.Expire? || e.Refresh? || e.Receive?)
    ensures Apply(s, e).presence == s.presence
  {
    if e.Open? || e.Enqueue? || e.Announce? || e.Read? || e.FailRead? || e.Store? || e.Send? || e.Leave?
       || e.Unregister? || e.FailRelease? {
      KeyUntouchedByTalk(s, e);
    } else if e.Insert? || e.Revoke? || e.Delete? || e.AddDevice? {
      KeyUntouchedByCommit(s, e);
    } else if e.TakeRequest? || e.Ack? || e.Dispatch? {
      KeyUntouchedByDelivery(s, e);
    } else {
      KeyUntouchedByBus(s, e);
    }
  }

  /** The events that give the key of `d` to instance `i`. */
  predicate Seats(s: State, e: Event, d: DeviceId, i: InstId)
    requires Enabled(s, e)
  {
    && (e.Claim? || e.Refresh? || (e.Receive? && s.conns[e.c].inbox[0].Resync?))
    && s.conns[e.c].device == d && s.conns[e.c].inst == i
    && (e.Claim? || !Elsewhere(s, s.conns[e.c]))
  }

  lemma SeatsOnWrites(s: State, e: Event, d: DeviceId, i: InstId)
    requires Enabled(s, e) && (e.Claim? || e.Release? || e.Continue? || e.Expire?)
    ensures At(Apply(s, e), d, i) <==> (At(s, d, i) && !Unseats(s, e, d, i)) || Seats(s, e, d, i)
  {
  }

  lemma SeatsOnRenewals(s: State, e: Event, d: DeviceId, i: InstId)
    requires Enabled(s, e) && (e.Refresh? || e.Receive?)
    ensures At(Apply(s, e), d, i) <==> (At(s, d, i) && !Unseats(s, e, d, i)) || Seats(s, e, d, i)
  {
    if e.Refresh? { RefreshKeepsIff(s, e.c); }
  }

  lemma SeatStep(s: State, e: Event, d: DeviceId, i: InstId)
    requires Enabled(s, e)
    ensures At(Apply(s, e), d, i) <==> (At(s, d, i) && !Unseats(s, e, d, i)) || Seats(s, e, d, i)
  {
    if e.Claim? || e.Release? || e.Continue? || e.Expire? {
      SeatsOnWrites(s, e, d, i);
    } else if e.Refresh? || e.Receive? {
      SeatsOnRenewals(s, e, d, i);
    } else {
      KeyUntouched(s, e);
    }
  }

  predicate Seated(s: State, es: seq<Event>, d: DeviceId, i: InstId)
    requires IsRun(s, es)
    decreases |es|
  {
    es == [] || (!Unseats(s, es[0], d, i) && Seated(Apply(s, es[0]), es[1..], d, i))
  }

  lemma {:induction false} NeverServesAgain(s: State, es: seq<Event>, c: ConnId)
    requires IsRun(s, es) && c in s.conns && !s.conns[c].Live()
    ensures c in After(s, es).conns && !After(s, es).conns[c].phase.Serving?
    decreases |es|
  {
    if es != [] {
      T.OnlyForward(s, es[0], c);
      NeverServesAgain(Apply(s, es[0]), es[1..], c);
    }
  }

  predicate RenewedAt(s: State, es: seq<Event>, m: nat, c: ConnId, d: DeviceId) {
    m < |es| && es[m] == Refresh(c) && c in s.conns && s.conns[c].device == d
  }

  /** While nothing unseats the holder of a key, every connection of the device that
      renews and still serves at the end is on the holder's instance; losses of
      the pub/sub connection and every interleaving included. */
  lemma {:induction false} RenewedAreSeated(s: State, es: seq<Event>, m: nat, c: ConnId, d: DeviceId, i: InstId)
    requires IsRun(s, es) && At(s, d, i) && Seated(s, es, d, i) && RenewedAt(s, es, m, c, d)
    ensures c in After(s, es).conns && (After(s, es).conns[c].phase.Serving? ==> s.conns[c].inst == i)
    decreases |es|
  {
    var s' := Apply(s, es[0]);
    T.OnlyForward(s, es[0], c);
    if m > 0 {
      SeatStep(s, es[0], d, i);
      RenewedAreSeated(s', es[1..], m - 1, c, d, i);
    } else {
      RefreshKeepsIff(s, c);
      if s.conns[c].inst != i {
        NeverServesAgain(s', es[1..], c);
      } else {
        H.SamePlace(s', es[1..], c);
      }
    }
  }

  /** After a renewal some instance holds the key, and the renewing connection goes
      on if and only if that is its own. */
  lemma RenewalSeats(s: State, c: ConnId) returns (i: InstId)
    requires Enabled(s, Refresh(c))
    ensures At(Apply(s, Refresh(c)), s.conns[c].device, i)
    ensures Apply(s, Refresh(c)).conns[c].phase.Serving? <==> s.conns[c].inst == i
  {
    RefreshKeepsIff(s, c);
    i := Apply(s, Refresh(c)).presence[s.conns[c].device];
  }

  /** Two connections of one device on different instances that have both renewed,
      while nothing unseated the holder in between, do not both go on. */
  lemma OneOutlastsRenewal(s: State, c1: ConnId, es: seq<Event>, m: nat, c2: ConnId, d: DeviceId, i: InstId)
    requires Enabled(s, Refresh(c1)) && c2 in s.conns
    requires s.conns[c1].device == d && s.conns[c2].device == d && s.conns[c1].inst != s.conns[c2].inst
    requires var u := Apply(s, Refresh(c1));
             IsRun(u, es) && m < |es| && es[m] == Refresh(c2) && At(u, d, i) && Seated(u, es, d, i)
    ensures var t := After(Apply(s, Refresh(c1)), es);
            && c1 in t.conns && c2 in t.conns
            && !(t.conns[c1].phase.Serving? && t.conns[c2].phase.Serving?)
  {
    var u := Apply(s, Refresh(c1));
    RefreshKeepsIff(s, c1);
    RenewedAreSeated(u, es, m, c2, d, i);
    if s.conns[c1].inst != i {
      NeverServesAgain(u, es, c1);
    } else {
      H.SamePlace(u, es, c1);
    }
  }

  /** A new connection claims the key, and every connection of its device on another
      instance ends with its next renewal, if nothing unseats the newcomer before. */
  lemma RenewalYieldsToNewcomer(s: State, c: ConnId, es: seq<Event>, m: nat, x: ConnId, d: DeviceId)
    requires Enabled(s, Claim(c)) && s.conns[c].device == d
    requires x in s.conns && s.conns[x].device == d && s.conns[x].inst != s.conns[c].inst
    requires var u := Apply(s, Claim(c));
             IsRun(u, es) && m < |es| && es[m] == Refresh(x) && Seated(u, es, d, s.conns[c].inst)
    ensures var t := After(Apply(s, Claim(c)), es);
            x in t.conns && !t.conns[x].phase.Serving?
  {
    TalkTouches(s, Claim(c));
    RenewedAreSeated(Apply(s, Claim(c)), es, m, x, d, s.conns[c].inst);
  }

  // ---- the last writer holds the key ----

  /** Event `m` of the run gives the key to `i`, and nothing later takes it away. */
  predicate SeatedFrom(s: State, es: seq<Event>, m: nat, d: DeviceId, i: InstId)
    requires IsRun(s, es) && m < |es|
    decreases |es|
  {
    var s' := Apply(s, es[0]);
    if m == 0 then Seats(s, es[0], d, i) && Seated(s', es[1..], d, i)
    else SeatedFrom(s', es[1..], m - 1, d, i)
  }

  ghost predicate SeatedSince(s: State, es: seq<Event>, d: DeviceId, i: InstId)
    requires IsRun(s, es)
  {
    exists m: nat :: m < |es| && SeatedFrom(s, es, m, d, i)
  }

  lemma SeatedSinceStep(s: State, es: seq<Event>, d: DeviceId, i: InstId)
    requires es != [] && IsRun(s, es)
    ensures var s' := Apply(s, es[0]);
            SeatedSince(s, es, d, i) <==>
              (Seats(s, es[0], d, i) && Seated(s', es[1..], d, i)) || SeatedSince(s', es[1..], d, i)
  {
    var s' := Apply(s, es[0]);
    if SeatedSince(s, es, d, i) {
      var m: nat :| m < |es| && SeatedFrom(s, es, m, d, i);
      if m > 0 { assert SeatedFrom(s', es[1..], m - 1, d, i); }
    }
    if Seats(s, es[0], d, i) && Seated(s', es[1..], d, i) {
      assert SeatedFrom(s, es, 0, d, i);
    }
    if SeatedSince(s', es[1..], d, i) {
      var m: nat :| m < |es[1..]| && SeatedFrom(s', es[1..], m, d, i);
      assert SeatedFrom(s, es, m + 1, d, i);
    }
  }

  /** Over every run: an instance holds the key at the end if and only if it held it
      and was never unseated, or some event gave it the key and none unseated it
      since. */
  lemma {:induction false} KeyOverRun(s: State, es: seq<Event>, d: DeviceId, i: InstId)
    requires IsRun(s, es)
    ensures At(After(s, es), d, i) <==> (At(s, d, i) && Seated(s, es, d, i)) || SeatedSince(s, es, d, i)
    decreases |es|
  {
    if es != [] {
      SeatStep(s, es[0], d, i);
      SeatedSinceStep(s, es, d, i);
      KeyOverRun(Apply(s, es[0]), es[1..], d, i);
    }
  }

  /** A deleted device's presence is cleared before its connection is closed. After
      that, at any later state of any run, a release for the device announces
      "offline" if and only if its instance was given the key anew since. */
  lemma ClearedIsSilentIff(s: State, j: JobId, d: DeviceId, es: seq<Event>, t: State, x: ConnId)
    requires Enabled(s, Continue(j)) && s.jobs[j][0] == ClearPresence(d)
    requires var s' := Apply(s, Continue(j)); IsRun(s', es) && t == After(s', es)
    requires Enabled(t, Release(x)) && t.conns[x].device == d
    ensures AnnouncesOffline(t, Release(x), x) <==> SeatedSince(Apply(s, Continue(j)), es, d, t.conns[x].inst)
  {
    KeyOverRun(Apply(s, Continue(j)), es, d, t.conns[x].inst);
  }

  // ---- a renewal between the two ----

  /** Connection 1 of device 7 alone on instance 1. */
  predicate Alone(s: State, phase: Phase, task: Task, inbox: seq<Delivery>, stream: seq<Envelope>) {
    && s.history != [] && 1 in s.conns
    && s.conns[1].inst == 1 && s.conns[1].device == 7
    && s.conns[1].phase == phase && s.conns[1].task == task && s.conns[1].inbox == inbox
    && s.insts == map[1 := Hub.Inst(map[7 := 1], [], {7}, {7}, stream, Hub.Ready)]
  }

  lemma OneLoads() returns (es: seq<Event>)
    ensures Init(Sub.LONE) && IsRun(Sub.LONE, es)
    ensures var s := After(Sub.LONE, es);
            Alone(s, Loading, MustRead(None), [], [Envelope(7, Replace(1))]) && s.jobs == map[] && s.history == Sub.LONE.history
  {
    es := H.FirstConfirmed();
    GoesOn(Sub.LONE, es, Claim(1)); es := es + [Claim(1)];
    GoesOn(Sub.LONE, es, Announce(1)); es := es + [Announce(1)];
    assert After(Sub.LONE, es).insts[1].stream == [Envelope(7, Replace(1))];
  }

  lemma OneHeard() returns (es: seq<Event>)
    ensures Init(Sub.LONE) && IsRun(Sub.LONE, es)
    ensures var s := After(Sub.LONE, es);
            Alone(s, Loading, MustRead(None), [Bus(Replace(1))], []) && s.jobs == map[] && s.history == Sub.LONE.history
  {
    es := OneLoads();
    GoesOn(Sub.LONE, es, Dispatch(1, false)); es := es + [Dispatch(1, false)];
    assert After(Sub.LONE, es).insts[1].stream == [];
  }

  lemma OneReloads() returns (es: seq<Event>)
    ensures Init(Sub.LONE) && IsRun(Sub.LONE, es)
    ensures var s := After(Sub.LONE, es);
            Alone(s, Serving, Idle, [Bus(Replace(1))], []) && s.jobs == map[] && s.history == Sub.LONE.history
  {
    es := OneHeard();
    GoesOn(Sub.LONE, es, Read(1)); es := es + [Read(1)];
    GoesOn(Sub.LONE, es, Store(1)); es := es + [Store(1)];
  }

  lemma OneServes() returns (es: seq<Event>)
    ensures Init(Sub.LONE) && IsRun(Sub.LONE, es)
    ensures var s := After(Sub.LONE, es);
            Alone(s, Serving, Idle, [], []) && s.jobs == map[] && s.history == Sub.LONE.history
  {
    es := OneReloads();
    GoesOn(Sub.LONE, es, Receive(1, false)); es := es + [Receive(1, false)];
    assert After(Sub.LONE, es).conns[1].inbox == [];
  }

  lemma OneIsDeleted() returns (es: seq<Event>)
    ensures Init(Sub.LONE) && IsRun(Sub.LONE, es)
    ensures var s := After(Sub.LONE, es);
            Alone(s, Serving, Idle, [], []) && s.jobs == map[3 := [ClearPresence(7), Notify(7, Close)]]
            && 7 !in Now(s).devices
  {
    es := OneServes();
    GoesOn(Sub.LONE, es, AddDevice(7)); es := es + [AddDevice(7)];
    GoesOn(Sub.LONE, es, Delete(3, 7, [], None)); es := es + [Delete(3, 7, [], None)];
    assert After(Sub.LONE, es).jobs[3] == [ClearPresence(7), Notify(7, Close)];
  }

  lemma OneIsCleared() returns (es: seq<Event>)
    ensures Init(Sub.LONE) && IsRun(Sub.LONE, es)
    ensures var s := After(Sub.LONE, es);
            Alone(s, Serving, Idle, [], []) && s.jobs == map[3 := [Notify(7, Close)]] && 7 !in s.presence
            && 7 !in Now(s).devices
  {
    es := OneIsDeleted();
    GoesOn(Sub.LONE, es, Continue(3)); es := es + [Continue(3)];
  }

  lemma OneRenews() returns (es: seq<Event>)
    ensures Init(Sub.LONE) && IsRun(Sub.LONE, es)
    ensures var s := After(Sub.LONE, es);
            Alone(s, Serving, Idle, [], []) && s.jobs == map[3 := [Notify(7, Close)]] && At(s, 7, 1)
            && 7 !in Now(s).devices
  {
    es := OneIsCleared();
    GoesOn(Sub.LONE, es, Refresh(1)); es := es + [Refresh(1)];
  }

  lemma ClosePublished(s: State)
    requires Alone(s, Serving, Idle, [], []) && s.jobs == map[3 := [Notify(7, Close)]]
    ensures Enabled(s, Continue(3))
    ensures var s' := Apply(s, Continue(3));
            Alone(s', Serving, Idle, [], [Envelope(7, Close)]) && s'.presence == s.presence && s'.history == s.history
  {
    var h := Apply(s, Continue(3)).insts;
    assert h.Keys == {1} && h[1].stream == [Envelope(7, Close)];
  }

  lemma OneIsClosed() returns (es: seq<Event>)
    ensures Init(Sub.LONE) && IsRun(Sub.LONE, es)
    ensures var s := After(Sub.LONE, es);
            Alone(s, Serving, Idle, [], [Envelope(7, Close)]) && At(s, 7, 1) && 7 !in Now(s).devices
  {
    es := OneRenews();
    ClosePublished(After(Sub.LONE, es));
    GoesOn(Sub.LONE, es, Continue(3)); es := es + [Continue(3)];
  }

  lemma OneIsTold() returns (es: seq<Event>)
    ensures Init(Sub.LONE) && IsRun(Sub.LONE, es)
    ensures var s := After(Sub.LONE, es);
            Alone(s, Serving, Idle, [Bus(Close)], []) && At(s, 7, 1) && 7 !in Now(s).devices
  {
    es := OneIsClosed();
    GoesOn(Sub.LONE, es, Dispatch(1, false)); es := es + [Dispatch(1, false)];
    assert After(Sub.LONE, es).insts[1].stream == [];
  }

  lemma CloseReceived(s: State)
    requires Alone(s, Serving, Idle, [Bus(Close)], [])
    ensures Enabled(s, Receive(1, false))
    ensures var s' := Apply(s, Receive(1, false));
            Alone(s', Closing, Idle, [], []) && s'.presence == s.presence && s'.history == s.history
  {
    assert Apply(s, Receive(1, false)).conns[1].inbox == [];
  }

  lemma OneEnds() returns (es: seq<Event>)
    ensures Init(Sub.LONE) && IsRun(Sub.LONE, es)
    ensures var s := After(Sub.LONE, es);
            Alone(s, Closing, Idle, [], []) && At(s, 7, 1) && 7 !in Now(s).devices
  {
    es := OneIsTold();
    CloseReceived(After(Sub.LONE, es));
    GoesOn(Sub.LONE, es, Receive(1, false)); es := es + [Receive(1, false)];
  }

  /** Device 7 is deleted; its connection renews after the key was cleared and before
      it is told to close. It then finds a key of its own and announces "offline". */
  lemma DeletedYetAnnounced() returns (es: seq<Event>)
    ensures Init(Sub.LONE) && IsRun(Sub.LONE, es)
    ensures var s := After(Sub.LONE, es);
            Enabled(s, Release(1)) && 7 !in Now(s).devices && AnnouncesOffline(s, Release(1), 1)
  {
    es := OneEnds();
    GoesOn(Sub.LONE, es, Unregister(1)); es := es + [Unregister(1)];
  }
}

/** The peer cache against the database. Every connection routes by a cached
    copy of `active_peers`. The copy equals the query on the current database,
    or something that will refresh it or end the connection is on its way:
    also across a lost and restored pub/sub connection. */
module Cache {
  import opened Store
  import opened Messages
  import opened Connection
  import opened Cluster
  import Sub = Subscription
  import T = Takeover
  import Presence
  import Hub

  /** A delivery after which connection `c` reloads its pairs or ends. */
  predicate Settles(m: Delivery, c: ConnId) {
    m.Resync? || m.msg.PairsChanged? || m.msg.PairRevoked? || m.msg.Close? || T.Evicts(m, c)
  }

  ghost predicate InQueue(s: State, c: ConnId)
    requires c in s.conns
  {
    exists m :: m in s.conns[c].inbox && Settles(m, c)
  }

  ghost predicate InStream(s: State, c: ConnId)
    requires c in s.conns
  {
    Registered(s, c)
    && exists e :: e in s.insts[s.conns[c].inst].stream && e.to == s.conns[c].device && Settles(Bus(e.msg), c)
  }

  /** The instance of `c` is about to ask its connections to resync. */
  predicate Reconnecting(s: State, c: ConnId)
    requires c in s.conns
  {
    Registered(s, c) && s.insts[s.conns[c].inst].bus.Restoring?
  }

  predicate Owes(a: Action, d: DeviceId, c: ConnId) {
    a.Notify? && a.to == d && Settles(Bus(a.msg), c)
  }

  ghost predicate InHandler(s: State, c: ConnId)
    requires c in s.conns
  {
    exists j, a :: j in s.jobs && a in s.jobs[j] && Owes(a, s.conns[c].device, c)
  }

  ghost predicate Pending(s: State, c: ConnId)
    requires c in s.conns
  {
    s.conns[c].killed || InQueue(s, c) || InStream(s, c) || Reconnecting(s, c) || InHandler(s, c)
  }

  /** The rows the connection goes by: the cache, or the reload in hand. */
  function View(k: Conn): set<(PairId, DeviceId)> {
    if k.task.Got? then k.task.view else k.pairs
  }

  /** The connection has loaded its pairs, and no notice makes it read them
      again; a reload for a frame of an unknown sender may be under way. */
  predicate Relies(k: Conn) {
    k.Published() && !(k.task.MustRead? && k.task.hold.None?)
  }

  /** `stale` marks a connection whose last reload for a notice the database
      refused. */
  ghost predicate Agrees(s: State, c: ConnId)
    requires c in s.conns && s.history != []
  {
    var k := s.conns[c];
    && (k.Live() && !k.Published() ==> k.task == MustRead(None))
    && (Relies(k) ==> View(k) == ActivePeers(Now(s), k.device) || Pending(s, c) || (k.stale && !k.task.Got?))
  }

  ghost predicate Known(s: State, c: ConnId)
    requires c in s.conns
  {
    s.conns[c].Live() ==> Registered(s, c) || T.Told(s, c)
  }

  ghost predicate Inv(s: State) {
    && Sub.Inv(s)
    && s.history != [] && Sound(Now(s))
    && (forall c | c in s.conns :: Known(s, c))
    && (forall c | c in s.conns :: Agrees(s, c))
  }

  lemma ToldIsPending(s: State, c: ConnId)
    requires c in s.conns && T.Told(s, c)
    ensures InQueue(s, c)
  {
    var m :| m in s.conns[c].inbox && T.Evicts(m, c);
    assert Settles(m, c);
  }

  // ---- what is pending stays pending ----

  ghost predicate JobsKept(s: State, s': State) {
    forall j | j in s.jobs :: j in s'.jobs && s'.jobs[j] == s.jobs[j]
  }

  ghost predicate Unrestored(s: State, s': State) {
    forall i | i in s.insts && s.insts[i].bus.Restoring? :: i in s'.insts && s'.insts[i].bus.Restoring?
  }

  lemma PendingSteady(s: State, s': State, c: ConnId)
    requires T.Steady(s, s') && JobsKept(s, s') && Unrestored(s, s') && c in s.conns && Pending(s, c)
    ensures c in s'.conns && Pending(s', c)
  {
    assert T.Same(s.conns[c], s'.conns[c]);
    if InQueue(s, c) {
      var m :| m in s.conns[c].inbox && Settles(m, c);
      assert m in s'.conns[c].inbox;
    } else if InStream(s, c) {
      var e :| e in s.insts[s.conns[c].inst].stream && e.to == s.conns[c].device && Settles(Bus(e.msg), c);
      assert e in s'.insts[s.conns[c].inst].stream;
    } else if InHandler(s, c) {
      var j, a :| j in s.jobs && a in s.jobs[j] && Owes(a, s.conns[c].device, c);
      assert a in s'.jobs[j];
    }
  }

  lemma InHandlerKept(s: State, s': State, c: ConnId)
    requires c in s.conns && c in s'.conns && s'.conns[c].device == s.conns[c].device
    requires InHandler(s, c) && JobsKept(s, s')
    ensures InHandler(s', c)
  {
    var j, a :| j in s.jobs && a in s.jobs[j] && Owes(a, s.conns[c].device, c);
    assert a in s'.jobs[j];
  }

  /** A queue that settles `c` still does after its head was taken, unless the
      head itself did. */
  lemma PendingReceive(s: State, x: ConnId, retry: bool, c: ConnId)
    requires Enabled(s, Receive(x, retry)) && c in s.conns && Pending(s, c)
    ensures var s' := ReceiveStep(s, x, retry);
            c in s'.conns && (Relies(s'.conns[c]) ==> Pending(s', c))
  {
    var s' := ReceiveStep(s, x, retry);
    if InQueue(s, c) {
      QueuedReceive(s, x, retry, c);
    } else if InStream(s, c) {
      var e :| e in s.insts[s.conns[c].inst].stream && e.to == s.conns[c].device && Settles(Bus(e.msg), c);
      assert e in s'.insts[s.conns[c].inst].stream;
    } else if InHandler(s, c) {
      InHandlerKept(s, s', c);
    }
  }

  lemma HeadSettles(me: ConnId, k: Conn, m: Delivery, retry: bool, held: bool)
    requires Settles(m, me)
    ensures !Relies(OnDelivery(me, k, m, retry, held))
  {
  }

  lemma QueuedReceive(s: State, x: ConnId, retry: bool, c: ConnId)
    requires Enabled(s, Receive(x, retry)) && c in s.conns && InQueue(s, c)
    ensures var s' := ReceiveStep(s, x, retry);
            c in s'.conns && (Relies(s'.conns[c]) ==> InQueue(s', c))
  {
    var s' := ReceiveStep(s, x, retry);
    var k := s.conns[c];
    var m :| m in k.inbox && Settles(m, c);
    if c != x {
      assert m in s'.conns[c].inbox;
    } else if m == k.inbox[0] {
      HeadSettles(c, k.(inbox := k.inbox[1..]), m, retry, Presence.MayHold(s.presence, k.device, k.inst));
    } else {
      T.TakenMessage(k.inbox, m);
      assert m in s'.conns[c].inbox;
    }
  }

  lemma PendingDispatch(s: State, i: InstId, overflow: bool, c: ConnId)
    requires i in s.insts && s.insts[i].stream != [] && c in s.conns && Pending(s, c)
    ensures var s' := DispatchStep(s, i, overflow); c in s'.conns && Pending(s', c)
  {
    var s' := DispatchStep(s, i, overflow);
    if InQueue(s, c) {
      var m :| m in s.conns[c].inbox && Settles(m, c);
      assert m in s'.conns[c].inbox;
    } else if InStream(s, c) {
      StreamedDispatch(s, i, overflow, c);
    } else if InHandler(s, c) {
      InHandlerKept(s, s', c);
    }
  }

  lemma StreamedDispatch(s: State, i: InstId, overflow: bool, c: ConnId)
    requires i in s.insts && s.insts[i].stream != [] && c in s.conns && InStream(s, c)
    ensures var s' := DispatchStep(s, i, overflow);
            c in s'.conns && (s'.conns[c].killed || InQueue(s', c) || InStream(s', c))
  {
    var s' := DispatchStep(s, i, overflow);
    var j := s.conns[c].inst;
    var e :| e in s.insts[j].stream && e.to == s.conns[c].device && Settles(Bus(e.msg), c);
    if i == j { T.TakenMessage(s.insts[j].stream, e); }
    if i == j && e == s.insts[j].stream[0] {
      assert !overflow ==> Bus(e.msg) in s'.conns[c].inbox;
    } else {
      assert e in s'.insts[j].stream;
    }
  }

  lemma PendingOpen(s: State, i: InstId, d: DeviceId, x: ConnId, c: ConnId)
    requires i in s.insts && x !in s.conns && c in s.conns && Pending(s, c)
    ensures var s' := OpenStep(s, i, d, x); c in s'.conns && Pending(s', c)
  {
    var s' := OpenStep(s, i, d, x);
    if d in s.insts[i].registry && s.insts[i].registry[d] == c {
      T.ToldOpen(s, i, d, x, c);
      ToldIsPending(s', c);
    } else if InQueue(s, c) {
      var m :| m in s.conns[c].inbox && Settles(m, c);
      assert m in s'.conns[c].inbox;
    } else if InStream(s, c) {
      var j := s.conns[c].inst;
      var e :| e in s.insts[j].stream && e.to == s.conns[c].device && Settles(Bus(e.msg), c);
      assert e in s'.insts[j].stream;
    } else if InHandler(s, c) {
      InHandlerKept(s, s', c);
    }
  }

  lemma PendingUnregister(s: State, x: ConnId, c: ConnId)
    requires x in s.conns && s.conns[x].inst in s.insts && c in s.conns && c != x && Pending(s, c)
    ensures var s' := UnregisterStep(s, x); c in s'.conns && Pending(s', c)
  {
    var s' := UnregisterStep(s, x);
    if InQueue(s, c) {
      var m :| m in s.conns[c].inbox && Settles(m, c);
      assert m in s'.conns[c].inbox;
    } else if InStream(s, c) {
      var j := s.conns[c].inst;
      var e :| e in s.insts[j].stream && e.to == s.conns[c].device && Settles(Bus(e.msg), c);
      assert e in s'.insts[j].stream;
    } else if InHandler(s, c) {
      InHandlerKept(s, s', c);
    }
  }

  /** A lost stream is made up for: the instance will ask for a resync. */
  lemma PendingLose(s: State, i: InstId, c: ConnId)
    requires i in s.insts && c in s.conns && Pending(s, c)
    ensures Pending(WithInst(s, i, Hub.Lose(s.insts[i])), c)
  {
    var s' := WithInst(s, i, Hub.Lose(s.insts[i]));
    if InQueue(s, c) {
      var m :| m in s.conns[c].inbox && Settles(m, c);
      assert m in s'.conns[c].inbox;
    } else if InStream(s, c) {
      var j := s.conns[c].inst;
      var e :| e in s.insts[j].stream && e.to == s.conns[c].device && Settles(Bus(e.msg), c);
      assert i != j ==> e in s'.insts[j].stream;
    } else if InHandler(s, c) {
      InHandlerKept(s, s', c);
    }
  }

  lemma PendingRestored(s: State, i: InstId, c: ConnId)
    requires i in s.insts && c in s.conns && Pending(s, c)
    ensures var s' := RestoredStep(s, i); c in s'.conns && Pending(s', c)
  {
    var s' := RestoredStep(s, i);
    T.RestoredSteady(s, i);
    if Reconnecting(s, c) && s.conns[c].inst == i {
      assert Resync in s'.conns[c].inbox;
      assert Settles(Resync, c);
    } else if InQueue(s, c) {
      var m :| m in s.conns[c].inbox && Settles(m, c);
      assert m in s'.conns[c].inbox;
    } else if InStream(s, c) {
      var j := s.conns[c].inst;
      var e :| e in s.insts[j].stream && e.to == s.conns[c].device && Settles(Bus(e.msg), c);
      assert e in s'.insts[j].stream;
    } else if InHandler(s, c) {
      InHandlerKept(s, s', c);
    }
  }

  /** A notice a handler publishes reaches the stream of every connection it
      is for: that connection's channel is held. */
  lemma PendingContinue(s: State, j: JobId, c: ConnId)
    requires Sub.Inv(s) && j in s.jobs && s.jobs[j] != [] && c in s.conns && Pending(s, c)
    requires Known(s, c) && s.conns[c].Published()
    ensures var s' := ContinueStep(s, j); c in s'.conns && Pending(s', c)
  {
    var s' := ContinueStep(s, j);
    if InQueue(s, c) {
      var m :| m in s.conns[c].inbox && Settles(m, c);
      assert m in s'.conns[c].inbox;
    } else if InStream(s, c) {
      var i := s.conns[c].inst;
      var e :| e in s.insts[i].stream && e.to == s.conns[c].device && Settles(Bus(e.msg), c);
      assert e in s'.insts[i].stream;
    } else if InHandler(s, c) {
      var j', a :| j' in s.jobs && a in s.jobs[j'] && Owes(a, s.conns[c].device, c);
      if j' == j { T.TakenMessage(s.jobs[j], a); }
      if j' == j && a == s.jobs[j][0] {
        NoticePublished(s, j, c);
      } else {
        assert a in s'.jobs[j'];
      }
    }
  }

  lemma NoticePublished(s: State, j: JobId, c: ConnId)
    requires Sub.Inv(s) && j in s.jobs && s.jobs[j] != [] && c in s.conns && Known(s, c)
    requires s.conns[c].Published() && Owes(s.jobs[j][0], s.conns[c].device, c)
    ensures Pending(ContinueStep(s, j), c)
  {
    var s' := ContinueStep(s, j);
    var i := s.conns[c].inst;
    var a := s.jobs[j][0];
    if T.Told(s, c) {
      var m :| m in s.conns[c].inbox && T.Evicts(m, c);
      assert m in s'.conns[c].inbox && Settles(m, c);
    } else if !s.insts[i].bus.Restoring? {
      assert Sub.InstOk(s.conns, i, s.insts[i]);
      assert s.conns[c].device in s.insts[i].channels;
      assert Envelope(a.to, a.msg) in s'.insts[i].stream;
    } else {
      assert Reconnecting(s', c);
    }
  }

  lemma UnrestoredKept(s: State, e: Event)
    requires Enabled(s, e) && !e.Restored?
    ensures Unrestored(s, Apply(s, e))
  {
    Sub.InstsKept(s, e);
    if Sub.Quiet(e) {
      Sub.QuietSteps(s, e);
      forall i | i in s.insts && s.insts[i].bus.Restoring? ensures Apply(s, e).insts[i].bus.Restoring? {
        assert Sub.SameControl(s.insts[i], Apply(s, e).insts[i]);
      }
    } else if e.Open? || e.Enqueue? || e.Unregister? || e.TakeRequest? || e.Ack? {
      UnrestoredMoving(s, e);
    } else {
      UnrestoredBus(s, e);
    }
  }

  lemma UnrestoredMoving(s: State, e: Event)
    requires Enabled(s, e) && (e.Open? || e.Enqueue? || e.Unregister? || e.TakeRequest? || e.Ack?)
    ensures Unrestored(s, Apply(s, e))
  {
  }

  lemma UnrestoredBus(s: State, e: Event)
    requires Enabled(s, e) && (e.RefuseSubscribe? || e.Remove? || e.Drop? || e.Lose? || e.Resubscribe?)
    ensures Unrestored(s, Apply(s, e))
  {
  }

  lemma ConnEventsKeepStore(s: State, e: Event)
    requires Enabled(s, e)
    requires e.Open? || e.Enqueue? || e.Claim? || e.Announce? || e.Read? || e.FailRead? || e.Store? || e.Receive?
          || e.Refresh? || e.Send? || e.Leave? || e.Unregister? || e.Release? || e.FailRelease?
    ensures Apply(s, e).history == s.history && Apply(s, e).jobs == s.jobs
  {
  }

  lemma BusEventsKeepStore(s: State, e: Event)
    requires Enabled(s, e)
    requires e.RefuseSubscribe? || e.Remove? || e.Drop? || e.Lose? || e.Resubscribe? || e.Restored? || e.Expire?
    ensures Apply(s, e).history == s.history && Apply(s, e).jobs == s.jobs
  {
  }

  lemma DeliveryKeepsStore(s: State, e: Event)
    requires Enabled(s, e) && (e.TakeRequest? || e.Ack? || e.Dispatch?)
    ensures Apply(s, e).history == s.history && Apply(s, e).jobs == s.jobs
  {
  }

  /** Only commits and handlers change versions and jobs. */
  lemma StoreKept(s: State, e: Event)
    requires Enabled(s, e) && !Commits(e) && !e.Continue?
    ensures Apply(s, e).history == s.history && Apply(s, e).jobs == s.jobs
  {
    if e.RefuseSubscribe? || e.Remove? || e.Drop? || e.Lose? || e.Resubscribe? || e.Restored? || e.Expire? {
      BusEventsKeepStore(s, e);
    } else if e.TakeRequest? || e.Ack? || e.Dispatch? {
      DeliveryKeepsStore(s, e);
    } else {
      ConnEventsKeepStore(s, e);
    }
  }

  lemma JobsKeptBy(s: State, e: Event)
    requires Enabled(s, e) && !e.Continue?
    ensures JobsKept(s, Apply(s, e))
  {
    if Commits(e) { CommitJobs(s, e); } else { StoreKept(s, e); }
  }

  /** A commit starts at most one handler. */
  lemma CommitJobs(s: State, e: Event)
    requires Enabled(s, e) && Commits(e)
    ensures JobsKept(s, Apply(s, e))
  {
    match e
    case Insert(j, _, _, _, _, _) =>
    case Revoke(j, _) =>
    case Delete(j, _, _, _) =>
    case AddDevice(_) =>
  }

  lemma PendingBus(s: State, e: Event, c: ConnId)
    requires Enabled(s, e) && c in s.conns && Pending(s, c)
    requires e.Restored? || e.Dispatch? || e.Lose?
    ensures c in Apply(s, e).conns && Pending(Apply(s, e), c)
  {
    if e.Restored? { PendingRestored(s, e.i, c); }
    else if e.Dispatch? { PendingDispatch(s, e.i, e.overflow, c); }
    else { PendingLose(s, e.i, c); }
  }

  lemma PendingConn(s: State, e: Event, c: ConnId)
    requires Enabled(s, e) && c in s.conns && Pending(s, c)
    requires e.Open? || e.Unregister? || e.Receive?
    requires c in Apply(s, e).conns && Relies(Apply(s, e).conns[c])
    ensures Pending(Apply(s, e), c)
  {
    if e.Open? { PendingOpen(s, e.i, e.d, e.c, c); }
    else if e.Unregister? { if e.c != c { PendingUnregister(s, e.c, c); } }
    else { PendingReceive(s, e.c, e.retry, c); }
  }

  lemma PendingKept(s: State, e: Event, c: ConnId)
    requires Sub.Inv(s) && Enabled(s, e) && c in s.conns && Known(s, c) && Pending(s, c)
    requires e.Continue? ==> s.conns[c].Published()
    requires c in Apply(s, e).conns && Relies(Apply(s, e).conns[c])
    ensures Pending(Apply(s, e), c)
  {
    if e.Restored? || e.Dispatch? || e.Lose? {
      PendingBus(s, e, c);
    } else if e.Open? || e.Unregister? || e.Receive? {
      PendingConn(s, e, c);
    } else if e.Continue? {
      PendingContinue(s, e.j, c);
    } else {
      T.SteadySteps(s, e);
      JobsKeptBy(s, e);
      UnrestoredKept(s, e);
      PendingSteady(s, Apply(s, e), c);
    }
  }

  // ---- the cache and the database ----

  predicate TouchesCache(e: Event, c: ConnId) {
    (e.Read? || e.Store? || e.FailRead? || e.Receive?) && e.c == c
  }

  /** The same rows in hand, and as far along as before. */
  predicate SameCache(k: Conn, k': Conn) {
    && k'.device == k.device && k'.pairs == k.pairs && k'.task == k.task && k'.stale == k.stale
    && k'.readAt == k.readAt && k'.handled == k.handled
    && (k'.Published() ==> k.Live()) && (k'.phase.Serving? ==> k.phase.Serving?)
    && (k'.Live() && !k'.Published() ==> k.Live() && !k.Published())
  }

  lemma CacheOpening(s: State, e: Event, c: ConnId)
    requires Enabled(s, e) && c in s.conns && !TouchesCache(e, c)
    requires e.Enqueue? || e.Claim? || e.Announce? || e.Read? || e.FailRead? || e.Store? || e.Receive?
    ensures c in Apply(s, e).conns && SameCache(s.conns[c], Apply(s, e).conns[c])
  {
  }

  lemma CacheEnding(s: State, e: Event, c: ConnId)
    requires Enabled(s, e) && c in s.conns && (e.Refresh? || e.Send? || e.Leave? || e.Release? || e.FailRelease?)
    ensures c in Apply(s, e).conns && SameCache(s.conns[c], Apply(s, e).conns[c])
  {
  }

  lemma CacheUnregistering(s: State, x: ConnId, c: ConnId)
    requires Enabled(s, Unregister(x)) && c in s.conns
    ensures var s' := UnregisterStep(s, x); c in s'.conns && SameCache(s.conns[c], s'.conns[c])
  {
  }

  lemma CacheDelivering(s: State, e: Event, c: ConnId)
    requires Enabled(s, e) && c in s.conns && (e.Open? || e.Restored?)
    ensures c in Apply(s, e).conns && SameCache(s.conns[c], Apply(s, e).conns[c])
  {
  }

  lemma CacheDispatching(s: State, i: InstId, overflow: bool, c: ConnId)
    requires i in s.insts && s.insts[i].stream != [] && c in s.conns
    ensures var s' := DispatchStep(s, i, overflow); c in s'.conns && SameCache(s.conns[c], s'.conns[c])
  {
  }

  lemma CacheConfirming(s: State, e: Event, c: ConnId)
    requires Enabled(s, e) && c in s.conns && (e.TakeRequest? || e.Ack?)
    ensures c in Apply(s, e).conns && SameCache(s.conns[c], Apply(s, e).conns[c])
  {
  }

  lemma CacheUntouched(s: State, e: Event, c: ConnId)
    requires Enabled(s, e) && c in s.conns && !TouchesCache(e, c)
    ensures c in Apply(s, e).conns && SameCache(s.conns[c], Apply(s, e).conns[c])
  {
    if e.Enqueue? || e.Claim? || e.Announce? || e.Read? || e.FailRead? || e.Store? || e.Receive? {
      CacheOpening(s, e, c);
    } else if e.Refresh? || e.Send? || e.Leave? || e.Release? || e.FailRelease? {
      CacheEnding(s, e, c);
    } else if e.Unregister? {
      CacheUnregistering(s, e.c, c);
    } else if e.Open? || e.Restored? {
      CacheDelivering(s, e, c);
    } else if e.Dispatch? {
      CacheDispatching(s, e.i, e.overflow, c);
    } else if e.TakeRequest? || e.Ack? {
      CacheConfirming(s, e, c);
    } else {
      T.ConnsUntouched(s, e);
    }
  }

  predicate Commits(e: Event) {
    e.Insert? || e.Revoke? || e.Delete? || e.AddDevice?
  }

  lemma HistoryKept(s: State, e: Event)
    requires Enabled(s, e) && !Commits(e)
    ensures Apply(s, e).history == s.history
  {
    if !e.Continue? { StoreKept(s, e); }
  }

  /** A commit that changes the routes of a device owes it a notice. */
  lemma CommitOwes(s: State, e: Event, c: ConnId)
    requires Enabled(s, e) && Commits(e) && Sound(Now(s)) && c in s.conns
    ensures var s' := Apply(s, e);
            && c in s'.conns && s'.conns[c] == s.conns[c]
            && (ActivePeers(Now(s'), s.conns[c].device) == ActivePeers(Now(s), s.conns[c].device) || InHandler(s', c))
  {
    var s' := Apply(s, e);
    var d := s.conns[c].device;
    var db := Now(s);
    match e
    case Insert(j, p, a, b, att, t) =>
      if d == a || d == b {
        assert Owes(Notify(d, PairsChanged), d, c) && Notify(d, PairsChanged) in s'.jobs[j];
      } else {
        InsertChangesOnlyMembers(db, p, a, b, att, t, d);
      }
    case Revoke(j, st) =>
      if d == st.signer {
        assert Owes(s'.jobs[j][1], d, c) && s'.jobs[j][1] in s'.jobs[j];
      } else if d == db.pairs[st.pair].Other(st.signer) {
        assert Owes(s'.jobs[j][0], d, c) && s'.jobs[j][0] in s'.jobs[j];
      } else {
        RevokeChangesOnlyMembers(db, st, d);
      }
    case Delete(j, gone, held, sts) => DeleteOwes(s, j, gone, held, sts, c);
    case AddDevice(x) => RegisterChangesNone(db, x, d);
  }

  lemma DeleteOwes(s: State, j: JobId, gone: DeviceId, held: seq<PairId>, sts: Option<map<PairId, Statement>>, c: ConnId)
    requires Enabled(s, Delete(j, gone, held, sts)) && Sound(Now(s)) && c in s.conns
    ensures var s' := Apply(s, Delete(j, gone, held, sts));
            ActivePeers(Now(s'), s.conns[c].device) == ActivePeers(Now(s), s.conns[c].device) || InHandler(s', c)
  {
    var s' := Apply(s, Delete(j, gone, held, sts));
    var d := s.conns[c].device;
    var db := Now(s);
    if d == gone {
      assert Owes(Notify(gone, Close), d, c) && Notify(gone, Close) in s'.jobs[j];
    } else if p :| Unrevoked(db, gone, p) && db.pairs[p].Other(gone) == d {
      assert p in held;
      var k :| 0 <= k < |held| && held[k] == p;
      var a := DeleteNotice(db, gone, p, sts);
      assert s'.jobs[j][k] == a;
      assert Owes(a, d, c) && a in s'.jobs[j];
    } else {
      DeleteChangesOnlyPeers(db, gone, d);
    }
  }

  /** The handler of a deletion tells every member of a pair it took along, then
      clears the device's presence, and closes its connection last. */
  lemma DeleteTellsInOrder(s: State, j: JobId, gone: DeviceId, held: seq<PairId>, sts: Option<map<PairId, Statement>>)
    requires Enabled(s, Delete(j, gone, held, sts)) && Sound(Now(s))
    ensures var todo := Apply(s, Delete(j, gone, held, sts)).jobs[j];
            && |todo| == |held| + 2 && todo[|held|] == ClearPresence(gone) && todo[|held| + 1] == Notify(gone, Close)
            && (forall k | 0 <= k < |held| ::
                  && held[k] in Now(s).pairs && todo[k].Notify?
                  && {Now(s).pairs[held[k]].a, Now(s).pairs[held[k]].b} == {gone, todo[k].to}
                  && if sts.None? then todo[k].msg == PairsChanged
                     else held[k] in sts.value && todo[k].msg == PairRevoked(sts.value[held[k]]))
  {
    var todo := Apply(s, Delete(j, gone, held, sts)).jobs[j];
    forall k | 0 <= k < |held|
      ensures held[k] in Now(s).pairs && todo[k].Notify?
      ensures {Now(s).pairs[held[k]].a, Now(s).pairs[held[k]].b} == {gone, todo[k].to}
      ensures if sts.None? then todo[k].msg == PairsChanged
              else held[k] in sts.value && todo[k].msg == PairRevoked(sts.value[held[k]])
    {
      assert held[k] in held;
    }
  }

  /** A reload the database refuses ends a connection that is still opening. A
      serving one goes on with its old cache and writes nothing. */
  lemma RefusedReload(s: State, c: ConnId)
    requires Enabled(s, FailRead(c))
    ensures var k, k' := s.conns[c], Apply(s, FailRead(c)).conns[c];
            if k.phase.Loading? then k'.phase.Closing?
            else && k'.phase.Serving? && k'.pairs == k.pairs && k'.readAt == k.readAt && k'.task.Idle?
                 && T.Prefix(k.handled, k'.handled)
                 && (forall n | |k.handled| <= n < |k'.handled| :: !k'.handled[n].written)
  {
    ReloadTouches(s, FailRead(c));
  }

  function ChangeOf(e: Event): Change
    requires Commits(e)
  {
    match e
    case Insert(_, p, a, b, att, t) => Inserting(p, a, b, att, t)
    case Revoke(_, st) => Revoking(st)
    case Delete(_, gone, _, _) => Deleting(gone)
    case AddDevice(d) => Registering(d)
  }

  lemma CommitIsChange(s: State, e: Event)
    requires Enabled(s, e) && Commits(e)
    ensures Allowed(Now(s), ChangeOf(e)) && Apply(s, e).history == s.history + [Changed(Now(s), ChangeOf(e))]
  {
  }

  lemma NewVersionSound(db: Db, ch: Change)
    requires Sound(db) && Allowed(db, ch)
    ensures Sound(Changed(db, ch))
  {
  }

  lemma CommitSound(s: State, e: Event)
    requires Enabled(s, e) && Sound(Now(s))
    ensures Apply(s, e).history != [] && Sound(Now(Apply(s, e)))
  {
    if Commits(e) {
      CommitIsChange(s, e);
      NewVersionSound(Now(s), ChangeOf(e));
    } else {
      HistoryKept(s, e);
    }
  }

  /** What the connection itself does to its cache. */
  lemma OwnCacheAgrees(s: State, e: Event, c: ConnId)
    requires Enabled(s, e) && c in s.conns && Agrees(s, c) && TouchesCache(e, c)
    requires Relies(s.conns[c]) ==> !Pending(s, c)
    ensures c in Apply(s, e).conns && Agrees(Apply(s, e), c)
  {
  }

  lemma AgreesStill(s: State, s': State, c: ConnId)
    requires s.history != [] && s'.history != [] && c in s.conns && c in s'.conns
    requires Agrees(s, c) && SameCache(s.conns[c], s'.conns[c])
    requires ActivePeers(Now(s'), s.conns[c].device) == ActivePeers(Now(s), s.conns[c].device) || Pending(s', c)
    requires !Pending(s, c)
    ensures Agrees(s', c)
  {
  }

  lemma AgreesOthers(s: State, e: Event, c: ConnId)
    requires Enabled(s, e) && Sound(Now(s)) && c in s.conns && Agrees(s, c) && !Pending(s, c) && !TouchesCache(e, c)
    ensures c in Apply(s, e).conns && Apply(s, e).history != [] && Agrees(Apply(s, e), c)
  {
    CacheUntouched(s, e, c);
    if Commits(e) {
      CommitOwes(s, e, c);
      AgreesStill(s, Apply(s, e), c);
    } else {
      HistoryKept(s, e);
      AgreesStill(s, Apply(s, e), c);
    }
  }

  /** With something pending before, something is pending after. */
  lemma AgreesPending(s: State, e: Event, c: ConnId)
    requires Enabled(s, e) && Sub.Inv(s) && c in s.conns && Known(s, c) && Agrees(s, c) && Pending(s, c)
    requires Apply(s, e).history != []
    ensures c in Apply(s, e).conns && Agrees(Apply(s, e), c)
  {
    T.OnlyForward(s, e, c);
    OpeningTask(s, e, c);
    if Relies(Apply(s, e).conns[c]) {
      if !TouchesCache(e, c) { CacheUntouched(s, e, c); }
      PendingKept(s, e, c);
    }
  }

  /** A connection that has not announced itself still has to load its pairs. */
  lemma OpeningTask(s: State, e: Event, c: ConnId)
    requires Enabled(s, e) && c in s.conns
    requires s.conns[c].Live() && !s.conns[c].Published() ==> s.conns[c].task == MustRead(None)
    ensures c in Apply(s, e).conns
    ensures var k := Apply(s, e).conns[c]; k.Live() && !k.Published() ==> k.task == MustRead(None)
  {
    T.OnlyForward(s, e, c);
    if !TouchesCache(e, c) { CacheUntouched(s, e, c); }
  }

  lemma AgreesKept(s: State, e: Event, c: ConnId)
    requires Enabled(s, e) && Sub.Inv(s) && Sound(Now(s)) && c in s.conns && Known(s, c) && Agrees(s, c)
    ensures c in Apply(s, e).conns && Apply(s, e).history != [] && Agrees(Apply(s, e), c)
  {
    CommitSound(s, e);
    if Pending(s, c) {
      AgreesPending(s, e, c);
    } else if TouchesCache(e, c) {
      OwnCacheAgrees(s, e, c);
    } else {
      AgreesOthers(s, e, c);
    }
  }

  lemma KnownKept(s: State, e: Event, c: ConnId)
    requires Sub.Inv(s) && Enabled(s, e) && c in s.conns && Known(s, c)
    ensures c in Apply(s, e).conns && Known(Apply(s, e), c)
  {
    T.OnlyForward(s, e, c);
    if e.Lose? {
      KnownLose(s, e.i, c);
    } else if Apply(s, e).conns[c].Live() {
      T.StaysKnown(s, e, c);
    }
  }

  lemma KnownLose(s: State, i: InstId, c: ConnId)
    requires i in s.insts && c in s.conns && Known(s, c)
    ensures Known(WithInst(s, i, Hub.Lose(s.insts[i])), c)
  {
    var s' := WithInst(s, i, Hub.Lose(s.insts[i]));
    if T.Told(s, c) {
      var m :| m in s.conns[c].inbox && T.Evicts(m, c);
      assert m in s'.conns[c].inbox;
    }
  }

  lemma NewConn(s: State, e: Event, c: ConnId)
    requires Enabled(s, e) && c in Apply(s, e).conns && c !in s.conns
    ensures Registered(Apply(s, e), c) && Apply(s, e).conns[c].task == MustRead(None)
  {
    Sub.Newcomer(s, e, c);
  }

  lemma Kept(s: State, e: Event)
    requires Inv(s) && Enabled(s, e)
    ensures Inv(Apply(s, e))
  {
    var s' := Apply(s, e);
    Sub.Kept(s, e);
    CommitSound(s, e);
    forall c | c in s'.conns ensures Known(s', c) && Agrees(s', c) {
      if c in s.conns {
        KnownKept(s, e, c);
        AgreesKept(s, e, c);
      } else {
        NewConn(s, e, c);
      }
    }
  }

  lemma {:induction false} EveryRun(s: State, es: seq<Event>)
    requires Inv(s) && IsRun(s, es)
    ensures Inv(After(s, es))
    decreases |es|
  {
    if es != [] {
      Kept(s, es[0]);
      EveryRun(Apply(s, es[0]), es[1..]);
    }
  }

  lemma InitInv(s: State)
    requires Init(s)
    ensures Inv(s)
  {
  }

  lemma ReachableInv(s: State)
    requires Reachable(s)
    ensures Inv(s)
  {
    var s0, es :| Init(s0) && IsRun(s0, es) && After(s0, es) == s;
    InitInv(s0);
    EveryRun(s0, es);
  }

  /** In every reachable state, reconnects included, a connection that has
      loaded its pairs and whose last reload for a notice did not fail routes by exactly
      the rows `active_peers` returns now, or a delivery that makes it reload
      or end is in a handler, in the stream, in its queue or about to be
      broadcast, or it is killed. */
  lemma CacheAgreement(s: State, c: ConnId)
    requires Reachable(s) && c in s.conns && s.conns[c].phase.Serving? && s.conns[c].task.Idle? && !s.conns[c].stale
    ensures s.history != []
    ensures s.conns[c].pairs == ActivePeers(Now(s), s.conns[c].device) || Pending(s, c)
  {
    ReachableInv(s);
  }

  /** When nothing is on its way, the cache holds exactly the unrevoked rows that
      have this device and a device that is not locked as their two members, and
      frames are accepted from exactly those devices. */
  lemma DrainedCacheIsExact(s: State, c: ConnId)
    requires Reachable(s) && c in s.conns && s.conns[c].phase.Serving? && s.conns[c].task.Idle? && !s.conns[c].stale
    requires !Pending(s, c)
    ensures s.history != []
    ensures forall p: PairId, f: DeviceId :: (p, f) in s.conns[c].pairs <==> Joins(Now(s), p, s.conns[c].device, f)
    ensures forall f: DeviceId :: f in s.conns[c].Peers() <==> exists p: PairId :: Joins(Now(s), p, s.conns[c].device, f)
  {
    CacheAgreement(s, c);
    ReachableInv(s);
    var k := s.conns[c];
    forall p: PairId, f: DeviceId ensures (p, f) in k.pairs <==> Joins(Now(s), p, k.device, f) {
      ActivePeersExactly(Now(s), p, k.device, f);
    }
    PeersJoin(k, Now(s));
  }

  lemma PeersJoin(k: Conn, db: Db)
    requires forall p: PairId, f: DeviceId :: (p, f) in k.pairs <==> Joins(db, p, k.device, f)
    ensures forall f: DeviceId :: f in k.Peers() <==> exists p: PairId :: Joins(db, p, k.device, f)
  {
    forall f: DeviceId ensures f in k.Peers() <==> exists p: PairId :: Joins(db, p, k.device, f) {
      if f in k.Peers() {
        var e :| e in k.pairs && e.1 == f;
        assert (e.0, f) in k.pairs;
      }
      if p: PairId :| Joins(db, p, k.device, f) {
        assert (p, f) in k.pairs;
      }
    }
  }
}

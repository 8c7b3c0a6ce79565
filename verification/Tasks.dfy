/** The objects the relay updates in place: an instance's hub, a connection's
    handler of deliveries, and the pair table. Each method does what the steps of
    the cluster model say. */
module Tasks {
  import opened Store
  import opened Messages
  import opened Connection
  import H = Hub
  import C = Cluster
  import P = Presence

  /** The registry and the bus task of one instance. A whole turn of the bus loop
      is one call; redis answers `ok`. */
  class HubTask {
    var registry: map<DeviceId, ConnId>
    var requests: seq<Request>
    var subscribed: set<DeviceId>
    ghost var channels: set<DeviceId>
    ghost var stream: seq<Envelope>

    ghost function View(): H.Inst reads this {
      H.Inst(registry, requests, subscribed, channels, stream, H.Ready)
    }

    constructor ()
      ensures View() == H.EMPTY
    {
      registry, requests, subscribed, channels, stream := map[], [], {}, {}, [];
    }

    /** Make `c` the device's local connection; returns the one it replaces. */
    method Register(d: DeviceId, c: ConnId) returns (previous: Option<ConnId>)
      modifies this
      ensures View() == H.Register(old(View()), d, c)
      ensures previous == if d in old(registry) then Some(old(registry)[d]) else None
    {
      previous := if d in registry then Some(registry[d]) else None;
      registry := registry[d := c];
    }

    method QueueSubscribe(d: DeviceId, c: ConnId)
      modifies this`requests
      ensures View() == H.Enqueue(old(View()), Subscribe(d, c))
    {
      requests := requests + [Subscribe(d, c)];
    }

    /** Forget the connection if it is still the current one. */
    method Unregister(d: DeviceId, c: ConnId) returns (was: bool)
      modifies this
      ensures was == H.IsCurrent(old(View()), d, c)
      ensures View() == if was then H.Unregister(old(View()), d) else old(View())
    {
      was := d in registry && registry[d] == c;
      if was {
        registry := registry - {d};
        requests := requests + [Unsubscribe(d)];
      }
    }

    /** One request. Returns the connection whose subscription is confirmed. */
    method HandleRequest(ok: bool) returns (confirmed: Option<ConnId>)
      requires requests != []
      modifies this
      ensures View() == HandledRequest(old(View()), ok)
      ensures confirmed.Some? ==>
                old(requests)[0].Subscribe? && confirmed.value == old(requests)[0].conn
                && old(requests)[0].device in subscribed
      ensures old(requests)[0].Subscribe? && confirmed.None? ==> !ok && old(requests)[0].device !in subscribed
    {
      var r := requests[0];
      requests := requests[1..];
      confirmed := None;
      match r {
        case Subscribe(d, c) =>
          if d in subscribed {
            confirmed := Some(c);
          } else if ok {
            channels := channels + {d};
            subscribed := subscribed + {d};
            confirmed := Some(c);
          }
        case Unsubscribe(d) =>
          if d !in registry && d in subscribed {
            subscribed := subscribed - {d};
            channels := if ok then channels - {d} else channels;
          }
      }
    }

    /** The pub/sub connection was lost: subscribe every registered device again,
        skipping those redis refuses. */
    method Reconnect(refused: set<DeviceId>)
      modifies this
      ensures registry == old(registry) && requests == old(requests) && stream == []
      ensures subscribed == channels == registry.Keys - refused
      ensures refused == {} ==> View() == RestoredAll(old(View()))
    {
      var done := SubscribeEach(registry.Keys, refused);
      stream, channels, subscribed := [], done, done;
    }
  }

  method SubscribeEach(devices: set<DeviceId>, refused: set<DeviceId>) returns (done: set<DeviceId>)
    ensures done == devices - refused
  {
    done := {};
    var todo := devices;
    while todo != {}
      invariant todo <= devices
      invariant forall d :: d in done <==> d in devices && d !in todo && d !in refused
      decreases |todo|
    {
      var d :| d in todo;
      if d !in refused {
        done := done + {d};
      }
      todo := todo - {d};
    }
  }

  /** A request, from taking it to the end of the turn. */
  function HandledRequest(h: H.Inst, ok: bool): H.Inst
    requires h.bus.Ready? && h.requests != []
  {
    if h.requests[0].Subscribe? && h.requests[0].device !in h.subscribed && !ok
    then h.(requests := h.requests[1..])
    else
      var h1 := H.TakeRequest(h);
      match h1.bus
      case Acking(_, _) => H.Ack(h1)
      case Checked(_) => var h2 := H.Remove(h1); if h2.bus.Dropping? then H.Drop(h2, ok) else h2
      case _ => h1
  }

  function RestoredAll(h: H.Inst): H.Inst {
    h.(stream := [], channels := h.registry.Keys, subscribed := h.registry.Keys, bus := H.Ready)
  }

  // ---- a connection and its deliveries ----

  const MISS_RELOAD_GAP := 1000

  /** What a delivery makes the connection do towards its device. */
  datatype Reaction = WriteFrame(frame: Frame) | DropFrame | WriteNotice(st: Statement) | Nothing | End

  /** A delivery, from taking it to the end of the reload it causes. `rows` is
      what the database answers, if it does. */
  function HandledDelivery(me: ConnId, k: Conn, m: Delivery, retry: bool, held: bool,
                           version: nat, rows: Option<set<(PairId, DeviceId)>>): Conn
    requires k.phase.Serving? && k.task.Idle?
  {
    var k1 := OnDelivery(me, k, m, retry, held);
    if !k1.task.MustRead? then k1
    else if rows.None? then ReadFails(k1)
    else Assign(k1.(task := Got(version, rows.value, k1.task.hold)))
  }

  /** A reload in the cluster model: read the database, then store what was read. */
  lemma ReloadInSteps(s: C.State, c: ConnId)
    requires C.Enabled(s, C.Read(c))
    ensures var s' := C.Apply(s, C.Read(c));
            && C.Enabled(s', C.Store(c))
            && C.Apply(s', C.Store(c)).conns[c]
               == Assign(s.conns[c].(task := Got(|s.history| - 1, ActivePeers(C.Now(s), s.conns[c].device), HoldOf(s.conns[c].task))))
  {
  }

  lemma ReceiveInSteps(s: C.State, c: ConnId, retry: bool)
    requires C.Enabled(s, C.Receive(c, retry))
    ensures var k := s.conns[c];
            var s' := C.Apply(s, C.Receive(c, retry));
            && s'.history == s.history
            && s'.conns[c] == OnDelivery(c, k.(inbox := k.inbox[1..]), k.inbox[0], retry,
                                         P.MayHold(s.presence, k.device, k.inst))
            && s'.conns[c].device == k.device
            && (s'.conns[c].task.MustRead? ==> C.Enabled(s', C.Read(c)))
  {
  }

  /** In the cluster model the same happens in up to three steps: take the message,
      read the database, store what was read. */
  lemma DeliveryInSteps(s: C.State, c: ConnId, retry: bool)
    requires C.Enabled(s, C.Receive(c, retry))
    ensures var k := s.conns[c];
            var s1 := C.Apply(s, C.Receive(c, retry));
            var whole := HandledDelivery(c, k.(inbox := k.inbox[1..]), k.inbox[0], retry,
                                         P.MayHold(s.presence, k.device, k.inst),
                                         |s.history| - 1, Some(ActivePeers(C.Now(s), k.device)));
            if !s1.conns[c].task.MustRead? then s1.conns[c] == whole
            else
              && C.Enabled(s1, C.Read(c))
              && var s2 := C.Apply(s1, C.Read(c));
                 C.Enabled(s2, C.Store(c)) && C.Apply(s2, C.Store(c)).conns[c] == whole
  {
    ReceiveInSteps(s, c, retry);
    var s1 := C.Apply(s, C.Receive(c, retry));
    if s1.conns[c].task.MustRead? { ReloadInSteps(s1, c); }
  }

  /** What each message makes the connection do, given the peers it has in the end. */
  predicate Answers(me: ConnId, msg: BusMsg, peers: set<DeviceId>, r: Reaction) {
    match msg
    case Forward(from, _, frame) => r == if from in peers then WriteFrame(frame) else DropFrame
    case PairRevoked(st) => r == WriteNotice(st)
    case PairsChanged => r == Nothing
    case Replace(c) => r == if c == me then Nothing else End
    case Close => r == End
  }

  function Logged(msg: BusMsg, peers: set<DeviceId>, at: nat): seq<Handled> {
    if msg.Forward? then [Handled(msg.from, msg.via, msg.frame, msg.from in peers, at)] else []
  }

  /** When an unknown sender last caused a reload. */
  function Missed(peers: set<DeviceId>, miss: Option<int>, m: Delivery, now: int): Option<int> {
    if m.Bus? && m.msg.Forward? && m.msg.from !in peers && (miss.None? || now - miss.value >= 1000) then Some(now) else miss
  }

  /** A delivery and what the clock, Redis and the database say to it. */
  datatype Turn = Turn(m: Delivery, now: int, held: bool, rows: Option<set<(PairId, DeviceId)>>, version: nat)

  datatype Progress = Progress(k: Conn, miss: Option<int>)

  function Turned(me: ConnId, p: Progress, t: Turn): (p': Progress)
    requires p.k.phase.Serving? && p.k.task.Idle?
    ensures p'.k.task.Idle?
  {
    var retry := p.miss.None? || t.now - p.miss.value >= MISS_RELOAD_GAP;
    Progress(HandledDelivery(me, p.k, t.m, retry, t.held, t.version, t.rows), Missed(p.k.Peers(), p.miss, t.m, t.now))
  }

  function Served(me: ConnId, p: Progress, ts: seq<Turn>): Progress
    requires p.k.task.Idle?
    decreases |ts|
  {
    if ts == [] || !p.k.phase.Serving? then p else Served(me, Turned(me, p, ts[0]), ts[1..])
  }

  /** The frames written to the device, by the reactions and by the log. */
  function FramesOf(out: seq<Reaction>): seq<Frame> {
    if out == [] then []
    else FramesOf(out[..|out| - 1]) + (if out[|out| - 1].WriteFrame? then [out[|out| - 1].frame] else [])
  }

  function WrittenOf(log: seq<Handled>): seq<Frame> {
    if log == [] then []
    else WrittenOf(log[..|log| - 1]) + (if log[|log| - 1].written then [log[|log| - 1].frame] else [])
  }

  /** The reaction and what was logged with it say the same. */
  predicate Matches(r: Reaction, more: seq<Handled>) {
    && |more| <= 1
    && ((|more| == 1 && more[0].written) <==> r.WriteFrame?)
    && (r.WriteFrame? ==> r.frame == more[0].frame)
  }

  lemma WroteOne(out: seq<Reaction>, r: Reaction, log: seq<Handled>, more: seq<Handled>)
    requires FramesOf(out) == WrittenOf(log) && Matches(r, more)
    ensures FramesOf(out + [r]) == WrittenOf(log + more)
  {
    assert (out + [r])[..|out|] == out;
    if more == [] {
      assert log + more == log;
    } else {
      assert (log + more)[..|log|] == log;
    }
  }

  predicate Extends(log: seq<Handled>, before: seq<Handled>) {
    |before| <= |log| && log[..|before|] == before
  }

  /** What the reactions wrote is what the log says beyond `before`. */
  predicate WroteSince(out: seq<Reaction>, before: seq<Handled>, log: seq<Handled>) {
    Extends(log, before) && FramesOf(out) == WrittenOf(log[|before|..])
  }

  lemma WroteSincePush(out: seq<Reaction>, r: Reaction, before: seq<Handled>, had: seq<Handled>, log: seq<Handled>)
    requires WroteSince(out, before, had) && Extends(log, had) && Matches(r, log[|had|..])
    ensures WroteSince(out + [r], before, log)
  {
    WroteOne(out, r, had[|before|..], log[|had|..]);
    assert log[|before|..] == had[|before|..] + log[|had|..];
    assert log[..|before|] == had[..|before|];
  }

  /** One reaction for each delivery, a notice for a revocation, and only the last
      reaction may end the connection. */
  predicate Reacted(ts: seq<Turn>, out: seq<Reaction>, ended: bool) {
    && |out| <= |ts|
    && (forall i | 0 <= i < |out| :: out[i].End? <==> ended && i == |out| - 1)
    && (forall i | 0 <= i < |out| :: Noticed(ts[i].m, out[i]))
  }

  predicate Noticed(m: Delivery, r: Reaction) {
    if m.Bus? && m.msg.PairRevoked? then r == WriteNotice(m.msg.statement) else !r.WriteNotice?
  }

  class ConnTask {
    const me: ConnId
    const inst: InstId
    const device: DeviceId
    var pairs: set<(PairId, DeviceId)>
    var peers: set<DeviceId>
    var lastMiss: Option<int>
    var ended: bool
    ghost var readAt: nat
    ghost var stale: bool
    ghost var handled: seq<Handled>

    ghost predicate Valid() reads this {
      peers == set e | e in pairs :: e.1
    }

    /** The connection while it serves, its queue and its sends left aside. */
    ghost function View(): Conn reads this {
      Conn(inst, device, if ended then Closing else Serving, [], false, pairs, readAt, stale, Idle, handled, [])
    }

    constructor (me: ConnId, inst: InstId, device: DeviceId, pairs: set<(PairId, DeviceId)>, version: nat)
      ensures Valid() && !ended && lastMiss.None? && handled == [] && this.pairs == pairs && readAt == version
    {
      this.me, this.inst, this.device, this.pairs := me, inst, device, pairs;
      peers := set e | e in pairs :: e.1;
      lastMiss, ended, readAt, stale, handled := None, false, version, false, [];
    }

    /** `false` on a database error; the cache then stays, and is stale if a notice
        caused the reload. */
    method ReloadPeers(rows: Option<set<(PairId, DeviceId)>>, ghost version: nat, ghost notice: bool) returns (ok: bool)
      requires Valid()
      modifies this`pairs, this`peers, this`readAt, this`stale
      ensures Valid() && ok == rows.Some?
      ensures if ok then pairs == rows.value && readAt == version && !stale
              else pairs == old(pairs) && readAt == old(readAt) && stale == (old(stale) || notice)
    {
      ok := rows.Some?;
      stale := stale || notice;
      if ok {
        peers := set e | e in rows.value :: e.1;
        pairs := rows.value;
        readAt, stale := version, false;
      }
    }

    /** An unknown peer causes a reload, at most one a second. */
    predicate MayRetry(now: int) reads this {
      lastMiss.None? || now - lastMiss.value >= MISS_RELOAD_GAP
    }

    method IsPeer(peer: DeviceId, now: int, rows: Option<set<(PairId, DeviceId)>>, ghost version: nat) returns (yes: bool)
      requires Valid()
      modifies this`pairs, this`peers, this`readAt, this`stale, this`lastMiss
      ensures Valid() && (yes <==> peer in peers)
      ensures old(peer in peers || !MayRetry(now)) ==> unchanged(this)
      ensures old(peer !in peers && MayRetry(now)) ==>
                && lastMiss == Some(now)
                && (if rows.Some? then pairs == rows.value && readAt == version && !stale
                    else pairs == old(pairs) && readAt == old(readAt) && stale == old(stale))
    {
      if peer in peers {
        return true;
      }
      if lastMiss.Some? && now - lastMiss.value < MISS_RELOAD_GAP {
        return false;
      }
      lastMiss := Some(now);
      var ok := ReloadPeers(rows, version, false);
      yes := ok && peer in peers;
    }

    /** What the database answered becomes the cache, if it answered. */
    twostate predicate Reloaded(rows: Option<set<(PairId, DeviceId)>>, version: nat) reads this {
      if rows.Some? then pairs == rows.value && readAt == version && !stale
      else pairs == old(pairs) && readAt == old(readAt) && stale
    }

    twostate predicate Kept() reads this {
      pairs == old(pairs) && readAt == old(readAt) && stale == old(stale)
    }

    /** The whole handling of one delivery is that of the model. A frame is written
        exactly when its sender is a peer in the end, and logged as what was done
        with it; a revocation is written whether or not the reload worked. */
    method OnDelivered(m: Delivery, now: int, held: bool, rows: Option<set<(PairId, DeviceId)>>, ghost version: nat)
      returns (r: Reaction)
      requires Valid() && !ended
      modifies this
      ensures Valid()
      ensures View() == HandledDelivery(me, old(View()), m, old(MayRetry(now)), held, version, rows)
      ensures lastMiss == Missed(old(peers), old(lastMiss), m, now)
      ensures ended <==> r.End?
      ensures m.Resync? ==> r == if held then Nothing else End
      ensures m.Resync? && held ==> Reloaded(rows, version)
      ensures m.Bus? ==> Answers(me, m.msg, peers, r) && handled == old(handled) + Logged(m.msg, peers, readAt)
      ensures m.Bus? && (m.msg.PairRevoked? || m.msg.PairsChanged?) ==> Reloaded(rows, version)
      ensures m.Bus? && m.msg.Forward? && old(m.msg.from in peers || !MayRetry(now)) ==> Kept()
    {
      match m {
        case Resync =>
          r := End;
          if held {
            var _ := ReloadPeers(rows, version, true);
            r := Nothing;
          }
          ended := !held;
        case Bus(msg) =>
          r := OnMessage(msg, now, rows, version);
      }
    }

    method OnMessage(msg: BusMsg, now: int, rows: Option<set<(PairId, DeviceId)>>, ghost version: nat)
      returns (r: Reaction)
      requires Valid() && !ended
      modifies this
      ensures Valid()
      ensures View() == HandledDelivery(me, old(View()), Bus(msg), old(MayRetry(now)), true, version, rows)
      ensures lastMiss == Missed(old(peers), old(lastMiss), Bus(msg), now)
      ensures ended <==> r.End?
      ensures Answers(me, msg, peers, r) && handled == old(handled) + Logged(msg, peers, readAt)
      ensures msg.PairRevoked? || msg.PairsChanged? ==> Reloaded(rows, version)
      ensures msg.Forward? && old(msg.from in peers || !MayRetry(now)) ==> Kept()
    {
      match msg {
        case Forward(from, via, frame) =>
          var yes := IsPeer(from, now, rows, version);
          handled := handled + [Handled(from, via, frame, yes, readAt)];
          r := if yes then WriteFrame(frame) else DropFrame;
        case PairRevoked(st) =>
          var _ := ReloadPeers(rows, version, true);
          r := WriteNotice(st);
        case PairsChanged =>
          var _ := ReloadPeers(rows, version, true);
          r := Nothing;
        case Replace(c) =>
          ended := c != me;
          r := if c != me then End else Nothing;
        case Close =>
          ended := true;
          r := End;
      }
    }

    method TakeTurn(t: Turn) returns (r: Reaction)
      requires Valid() && !ended
      modifies this
      ensures Valid() && (ended <==> r.End?)
      ensures Progress(View(), lastMiss) == Turned(me, old(Progress(View(), lastMiss)), t)
      ensures Extends(handled, old(handled)) && Matches(r, handled[|old(handled)|..])
      ensures Noticed(t.m, r)
    {
      r := OnDelivered(t.m, t.now, t.held, t.rows, t.version);
      if t.m.Resync? { assert View().handled == old(View()).handled; }
    }

    /** The serving loop over what arrives: one delivery after the other, until one
        ends the connection. The frames written are, in order, the ones logged as
        written. */
    method Serve(ts: seq<Turn>) returns (out: seq<Reaction>)
      requires Valid() && !ended
      modifies this
      ensures Valid()
      ensures Progress(View(), lastMiss) == Served(me, old(Progress(View(), lastMiss)), ts)
      ensures WroteSince(out, old(handled), handled)
      ensures Reacted(ts, out, ended) && (!ended ==> |out| == |ts|)
    {
      out := [];
      ghost var before := handled;
      ghost var start := Progress(View(), lastMiss);
      while |out| < |ts| && !ended
        invariant Valid() && Reacted(ts, out, ended) && WroteSince(out, before, handled)
        invariant Served(me, start, ts) == Served(me, Progress(View(), lastMiss), ts[|out|..])
        decreases |ts| - |out|
      {
        ghost var had := handled;
        assert ts[|out|..][1..] == ts[|out| + 1..];
        var r := TakeTurn(ts[|out|]);
        WroteSincePush(out, r, before, had, handled);
        out := out + [r];
      }
    }
  }

  // ---- the pair table ----

  lemma ActiveMembers(db: Db, d: DeviceId)
    ensures Sound(db) ==> forall p: PairId, y: DeviceId :: (p, y) in ActivePeers(db, d) <==> Joins(db, p, d, y)
  {
    if Sound(db) {
      forall p: PairId, y: DeviceId
        ensures (p, y) in ActivePeers(db, d) <==> Joins(db, p, d, y)
      {
        ActivePeersExactly(db, p, d, y);
      }
    }
  }

  datatype InsertOutcome = Created | Existing(row: Row) | Refused

  class PairTable {
    var db: Db

    constructor (db: Db)
      requires Sound(db)
      ensures this.db == db
    {
      this.db := db;
    }

    /** Insert if absent, otherwise return the stored row; a device that is not
        registered violates a foreign key. */
    method Insert(p: PairId, a: DeviceId, b: DeviceId, attestation: Bytes, created: int) returns (r: InsertOutcome)
      requires Sound(db)
      modifies this
      ensures Sound(db)
      ensures r.Created? <==> old(p !in db.pairs && a in db.devices && b in db.devices && a != b)
      ensures db == if r.Created? then old(db).(pairs := old(db).pairs[p := Row(a, b, attestation, created, None)]) else old(db)
      ensures r.Created? ==> CanInsert(old(db), p, a, b) && db == InsertPair(old(db), p, a, b, attestation, created)
      ensures r.Existing? <==> p in old(db).pairs
      ensures r.Existing? ==> r.row == db.pairs[p]
    {
      if p in db.pairs {
        return Existing(db.pairs[p]);
      }
      if a !in db.devices || b !in db.devices || a == b {
        return Refused;
      }
      db := db.(pairs := db.pairs[p := Row(a, b, attestation, created, None)]);
      r := Created;
    }

    /** Returns the peer to notify, or nothing when nothing changed. */
    method Revoke(st: Statement) returns (peer: Option<DeviceId>)
      requires Sound(db)
      modifies this
      ensures Sound(db)
      ensures db == RevokePair(old(db), st)
      ensures peer.Some? <==> st.pair in old(db).pairs && old(db).pairs[st.pair].revoked.None?
                              && (st.signer == old(db).pairs[st.pair].a || st.signer == old(db).pairs[st.pair].b)
      ensures if peer.None? then db == old(db)
              else var row := old(db).pairs[st.pair];
                   && {st.signer, peer.value} == {row.a, row.b}
                   && db == old(db).(pairs := old(db).pairs[st.pair := Row(row.a, row.b, row.attestation, row.created, Some(st))])
    {
      if st.pair !in db.pairs {
        return None;
      }
      var row := db.pairs[st.pair];
      if (row.a != st.signer && row.b != st.signer) || row.revoked.Some? {
        return None;
      }
      db := db.(pairs := db.pairs[st.pair := row.(revoked := Some(st))]);
      peer := Some(if row.a == st.signer then row.b else row.a);
    }

    /** The peers a connection of `d` may reach. */
    method ReadActivePeers(d: DeviceId) returns (rows: set<(PairId, DeviceId)>)
      ensures rows == ActivePeers(db, d)
      ensures Sound(db) ==> forall p: PairId, y: DeviceId :: (p, y) in rows <==> Joins(db, p, d, y)
    {
      ActiveMembers(db, d);
      rows := {};
      var left := db.pairs.Keys;
      while left != {}
        invariant left <= db.pairs.Keys
        invariant rows == set p | p in db.pairs && p !in left && Routes(db, d, p) :: (p, db.pairs[p].Other(d))
        decreases |left|
      {
        var p :| p in left;
        var row := db.pairs[p];
        if row.Has(d) && row.revoked.None? && row.Other(d) in db.devices && row.Other(d) !in db.locked {
          rows := rows + {(p, row.Other(d))};
        }
        left := left - {p};
      }
    }
  }
}

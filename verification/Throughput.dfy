/** What the bucket and the single waiting slot guarantee together, over whole
    runs of the sending loop: a throughput bound per peer, and waits that never
    accumulate. */
module Throughput {
  import opened Store
  import opened Wire
  import opened Bandwidth
  import opened Inbound

  predicate WaitsFor(l: Loop, d: Uuid) {
    l.pending.Some? && l.pending.value.to == d
  }

  /** Every bucket has recovered, except that of the waiting frame, which
      recovers at its deadline. */
  predicate BucketOk(l: Loop, d: Uuid, b: Bucket) {
    && b.rate == l.rate && b.updated <= l.now && b.tokens <= l.rate
    && (if WaitsFor(l, d) then l.pending.value.deadline == b.updated + Wait(b) else Paid(b, l.now))
  }

  predicate Solvent(l: Loop) {
    forall d | d in l.buckets :: BucketOk(l, d, l.buckets[d])
  }

  // ---- arithmetic ----

  lemma Spread(r: real, a: real, b: real)
    ensures a * r + b * r == (a + b) * r
  {
  }

  lemma MoreTimePays(b: Bucket, now: real, later: real)
    requires now <= later && Paid(b, now)
    ensures Paid(b, later)
  {
    Scale(b.rate, now - b.updated, later - b.updated);
  }

  lemma FreshTake(b: Bucket, now: real)
    requires b.updated == now && Wait(b) == 0.0
    ensures Paid(b, now)
  {
    if b.tokens < 0.0 {
      Quotient(-b.tokens, b.rate);
      assert false;
    }
  }

  // ---- solvency ----

  lemma TakenBucket(l: Loop, to: Uuid, bytes: nat, b: Bucket)
    requires Solvent(l) && l.pending.None? && b == Take(BucketFor(l, to), bytes, l.now)
    ensures b.rate == l.rate && b.updated == l.now && b.tokens <= l.rate
    ensures Wait(b) <= bytes as real / l.rate
  {
    var b0 := BucketFor(l, to);
    if to in l.buckets { assert BucketOk(l, to, b0); }
    TakeFacts(b0, bytes, l.now);
    WaitIsBounded(b0, bytes, l.now);
  }

  lemma TakeSolvent(l: Loop, to: Uuid, b: Bucket)
    requires Solvent(l) && l.pending.None? && b.rate == l.rate && b.updated == l.now && b.tokens <= l.rate
    ensures Wait(b) == 0.0 ==> Solvent(l.(buckets := l.buckets[to := b]))
    ensures forall p: Pending | p.to == to && p.deadline == l.now + Wait(b) ::
              Solvent(l.(buckets := l.buckets[to := b], pending := Some(p)))
  {
    if Wait(b) == 0.0 { FreshTake(b, l.now); }
    forall d | d in l.buckets ensures BucketOk(l, d, l.buckets[d]) {}
  }

  lemma TickSolvent(l: Loop, dt: real)
    requires Solvent(l) && dt >= 0.0
    ensures Solvent(l.(now := l.now + dt))
  {
    var l' := l.(now := l.now + dt);
    forall d | d in l'.buckets ensures BucketOk(l', d, l'.buckets[d]) {
      assert BucketOk(l, d, l.buckets[d]);
      if !WaitsFor(l, d) { MoreTimePays(l.buckets[d], l.now, l'.now); }
    }
  }

  lemma FireSolvent(l: Loop, reached: bool)
    requires Solvent(l) && Enabled(l, Fire(reached))
    ensures Solvent(Apply(l, Fire(reached)))
  {
    var l' := Apply(l, Fire(reached));
    forall d | d in l'.buckets ensures BucketOk(l', d, l'.buckets[d]) {
      assert BucketOk(l, d, l.buckets[d]);
      if WaitsFor(l, d) { WaitRepays(l.buckets[d], l.now); }
    }
  }

  lemma ForwardSolvent(l: Loop, f: Frame, to: Uuid, bus: BusCodec.BusMessage, bytes: nat, reached: bool)
    requires Solvent(l) && l.pending.None?
    ensures Solvent(Forward(l, f, to, bus, bytes, reached))
  {
    if to in l.peers {
      var b := Take(BucketFor(l, to), bytes, l.now);
      TakenBucket(l, to, bytes, b);
      TakeSolvent(l, to, b);
      var p := Pending(f, l.peers, to, bus, bytes, l.now + Wait(b));
      assert Wait(b) != 0.0 ==> Solvent(l.(buckets := l.buckets[to := b], pending := Some(p)));
    }
  }

  lemma SolventKept(l: Loop, e: Event)
    requires Solvent(l) && Enabled(l, e)
    ensures Solvent(Apply(l, e))
  {
    match e
    case Tick(dt) => TickSolvent(l, dt);
    case Reload(_) =>
    case ReadFrame(f, reached) =>
      if Route(f, l.me).Go? {
        var g := Route(f, l.me);
        ForwardSolvent(l.(read := l.read + [f]), f, g.to, g.bus, g.bytes, reached);
      }
    case Fire(reached) => FireSolvent(l, reached);
  }

  lemma WaitOfOne(l: Loop, f: Frame, reached: bool)
    requires Solvent(l) && Enabled(l, ReadFrame(f, reached)) && Apply(l, ReadFrame(f, reached)).pending.Some?
    ensures var p := Apply(l, ReadFrame(f, reached)).pending.value;
            p.frame == f && p.deadline - l.now <= p.bytes as real / l.rate
  {
    var g := Route(f, l.me);
    TakenBucket(l, g.to, g.bytes, Take(BucketFor(l, g.to), g.bytes, l.now));
  }

  lemma {:induction false} SolventOverRun(l: Loop, es: seq<Event>)
    requires Solvent(l) && IsRun(l, es)
    ensures Solvent(After(l, es))
    decreases |es|
  {
    if es != [] {
      SolventKept(l, es[0]);
      SolventOverRun(Apply(l, es[0]), es[1..]);
    }
  }

  /** Debt never accumulates: after any run from the start of a connection, a frame
      waits at most its own size divided by the rate. */
  lemma WaitNeverAccumulates(l0: Loop, es: seq<Event>, l: Loop, f: Frame, reached: bool)
    requires Start(l0) && IsRun(l0, es) && l == After(l0, es)
    requires Enabled(l, ReadFrame(f, reached)) && Apply(l, ReadFrame(f, reached)).pending.Some?
    ensures var p := Apply(l, ReadFrame(f, reached)).pending.value;
            p.frame == f && p.deadline - l.now <= p.bytes as real / l.rate
  {
    SolventOverRun(l0, es);
    WaitOfOne(l, f, reached);
  }

  // ---- throughput ----

  function Cost(x: Entry, d: Uuid): real {
    if x.outcome.Passed? && x.outcome.to == d then x.outcome.bytes as real else 0.0
  }

  /** Bytes published to `d` in a stretch of the log. */
  function Sum(q: seq<Entry>, d: Uuid): (r: real)
    ensures r >= 0.0
  {
    if q == [] then 0.0 else Sum(q[..|q| - 1], d) + Cost(q[|q| - 1], d)
  }

  function Waiting(l: Loop, d: Uuid): real {
    if WaitsFor(l, d) then l.pending.value.bytes as real else 0.0
  }

  predicate PassedTo(l: Loop, k: nat, d: Uuid) {
    k < |l.log| && l.log[k].outcome.Passed? && l.log[k].outcome.to == d
  }

  /** Charged to `d` since entry `k` was published, the waiting frame included. */
  function Since(l: Loop, k: nat, d: Uuid): real
    requires k < |l.log|
  {
    Sum(l.log[k + 1..], d) + Waiting(l, d)
  }

  /** All that was charged since time `from` fits what the bucket let through. */
  predicate Within(l: Loop, charged: real, d: Uuid, from: real) {
    charged == 0.0 || (d in l.buckets &&
                       var b := l.buckets[d];
                       charged <= l.rate - b.tokens + (b.updated - from) * l.rate)
  }

  predicate Bounded(l: Loop, k: nat, d: Uuid)
    requires PassedTo(l, k, d)
  {
    && l.log[k].outcome.at <= l.now
    && Within(l, Since(l, k, d), d, l.log[k].outcome.at)
    && AllFit(l, k, d)
  }

  predicate AllFit(l: Loop, k: nat, d: Uuid)
    requires PassedTo(l, k, d)
  {
    forall j | k < j < |l.log| && PassedTo(l, j, d) :: Fits(l, k, j, d)
  }

  lemma SumGrows(log: seq<Entry>, x: Entry, k: nat, d: Uuid)
    requires k < |log|
    ensures Sum((log + [x])[k + 1..], d) == Sum(log[k + 1..], d) + Cost(x, d)
  {
    var q := (log + [x])[k + 1..];
    assert q[..|q| - 1] == log[k + 1..];
  }

  /** The bytes from just after entry `k` up to entry `j` fit the rate. */
  predicate Fits(l: Loop, k: nat, j: nat, d: Uuid)
    requires k < j < |l.log| && l.log[k].outcome.Passed? && l.log[j].outcome.Passed?
  {
    Sum(l.log[k + 1..j + 1], d) <= l.rate + (l.log[j].outcome.at - l.log[k].outcome.at) * l.rate
  }

  lemma FitsGrows(l: Loop, l': Loop, x: Entry, k: nat, d: Uuid)
    requires l'.log == l.log + [x] && l'.rate == l.rate
    requires PassedTo(l, k, d) && AllFit(l, k, d)
    requires PassedTo(l', |l.log|, d) ==> Fits(l', k, |l.log|, d)
    ensures PassedTo(l', k, d) && AllFit(l', k, d)
  {
    forall j | k < j < |l'.log| && PassedTo(l', j, d) ensures Fits(l', k, j, d) {
      if j < |l.log| {
        assert PassedTo(l, j, d);
        assert l'.log[k + 1..j + 1] == l.log[k + 1..j + 1];
      }
    }
  }

  lemma ChargeArithmetic(r: real, charged: real, cost: real, x: real, u: real, x': real, now: real, from: real)
    requires charged <= r - x + (u - from) * r && x' <= x + (now - u) * r - cost
    ensures charged + cost <= r - x' + (now - from) * r
  {
    Spread(r, now - u, u - from);
  }

  lemma FirstCharge(r: real, cost: real, x': real, now: real, from: real)
    requires r > 0.0 && from <= now && x' <= r - cost
    ensures cost <= r - x' + (now - from) * r
  {
    Scale(r, 0.0, now - from);
  }

  /** Charging a frame for `d` keeps the account within bounds. */
  lemma ChargeWithin(l: Loop, charged: real, d: Uuid, from: real, cost: nat, tokens: real)
    requires Within(l, charged, d, from) && from <= l.now && tokens <= l.rate - cost as real
    requires d in l.buckets ==>
               var b := l.buckets[d]; tokens <= b.tokens + (l.now - b.updated) * l.rate - cost as real
    ensures charged + cost as real <= l.rate - tokens + (l.now - from) * l.rate
  {
    if charged == 0.0 {
      FirstCharge(l.rate, cost as real, tokens, l.now, from);
    } else {
      var b := l.buckets[d];
      ChargeArithmetic(l.rate, charged, cost as real, b.tokens, b.updated, tokens, l.now, from);
    }
  }

  /** When the last charge for `d` is published, the debt it left is repaid. */
  lemma PublishedWithin(l: Loop, charged: real, d: Uuid, from: real)
    requires Solvent(l) && d in l.buckets && Paid(l.buckets[d], l.now)
    requires charged <= l.rate - l.buckets[d].tokens + (l.buckets[d].updated - from) * l.rate
    ensures charged <= l.rate + (l.now - from) * l.rate
  {
    var b := l.buckets[d];
    assert BucketOk(l, d, b);
    Spread(l.rate, l.now - b.updated, b.updated - from);
  }

  predicate SameBucket(l: Loop, l': Loop, d: Uuid) {
    l'.rate == l.rate && (d in l.buckets ==> d in l'.buckets && l'.buckets[d] == l.buckets[d])
  }

  lemma QuietBounded(l: Loop, l': Loop, k: nat, d: Uuid)
    requires PassedTo(l, k, d) && Bounded(l, k, d)
    requires l'.log == l.log && l'.now >= l.now && SameBucket(l, l', d) && Waiting(l', d) == Waiting(l, d)
    ensures PassedTo(l', k, d) && Bounded(l', k, d)
  {
    forall j | k < j < |l'.log| && PassedTo(l', j, d) ensures Fits(l', k, j, d) {
      assert PassedTo(l, j, d) && Fits(l, k, j, d);
    }
  }

  lemma OtherBounded(l: Loop, l': Loop, x: Entry, k: nat, d: Uuid)
    requires PassedTo(l, k, d) && Bounded(l, k, d)
    requires l'.log == l.log + [x] && !(x.outcome.Passed? && x.outcome.to == d)
    requires l'.now >= l.now && SameBucket(l, l', d) && Waiting(l', d) == Waiting(l, d)
    ensures PassedTo(l', k, d) && Bounded(l', k, d)
  {
    SumGrows(l.log, x, k, d);
    FitsGrows(l, l', x, k, d);
  }

  /** `x` passes to `d`: everything charged so far is published. */
  lemma PassedBounded(l: Loop, l': Loop, x: Entry, k: nat, d: Uuid)
    requires PassedTo(l, k, d) && AllFit(l, k, d) && l.log[k].outcome.at <= l.now
    requires l'.log == l.log + [x] && x.outcome.Passed? && x.outcome.to == d && x.outcome.at == l'.now == l.now
    requires l'.rate == l.rate && Solvent(l') && !WaitsFor(l', d) && d in l'.buckets
    requires Within(l', Sum(l.log[k + 1..], d) + x.outcome.bytes as real, d, l.log[k].outcome.at)
    ensures PassedTo(l', k, d) && Bounded(l', k, d)
  {
    SumGrows(l.log, x, k, d);
    var from := l.log[k].outcome.at;
    var charged := Sum(l.log[k + 1..], d) + x.outcome.bytes as real;
    assert BucketOk(l', d, l'.buckets[d]);
    if charged == 0.0 {
      Scale(l.rate, 0.0, l.now - from);
    } else {
      PublishedWithin(l', charged, d, from);
    }
    assert l'.log[k + 1..|l.log| + 1] == l'.log[k + 1..];
    assert Fits(l', k, |l.log|, d);
    FitsGrows(l, l', x, k, d);
  }

  lemma ParkedFits(l: Loop, l': Loop, k: nat, d: Uuid)
    requires PassedTo(l, k, d) && AllFit(l, k, d) && l'.log == l.log && l'.rate == l.rate
    ensures PassedTo(l', k, d) && AllFit(l', k, d)
  {
    forall j | k < j < |l'.log| && PassedTo(l', j, d) ensures Fits(l', k, j, d) {
      assert PassedTo(l, j, d) && Fits(l, k, j, d);
    }
  }

  lemma ForwardElsewhere(l: Loop, f: Frame, to: Uuid, bus: BusCodec.BusMessage, bytes: nat, reached: bool, k: nat, d: Uuid)
    requires l.pending.None? && (to !in l.peers || to != d) && PassedTo(l, k, d) && Bounded(l, k, d)
    ensures var l' := Forward(l, f, to, bus, bytes, reached); PassedTo(l', k, d) && Bounded(l', k, d)
  {
    var l' := Forward(l, f, to, bus, bytes, reached);
    if to !in l.peers {
      OtherBounded(l, l', Entry(f, l.peers, Answered(NotPaired)), k, d);
    } else if l'.pending.None? {
      OtherBounded(l, l', Entry(f, l.peers, Passed(to, bus, bytes, l.now, reached)), k, d);
    } else {
      QuietBounded(l, l', k, d);
    }
  }

  /** A frame for `d` was charged and waits. */
  lemma ParkedBounded(l: Loop, l': Loop, k: nat, d: Uuid)
    requires l.pending.None? && PassedTo(l, k, d) && Bounded(l, k, d)
    requires l'.log == l.log && l'.rate == l.rate && l'.now == l.now && WaitsFor(l', d)
    requires Within(l', Since(l, k, d) + l'.pending.value.bytes as real, d, l.log[k].outcome.at)
    ensures PassedTo(l', k, d) && Bounded(l', k, d)
  {
    ParkedFits(l, l', k, d);
  }

  lemma TakeAt(b: Bucket, rate: Speed, cost: nat, now: real)
    requires b.updated <= now && b.rate == rate
    ensures var b' := Take(b, cost, now);
            && b'.updated == now && b'.tokens <= rate - cost as real
            && b'.tokens <= b.tokens + (now - b.updated) * rate - cost as real
  {
    TakeFacts(b, cost, now);
  }

  lemma ChargedWithin(l: Loop, l': Loop, d: Uuid, bytes: nat, charged: real, from: real)
    requires Solvent(l) && l.pending.None? && Within(l, charged, d, from) && from <= l.now
    requires l'.buckets == l.buckets[d := Take(BucketFor(l, d), bytes, l.now)] && l'.rate == l.rate
    ensures Within(l', charged + bytes as real, d, from)
  {
    if d in l.buckets {
      assert BucketOk(l, d, l.buckets[d]);
      TakeAt(l.buckets[d], l.rate, bytes, l.now);
    } else {
      TakeAt(Full(l.rate, l.now), l.rate, bytes, l.now);
    }
    ChargeWithin(l, charged, d, from, bytes, l'.buckets[d].tokens);
  }

  /** The two ways a paired frame can go. */
  lemma ForwardSplits(l: Loop, l': Loop, f: Frame, d: Uuid, bus: BusCodec.BusMessage, bytes: nat, reached: bool)
    requires l.pending.None? && d in l.peers && l' == Forward(l, f, d, bus, bytes, reached)
    ensures l'.buckets == l.buckets[d := Take(BucketFor(l, d), bytes, l.now)] && l'.rate == l.rate && l'.now == l.now
    ensures if l'.pending.None? then l'.log == l.log + [Entry(f, l.peers, Passed(d, bus, bytes, l.now, reached))]
            else l'.log == l.log && l'.pending.value.to == d && l'.pending.value.bytes == bytes
  {
  }

  lemma ForwardHere(l: Loop, l': Loop, f: Frame, bus: BusCodec.BusMessage, bytes: nat, reached: bool, k: nat, d: Uuid)
    requires Solvent(l) && Solvent(l') && l.pending.None? && PassedTo(l, k, d) && Bounded(l, k, d)
    requires l'.buckets == l.buckets[d := Take(BucketFor(l, d), bytes, l.now)] && l'.rate == l.rate && l'.now == l.now
    requires if l'.pending.None? then l'.log == l.log + [Entry(f, l.peers, Passed(d, bus, bytes, l.now, reached))]
             else l'.log == l.log && l'.pending.value.to == d && l'.pending.value.bytes == bytes
    ensures PassedTo(l', k, d) && Bounded(l', k, d)
  {
    ChargedWithin(l, l', d, bytes, Since(l, k, d), l.log[k].outcome.at);
    if l'.pending.None? {
      PassedBounded(l, l', Entry(f, l.peers, Passed(d, bus, bytes, l.now, reached)), k, d);
    } else {
      ParkedBounded(l, l', k, d);
    }
  }

  lemma FireHere(l: Loop, l': Loop, x: Entry, k: nat, d: Uuid)
    requires Solvent(l') && WaitsFor(l, d) && d in l.buckets && PassedTo(l, k, d) && Bounded(l, k, d)
    requires l'.pending.None? && l'.log == l.log + [x] && l'.now == l.now && l'.rate == l.rate && l'.buckets == l.buckets
    requires x.outcome.Passed? && x.outcome.to == d && x.outcome.at == l.now && x.outcome.bytes == l.pending.value.bytes
    ensures PassedTo(l', k, d) && Bounded(l', k, d)
  {
    var charged := Sum(l.log[k + 1..], d) + x.outcome.bytes as real;
    assert charged == Since(l, k, d);
    assert Within(l', charged, d, l.log[k].outcome.at);
    PassedBounded(l, l', x, k, d);
  }

  lemma FireBounded(l: Loop, reached: bool, k: nat, d: Uuid)
    requires Solvent(l) && Enabled(l, Fire(reached)) && PassedTo(l, k, d) && Bounded(l, k, d)
    requires d in l.buckets || !WaitsFor(l, d)
    ensures var l' := Apply(l, Fire(reached)); PassedTo(l', k, d) && Bounded(l', k, d)
  {
    var l' := Apply(l, Fire(reached));
    var p := l.pending.value;
    var x := Entry(p.frame, p.known, Passed(p.to, p.bus, p.bytes, l.now, reached));
    FireSolvent(l, reached);
    if p.to == d {
      FireHere(l, l', x, k, d);
    } else {
      OtherBounded(l, l', x, k, d);
    }
  }

  /** Peer `d` stays paired: every reload finds it. */
  predicate StaysPaired(es: seq<Event>, d: Uuid) {
    forall e | e in es && e.Reload? :: d in e.peers
  }

  predicate Steady(l: Loop, d: Uuid) {
    Solvent(l) && d in l.peers && (WaitsFor(l, d) ==> d in l.buckets)
  }

  lemma SteadyKept(l: Loop, e: Event, d: Uuid)
    requires Steady(l, d) && Enabled(l, e) && StaysPaired([e], d)
    ensures Steady(Apply(l, e), d)
  {
    SolventKept(l, e);
    assert e.Reload? ==> d in e.peers by { assert e in [e]; }
  }

  lemma BoundedKept(l: Loop, e: Event, k: nat, d: Uuid)
    requires Steady(l, d) && Enabled(l, e) && StaysPaired([e], d) && PassedTo(l, k, d) && Bounded(l, k, d)
    ensures var l' := Apply(l, e); PassedTo(l', k, d) && Bounded(l', k, d)
  {
    assert e.Reload? ==> d in e.peers by { assert e in [e]; }
    match e
    case Tick(_) => QuietBounded(l, Apply(l, e), k, d);
    case Reload(_) => QuietBounded(l, Apply(l, e), k, d);
    case ReadFrame(f, reached) =>
      var l1 := l.(read := l.read + [f]);
      QuietBounded(l, l1, k, d);
      match Route(f, l.me) {
        case Refuse(err) => OtherBounded(l1, Apply(l, e), Entry(f, l.peers, Answered(err)), k, d);
        case Go(to, bus, bytes) =>
          if to == d {
            ForwardSplits(l1, Apply(l, e), f, d, bus, bytes, reached);
            ForwardSolvent(l1, f, d, bus, bytes, reached);
            ForwardHere(l1, Apply(l, e), f, bus, bytes, reached, k, d);
          } else {
            ForwardElsewhere(l1, f, to, bus, bytes, reached, k, d);
          }
      }
    case Fire(reached) => FireBounded(l, reached, k, d);
  }

  lemma FirstBounded(l: Loop, e: Event, d: Uuid)
    requires Steady(l, d) && Enabled(l, e) && StaysPaired([e], d)
    requires |Apply(l, e).log| == |l.log| + 1 && PassedTo(Apply(l, e), |l.log|, d)
    ensures Bounded(Apply(l, e), |l.log|, d)
  {
    assert Apply(l, e).log[|l.log| + 1..] == [];
  }

  /** A log entry is only ever added at the end, one at a time. */
  lemma LogGrows(l: Loop, e: Event)
    requires Enabled(l, e)
    ensures Apply(l, e).log == l.log || (exists x :: Apply(l, e).log == l.log + [x])
  {
    match e
    case Tick(_) =>
    case Reload(_) =>
    case ReadFrame(f, reached) =>
      match Route(f, l.me) {
        case Refuse(err) => assert Apply(l, e).log == l.log + [Entry(f, l.peers, Answered(err))];
        case Go(to, bus, bytes) => {
          assert Apply(l, e).log != l.log ==>
            Apply(l, e).log == l.log + [Apply(l, e).log[|l.log|]];
        }
      }
    case Fire(reached) =>
      var p := l.pending.value;
      assert Apply(l, e).log == l.log + [Entry(p.frame, p.known, Passed(p.to, p.bus, p.bytes, l.now, reached))];
  }

  /** Everything logged to `d` from entry `n` on is bounded. */
  predicate BoundedFrom(l: Loop, n: nat, d: Uuid) {
    forall k | n <= k < |l.log| && PassedTo(l, k, d) :: Bounded(l, k, d)
  }

  lemma BoundedFromKept(l: Loop, e: Event, n: nat, d: Uuid)
    requires Steady(l, d) && Enabled(l, e) && StaysPaired([e], d) && BoundedFrom(l, n, d) && n <= |l.log|
    ensures BoundedFrom(Apply(l, e), n, d) && n <= |Apply(l, e).log|
  {
    var l' := Apply(l, e);
    LogGrows(l, e);
    forall k | n <= k < |l'.log| && PassedTo(l', k, d) ensures Bounded(l', k, d) {
      if k < |l.log| {
        assert PassedTo(l, k, d);
        BoundedKept(l, e, k, d);
      } else {
        FirstBounded(l, e, d);
      }
    }
  }

  lemma {:induction false} BoundedOverRun(l: Loop, es: seq<Event>, n: nat, d: Uuid)
    requires Steady(l, d) && IsRun(l, es) && StaysPaired(es, d) && BoundedFrom(l, n, d) && n <= |l.log|
    ensures BoundedFrom(After(l, es), n, d)
    decreases |es|
  {
    if es != [] {
      assert es[0] in es;
      SteadyKept(l, es[0], d);
      BoundedFromKept(l, es[0], n, d);
      BoundedOverRun(Apply(l, es[0]), es[1..], n, d);
    }
  }

  /** Bytes published to `d` by entries `k` to `j`, both included. */
  function Between(log: seq<Entry>, k: nat, j: nat, d: Uuid): real
    requires k <= j < |log|
  {
    Sum(log[k..j + 1], d)
  }

  lemma SumFromFront(q: seq<Entry>, d: Uuid)
    requires q != []
    ensures Sum(q, d) == Cost(q[0], d) + Sum(q[1..], d)
  {
    var n := |q| - 1;
    if n > 0 {
      SumFromFront(q[..n], d);
      assert q[..n][1..] == q[1..][..n - 1];
    }
  }

  /** From entry `k` to entry `j` no more passes to `d` than rate times the time
      between them, one bucket and one frame. */
  predicate Throttled(l: Loop, d: Uuid, k: nat, j: nat)
    requires k <= j && PassedTo(l, k, d) && PassedTo(l, j, d)
  {
    var span := l.log[j].outcome.at - l.log[k].outcome.at;
    Between(l.log, k, j, d) <= span * l.rate + l.rate + l.log[k].outcome.bytes as real
  }

  lemma BoundedThrottles(l: Loop, d: Uuid, k: nat, j: nat)
    requires k <= j && PassedTo(l, k, d) && PassedTo(l, j, d) && Bounded(l, k, d)
    ensures Throttled(l, d, k, j)
  {
    var q := l.log[k..j + 1];
    SumFromFront(q, d);
    assert q[1..] == l.log[k + 1..j + 1];
    if k < j { assert Fits(l, k, j, d); }
  }

  /** A frame waits for `d` whose bucket a reload without `d` has dropped: it is
      published before anything else, and everything after it is bounded. */
  lemma OrphanFires(l: Loop, e: Event, d: Uuid)
    requires Solvent(l) && d in l.peers && !Steady(l, d) && Enabled(l, e) && e.Fire?
    ensures Steady(Apply(l, e), d) && BoundedFrom(Apply(l, e), |l.log|, d) && |l.log| <= |Apply(l, e).log|
  {
    SolventKept(l, e);
    assert Apply(l, e).log[|l.log| + 1..] == [];
  }

  lemma OrphanWaits(l: Loop, e: Event, d: Uuid)
    requires Solvent(l) && d in l.peers && !Steady(l, d) && Enabled(l, e) && !e.Fire? && StaysPaired([e], d)
    ensures var l' := Apply(l, e); Solvent(l') && d in l'.peers && l'.log == l.log
  {
    SolventKept(l, e);
    assert e.Reload? ==> d in e.peers by { assert e in [e]; }
  }

  lemma {:induction false} PairedOverRun(l: Loop, es: seq<Event>, d: Uuid)
    requires Solvent(l) && d in l.peers && IsRun(l, es) && StaysPaired(es, d)
    ensures BoundedFrom(After(l, es), |l.log|, d)
    decreases |es|
  {
    if Steady(l, d) {
      BoundedOverRun(l, es, |l.log|, d);
    } else if es != [] {
      assert es[0] in es && forall e | e in es[1..] :: e in es;
      if es[0].Fire? {
        OrphanFires(l, es[0], d);
        BoundedOverRun(Apply(l, es[0]), es[1..], |l.log|, d);
      } else {
        OrphanWaits(l, es[0], d);
        PairedOverRun(Apply(l, es[0]), es[1..], d);
      }
    }
  }

  /** From any state of a connection on, in any run in which `d` is and stays a
      peer, any two frames published to `d` bound the bytes between them. */
  lemma BandwidthBound(l0: Loop, before: seq<Event>, l: Loop, es: seq<Event>, d: Uuid, k: nat, j: nat)
    requires Start(l0) && IsRun(l0, before) && l == After(l0, before) && d in l.peers
    requires IsRun(l, es) && StaysPaired(es, d)
    requires |l.log| <= k <= j && PassedTo(After(l, es), k, d) && PassedTo(After(l, es), j, d)
    ensures After(l, es).rate == l0.rate && Throttled(After(l, es), d, k, j)
  {
    SolventOverRun(l0, before);
    RateStays(l0, before);
    RateStays(l, es);
    PairedOverRun(l, es, d);
    BoundedThrottles(After(l, es), d, k, j);
  }

  lemma {:induction false} RateStays(l: Loop, es: seq<Event>)
    requires IsRun(l, es)
    ensures After(l, es).rate == l.rate
    decreases |es|
  {
    if es != [] { RateStays(Apply(l, es[0]), es[1..]); }
  }
}

/** What a bucket lets through at once, exactly: a frame waits if and only if some
    stretch of frames that ends with it exceeds what the rate and one burst of a
    second allow. */
module Burst {
  import opened Store
  import opened Wire
  import opened Bandwidth
  import opened Inbound
  import Throughput

  datatype Charge = Charge(bytes: nat, at: real)

  predicate Ordered(q: seq<Charge>) {
    forall i, j | 0 <= i < j < |q| :: q[i].at <= q[j].at
  }

  /** A new bucket after these takes. */
  function Takes(rate: Speed, q: seq<Charge>): Bucket
    requires q != []
  {
    var n := |q| - 1;
    Take(if n == 0 then Full(rate, q[0].at) else Takes(rate, q[..n]), q[n].bytes, q[n].at)
  }

  function Sum(q: seq<Charge>): real {
    if q == [] then 0.0 else Sum(q[..|q| - 1]) + q[|q| - 1].bytes as real
  }

  /** The rate times the time since charge `j`, and one burst. */
  function Allowed(rate: Speed, q: seq<Charge>, j: nat): real
    requires j < |q|
  {
    (q[|q| - 1].at - q[j].at) * rate + rate
  }

  function Excess(rate: Speed, q: seq<Charge>, j: nat): real
    requires j < |q|
  {
    Sum(q[j..]) - Allowed(rate, q, j)
  }

  // ---- the debt is the largest excess ----

  predicate Largest(x: real, rate: Speed, q: seq<Charge>) {
    (forall j | 0 <= j < |q| :: Excess(rate, q, j) <= x) && (exists j | 0 <= j < |q| :: Excess(rate, q, j) == x)
  }

  lemma OwnExcess(rate: Speed, q: seq<Charge>)
    requires q != []
    ensures Excess(rate, q, |q| - 1) == q[|q| - 1].bytes as real - rate
  {
    var n := |q| - 1;
    assert q[n..] == [q[n]] && [q[n]][..0] == [];
    assert Sum([q[n]]) == q[n].bytes as real;
  }

  lemma ExcessMoves(rate: Speed, q: seq<Charge>, c: Charge, j: nat, refill: real)
    requires j < |q| && refill == (c.at - q[|q| - 1].at) * rate
    ensures Excess(rate, q + [c], j) == Excess(rate, q, j) - refill + c.bytes as real
  {
    assert (q + [c])[j..][..|q| - j] == q[j..];
    Throughput.Spread(rate, c.at - q[|q| - 1].at, q[|q| - 1].at - q[j].at);
  }

  lemma TakeMoves(b: Bucket, cost: nat, now: real, refill: real)
    requires b.updated <= now && refill == (now - b.updated) * b.rate
    ensures Take(b, cost, now).tokens == Min(b.tokens + refill, b.rate) - cost as real
  {
  }

  lemma LargestMoves(rate: Speed, q: seq<Charge>, c: Charge, debt: real, refill: real)
    requires q != [] && Largest(debt, rate, q) && refill == (c.at - q[|q| - 1].at) * rate
    ensures Largest(c.bytes as real - Min(refill - debt, rate), rate, q + [c])
  {
    var q' := q + [c];
    var x := c.bytes as real - Min(refill - debt, rate);
    OwnExcess(rate, q');
    forall j | 0 <= j < |q'| ensures Excess(rate, q', j) <= x {
      if j < |q| { ExcessMoves(rate, q, c, j, refill); }
    }
    var j :| 0 <= j < |q| && Excess(rate, q, j) == debt;
    ExcessMoves(rate, q, c, j, refill);
    assert Excess(rate, q', j) == x || Excess(rate, q', |q|) == x;
  }

  lemma FirstLargest(rate: Speed, q: seq<Charge>)
    requires |q| == 1
    ensures Takes(rate, q) == Bucket(rate, rate - q[0].bytes as real, q[0].at)
    ensures Largest(q[0].bytes as real - rate, rate, q)
  {
    OwnExcess(rate, q);
    TakeMoves(Full(rate, q[0].at), q[0].bytes, q[0].at, 0.0);
    assert Excess(rate, q, 0) == q[0].bytes as real - rate;
  }

  lemma StepLargest(b: Bucket, front: seq<Charge>, c: Charge)
    requires front != [] && b.updated == front[|front| - 1].at <= c.at
    requires Largest(-b.tokens, b.rate, front)
    ensures Take(b, c.bytes, c.at).rate == b.rate && Take(b, c.bytes, c.at).updated == c.at
    ensures Largest(-Take(b, c.bytes, c.at).tokens, b.rate, front + [c])
  {
    var refill := (c.at - b.updated) * b.rate;
    TakeMoves(b, c.bytes, c.at, refill);
    LargestMoves(b.rate, front, c, -b.tokens, refill);
  }

  predicate Owes(rate: Speed, q: seq<Charge>)
    requires q != []
  {
    var b := Takes(rate, q);
    b.rate == rate && b.updated == q[|q| - 1].at && Largest(-b.tokens, rate, q)
  }

  lemma OwesPush(rate: Speed, front: seq<Charge>, c: Charge)
    requires front != [] && Owes(rate, front) && front[|front| - 1].at <= c.at
    ensures Owes(rate, front + [c])
  {
    assert (front + [c])[..|front|] == front;
    StepLargest(Takes(rate, front), front, c);
  }

  lemma OrderedFront(q: seq<Charge>)
    requires |q| > 1 && Ordered(q)
    ensures Ordered(q[..|q| - 1]) && q[|q| - 2].at <= q[|q| - 1].at
  {
  }

  lemma {:induction false} DebtIsLargestExcess(rate: Speed, q: seq<Charge>)
    requires q != [] && Ordered(q)
    ensures Owes(rate, q)
  {
    if |q| == 1 {
      FirstLargest(rate, q);
    } else {
      var n := |q| - 1;
      OrderedFront(q);
      DebtIsLargestExcess(rate, q[..n]);
      assert q[..n] + [q[n]] == q;
      OwesPush(rate, q[..n], q[n]);
    }
  }

  predicate Fits(rate: Speed, q: seq<Charge>) {
    forall j | 0 <= j < |q| :: Sum(q[j..]) <= Allowed(rate, q, j)
  }

  /** Some stretch up to the last charge makes the wait, and none a longer one. */
  predicate LongestWait(wait: real, rate: Speed, q: seq<Charge>) {
    && (forall j | 0 <= j < |q| :: Excess(rate, q, j) / rate <= wait)
    && (exists j | 0 <= j < |q| :: Excess(rate, q, j) / rate == wait)
  }

  lemma WaitOfDebt(b: Bucket)
    ensures Wait(b) == 0.0 <==> b.tokens >= 0.0
    ensures b.tokens < 0.0 ==> Wait(b) == -b.tokens / b.rate
  {
    if b.tokens < 0.0 { Quotient(-b.tokens, b.rate); }
  }

  /** For every sequence of takes from a full bucket: nothing has to wait if and only
      if every stretch that ends with the last take fits; otherwise the wait is the
      largest excess divided by the rate. */
  lemma WaitExactly(rate: Speed, q: seq<Charge>)
    requires q != [] && Ordered(q)
    ensures Wait(Takes(rate, q)) == 0.0 <==> Fits(rate, q)
    ensures !Fits(rate, q) ==> LongestWait(Wait(Takes(rate, q)), rate, q)
  {
    var b := Takes(rate, q);
    DebtIsLargestExcess(rate, q);
    WaitOfDebt(b);
    var k :| 0 <= k < |q| && Excess(rate, q, k) == -b.tokens;
    if b.tokens < 0.0 {
      assert Sum(q[k..]) > Allowed(rate, q, k);
      forall j | 0 <= j < |q| ensures Excess(rate, q, j) / rate <= Wait(b) {
        Quotients(Excess(rate, q, j), -b.tokens, rate);
      }
      assert Excess(rate, q, k) / rate == Wait(b);
    } else {
      forall j | 0 <= j < |q| ensures Sum(q[j..]) <= Allowed(rate, q, j) {
        assert Excess(rate, q, j) <= -b.tokens;
      }
    }
  }

  // ---- in the sending loop ----

  /** What an event adds to the charges of `d`; a reload without `d` forgets them. */
  function Charged(l: Loop, e: Event, d: Uuid, q: seq<Charge>): seq<Charge> {
    match e
    case Tick(_) => q
    case Reload(peers) => if d in peers then q else []
    case ReadFrame(f, _) =>
      var g := Route(f, l.me);
      if g.Go? && g.to == d && d in l.peers then q + [Charge(g.bytes, l.now)] else q
    case Fire(_) => q
  }

  /** The frames charged to `d` over a run, since it was last not a peer. */
  function Charges(l: Loop, es: seq<Event>, d: Uuid, q: seq<Charge>): seq<Charge>
    requires IsRun(l, es)
    decreases |es|
  {
    if es == [] then q else Charges(Apply(l, es[0]), es[1..], d, Charged(l, es[0], d, q))
  }

  predicate Tracks(l: Loop, d: Uuid, q: seq<Charge>) {
    && (q == [] <==> d !in l.buckets)
    && (q != [] ==> Ordered(q) && q[|q| - 1].at <= l.now && l.buckets[d] == Takes(l.rate, q))
  }

  lemma OrderedPush(q: seq<Charge>, c: Charge)
    requires Ordered(q) && (q != [] ==> q[|q| - 1].at <= c.at)
    ensures Ordered(q + [c])
  {
    forall i | 0 <= i < |q| ensures q[i].at <= c.at {
      assert i < |q| - 1 ==> q[i].at <= q[|q| - 1].at;
    }
  }

  lemma ChargedTracks(l: Loop, l': Loop, d: Uuid, bytes: nat, q: seq<Charge>)
    requires Tracks(l, d, q) && l'.rate == l.rate && l'.now == l.now
    requires l'.buckets == l.buckets[d := Take(BucketFor(l, d), bytes, l.now)]
    ensures Tracks(l', d, q + [Charge(bytes, l.now)])
  {
    var q' := q + [Charge(bytes, l.now)];
    OrderedPush(q, Charge(bytes, l.now));
    assert q'[..|q|] == q;
  }

  lemma ForwardedElsewhere(l: Loop, l': Loop, f: Frame, to: Uuid, bus: BusCodec.BusMessage, bytes: nat, reached: bool,
                           d: Uuid, q: seq<Charge>)
    requires Tracks(l, d, q) && l.pending.None? && (to != d || d !in l.peers) && l' == Forward(l, f, to, bus, bytes, reached)
    ensures Tracks(l', d, q)
  {
    if to in l.peers {
      Throughput.ForwardSplits(l, l', f, to, bus, bytes, reached);
    }
  }

  lemma ReadTracks(l: Loop, f: Frame, reached: bool, d: Uuid, q: seq<Charge>)
    requires Tracks(l, d, q) && l.pending.None?
    ensures Tracks(Handle(l, f, reached), d, Charged(l, ReadFrame(f, reached), d, q))
  {
    var l1 := l.(read := l.read + [f]);
    match Route(f, l.me)
    case Refuse(_) =>
    case Go(to, bus, bytes) =>
      if to == d && d in l.peers {
        Throughput.ForwardSplits(l1, Handle(l, f, reached), f, d, bus, bytes, reached);
        ChargedTracks(l1, Handle(l, f, reached), d, bytes, q);
      } else {
        ForwardedElsewhere(l1, Handle(l, f, reached), f, to, bus, bytes, reached, d, q);
      }
  }

  lemma TracksKept(l: Loop, e: Event, d: Uuid, q: seq<Charge>)
    requires Tracks(l, d, q) && Enabled(l, e)
    ensures Tracks(Apply(l, e), d, Charged(l, e, d, q))
  {
    match e
    case Tick(_) =>
    case Reload(_) =>
    case ReadFrame(f, reached) => ReadTracks(l, f, reached, d, q);
    case Fire(_) =>
  }

  lemma {:induction false} TracksOverRun(l: Loop, es: seq<Event>, d: Uuid, q: seq<Charge>)
    requires Tracks(l, d, q) && IsRun(l, es)
    ensures Tracks(After(l, es), d, Charges(l, es, d, q))
    decreases |es|
  {
    if es != [] {
      TracksKept(l, es[0], d, q);
      TracksOverRun(Apply(l, es[0]), es[1..], d, Charged(l, es[0], d, q));
    }
  }

  lemma ParkedOfBucket(l: Loop, f: Frame, reached: bool, d: Uuid, bus: BusCodec.BusMessage, bytes: nat, q: seq<Charge>)
    requires Tracks(l, d, q) && l.pending.None? && Route(f, l.me) == Go(d, bus, bytes) && d in l.peers
    ensures var l' := Handle(l, f, reached);
            var b := Takes(l.rate, q + [Charge(bytes, l.now)]);
            (l'.pending.Some? <==> Wait(b) != 0.0)
            && (l'.pending.Some? ==> l'.pending.value.frame == f && l'.pending.value.deadline == l.now + Wait(b))
  {
    var q' := q + [Charge(bytes, l.now)];
    assert q'[..|q|] == q;
  }

  /** After any run from the start of a connection: a frame to a peer has to wait if
      and only if, with the frames charged to that peer before, some stretch that
      ends with it exceeds the rate times its time and one burst. The wait is the
      largest excess divided by the rate. */
  lemma ParkedIff(l0: Loop, es: seq<Event>, l: Loop, f: Frame, reached: bool, d: Uuid, bus: BusCodec.BusMessage, bytes: nat)
    requires Start(l0) && IsRun(l0, es) && l == After(l0, es) && l.pending.None?
    requires Route(f, l.me) == Go(d, bus, bytes) && d in l.peers
    ensures var q := Charges(l0, es, d, []) + [Charge(bytes, l.now)];
            var l' := Apply(l, ReadFrame(f, reached));
            && (l'.pending.Some? <==> !Fits(l.rate, q))
            && (l'.pending.Some? ==> LongestWait(l'.pending.value.deadline - l.now, l.rate, q))
  {
    TracksOverRun(l0, es, d, []);
    var q := Charges(l0, es, d, []);
    OrderedPush(q, Charge(bytes, l.now));
    ParkedOfBucket(l, f, reached, d, bus, bytes, q);
    WaitExactly(l.rate, q + [Charge(bytes, l.now)]);
  }
}

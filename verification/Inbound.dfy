/** The sending half of a connection: one frame is read at a time, checked,
    charged to its peer's bucket, and published now or when the bucket has
    recovered. While a frame waits nothing is read. */
module Inbound {
  import opened Store
  import opened Wire
  import opened BusCodec
  import opened Bandwidth

  /** A frame from the device. A text wrapper counts with its parsed
      destination, the text it is forwarded as, and its own length. */
  datatype Frame = Hr(bytes: Bytes) | Wrapper(to: Uuid, text: Text, length: nat) | Malformed

  datatype RelayError = NotPaired | NotConnected | PayloadTooLarge | BadRequest

  datatype Verdict = Refuse(err: RelayError) | Go(to: Uuid, bus: BusMessage, bytes: nat)

  /** The checks that need no pair. */
  function Route(f: Frame, me: Uuid): Verdict {
    match f
    case Malformed => Refuse(BadRequest)
    case Wrapper(to, text, length) =>
      if !IsDeviceId(to) then Refuse(BadRequest)
      else if length > MAX_FRAME_BYTES then Refuse(PayloadTooLarge)
      else Go(to, ForwardText(me, text), length)
    case Hr(bytes) =>
      var to := ParseHr(bytes);
      if to.None? || !IsDeviceId(to.value) then Refuse(BadRequest)
      else if |bytes| > MAX_FRAME_BYTES then Refuse(PayloadTooLarge)
      else Go(to.value, ForwardBinary(me, Rewritten(bytes, me)), |bytes|)
  }

  /** What became of a frame. `Passed` frames were published; `reached` says
      whether any instance was subscribed, otherwise the sender was answered
      `NotConnected`. */
  datatype Outcome = Answered(err: RelayError) | Passed(to: Uuid, bus: BusMessage, bytes: nat, at: real, reached: bool)

  /** `known` is the peer set at the moment the frame was judged. */
  datatype Entry = Entry(frame: Frame, known: set<Uuid>, outcome: Outcome)

  datatype Pending = Pending(frame: Frame, known: set<Uuid>, to: Uuid, bus: BusMessage, bytes: nat, deadline: real)

  /** `read` and `log` record history; `envelopes` and `volume` are what was
      added to the usage tally. */
  datatype Loop = Loop(
    me: Uuid, rate: Speed, now: real,
    peers: set<Uuid>, buckets: map<Uuid, Bucket>, pending: Option<Pending>,
    read: seq<Frame>, log: seq<Entry>, envelopes: nat, volume: nat)

  datatype Event = Tick(dt: real) | Reload(peers: set<Uuid>) | ReadFrame(f: Frame, reached: bool) | Fire(reached: bool)

  predicate Enabled(l: Loop, e: Event) {
    match e
    case Tick(dt) => dt >= 0.0
    case Reload(_) => true
    case ReadFrame(_, _) => l.pending.None?
    case Fire(_) => l.pending.Some? && l.now >= l.pending.value.deadline
  }

  function Note(l: Loop, f: Frame, known: set<Uuid>, o: Outcome): Loop {
    l.(log := l.log + [Entry(f, known, o)])
  }

  /** `publish_forward`. */
  function Publish(l: Loop, f: Frame, known: set<Uuid>, to: Uuid, bus: BusMessage, bytes: nat, reached: bool): Loop {
    var l1 := Note(l, f, known, Passed(to, bus, bytes, l.now, reached));
    if reached then l1.(envelopes := l.envelopes + 1, volume := l.volume + bytes) else l1
  }

  function BucketFor(l: Loop, to: Uuid): Bucket {
    if to in l.buckets then l.buckets[to] else Full(l.rate, l.now)
  }

  /** `forward`: check the pair, charge the bucket, publish or park. */
  function Forward(l: Loop, f: Frame, to: Uuid, bus: BusMessage, bytes: nat, reached: bool): Loop {
    if to !in l.peers then Note(l, f, l.peers, Answered(NotPaired))
    else
      var b := Take(BucketFor(l, to), bytes, l.now);
      var l1 := l.(buckets := l.buckets[to := b]);
      if Wait(b) == 0.0 then Publish(l1, f, l.peers, to, bus, bytes, reached)
      else l1.(pending := Some(Pending(f, l.peers, to, bus, bytes, l.now + Wait(b))))
  }

  function Handle(l: Loop, f: Frame, reached: bool): Loop {
    var l1 := l.(read := l.read + [f]);
    match Route(f, l.me)
    case Refuse(err) => Note(l1, f, l.peers, Answered(err))
    case Go(to, bus, bytes) => Forward(l1, f, to, bus, bytes, reached)
  }

  function Apply(l: Loop, e: Event): Loop
    requires Enabled(l, e)
  {
    match e
    case Tick(dt) => l.(now := l.now + dt)
    case Reload(peers) => l.(peers := peers, buckets := map d | d in l.buckets && d in peers :: l.buckets[d])
    case ReadFrame(f, reached) => Handle(l, f, reached)
    case Fire(reached) =>
      var p := l.pending.value;
      Publish(l.(pending := None), p.frame, p.known, p.to, p.bus, p.bytes, reached)
  }

  predicate IsRun(l: Loop, es: seq<Event>)
    decreases |es|
  {
    es == [] || (Enabled(l, es[0]) && IsRun(Apply(l, es[0]), es[1..]))
  }

  function After(l: Loop, es: seq<Event>): Loop
    requires IsRun(l, es)
    decreases |es|
  {
    if es == [] then l else After(Apply(l, es[0]), es[1..])
  }

  predicate Start(l: Loop) {
    l.buckets == map[] && l.pending.None? && l.read == [] && l.log == []
    && l.envelopes == 0 && l.volume == 0
  }

  // ---- every frame is accounted for once ----

  function Frames(log: seq<Entry>): seq<Frame> {
    seq(|log|, k requires 0 <= k < |log| => log[k].frame)
  }

  function Parked(l: Loop): seq<Frame> {
    if l.pending.Some? then [l.pending.value.frame] else []
  }

  function Envelopes(log: seq<Entry>): nat {
    if log == [] then 0
    else Envelopes(log[..|log| - 1]) + (if Counts(log[|log| - 1]) then 1 else 0)
  }

  function Volume(log: seq<Entry>): nat {
    if log == [] then 0
    else Volume(log[..|log| - 1]) + (if Counts(log[|log| - 1]) then log[|log| - 1].outcome.bytes else 0)
  }

  predicate Counts(x: Entry) { x.outcome.Passed? && x.outcome.reached }

  /** A frame in the log got the outcome the checks call for. */
  predicate Proper(me: Uuid, x: Entry) {
    match x.outcome
    case Answered(err) =>
      Route(x.frame, me) == Refuse(err)
      || (Route(x.frame, me).Go? && err == NotPaired && Route(x.frame, me).to !in x.known)
    case Passed(to, bus, bytes, _, _) => Route(x.frame, me) == Go(to, bus, bytes) && to in x.known
  }

  predicate Accounted(l: Loop) {
    && l.read == Frames(l.log) + Parked(l)
    && l.envelopes == Envelopes(l.log) && l.volume == Volume(l.log)
    && (forall k | 0 <= k < |l.log| :: Proper(l.me, l.log[k]))
    && (l.pending.Some? ==>
          var p := l.pending.value; Route(p.frame, l.me) == Go(p.to, p.bus, p.bytes) && p.to in p.known)
  }

  lemma NoteGrows(log: seq<Entry>, x: Entry)
    ensures Frames(log + [x]) == Frames(log) + [x.frame]
    ensures Envelopes(log + [x]) == Envelopes(log) + (if Counts(x) then 1 else 0)
    ensures Volume(log + [x]) == Volume(log) + (if Counts(x) then x.outcome.bytes else 0)
  {
    assert (log + [x])[..|log|] == log;
  }

  /** Everything is accounted for except `f`, which is in hand. */
  predicate InHand(l: Loop, f: Frame) {
    && l.pending.None? && l.read == Frames(l.log) + [f]
    && l.envelopes == Envelopes(l.log) && l.volume == Volume(l.log)
    && (forall k | 0 <= k < |l.log| :: Proper(l.me, l.log[k]))
  }

  lemma NoteAccounts(l: Loop, f: Frame, err: RelayError)
    requires InHand(l, f) && Proper(l.me, Entry(f, l.peers, Answered(err)))
    ensures Accounted(Note(l, f, l.peers, Answered(err)))
  {
    NoteGrows(l.log, Entry(f, l.peers, Answered(err)));
  }

  lemma PublishAccounts(l: Loop, f: Frame, known: set<Uuid>, to: Uuid, bus: BusMessage, bytes: nat, reached: bool)
    requires InHand(l, f) && Route(f, l.me) == Go(to, bus, bytes) && to in known
    ensures Accounted(Publish(l, f, known, to, bus, bytes, reached))
  {
    NoteGrows(l.log, Entry(f, known, Passed(to, bus, bytes, l.now, reached)));
  }

  lemma ForwardAccounts(l: Loop, f: Frame, to: Uuid, bus: BusMessage, bytes: nat, reached: bool)
    requires InHand(l, f) && Route(f, l.me) == Go(to, bus, bytes)
    ensures Accounted(Forward(l, f, to, bus, bytes, reached))
  {
    if to !in l.peers {
      NoteAccounts(l, f, NotPaired);
    } else {
      var b := Take(BucketFor(l, to), bytes, l.now);
      PublishAccounts(l.(buckets := l.buckets[to := b]), f, l.peers, to, bus, bytes, reached);
    }
  }

  lemma AccountedKept(l: Loop, e: Event)
    requires Accounted(l) && Enabled(l, e)
    ensures Accounted(Apply(l, e))
  {
    match e
    case Tick(_) =>
    case Reload(_) =>
    case ReadFrame(f, reached) =>
      var l1 := l.(read := l.read + [f]);
      match Route(f, l.me) {
        case Refuse(err) => NoteAccounts(l1, f, err);
        case Go(to, bus, bytes) => ForwardAccounts(l1, f, to, bus, bytes, reached);
      }
    case Fire(reached) =>
      var p := l.pending.value;
      PublishAccounts(l.(pending := None), p.frame, p.known, p.to, p.bus, p.bytes, reached);
  }

  lemma {:induction false} AccountedOverRun(l: Loop, es: seq<Event>)
    requires Accounted(l) && IsRun(l, es)
    ensures Accounted(After(l, es))
    decreases |es|
  {
    if es != [] {
      AccountedKept(l, es[0]);
      AccountedOverRun(Apply(l, es[0]), es[1..]);
    }
  }

  /** Over any run from the start of a connection: the frames read are, in order,
      those in the log followed by the one that waits, if any. Each was answered
      with an error, or, its destination being a peer, published once and counted
      exactly when some instance received it; no waiting frame is ever
      overwritten. */
  lemma EveryFrameOnce(l: Loop, es: seq<Event>)
    requires Start(l) && IsRun(l, es)
    ensures Accounted(After(l, es))
  {
    AccountedOverRun(l, es);
  }

  /** The byte of the version reads 8x, the byte of the variant 10 in its high bits. */
  predicate NamesDevice(u: Uuid) {
    0x80 <= u[6] <= 0x8F && 0x80 <= u[8] <= 0xBF
  }

  /** The device a frame is addressed to, if it is well formed. */
  function Target(f: Frame): Option<Uuid> {
    match f
    case Malformed => None
    case Wrapper(to, _, _) => if NamesDevice(to) then Some(to) else None
    case Hr(b) =>
      if |b| > 20 && b[..4] == [0x48, 0x52, 0x01, 0x01] && NamesDevice(b[4..20]) then Some(b[4..20]) else None
  }

  function Size(f: Frame): nat {
    match f
    case Malformed => 0
    case Wrapper(_, _, length) => length
    case Hr(b) => |b|
  }

  /** What becomes of every frame, exactly: which error it is answered with, and when
      it is published, to whom, with how many bytes charged, and as what. */
  lemma FrameFate(l0: Loop, es: seq<Event>, l: Loop, k: nat)
    requires Start(l0) && IsRun(l0, es) && l == After(l0, es) && k < |l.log|
    ensures var x := l.log[k];
            var to, fits := Target(x.frame), Size(x.frame) <= 262144;
            && (x.outcome == Answered(BadRequest) <==> to.None?)
            && (x.outcome == Answered(PayloadTooLarge) <==> to.Some? && !fits)
            && (x.outcome == Answered(NotPaired) <==> to.Some? && fits && to.value !in x.known)
            && (x.outcome.Passed? <==> to.Some? && fits && to.value in x.known)
            && (x.outcome.Passed? ==>
                  && x.outcome.to == to.value && x.outcome.bytes == Size(x.frame)
                  && (x.frame.Wrapper? ==> x.outcome.bus == ForwardText(l.me, x.frame.text))
                  && (x.frame.Hr? ==> x.outcome.bus == ForwardBinary(l.me, x.frame.bytes[..4] + l.me + x.frame.bytes[20..])))
  {
    EveryFrameOnce(l0, es);
    assert Proper(l.me, l.log[k]);
    RouteIsTarget(l.log[k].frame, l.me);
  }

  lemma RouteIsTarget(f: Frame, me: Uuid)
    ensures Route(f, me).Go? <==> Target(f).Some? && Size(f) <= 262144
    ensures Route(f, me).Go? ==> Route(f, me).to == Target(f).value && Route(f, me).bytes == Size(f)
    ensures Route(f, me) == Refuse(BadRequest) <==> Target(f).None?
    ensures Route(f, me).Refuse? ==> Route(f, me).err == BadRequest || Route(f, me).err == PayloadTooLarge
  {
  }

  /** What a published binary frame looks like: it fits, went to the peer it was
      addressed to, names this device as its source and is otherwise what the
      device sent, also after its trip over the bus. */
  lemma PublishedHr(l0: Loop, es: seq<Event>, l: Loop, k: nat)
    requires Start(l0) && IsRun(l0, es) && l == After(l0, es)
    requires k < |l.log| && l.log[k].frame.Hr? && l.log[k].outcome.Passed?
    ensures var sent := l.log[k].frame.bytes;
            var o := l.log[k].outcome;
            var got := Decode(Encoded(o.bus));
            && |sent| <= MAX_FRAME_BYTES && ParseHr(sent) == Some(o.to) && o.to in l.log[k].known
            && got.Some? && got.value.ForwardBinary? && got.value.from == l.me
            && ParseHr(got.value.frame) == Some(l.me)
            && |got.value.frame| == |sent| == o.bytes == QueuedLen(o.bus)
            && forall n | 0 <= n < |sent| && !(4 <= n < 20) :: got.value.frame[n] == sent[n]
  {
    EveryFrameOnce(l0, es);
    assert Proper(l.me, l.log[k]);
    HrEndToEnd(l.log[k].frame.bytes, l.me);
  }
}

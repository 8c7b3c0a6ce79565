/** A connection's receive queue: an unbounded channel with a shared byte counter.
    The bus task counts a message and then sends it or, over the limit, leaves it
    out and sets the kill; the connection's loop polls the kill, then the channel,
    and subtracts what it took. The two tasks run in parallel, so each of these is
    a step of its own. */
module Queue {

  datatype Msg = Msg(id: nat, len: nat)

  /** `Added` is the bus task between its counter update and its decision; `total`
      is the value the update returned. */
  datatype Dispatcher = Idle | Added(msg: Msg, total: int)

  datatype Receiver = AtKill | AtRecv | Holding(msg: Msg) | Busy | Ended

  /** `sent` is all that was dispatched to the connection, `got` what it
      processed, `dropped` what was counted and left out. */
  datatype State = State(
    max: nat, queued: int, channel: seq<Msg>, killed: bool,
    dispatcher: Dispatcher, receiver: Receiver,
    sent: seq<Msg>, got: seq<Msg>, dropped: seq<Msg>)

  datatype Event = FetchAdd(len: nat) | Decide | PollKill | Recv | FetchSub | Resume | Stop

  function Init(max: nat): State {
    State(max, 0, [], false, Idle, AtKill, [], [], [])
  }

  predicate Enabled(s: State, e: Event) {
    match e
    case FetchAdd(len) => s.dispatcher.Idle?
    case Decide => s.dispatcher.Added?
    case PollKill => s.receiver.AtKill?
    case Recv => s.receiver.AtRecv?
    case FetchSub => s.receiver.Holding?
    case Resume => s.receiver.Busy?
    case Stop => s.receiver.AtRecv? || s.receiver.Busy?
  }

  /** Over the limit: kill. Otherwise send; a channel whose receiver is gone
      refuses, and the count is taken back. */
  function Decided(s: State): State
    requires s.dispatcher.Added?
  {
    var m := s.dispatcher.msg;
    var s1 := s.(dispatcher := Idle);
    if s.dispatcher.total > s.max then s1.(killed := true, dropped := s.dropped + [m])
    else if s.receiver.Ended? then s1.(queued := s.queued - m.len)
    else s1.(channel := s.channel + [m])
  }

  function Apply(s: State, e: Event): State
    requires Enabled(s, e)
  {
    match e
    case FetchAdd(len) =>
      var m := Msg(|s.sent|, len);
      s.(queued := s.queued + len, dispatcher := Added(m, s.queued + len), sent := s.sent + [m])
    case Decide => Decided(s)
    case PollKill => s.(receiver := if s.killed then Ended else AtRecv)
    case Recv =>
      if s.channel == [] then s.(receiver := AtKill)
      else s.(receiver := Holding(s.channel[0]), channel := s.channel[1..])
    case FetchSub =>
      var m := s.receiver.msg;
      s.(receiver := Busy, queued := s.queued - m.len, got := s.got + [m])
    case Resume => s.(receiver := AtKill)
    case Stop => s.(receiver := Ended)
  }

  predicate IsRun(s: State, es: seq<Event>)
    decreases |es|
  {
    es == [] || (Enabled(s, es[0]) && IsRun(Apply(s, es[0]), es[1..]))
  }

  function After(s: State, es: seq<Event>): State
    requires IsRun(s, es)
    decreases |es|
  {
    if es == [] then s else After(Apply(s, es[0]), es[1..])
  }

  // ---- bytes ----

  function Total(q: seq<Msg>): nat {
    if q == [] then 0 else Total(q[..|q| - 1]) + q[|q| - 1].len
  }

  lemma TotalPush(q: seq<Msg>, m: Msg)
    ensures Total(q + [m]) == Total(q) + m.len
  {
    assert (q + [m])[..|q|] == q;
  }

  lemma TotalPop(q: seq<Msg>)
    requires q != []
    ensures Total(q) == q[0].len + Total(q[1..])
  {
    var n := |q| - 1;
    if n > 0 {
      TotalPop(q[..n]);
      assert q[..n][1..] == q[1..][..n - 1];
    }
  }

  function Hand(s: State): seq<Msg> {
    if s.receiver.Holding? then [s.receiver.msg] else []
  }

  function Held(s: State): nat {
    if s.receiver.Holding? then s.receiver.msg.len else 0
  }

  function Flight(s: State): nat {
    if s.dispatcher.Added? then s.dispatcher.msg.len else 0
  }

  predicate Accounted(s: State) {
    && s.queued == Total(s.channel) + Held(s) + Total(s.dropped) + Flight(s)
    && Total(s.channel) + Held(s) <= s.max
    && (s.dispatcher.Added? ==> s.queued <= s.dispatcher.total)
  }

  lemma DropAccounted(s: State)
    requires Accounted(s) && s.dispatcher.Added? && s.dispatcher.total > s.max
    ensures Accounted(Decided(s))
  {
    assert Decided(s).dropped == s.dropped + [s.dispatcher.msg];
    TotalPush(s.dropped, s.dispatcher.msg);
  }

  lemma SendAccounted(s: State)
    requires Accounted(s) && s.dispatcher.Added? && s.dispatcher.total <= s.max
    ensures Accounted(Decided(s))
  {
    if !s.receiver.Ended? {
      assert Decided(s).channel == s.channel + [s.dispatcher.msg];
      TotalPush(s.channel, s.dispatcher.msg);
    }
  }

  lemma ReceiveAccounted(s: State, e: Event)
    requires Accounted(s) && Enabled(s, e) && (e.Recv? || e.FetchSub?)
    ensures Accounted(Apply(s, e))
  {
    if e.Recv? && s.channel != [] { TotalPop(s.channel); }
  }

  lemma AccountedKept(s: State, e: Event)
    requires Accounted(s) && Enabled(s, e)
    ensures Accounted(Apply(s, e))
  {
    if e.Decide? {
      if s.dispatcher.total > s.max { DropAccounted(s); } else { SendAccounted(s); }
    } else if e.Recv? || e.FetchSub? {
      ReceiveAccounted(s, e);
    }
  }

  lemma {:induction false} AccountedOverRun(s: State, es: seq<Event>)
    requires Accounted(s) && IsRun(s, es)
    ensures Accounted(After(s, es)) && After(s, es).max == s.max
    decreases |es|
  {
    if es != [] {
      AccountedKept(s, es[0]);
      AccountedOverRun(Apply(s, es[0]), es[1..]);
    }
  }

  /** In every run the counter is the bytes in the channel, received and not yet
      subtracted, left out, and about to be decided on. It never goes below zero,
      and the bytes waiting never exceed the limit. */
  lemma CounterExact(max: nat, es: seq<Event>)
    requires IsRun(Init(max), es)
    ensures var s := After(Init(max), es);
            && s.queued == Total(s.channel) + Held(s) + Total(s.dropped) + Flight(s)
            && s.queued >= 0 && Total(s.channel) + Held(s) <= max
  {
    AccountedOverRun(Init(max), es);
  }

  // ---- order ----

  /** Messages the receiver took, processed or in hand. */
  function Taken(s: State): seq<Msg> { s.got + Hand(s) }

  /** Number of messages decided on. */
  function Past(s: State): int { |s.sent| - (if s.dispatcher.Added? then 1 else 0) }

  /** Number of messages decided on before the first drop. */
  function First(s: State): int {
    if s.dropped != [] then s.dropped[0].id else Past(s)
  }

  predicate Numbered(sent: seq<Msg>) {
    forall k | 0 <= k < |sent| :: sent[k].id == k
  }

  /** Message `i` is the first that can go over the limit: those from `n` on were
      waiting, with room, and it does not fit. */
  predicate OverflowAt(sent: seq<Msg>, max: nat, n: nat, i: nat) {
    && n <= i < |sent|
    && (forall k | 0 <= k < i :: sent[k].len <= max)
    && Total(sent[n..i]) <= max < Total(sent[n..i + 1])
  }

  predicate Overflows(sent: seq<Msg>, max: nat, i: nat) {
    exists n: nat | n <= i :: OverflowAt(sent, max, n, i)
  }

  /** Wherever a first drop is possible, the message left out and the next one do
      not fit together. */
  predicate Crowded(sent: seq<Msg>, max: nat) {
    forall i | 0 <= i < |sent| - 1 && Overflows(sent, max, i) :: sent[i].len + sent[i + 1].len > max
  }

  /** Up to the first drop, what was taken and what waits is what was sent. */
  predicate Aligned(s: State) {
    var g := |Taken(s)|;
    var i := First(s);
    && 0 <= g <= i <= Past(s) <= |s.sent|
    && Taken(s) == s.sent[..g]
    && i - g <= |s.channel| && s.channel[..i - g] == s.sent[g..i]
    && (s.dropped == [] ==> |s.channel| == i - g)
  }

  /** What was dropped or is about to be went over the limit. */
  predicate Marked(s: State)
    requires 0 <= First(s) <= Past(s) <= |s.sent|
  {
    var i := First(s);
    && (s.dropped != [] ==> i < Past(s) && s.dropped[0] == s.sent[i] && Overflows(s.sent, s.max, i))
    && (s.dropped == [] ==> forall k | 0 <= k < i :: s.sent[k].len <= s.max)
    && (s.dropped == [] && s.dispatcher.Added? && s.dispatcher.total > s.max ==> Overflows(s.sent, s.max, i))
  }

  predicate Placed(s: State) {
    && Numbered(s.sent)
    && (s.dispatcher.Added? ==> s.sent != [] && s.dispatcher.msg == s.sent[|s.sent| - 1])
    && s.killed == (s.dropped != [])
    && Aligned(s) && Marked(s)
  }

  /** The receiver has looked at the kill before it was set, and has nothing left
      from before the drop. `raced` admits the case in which it emptied the
      channel between the overflow and the kill. */
  predicate Blocked(s: State, raced: bool) {
    && s.channel == []
    && (s.dispatcher.Added? ==> s.dispatcher.total > s.max)
    && (Total(s.dropped) + Flight(s) > s.max || (raced && s.dispatcher.Idle? && |s.sent| == First(s) + 1))
  }

  predicate Inv(s: State, raced: bool) {
    && Accounted(s)
    && s.got <= s.sent
    && (!s.receiver.Ended? ==>
          && Placed(s)
          && (s.receiver.AtRecv? && s.dropped != [] && |Taken(s)| == First(s) ==> Blocked(s, raced))
          && (!raced && s.dispatcher.Added? && s.dispatcher.total > s.max ==> s.dispatcher.total == s.queued))
  }

  /** No receiver step between an overflow and its kill. */
  predicate Prompt(s: State, e: Event) {
    s.dispatcher.Added? && s.dispatcher.total > s.max ==> e.Decide?
  }

  lemma OverflowStays(sent: seq<Msg>, max: nat, i: nat, m: Msg)
    requires Overflows(sent, max, i)
    ensures Overflows(sent + [m], max, i)
  {
    var n: nat :| n <= i && OverflowAt(sent, max, n, i);
    assert (sent + [m])[n..i] == sent[n..i] && (sent + [m])[n..i + 1] == sent[n..i + 1];
    assert OverflowAt(sent + [m], max, n, i);
  }

  lemma TotalWaiting(s: State)
    ensures Total(Hand(s) + s.channel) == Held(s) + Total(s.channel)
  {
    var wait := Hand(s) + s.channel;
    if s.receiver.Holding? {
      TotalPop(wait);
      assert wait[1..] == s.channel;
    } else {
      assert wait == s.channel;
    }
  }

  lemma WaitingStretch(s: State)
    requires Placed(s) && s.dispatcher.Idle? && s.dropped == []
    ensures s.sent[|s.got|..] == Hand(s) + s.channel
  {
    var g := |Taken(s)|;
    assert s.sent == s.sent[..g] + s.sent[g..];
    assert s.sent == s.got + Hand(s) + s.channel;
  }

  lemma StretchOverflows(sent: seq<Msg>, max: nat, n: nat, m: Msg)
    requires n <= |sent| && Total(sent[n..]) <= max < Total(sent[n..]) + m.len
    requires forall k | 0 <= k < |sent| :: sent[k].len <= max
    ensures Overflows(sent + [m], max, |sent|)
  {
    var i := |sent|;
    assert (sent + [m])[n..i] == sent[n..] && (sent + [m])[n..i + 1] == sent[n..] + [m];
    TotalPush(sent[n..], m);
    assert OverflowAt(sent + [m], max, n, i);
  }

  /** What waits when a first message goes over is a stretch of what was sent. */
  lemma FirstOverflow(s: State, len: nat)
    requires Accounted(s) && Placed(s) && s.dispatcher.Idle? && s.dropped == [] && s.queued + len > s.max
    ensures Overflows(s.sent + [Msg(|s.sent|, len)], s.max, |s.sent|)
  {
    WaitingStretch(s);
    TotalWaiting(s);
    StretchOverflows(s.sent, s.max, |s.got|, Msg(|s.sent|, len));
  }

  lemma AddOverflows(s: State, len: nat)
    requires Accounted(s) && Placed(s) && s.dispatcher.Idle? && (s.dropped != [] || s.queued + len > s.max)
    ensures Overflows(s.sent + [Msg(|s.sent|, len)], s.max, First(s))
  {
    if s.dropped != [] { OverflowStays(s.sent, s.max, First(s), Msg(|s.sent|, len)); } else { FirstOverflow(s, len); }
  }

  lemma AddPlaced(s: State, len: nat)
    requires Placed(s) && s.dispatcher.Idle?
    requires s.dropped != [] || s.queued + len > s.max
             ==> Overflows(s.sent + [Msg(|s.sent|, len)], s.max, First(s))
    ensures Placed(Apply(s, FetchAdd(len))) && First(Apply(s, FetchAdd(len))) == First(s)
  {
    AddAligned(s, len);
    AddMarked(s, len);
  }

  lemma AddAligned(s: State, len: nat)
    requires Aligned(s) && s.dispatcher.Idle?
    ensures Aligned(Apply(s, FetchAdd(len))) && First(Apply(s, FetchAdd(len))) == First(s)
  {
    var sent' := s.sent + [Msg(|s.sent|, len)];
    var g, i := |Taken(s)|, First(s);
    assert sent'[..g] == s.sent[..g] && sent'[g..i] == s.sent[g..i];
  }

  lemma AddMarked(s: State, len: nat)
    requires 0 <= First(s) <= Past(s) <= |s.sent| && Marked(s) && s.dispatcher.Idle?
    requires s.dropped != [] || s.queued + len > s.max
             ==> Overflows(s.sent + [Msg(|s.sent|, len)], s.max, First(s))
    ensures Past(Apply(s, FetchAdd(len))) == Past(s) && Marked(Apply(s, FetchAdd(len)))
  {
  }

  lemma DroppedWeighs(q: seq<Msg>)
    requires q != []
    ensures Total(q) >= q[0].len
  {
    TotalPop(q);
  }

  lemma AddBlocked(s: State, len: nat, raced: bool)
    requires Accounted(s) && Placed(s) && s.dispatcher.Idle? && s.dropped != [] && s.receiver.AtRecv?
    requires |Taken(s)| == First(s) && Blocked(s, raced)
    requires raced ==> Crowded(s.sent + [Msg(|s.sent|, len)], s.max)
    ensures Blocked(Apply(s, FetchAdd(len)), raced)
  {
    if Total(s.dropped) <= s.max {
      var sent' := s.sent + [Msg(|s.sent|, len)];
      var i := First(s);
      OverflowStays(s.sent, s.max, i, Msg(|s.sent|, len));
      assert sent'[i].len + sent'[i + 1].len > s.max;
      DroppedWeighs(s.dropped);
    }
  }

  lemma AddKept(s: State, len: nat, raced: bool)
    requires Inv(s, raced) && s.dispatcher.Idle?
    requires raced ==> Crowded(s.sent + [Msg(|s.sent|, len)], s.max)
    ensures Inv(Apply(s, FetchAdd(len)), raced)
  {
    AccountedKept(s, FetchAdd(len));
    if !s.receiver.Ended? {
      if s.dropped != [] || s.queued + len > s.max { AddOverflows(s, len); }
      AddPlaced(s, len);
      if s.receiver.AtRecv? && s.dropped != [] && |Taken(s)| == First(s) { AddBlocked(s, len, raced); }
    }
  }

  lemma SendPlaced(s: State)
    requires Placed(s) && s.dispatcher.Added? && s.dispatcher.total <= s.max && !s.receiver.Ended?
    requires s.dropped == [] ==> s.dispatcher.msg.len <= s.max
    ensures Placed(Decided(s)) && (s.dropped != [] ==> First(Decided(s)) == First(s))
  {
    var g, i := |Taken(s)|, First(s);
    var s' := Decided(s);
    if s.dropped == [] {
      assert s'.channel == s.sent[g..i + 1];
    } else {
      assert s'.channel[..i - g] == s.channel[..i - g];
    }
  }

  lemma SendKept(s: State, raced: bool)
    requires Inv(s, raced) && s.dispatcher.Added? && s.dispatcher.total <= s.max
    ensures Inv(Decided(s), raced)
  {
    SendAccounted(s);
    if !s.receiver.Ended? { SendPlaced(s); }
  }

  lemma DropKept(s: State, raced: bool)
    requires Inv(s, raced) && s.dispatcher.Added? && s.dispatcher.total > s.max
    ensures Inv(Decided(s), raced)
  {
    DropAccounted(s);
    TotalPush(s.dropped, s.dispatcher.msg);
    if !s.receiver.Ended? {
      assert First(Decided(s)) == First(s);
    }
  }

  lemma RecvPlaced(s: State)
    requires Placed(s) && s.receiver.AtRecv? && s.channel != [] && |Taken(s)| < First(s)
    ensures Placed(Apply(s, Recv)) && First(Apply(s, Recv)) == First(s)
  {
    var g, i := |Taken(s)|, First(s);
    var s' := Apply(s, Recv);
    assert s.channel[0] == s.channel[..i - g][0] == s.sent[g];
    assert Taken(s') == s.sent[..g + 1];
    assert s'.channel[..i - g - 1] == s.channel[..i - g][1..] == s.sent[g + 1..i];
  }

  lemma RecvKept(s: State, raced: bool)
    requires Inv(s, raced) && s.receiver.AtRecv? && (raced || Prompt(s, Recv))
    ensures Inv(Apply(s, Recv), raced)
  {
    AccountedKept(s, Recv);
    if s.channel != [] {
      RecvPlaced(s);
    } else {
      assert Taken(Apply(s, Recv)) == Taken(s);
    }
  }

  lemma SubKept(s: State, raced: bool)
    requires Inv(s, raced) && s.receiver.Holding? && (raced || Prompt(s, FetchSub))
    ensures Inv(Apply(s, FetchSub), raced)
  {
    AccountedKept(s, FetchSub);
    assert Taken(Apply(s, FetchSub)) == Taken(s);
  }

  lemma StillPlaced(s: State, r: Receiver)
    requires Placed(s) && !s.receiver.Holding? && !r.Holding?
    ensures Placed(s.(receiver := r)) && First(s.(receiver := r)) == First(s)
    ensures Taken(s.(receiver := r)) == Taken(s)
  {
    assert Taken(s.(receiver := r)) == Taken(s);
  }

  /** Steps of the receiver that move no message. */
  lemma StillKept(s: State, e: Event, raced: bool)
    requires Inv(s, raced) && Enabled(s, e) && (e.PollKill? || e.Resume? || e.Stop?)
    ensures Inv(Apply(s, e), raced)
  {
    AccountedKept(s, e);
    StillPlaced(s, Apply(s, e).receiver);
  }

  lemma Kept(s: State, e: Event, raced: bool)
    requires Inv(s, raced) && Enabled(s, e)
    requires if raced then Crowded(Apply(s, e).sent, s.max) else Prompt(s, e)
    ensures Inv(Apply(s, e), raced)
  {
    match e
    case FetchAdd(len) => AddKept(s, len, raced);
    case Decide => if s.dispatcher.total > s.max { DropKept(s, raced); } else { SendKept(s, raced); }
    case PollKill => StillKept(s, e, raced);
    case Recv => RecvKept(s, raced);
    case FetchSub => SubKept(s, raced);
    case Resume => StillKept(s, e, raced);
    case Stop => StillKept(s, e, raced);
  }

  lemma InitInv(max: nat, raced: bool)
    ensures Inv(Init(max), raced)
  {
  }

  /** No receiver step falls between an overflow and its kill, in the whole run. */
  predicate PromptRun(s: State, es: seq<Event>)
    requires IsRun(s, es)
    decreases |es|
  {
    es == [] || (Prompt(s, es[0]) && PromptRun(Apply(s, es[0]), es[1..]))
  }

  lemma {:induction false} KeptPrompt(s: State, es: seq<Event>)
    requires Inv(s, false) && IsRun(s, es) && PromptRun(s, es)
    ensures Inv(After(s, es), false)
    decreases |es|
  {
    if es != [] {
      Kept(s, es[0], false);
      KeptPrompt(Apply(s, es[0]), es[1..]);
    }
  }

  /** When overflow and kill are not separated by the receiver, what a connection
      processes is always a prefix of what was dispatched to it: a kill is seen
      before any later message. */
  lemma PromptKillKeepsOrder(max: nat, es: seq<Event>)
    requires IsRun(Init(max), es) && PromptRun(Init(max), es)
    ensures After(Init(max), es).got <= After(Init(max), es).sent
  {
    InitInv(max, false);
    KeptPrompt(Init(max), es);
  }

  lemma CrowdedPrefix(sent: seq<Msg>, more: seq<Msg>, max: nat)
    requires sent <= more && Crowded(more, max)
    ensures Crowded(sent, max)
  {
    forall i | 0 <= i < |sent| - 1 && Overflows(sent, max, i) ensures sent[i].len + sent[i + 1].len > max {
      var n: nat :| n <= i && OverflowAt(sent, max, n, i);
      assert more[n..i] == sent[n..i] && more[n..i + 1] == sent[n..i + 1];
      assert OverflowAt(more, max, n, i);
    }
  }

  lemma {:induction false} SentGrows(s: State, es: seq<Event>)
    requires IsRun(s, es)
    ensures s.sent <= After(s, es).sent && After(s, es).max == s.max
    decreases |es|
  {
    if es != [] {
      assert s.sent <= Apply(s, es[0]).sent;
      SentGrows(Apply(s, es[0]), es[1..]);
    }
  }

  lemma {:induction false} KeptCrowded(s: State, es: seq<Event>)
    requires Inv(s, true) && IsRun(s, es) && Crowded(After(s, es).sent, s.max)
    ensures Inv(After(s, es), true)
    decreases |es|
  {
    if es != [] {
      SentGrows(Apply(s, es[0]), es[1..]);
      CrowdedPrefix(Apply(s, es[0]).sent, After(s, es).sent, s.max);
      Kept(s, es[0], true);
      KeptCrowded(Apply(s, es[0]), es[1..]);
    }
  }
}

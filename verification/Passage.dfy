/** End to end: what a device is sent is what the other device's loop published,
    in order, each frame once. */
module Passage {
  import opened Store
  import opened Messages
  import opened Connection
  import opened Cluster
  import opened Order
  import Sub = Subscription
  import T = Takeover
  import C = Cache
  import Cutoff
  import Hub

  // ---- subsequences ----

  /** `a` is found in `b` at the increasing positions `at`. */
  ghost predicate Embeds(at: seq<nat>, a: seq<Frame>, b: seq<Frame>) {
    && |at| == |a|
    && (forall k, l | 0 <= k < l < |at| :: at[k] < at[l])
    && (forall k | 0 <= k < |at| :: at[k] < |b| && a[k] == b[at[k]])
  }

  /** In order and without duplicates; elements may be missing. */
  ghost predicate Subsequence(a: seq<Frame>, b: seq<Frame>) {
    exists at: seq<nat> :: Embeds(at, a, b)
  }

  lemma EmptyEmbeds(b: seq<Frame>)
    ensures Subsequence([], b)
  {
    assert Embeds([], [], b);
  }

  lemma Lengthens(a: seq<Frame>, b: seq<Frame>, more: seq<Frame>)
    requires Subsequence(a, b)
    ensures Subsequence(a, b + more)
  {
    var at: seq<nat> :| Embeds(at, a, b);
    assert Embeds(at, a, b + more);
  }

  lemma {:induction false} Pushes(a: seq<Frame>, b: seq<Frame>, more: seq<Frame>)
    requires Subsequence(a, b) && |more| <= 1
    ensures Subsequence(a + more, b + more)
  {
    var at: seq<nat> :| Embeds(at, a, b);
    if more == [] {
      assert Embeds(at, a + more, b + more);
    } else {
      assert Embeds(at + [|b|], a + more, b + more);
    }
  }

  /** `a'` is `a` with one stretch left out. */
  ghost predicate Cut(a: seq<Frame>, a': seq<Frame>) {
    exists u, m, v :: CutAt(a, a', u, m, v)
  }

  predicate CutAt(a: seq<Frame>, a': seq<Frame>, u: seq<Frame>, m: seq<Frame>, v: seq<Frame>) {
    a == u + m + v && a' == u + v
  }

  lemma Cuts(a: seq<Frame>, a': seq<Frame>, b: seq<Frame>)
    requires Cut(a, a') && Subsequence(a, b)
    ensures Subsequence(a', b)
  {
    var u, m, v :| CutAt(a, a', u, m, v);
    var at: seq<nat> :| Embeds(at, a, b);
    assert Embeds(at[..|u|] + at[|u| + |m|..], a', b);
  }

  // ---- the frames of a sender at one instance ----

  /** Side of the connection registered for `d`, if any. */
  function Side(s: State, i: InstId, d: DeviceId, x: ConnId): seq<Frame>
    requires i in s.insts
  {
    var r := s.insts[i].registry;
    if d in r && r[d] in s.conns then OnSide(s.conns[r[d]], x) else []
  }

  /** What the connection registered for `d` took or will take from sender `x`. */
  function Slot(s: State, i: InstId, d: DeviceId, x: ConnId): seq<Frame>
    requires i in s.insts
  {
    Side(s, i, d, x) + InStream(s.insts[i].stream, d, x)
  }

  ghost predicate InOrder(s: State) {
    forall i, d, x | i in s.insts :: Subsequence(Slot(s, i, d, x), Published(s, x, d))
  }

  /** What an event may do to a slot: nothing, leave a stretch out, or append what
      it published. */
  ghost predicate Moved(a: seq<Frame>, a': seq<Frame>, add: seq<Frame>) {
    a' == a || Cut(a, a') || a' == a + add
  }

  lemma MovesInOrder(a: seq<Frame>, a': seq<Frame>, b: seq<Frame>, add: seq<Frame>)
    requires Moved(a, a', add) && Subsequence(a, b) && |add| <= 1
    ensures Subsequence(a', b + add)
  {
    Lengthens(a, b, add);
    Pushes(a, b, add);
    if Cut(a, a') { Cuts(a, a', b + add); }
  }

  /** Side and stream of a slot, before and after. */
  lemma PartsMove(side: seq<Frame>, stream: seq<Frame>, side': seq<Frame>, stream': seq<Frame>, add: seq<Frame>)
    requires || (side' == side && (stream' == stream || stream' == stream + add || stream' == []))
             || (side' == [] && stream' == stream)
    ensures Moved(side + stream, side' + stream', add)
  {
    var a := side + stream;
    assert side + (stream + add) == a + add;
    assert CutAt(a, side, side, stream, []) && side + [] == side;
    assert CutAt(a, stream, [], side, stream) && [] + stream == stream;
  }

  /** The head of a stream goes over to the side, or is left out. */
  lemma HeadMoves(side: seq<Frame>, head: seq<Frame>, rest: seq<Frame>, add: seq<Frame>)
    ensures Moved(side + (head + rest), side + rest, add)
    ensures Moved(side + (head + rest), (side + head) + rest, add)
  {
    MovesOver(side, head, rest);
    assert CutAt(side + (head + rest), side + rest, side, head, rest);
  }

  lemma SideOf(s: State, i: InstId, d: DeviceId)
    requires Sub.Inv(s) && i in s.insts && d in s.insts[i].registry
    ensures s.insts[i].registry[d] in s.conns
    ensures s.conns[s.insts[i].registry[d]].inst == i && s.conns[s.insts[i].registry[d]].device == d
  {
    assert Sub.InstOk(s.conns, i, s.insts[i]);
    assert Sub.EntryOk(s.conns, i, d, s.insts[i].registry[d]);
  }

  // ---- what is published ----

  lemma SentKept(s: State, e: Event, x: ConnId)
    requires Enabled(s, e) && !e.Send? && x in s.conns
    ensures x in Apply(s, e).conns && Apply(s, e).conns[x].sent == s.conns[x].sent
  {
    if IsStill(e) { StillUntouched(s, e, x); }
    else if e.Read? || e.Store? || e.FailRead? || e.Receive? { ReloadUntouched(s, e, x); }
    else if e.Lose? || e.Continue? { T.ConnsUntouched(s, e); }
    else if e.Dispatch? { SentDispatch(s, e.i, e.overflow, x); }
    else if e.Open? { SentOpen(s, e.i, e.d, e.c, x); }
  }

  lemma SentDispatch(s: State, i: InstId, overflow: bool, x: ConnId)
    requires i in s.insts && s.insts[i].stream != [] && x in s.conns
    ensures var s' := DispatchStep(s, i, overflow); x in s'.conns && s'.conns[x].sent == s.conns[x].sent
  {
  }

  lemma SentOpen(s: State, i: InstId, d: DeviceId, c: ConnId, x: ConnId)
    requires i in s.insts && c !in s.conns && x in s.conns
    ensures var s' := OpenStep(s, i, d, c); x in s'.conns && s'.conns[x].sent == s.conns[x].sent
  {
  }

  lemma PublishedMoves(s: State, e: Event, x: ConnId, d: DeviceId)
    requires Enabled(s, e)
    ensures Published(Apply(s, e), x, d) == Published(s, x, d) + Added(e, x, d)
  {
    if e.Send? {
      SendMovesPublished(s, e.c, e.to, e.frame, x, d);
    } else if x in s.conns {
      SentKept(s, e, x);
    } else if x in Apply(s, e).conns {
      Sub.Newcomer(s, e, x);
    }
  }

  // ---- event by event ----

  /** The slot's two parts before and after an event. */
  ghost predicate SlotMoves(s: State, s': State, e: Event, i: InstId, d: DeviceId, x: ConnId) {
    i in s.insts && i in s'.insts && Moved(Slot(s, i, d, x), Slot(s', i, d, x), Added(e, x, d))
  }

  lemma SamePartsMove(s: State, s': State, e: Event, i: InstId, d: DeviceId, x: ConnId)
    requires i in s.insts && i in s'.insts && s'.insts[i].stream == s.insts[i].stream
    requires Side(s', i, d, x) == Side(s, i, d, x) || Side(s', i, d, x) == []
    ensures SlotMoves(s, s', e, i, d, x)
  {
    var q := InStream(s.insts[i].stream, d, x);
    PartsMove(Side(s, i, d, x), q, Side(s', i, d, x), q, Added(e, x, d));
  }

  lemma StillStreams(s: State, e: Event, i: InstId)
    requires Enabled(s, e) && IsStill(e) && i in s.insts
    ensures i in Apply(s, e).insts && Apply(s, e).insts[i].stream == s.insts[i].stream
  {
    if e.RefuseSubscribe? || e.Remove? || e.Drop? || e.Resubscribe? {
      BusUntouched(s, e);
    } else if e.Insert? || e.Revoke? || e.Delete? || e.AddDevice? || e.Expire? {
      DbUntouched(s, e);
    } else if e.TakeRequest? || e.Ack? {
      ConfirmStreams(s, e, i);
    } else {
      StillUntouched(s, e, e.c);
    }
  }

  lemma ConfirmStreams(s: State, e: Event, i: InstId)
    requires Enabled(s, e) && (e.TakeRequest? || e.Ack?) && i in s.insts
    ensures i in Apply(s, e).insts && Apply(s, e).insts[i].stream == s.insts[i].stream
  {
  }

  lemma SameSide(s: State, s': State, i: InstId, d: DeviceId, x: ConnId)
    requires Sub.Inv(s) && i in s.insts && i in s'.insts && s'.insts[i].registry == s.insts[i].registry
    requires d in s.insts[i].registry && s.insts[i].registry[d] in s.conns ==>
               var y := s.insts[i].registry[d];
               y in s'.conns && OnSide(s'.conns[y], x) == OnSide(s.conns[y], x)
    ensures Side(s', i, d, x) == Side(s, i, d, x)
  {
    if d in s.insts[i].registry { SideOf(s, i, d); }
  }

  lemma StillRegistry(s: State, e: Event, i: InstId)
    requires Enabled(s, e) && IsStill(e) && !e.Unregister? && i in s.insts
    ensures i in Apply(s, e).insts && Apply(s, e).insts[i].registry == s.insts[i].registry
  {
    T.SteadySteps(s, e);
  }

  lemma StillSlot(s: State, e: Event, i: InstId, d: DeviceId, x: ConnId)
    requires Sub.Inv(s) && Enabled(s, e) && IsStill(e) && !e.Unregister? && i in s.insts
    ensures SlotMoves(s, Apply(s, e), e, i, d, x)
  {
    StillRegistry(s, e, i);
    StillStreams(s, e, i);
    StillSide(s, e, i, d, x);
    SamePartsMove(s, Apply(s, e), e, i, d, x);
  }

  lemma StillSide(s: State, e: Event, i: InstId, d: DeviceId, x: ConnId)
    requires Sub.Inv(s) && Enabled(s, e) && IsStill(e) && i in s.insts
    requires i in Apply(s, e).insts && Apply(s, e).insts[i].registry == s.insts[i].registry
    ensures Side(Apply(s, e), i, d, x) == Side(s, i, d, x)
  {
    if d in s.insts[i].registry {
      SideOf(s, i, d);
      StillUntouched(s, e, s.insts[i].registry[d]);
    }
    SameSide(s, Apply(s, e), i, d, x);
  }

  lemma ReloadInsts(s: State, e: Event)
    requires Enabled(s, e) && (e.Read? || e.Store? || e.FailRead? || e.Receive?)
    ensures Apply(s, e).insts == s.insts
  {
  }

  lemma ReloadSlot(s: State, e: Event, i: InstId, d: DeviceId, x: ConnId)
    requires Sub.Inv(s) && Enabled(s, e) && (e.Read? || e.Store? || e.FailRead? || e.Receive?) && i in s.insts
    ensures SlotMoves(s, Apply(s, e), e, i, d, x)
  {
    ReloadInsts(s, e);
    if d in s.insts[i].registry {
      SideOf(s, i, d);
      var y := s.insts[i].registry[d];
      ReloadUntouched(s, e, y);
      if e.c == y { OwnMoves(s, e, y, x); }
    }
    SameSide(s, Apply(s, e), i, d, x);
    SamePartsMove(s, Apply(s, e), e, i, d, x);
  }

  /** A message is published; sides and registries stay. */
  lemma PublishSlot(s: State, s': State, e: Event, to: DeviceId, m: BusMsg, i: InstId, d: DeviceId, x: ConnId)
    requires Sub.Inv(s) && i in s.insts && s'.insts == Publish(s, to, m).insts && s'.conns.Keys == s.conns.Keys
    requires forall z | z in s.conns :: OnSide(s'.conns[z], x) == OnSide(s.conns[z], x)
    requires to == d ==> OfMsg(m, x) == Added(e, x, d)
    ensures SlotMoves(s, s', e, i, d, x)
  {
    HearFrames(s.insts[i], to, m, d, x);
    SameSide(s, s', i, d, x);
    PartsMove(Side(s, i, d, x), InStream(s.insts[i].stream, d, x),
              Side(s', i, d, x), InStream(s'.insts[i].stream, d, x), Added(e, x, d));
  }

  lemma AnnounceSlot(s: State, y: ConnId, i: InstId, d: DeviceId, x: ConnId)
    requires Sub.Inv(s) && Enabled(s, Announce(y)) && i in s.insts
    ensures SlotMoves(s, AnnounceStep(s, y), Announce(y), i, d, x)
  {
    PublishSlot(s, AnnounceStep(s, y), Announce(y), s.conns[y].device, Replace(y), i, d, x);
  }

  lemma SendSlot(s: State, y: ConnId, to: DeviceId, frame: Frame, i: InstId, d: DeviceId, x: ConnId)
    requires Sub.Inv(s) && Enabled(s, Send(y, to, frame)) && i in s.insts
    ensures SlotMoves(s, SendStep(s, y, to, frame), Send(y, to, frame), i, d, x)
  {
    var m := Forward(s.conns[y].device, y, frame);
    PublishSlot(s, SendStep(s, y, to, frame), Send(y, to, frame), to, m, i, d, x);
  }

  lemma ContinueSlot(s: State, j: JobId, i: InstId, d: DeviceId, x: ConnId)
    requires Sub.Inv(s) && Plain(s) && Enabled(s, Continue(j)) && i in s.insts
    ensures SlotMoves(s, ContinueStep(s, j), Continue(j), i, d, x)
  {
    var a := s.jobs[j][0];
    assert a in s.jobs[j];
    if a.Notify? {
      PublishSlot(s, ContinueStep(s, j), Continue(j), a.to, a.msg, i, d, x);
    } else {
      SameSide(s, ContinueStep(s, j), i, d, x);
      SamePartsMove(s, ContinueStep(s, j), Continue(j), i, d, x);
    }
  }

  lemma DispatchedConn(s: State, i: InstId, overflow: bool, y: ConnId, x: ConnId)
    requires i in s.insts && s.insts[i].stream != [] && y in s.conns
    ensures var s' := DispatchStep(s, i, overflow);
            var m := s.insts[i].stream[0];
            var r := s.insts[i].registry;
            && y in s'.conns
            && OnSide(s'.conns[y], x)
               == OnSide(s.conns[y], x) + (if m.to in r && r[m.to] == y && !overflow then OfMsg(m.msg, x) else [])
  {
    AppendedSide(s.conns[y], Bus(s.insts[i].stream[0].msg), x);
  }

  lemma DispatchedSide(s: State, i: InstId, overflow: bool, j: InstId, d: DeviceId, x: ConnId)
    requires Sub.Inv(s) && i in s.insts && s.insts[i].stream != [] && j in s.insts
    ensures var s' := DispatchStep(s, i, overflow);
            var m := s.insts[i].stream[0];
            && j in s'.insts
            && Side(s', j, d, x) == Side(s, j, d, x)
               + (if i == j && m.to == d && d in s.insts[i].registry && !overflow then OfMsg(m.msg, x) else [])
  {
    var m := s.insts[i].stream[0];
    if d in s.insts[j].registry {
      SideOf(s, j, d);
      DispatchedConn(s, i, overflow, s.insts[j].registry[d], x);
    }
    if m.to in s.insts[i].registry { SideOf(s, i, m.to); }
  }

  lemma DispatchSlot(s: State, i: InstId, overflow: bool, j: InstId, d: DeviceId, x: ConnId)
    requires Sub.Inv(s) && Enabled(s, Dispatch(i, overflow)) && j in s.insts
    ensures SlotMoves(s, DispatchStep(s, i, overflow), Dispatch(i, overflow), j, d, x)
  {
    var s' := DispatchStep(s, i, overflow);
    var q := s.insts[i].stream;
    DispatchedSide(s, i, overflow, j, d, x);
    if i != j {
      SamePartsMove(s, s', Dispatch(i, overflow), j, d, x);
    } else {
      assert s'.insts[j].stream == q[1..];
      var head := if q[0].to == d then OfMsg(q[0].msg, x) else [];
      HeadMoves(Side(s, i, d, x), head, InStream(q[1..], d, x), []);
    }
  }

  lemma OpenedSide(s: State, i: InstId, e: DeviceId, c: ConnId, j: InstId, d: DeviceId, x: ConnId)
    requires Sub.Inv(s) && i in s.insts && c !in s.conns && j in s.insts
    ensures var s' := OpenStep(s, i, e, c);
            j in s'.insts && s'.insts[j].stream == s.insts[j].stream
            && (Side(s', j, d, x) == [] || Side(s', j, d, x) == Side(s, j, d, x))
  {
    if d in s.insts[j].registry { SideOf(s, j, d); }
    if e in s.insts[i].registry { SideOf(s, i, e); }
  }

  lemma OpenSlot(s: State, i: InstId, e: DeviceId, c: ConnId, j: InstId, d: DeviceId, x: ConnId)
    requires Sub.Inv(s) && Enabled(s, Open(i, e, c)) && j in s.insts
    ensures SlotMoves(s, OpenStep(s, i, e, c), Open(i, e, c), j, d, x)
  {
    OpenedSide(s, i, e, c, j, d, x);
    SamePartsMove(s, OpenStep(s, i, e, c), Open(i, e, c), j, d, x);
  }

  lemma UnregisteredSide(s: State, c: ConnId, j: InstId, d: DeviceId, x: ConnId)
    requires Sub.Inv(s) && Enabled(s, Unregister(c)) && j in s.insts
    ensures var s' := UnregisterStep(s, c);
            j in s'.insts && s'.insts[j].stream == s.insts[j].stream
            && (Side(s', j, d, x) == [] || Side(s', j, d, x) == Side(s, j, d, x))
  {
    if d in s.insts[j].registry { SideOf(s, j, d); }
  }

  lemma UnregisterSlot(s: State, c: ConnId, j: InstId, d: DeviceId, x: ConnId)
    requires Sub.Inv(s) && Enabled(s, Unregister(c)) && j in s.insts
    ensures SlotMoves(s, UnregisterStep(s, c), Unregister(c), j, d, x)
  {
    UnregisteredSide(s, c, j, d, x);
    SamePartsMove(s, UnregisterStep(s, c), Unregister(c), j, d, x);
  }

  lemma LoseSlot(s: State, i: InstId, j: InstId, d: DeviceId, x: ConnId)
    requires Enabled(s, Lose(i)) && j in s.insts
    ensures SlotMoves(s, WithInst(s, i, Hub.Lose(s.insts[i])), Lose(i), j, d, x)
  {
    var s' := WithInst(s, i, Hub.Lose(s.insts[i]));
    PartsMove(Side(s, j, d, x), InStream(s.insts[j].stream, d, x),
              Side(s', j, d, x), InStream(s'.insts[j].stream, d, x), []);
  }

  lemma RestoredSlot(s: State, i: InstId, j: InstId, d: DeviceId, x: ConnId)
    requires Sub.Inv(s) && Enabled(s, Restored(i)) && j in s.insts
    ensures SlotMoves(s, RestoredStep(s, i), Restored(i), j, d, x)
  {
    if d in s.insts[j].registry {
      SideOf(s, j, d);
      AppendedSide(s.conns[s.insts[j].registry[d]], Resync, x);
    }
    SameSide(s, RestoredStep(s, i), j, d, x);
    SamePartsMove(s, RestoredStep(s, i), Restored(i), j, d, x);
  }

  lemma StepSlot(s: State, e: Event, i: InstId, d: DeviceId, x: ConnId)
    requires Sub.Inv(s) && Plain(s) && Enabled(s, e) && i in s.insts
    ensures SlotMoves(s, Apply(s, e), e, i, d, x)
  {
    if e.Unregister? { UnregisterSlot(s, e.c, i, d, x); }
    else if IsStill(e) { StillSlot(s, e, i, d, x); }
    else if e.Announce? { AnnounceSlot(s, e.c, i, d, x); }
    else if e.Send? { SendSlot(s, e.c, e.to, e.frame, i, d, x); }
    else if e.Continue? { ContinueSlot(s, e.j, i, d, x); }
    else if e.Dispatch? { DispatchSlot(s, e.i, e.overflow, i, d, x); }
    else if e.Open? { OpenSlot(s, e.i, e.d, e.c, i, d, x); }
    else if e.Lose? { LoseSlot(s, e.i, i, d, x); }
    else if e.Restored? { RestoredSlot(s, e.i, i, d, x); }
    else { ReloadSlot(s, e, i, d, x); }
  }

  lemma InOrderKept(s: State, e: Event)
    requires Sub.Inv(s) && Plain(s) && InOrder(s) && Enabled(s, e)
    ensures InOrder(Apply(s, e))
  {
    var s' := Apply(s, e);
    Sub.InstsKept(s, e);
    forall i, d, x | i in s'.insts ensures Subsequence(Slot(s', i, d, x), Published(s', x, d)) {
      StepSlot(s, e, i, d, x);
      PublishedMoves(s, e, x, d);
      MovesInOrder(Slot(s, i, d, x), Slot(s', i, d, x), Published(s, x, d), Added(e, x, d));
    }
  }

  lemma InitInOrder(s: State)
    requires Init(s)
    ensures Sub.Inv(s) && Plain(s) && InOrder(s)
  {
    forall i, d, x | i in s.insts ensures Subsequence(Slot(s, i, d, x), Published(s, x, d)) {
      EmptyEmbeds(Published(s, x, d));
      assert Slot(s, i, d, x) == [];
    }
  }

  lemma {:induction false} InOrderOverRun(s: State, es: seq<Event>)
    requires Sub.Inv(s) && Plain(s) && InOrder(s) && IsRun(s, es)
    ensures InOrder(After(s, es))
    decreases |es|
  {
    if es != [] {
      Sub.Kept(s, es[0]);
      PlainKept(s, es[0]);
      InOrderKept(s, es[0]);
      InOrderOverRun(Apply(s, es[0]), es[1..]);
    }
  }

  lemma SubsequencePrefix(a: seq<Frame>, b: seq<Frame>, q: seq<Frame>)
    requires Subsequence(b, q) && T.Prefix(a, b)
    ensures Subsequence(a, q)
  {
    var at: seq<nat> :| Embeds(at, b, q);
    assert Embeds(at[..|a|], a, q);
  }

  /** In every reachable state, reconnects and overflows included: what a
      registered connection took, holds or has on its way from a sender is a
      subsequence of what that sender published for its device. Nothing is ever
      doubled or reordered. */
  lemma NeverDoubledOrSwapped(s: State, c: ConnId, x: ConnId)
    requires Reachable(s) && Registered(s, c)
    ensures Subsequence(Pipeline(s, c, x), Published(s, x, s.conns[c].device))
    ensures Subsequence(InLog(s.conns[c].handled, x), Published(s, x, s.conns[c].device))
  {
    var s0, es :| Init(s0) && IsRun(s0, es) && After(s0, es) == s;
    InitInOrder(s0);
    InOrderOverRun(s0, es);
    assert Slot(s, s.conns[c].inst, s.conns[c].device, x) == Pipeline(s, c, x);
    LogLeads(s, c, x);
    SubsequencePrefix(InLog(s.conns[c].handled, x), Pipeline(s, c, x), Published(s, x, s.conns[c].device));
  }

  // ---- without gaps from the confirmation on ----

  lemma SubsequenceOfNothing(a: seq<Frame>, b: seq<Frame>)
    requires Subsequence(a, b)
    ensures a != [] ==> b != []
  {
    var at: seq<nat> :| Embeds(at, a, b);
    if a != [] { assert at[0] < |b|; }
  }

  lemma NoLossReachable(s0: State, es: seq<Event>)
    requires Init(s0) && IsRun(s0, es)
    ensures Reachable(After(s0, es))
  {
  }

  /** From a moment `s` at which `c`'s subscription was confirmed to one `t` at
      which it is still up, without a lost pub/sub connection: what `c` took from
      sender `x` is a prefix of `early` and `more`. `early` was under way at `s` and
      is a subsequence of what `x` had published by then; `more` is everything `x`
      has published since, without a gap. A sender that starts after the
      confirmation is received from its first frame on. */
  lemma EndToEndOrder(s0: State, before: seq<Event>, s: State, es: seq<Event>, t: State, c: ConnId, x: ConnId)
    returns (early: seq<Frame>, more: seq<Frame>)
    requires Init(s0) && IsRun(s0, before) && T.NoLoss(before) && s == After(s0, before)
    requires IsRun(s, es) && T.NoLoss(es) && t == After(s, es)
    requires c in s.conns && s.conns[c].Confirmed() && Up(t, c)
    ensures var d := s.conns[c].device;
            && Subsequence(early, Published(s, x, d))
            && Published(t, x, d) == Published(s, x, d) + more
            && T.Prefix(InLog(t.conns[c].handled, x), early + more)
            && (Published(s, x, d) == [] ==> T.Prefix(InLog(t.conns[c].handled, x), Published(t, x, d)))
  {
    var d := s.conns[c].device;
    ReachesSane(s0, before);
    more := NothingLostOrDoubled(s, es, c, x, d);
    LogLeads(t, c, x);
    NoLossReachable(s0, before);
    NeverDoubledOrSwapped(s, c, x);
    early := Pipeline(s, c, x);
    SubsequenceOfNothing(early, Published(s, x, d));
    if Published(s, x, d) == [] {
      assert early + more == more && Published(s, x, d) + more == more;
    }
  }

  // ---- what the device is sent ----

  /** The frames of `x` written to the device, in order. */
  function WrittenOf(q: seq<Handled>, x: ConnId): seq<Frame> {
    if q == [] then []
    else (if q[0].via == x && q[0].written then [q[0].frame] else []) + WrittenOf(q[1..], x)
  }

  predicate NoneRefused(q: seq<Handled>, x: ConnId) {
    forall y | y in q :: y.via == x ==> y.written
  }

  lemma {:induction false} AllWritten(q: seq<Handled>, x: ConnId)
    requires NoneRefused(q, x)
    ensures WrittenOf(q, x) == InLog(q, x)
  {
    if q != [] {
      assert q[0] in q && forall y | y in q[1..] :: y in q;
      AllWritten(q[1..], x);
    }
  }

  /** While `c` serves, the device of `x` is in its cache. */
  predicate Friends(s: State, c: ConnId, x: ConnId) {
    c in s.conns && (x in s.conns && s.conns[c].phase.Serving? ==> s.conns[x].device in s.conns[c].Peers())
  }

  predicate FriendsRun(s: State, es: seq<Event>, c: ConnId, x: ConnId)
    requires IsRun(s, es)
    decreases |es|
  {
    Friends(s, c, x) && (es != [] ==> FriendsRun(Apply(s, es[0]), es[1..], c, x))
  }

  /** Nothing of `x` was refused, and none of its frames waits for a reload. */
  predicate AllPassed(k: Conn, x: ConnId) {
    NoneRefused(k.handled, x) && (HoldOf(k.task).Some? ==> !FromSender(HoldOf(k.task).value, x))
  }

  predicate FromSender(m: BusMsg, x: ConnId) {
    m.Forward? && m.via == x
  }

  lemma SettlePassed(k: Conn, m: BusMsg, ok: bool, x: ConnId)
    requires AllPassed(k, x) && (FromSender(m, x) ==> ok)
    ensures AllPassed(Settle(k, m, ok), x)
  {
  }

  lemma DeliveryPassed(me: ConnId, k: Conn, m: Delivery, retry: bool, held: bool, x: ConnId)
    requires AllPassed(k, x)
    requires m.Bus? && FromSender(m.msg, x) ==> m.msg.from in k.Peers()
    ensures AllPassed(OnDelivery(me, k, m, retry, held), x)
  {
    if m.Bus? && m.msg.Forward? {
      if m.msg.from in k.Peers() {
        SettlePassed(k, m.msg, true, x);
      } else if !retry {
        SettlePassed(k, m.msg, false, x);
      }
    }
  }

  /** The head of the queue, if it is a frame of `x`, names the device of `x`. */
  lemma HeadNamesSender(s: State, c: ConnId, x: ConnId)
    requires Cutoff.AllSourced(s) && c in s.conns && s.conns[c].inbox != []
    ensures var m := s.conns[c].inbox[0];
            m.Bus? && FromSender(m.msg, x) ==> x in s.conns && m.msg.from == s.conns[x].device
  {
    var m := s.conns[c].inbox[0];
    assert Cutoff.ConnOk(s.history, Cutoff.OwnersOf(s), s.conns[c]) && m in s.conns[c].inbox;
  }

  lemma ReceivePassed(s: State, c: ConnId, retry: bool, x: ConnId)
    requires Cutoff.AllSourced(s) && Friends(s, c, x) && Enabled(s, Receive(c, retry)) && AllPassed(s.conns[c], x)
    ensures AllPassed(ReceiveStep(s, c, retry).conns[c], x)
  {
    var k := s.conns[c];
    HeadNamesSender(s, c, x);
    DeliveryPassed(c, k.(inbox := k.inbox[1..]), k.inbox[0], retry, Cutoff.MayHold(s, c), x);
  }

  lemma StepPassed(s: State, e: Event, c: ConnId, x: ConnId)
    requires Cutoff.AllSourced(s) && Friends(s, c, x) && Enabled(s, e) && AllPassed(s.conns[c], x)
    ensures c in Apply(s, e).conns && AllPassed(Apply(s, e).conns[c], x)
  {
    if !C.TouchesCache(e, c) {
      C.CacheUntouched(s, e, c);
    } else if e.Receive? {
      ReceivePassed(s, c, e.retry, x);
    } else {
      ReloadPassed(s, e, c, x);
    }
  }

  lemma ReloadPassed(s: State, e: Event, c: ConnId, x: ConnId)
    requires Enabled(s, e) && (e.Read? || e.Store? || e.FailRead?) && e.c == c && AllPassed(s.conns[c], x)
    ensures AllPassed(Apply(s, e).conns[c], x)
  {
    var k := s.conns[c];
    if e.Store? && k.task.hold.Some? {
      var k' := k.(pairs := k.task.view, readAt := k.task.version, stale := false, task := Idle,
                   phase := if k.phase.Loading? then Serving else k.phase);
      var m := k.task.hold.value;
      SettlePassed(k', m, m.Forward? && m.from in k'.Peers(), x);
    } else if e.FailRead? && k.task.hold.Some? {
      SettlePassed(k.(task := Idle, stale := k.stale || k.task.hold.None?), k.task.hold.value, false, x);
    }
  }

  lemma {:induction false} PassedOverRun(s: State, es: seq<Event>, c: ConnId, x: ConnId)
    requires Cutoff.Inv(s) && Cutoff.AllSourced(s) && IsRun(s, es) && FriendsRun(s, es, c, x) && AllPassed(s.conns[c], x)
    ensures c in After(s, es).conns && AllPassed(After(s, es).conns[c], x)
    decreases |es|
  {
    if es != [] {
      Cutoff.Kept(s, es[0]);
      Cutoff.SourcedKept(s, es[0]);
      StepPassed(s, es[0], c, x);
      PassedOverRun(Apply(s, es[0]), es[1..], c, x);
    }
  }

  /** A connection that has not announced itself has handled nothing. */
  predicate Unused(k: Conn) {
    k.Live() && !k.Published() ==> k.handled == [] && k.task == MustRead(None)
  }

  lemma UnusedStep(s: State, e: Event, c: ConnId)
    requires Enabled(s, e) && (c in s.conns ==> Unused(s.conns[c])) && c in Apply(s, e).conns
    ensures Unused(Apply(s, e).conns[c])
  {
    if c !in s.conns {
      Sub.Newcomer(s, e, c);
    } else {
      T.OnlyForward(s, e, c);
      if !C.TouchesCache(e, c) { C.CacheUntouched(s, e, c); }
    }
  }

  lemma {:induction false} UnusedOverRun(s: State, es: seq<Event>, c: ConnId)
    requires IsRun(s, es) && (c in s.conns ==> Unused(s.conns[c])) && c in After(s, es).conns
    ensures Unused(After(s, es).conns[c])
    decreases |es|
  {
    if es != [] {
      if c in Apply(s, es[0]).conns { UnusedStep(s, es[0], c); }
      UnusedOverRun(Apply(s, es[0]), es[1..], c);
    }
  }

  /** From the confirmation of `c` on, while the device of `x` stays in its cache
      and no pub/sub connection is lost: what is written to the device is a prefix
      of what `x` had under way and has published since, in order and without gaps
      or duplicates, and of all that `x` published if it started later. */
  lemma WrittenInOrder(s0: State, before: seq<Event>, s: State, es: seq<Event>, t: State, c: ConnId, x: ConnId)
    returns (early: seq<Frame>, more: seq<Frame>)
    requires Init(s0) && IsRun(s0, before) && T.NoLoss(before) && s == After(s0, before)
    requires IsRun(s, es) && T.NoLoss(es) && t == After(s, es)
    requires c in s.conns && s.conns[c].Confirmed() && !s.conns[c].Published() && Up(t, c)
    requires FriendsRun(s, es, c, x)
    ensures var d := s.conns[c].device;
            var written := WrittenOf(t.conns[c].handled, x);
            && Subsequence(early, Published(s, x, d))
            && Published(t, x, d) == Published(s, x, d) + more
            && T.Prefix(written, early + more)
            && (Published(s, x, d) == [] ==> T.Prefix(written, Published(t, x, d)))
  {
    early, more := EndToEndOrder(s0, before, s, es, t, c, x);
    NoLossReachable(s0, before);
    Cutoff.ReachableSourced(s);
    UnusedOverRun(s0, before, c);
    PassedOverRun(s, es, c, x);
    AllWritten(t.conns[c].handled, x);
  }
}

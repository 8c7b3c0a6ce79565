/** Exactly when a receive queue can lose a message and still process a later
    one. */
module QueueRace {
  import opened Queue

  function Messages(lens: seq<nat>): (q: seq<Msg>)
    ensures Numbered(q) && |q| == |lens|
  {
    seq(|lens|, k requires 0 <= k < |lens| => Msg(k, lens[k]))
  }

  // ---- runs put together ----

  lemma {:induction false} Joins(s: State, es: seq<Event>, fs: seq<Event>)
    requires IsRun(s, es) && IsRun(After(s, es), fs)
    ensures IsRun(s, es + fs) && After(s, es + fs) == After(After(s, es), fs)
    decreases |es|
  {
    if es == [] {
      assert es + fs == fs;
    } else {
      Joins(Apply(s, es[0]), es[1..], fs);
      assert (es + fs)[1..] == es[1..] + fs;
    }
  }

  ghost predicate Leads(s: State, t: State) {
    exists es :: IsRun(s, es) && After(s, es) == t
  }

  lemma Step(s: State, e: Event)
    requires Enabled(s, e)
    ensures Leads(s, Apply(s, e))
  {
    var t := Apply(s, e);
    assert [e][1..] == [] && IsRun(t, []) && After(t, []) == t;
    assert IsRun(s, [e]) && After(s, [e]) == t;
  }

  lemma Then(s: State, t: State, u: State)
    requires Leads(s, t) && Leads(t, u)
    ensures Leads(s, u)
  {
    var es :| IsRun(s, es) && After(s, es) == t;
    var fs :| IsRun(t, fs) && After(t, fs) == u;
    Joins(s, es, fs);
  }

  lemma Extends(s: State, t: State, e: Event)
    requires Leads(s, t) && Enabled(t, e)
    ensures Leads(s, Apply(t, e))
  {
    Step(t, e);
    Then(s, t, Apply(t, e));
  }

  // ---- the run ----

  /** `g` messages processed, those up to `k` waiting, and perhaps message `k`
      counted with total `over`. */
  function Stage(q: seq<Msg>, max: nat, g: nat, k: nat, counted: bool, over: int): State
    requires g <= k <= |q| && (counted ==> k < |q|)
  {
    State(max, Total(q[g..k]) + (if counted then q[k].len else 0), q[g..k], false,
          if counted then Added(q[k], over) else Idle, AtKill,
          if counted then q[..k + 1] else q[..k], q[..g], [])
  }

  lemma Slide(q: seq<Msg>, g: nat, k: nat)
    requires g <= k < |q|
    ensures Total(q[g..k + 1]) == Total(q[g..k]) + q[k].len
    ensures q[g..k] + [q[k]] == q[g..k + 1] && q[..k] + [q[k]] == q[..k + 1]
  {
    TotalPush(q[g..k], q[k]);
    assert q[g..k + 1] == q[g..k] + [q[k]];
  }

  lemma CountOne(q: seq<Msg>, max: nat, g: nat, k: nat)
    requires Numbered(q) && g <= k < |q|
    ensures Leads(Stage(q, max, g, k, false, 0), Stage(q, max, g, k, true, Total(q[g..k + 1])))
  {
    Slide(q, g, k);
    Step(Stage(q, max, g, k, false, 0), FetchAdd(q[k].len));
  }

  lemma DecideSends(q: seq<Msg>, max: nat, g: nat, k: nat, over: int)
    requires g <= k < |q| && over <= max
    ensures Decided(Stage(q, max, g, k, true, over)) == Stage(q, max, g, k + 1, false, 0)
  {
    Slide(q, g, k);
  }

  lemma SendOne(q: seq<Msg>, max: nat, g: nat, k: nat)
    requires Numbered(q) && g <= k < |q| && Total(q[g..k + 1]) <= max
    ensures Leads(Stage(q, max, g, k, false, 0), Stage(q, max, g, k + 1, false, 0))
  {
    var t := Stage(q, max, g, k, true, Total(q[g..k + 1]));
    CountOne(q, max, g, k);
    DecideSends(q, max, g, k, Total(q[g..k + 1]));
    Extends(Stage(q, max, g, k, false, 0), t, Decide);
  }

  function AfterTake(s: State): State
    requires s.receiver.AtKill? && !s.killed && s.channel != []
  {
    Apply(Apply(Apply(Apply(s, PollKill), Recv), FetchSub), Resume)
  }

  lemma TakeLeads(s: State)
    requires s.receiver.AtKill? && !s.killed && s.channel != []
    ensures Leads(s, AfterTake(s))
  {
    var s1 := Apply(s, PollKill);
    var s2 := Apply(s1, Recv);
    var s3 := Apply(s2, FetchSub);
    Step(s, PollKill);
    Extends(s, s1, Recv);
    Extends(s, s2, FetchSub);
    Extends(s, s3, Resume);
  }

  lemma TakeMoves(q: seq<Msg>, max: nat, g: nat, k: nat, counted: bool, over: int)
    requires g < k <= |q| && (counted ==> k < |q|)
    ensures AfterTake(Stage(q, max, g, k, counted, over)) == Stage(q, max, g + 1, k, counted, over)
  {
    TotalPop(q[g..k]);
    assert q[g..k][1..] == q[g + 1..k];
    assert q[..g] + [q[g]] == q[..g + 1];
  }

  lemma TakeOne(q: seq<Msg>, max: nat, g: nat, k: nat, counted: bool, over: int)
    requires g < k <= |q| && (counted ==> k < |q|)
    ensures Leads(Stage(q, max, g, k, counted, over), Stage(q, max, g + 1, k, counted, over))
  {
    TakeLeads(Stage(q, max, g, k, counted, over));
    TakeMoves(q, max, g, k, counted, over);
  }

  lemma {:induction false} Drain(q: seq<Msg>, max: nat, g: nat, k: nat, over: int)
    requires g <= k < |q|
    ensures Leads(Stage(q, max, g, k, true, over), Stage(q, max, k, k, true, over))
    decreases k - g
  {
    var s := Stage(q, max, g, k, true, over);
    if g == k {
      assert IsRun(s, []) && After(s, []) == s;
    } else {
      TakeOne(q, max, g, k, true, over);
      Drain(q, max, g + 1, k, over);
      Then(s, Stage(q, max, g + 1, k, true, over), Stage(q, max, k, k, true, over));
    }
  }

  /** One at a time, each processed before the next. */
  lemma {:induction false} PassAll(q: seq<Msg>, max: nat, k: nat)
    requires Numbered(q) && k <= |q| && forall j | 0 <= j < k :: q[j].len <= max
    ensures Leads(Init(max), Stage(q, max, k, k, false, 0))
  {
    var s := Init(max);
    if k == 0 {
      assert IsRun(s, []) && After(s, []) == s;
    } else {
      var j := k - 1;
      PassAll(q, max, j);
      Slide(q, j, j);
      SendOne(q, max, j, j);
      Then(s, Stage(q, max, j, j, false, 0), Stage(q, max, j, k, false, 0));
      TakeOne(q, max, j, k, false, 0);
      Then(s, Stage(q, max, j, k, false, 0), Stage(q, max, k, k, false, 0));
    }
  }

  lemma TotalSplit(q: seq<Msg>, g: nat, k: nat)
    requires g < k <= |q|
    ensures Total(q[g..k]) == Total(q[g..k - 1]) + q[k - 1].len
  {
    Slide(q, g, k - 1);
  }

  lemma {:induction false} Fill(q: seq<Msg>, max: nat, g: nat, k: nat)
    requires Numbered(q) && g <= k <= |q| && Total(q[g..k]) <= max
    ensures Leads(Stage(q, max, g, g, false, 0), Stage(q, max, g, k, false, 0))
    decreases k - g
  {
    var s := Stage(q, max, g, g, false, 0);
    if g == k {
      assert IsRun(s, []) && After(s, []) == s;
    } else {
      TotalSplit(q, g, k);
      Fill(q, max, g, k - 1);
      SendOne(q, max, g, k - 1);
      Then(s, Stage(q, max, g, k - 1, false, 0), Stage(q, max, g, k, false, 0));
    }
  }

  /** The receiver looks at the kill; then message `i` is left out, the next one
      fits, and the receiver takes that one. */
  lemma Overtake(q: seq<Msg>, max: nat, i: nat, over: int) returns (t: State)
    requires Numbered(q) && i + 1 < |q| && over > max >= q[i].len + q[i + 1].len
    ensures Leads(Stage(q, max, i, i, true, over), t)
    ensures t.sent == q[..i + 2] && t.got == q[..i] + [q[i + 1]]
  {
    var s := Stage(q, max, i, i, true, over);
    var s1 := Apply(s, PollKill);
    var s2 := Apply(s1, Decide);
    var s3 := Apply(s2, FetchAdd(q[i + 1].len));
    var s4 := Apply(s3, Decide);
    var s5 := Apply(s4, Recv);
    t := Apply(s5, FetchSub);
    Step(s, PollKill);
    Extends(s, s1, Decide);
    Extends(s, s2, FetchAdd(q[i + 1].len));
    Extends(s, s3, Decide);
    Extends(s, s4, Recv);
    Extends(s, s5, FetchSub);
    assert q[..i + 1] + [q[i + 1]] == q[..i + 2];
  }

  lemma Race(q: seq<Msg>, max: nat, n: nat, i: nat) returns (t: State)
    requires Numbered(q) && OverflowAt(q, max, n, i) && i + 1 < |q| && q[i].len + q[i + 1].len <= max
    ensures Leads(Init(max), t) && t.sent == q[..i + 2] && t.got == q[..i] + [q[i + 1]]
  {
    var over := Total(q[n..i + 1]);
    PassAll(q, max, n);
    Fill(q, max, n, i);
    Then(Init(max), Stage(q, max, n, n, false, 0), Stage(q, max, n, i, false, 0));
    CountOne(q, max, n, i);
    Then(Init(max), Stage(q, max, n, i, false, 0), Stage(q, max, n, i, true, over));
    Drain(q, max, n, i, over);
    Then(Init(max), Stage(q, max, n, i, true, over), Stage(q, max, i, i, true, over));
    t := Overtake(q, max, i, over);
    Then(Init(max), Stage(q, max, i, i, true, over), t);
  }

  /** Every run that dispatches messages of these lengths, or the first few of
      them, processes a prefix of what it dispatched. */
  ghost predicate AlwaysInOrder(max: nat, lens: seq<nat>) {
    forall es | IsRun(Init(max), es) && After(Init(max), es).sent <= Messages(lens) ::
      After(Init(max), es).got <= After(Init(max), es).sent
  }

  /** Order is guaranteed exactly for those lengths where no message that can be
      the first to go over fits together with its successor. */
  lemma OrderIff(max: nat, lens: seq<nat>)
    ensures AlwaysInOrder(max, lens) <==> Crowded(Messages(lens), max)
  {
    var q := Messages(lens);
    if Crowded(q, max) {
      forall es | IsRun(Init(max), es) && After(Init(max), es).sent <= q
        ensures After(Init(max), es).got <= After(Init(max), es).sent
      {
        InitInv(max, true);
        CrowdedPrefix(After(Init(max), es).sent, q, max);
        KeptCrowded(Init(max), es);
      }
    } else {
      NotAlways(max, lens);
    }
  }

  lemma NotAlways(max: nat, lens: seq<nat>)
    requires !Crowded(Messages(lens), max)
    ensures !AlwaysInOrder(max, lens)
  {
    var q := Messages(lens);
    var i :| 0 <= i < |q| - 1 && Overflows(q, max, i) && q[i].len + q[i + 1].len <= max;
    var n: nat :| n <= i && OverflowAt(q, max, n, i);
    var t := Race(q, max, n, i);
    var es :| IsRun(Init(max), es) && After(Init(max), es) == t;
    assert t.got[i].id == i + 1 && t.sent[i].id == i;
  }

  /** With a limit of ten: 6 waits, 5 does not fit, and 3 is processed after 6. */
  lemma FiveIsSkipped()
    ensures !AlwaysInOrder(10, [6, 5, 3])
  {
    var q := Messages([6, 5, 3]);
    assert q == [Msg(0, 6), Msg(1, 5), Msg(2, 3)];
    assert q[0..1] == [q[0]] && q[0..2] == [q[0], q[1]];
    TotalPush([], q[0]);
    TotalPush([q[0]], q[1]);
    assert [] + [q[0]] == [q[0]] && [q[0]] + [q[1]] == [q[0], q[1]];
    assert OverflowAt(q, 10, 0, 1);
    assert Overflows(q, 10, 1) && q[1].len + q[2].len <= 10;
    NotAlways(10, [6, 5, 3]);
  }
}

/** The monthly usage salt. Any instance may create `usage_salt:<YYYY-MM>`
    with set-if-absent; it lives 40 days. All flushes of one UTC month, by all
    instances, read the same salt and never find it missing, exactly if a flush
    sends its commands within nine days of reading the clock. */
module Salt {
  import opened Store
  import Calendar

  type Month = (int, int)
  type CallId = nat

  const DAY_MS := 86_400_000
  const SALT_TTL_MS := 40 * DAY_MS
  /** A month has at most 31 days; this is what is left of 40. */
  const SPARE_MS := 9 * DAY_MS

  /** A Redis string with expiry. `since` is the clock reading of the flush
      that created it; Redis does not hold it. */
  datatype Entry = Entry(value: Bytes, since: int, expires: int)

  datatype Step = Keyed | Stored | Done(got: Option<Bytes>)

  /** One `monthly_salt` call: it read the clock, then sends `SET NX EX` and
      `GET`, which other calls may come between. */
  datatype Call = Call(readAt: int, newSalt: Bytes, step: Step) {
    function Key(): Month { Calendar.YearMonth(readAt) }
  }

  /** The two commands of a flush run within `patience` of its clock read. */
  datatype State = State(patience: nat, now: int, keys: map<Month, Entry>, calls: map<CallId, Call>)

  datatype Event = Tick(ms: nat) | Begin(id: CallId, newSalt: Bytes) | SetIfAbsent(id: CallId) | Get(id: CallId)

  predicate Live(s: State, m: Month) {
    m in s.keys && s.now < s.keys[m].expires
  }

  predicate Prompt(s: State, id: CallId) {
    id in s.calls && s.now <= s.calls[id].readAt + s.patience
  }

  predicate Enabled(s: State, e: Event) {
    match e
    case Tick(_) => true
    case Begin(id, _) => id !in s.calls
    case SetIfAbsent(id) => Prompt(s, id) && s.calls[id].step.Keyed?
    case Get(id) => Prompt(s, id) && s.calls[id].step.Stored?
  }

  function Apply(s: State, e: Event): State
    requires Enabled(s, e)
  {
    match e
    case Tick(ms) => s.(now := s.now + ms)
    case Begin(id, newSalt) => s.(calls := s.calls[id := Call(s.now, newSalt, Keyed)])
    case SetIfAbsent(id) =>
      var k := s.calls[id];
      s.(calls := s.calls[id := k.(step := Stored)],
         keys := if Live(s, k.Key()) then s.keys
                 else s.keys[k.Key() := Entry(k.newSalt, k.readAt, s.now + SALT_TTL_MS)])
    case Get(id) =>
      var k := s.calls[id];
      s.(calls := s.calls[id := k.(step := Done(if Live(s, k.Key()) then Some(s.keys[k.Key()].value) else None))])
  }

  predicate IsRun(s: State, es: seq<Event>)
    decreases |es|
  {
    es == [] || (Enabled(s, es[0]) && IsRun(Apply(s, es[0]), es[1..]))
  }

  function After(s: State, es: seq<Event>): State
    requires IsRun(s, es)
    decreases |es|
  {
    if es == [] then s else After(Apply(s, es[0]), es[1..])
  }

  // ---- invariant ----

  predicate EntryOk(s: State, m: Month, x: Entry) {
    && Calendar.YearMonth(x.since) == m
    && x.since + SALT_TTL_MS <= x.expires <= x.since + s.patience + SALT_TTL_MS
    && x.since <= s.now
  }

  predicate CallOk(s: State, k: Call) {
    && k.readAt <= s.now
    && (!k.step.Keyed? ==> k.Key() in s.keys)
    && (k.step.Done? ==> k.Key() in s.keys && k.step.got == Some(s.keys[k.Key()].value))
  }

  /** This flush of the month brought the salt along. */
  predicate Brought(s: State, m: Month, value: Bytes, id: CallId) {
    id in s.calls && s.calls[id].Key() == m && s.calls[id].newSalt == value && !s.calls[id].step.Keyed?
  }

  ghost predicate Made(s: State, m: Month, value: Bytes) {
    exists id: CallId :: Brought(s, m, value, id)
  }

  predicate Timely(s: State) {
    && s.patience <= SPARE_MS
    && (forall m | m in s.keys :: EntryOk(s, m, s.keys[m]))
    && (forall id | id in s.calls :: CallOk(s, s.calls[id]))
  }

  ghost predicate Inv(s: State) {
    Timely(s) && forall m | m in s.keys :: Made(s, m, s.keys[m].value)
  }

  /** A month spans at most 31 days and 31 + 9 <= 40: whenever a prompt flush
      of a month meets its key, the key is live. */
  lemma PromptFindsLive(s: State, id: CallId)
    requires Timely(s) && Prompt(s, id) && s.calls[id].Key() in s.keys
    ensures Live(s, s.calls[id].Key())
  {
    var k := s.calls[id];
    var x := s.keys[k.Key()];
    if x.since <= k.readAt { Calendar.MonthSpan(x.since, k.readAt); }
  }

  lemma KeysKept(s: State, e: Event)
    requires Timely(s) && Enabled(s, e)
    ensures forall m | m in s.keys :: m in Apply(s, e).keys && Apply(s, e).keys[m] == s.keys[m]
    ensures forall m | m in Apply(s, e).keys :: EntryOk(Apply(s, e), m, Apply(s, e).keys[m])
  {
    if e.SetIfAbsent? && s.calls[e.id].Key() in s.keys { PromptFindsLive(s, e.id); }
  }

  lemma CallGoesOn(s: State, e: Event, id: CallId)
    requires Enabled(s, e) && id in s.calls
    ensures var s' := Apply(s, e);
            && id in s'.calls && s'.calls[id].readAt == s.calls[id].readAt && s'.calls[id].newSalt == s.calls[id].newSalt
            && (!s.calls[id].step.Keyed? ==> !s'.calls[id].step.Keyed?)
  {
  }

  lemma NewEntry(s: State, e: Event, m: Month)
    requires Enabled(s, e) && m in Apply(s, e).keys && !(m in s.keys && Apply(s, e).keys[m] == s.keys[m])
    ensures e.SetIfAbsent? && Brought(Apply(s, e), m, Apply(s, e).keys[m].value, e.id)
  {
    assert e.SetIfAbsent?;
    assert m == s.calls[e.id].Key();
  }

  lemma MadeKept(s: State, e: Event, m: Month)
    requires m in s.keys ==> Made(s, m, s.keys[m].value)
    requires Enabled(s, e) && m in Apply(s, e).keys
    ensures Made(Apply(s, e), m, Apply(s, e).keys[m].value)
  {
    var s' := Apply(s, e);
    if m in s.keys && s'.keys[m] == s.keys[m] {
      var id: CallId :| Brought(s, m, s.keys[m].value, id);
      CallGoesOn(s, e, id);
      assert Brought(s', m, s'.keys[m].value, id);
    } else {
      NewEntry(s, e, m);
    }
  }

  lemma CallKept(s: State, e: Event, id: CallId)
    requires Timely(s) && Enabled(s, e) && id in Apply(s, e).calls
    requires forall m | m in s.keys :: m in Apply(s, e).keys && Apply(s, e).keys[m] == s.keys[m]
    ensures CallOk(Apply(s, e), Apply(s, e).calls[id])
  {
    if id in s.calls { assert CallOk(s, s.calls[id]); }
    if e.Get? && id == e.id { PromptFindsLive(s, id); }
  }

  lemma Kept(s: State, e: Event)
    requires Inv(s) && Enabled(s, e)
    ensures Inv(Apply(s, e))
    ensures forall m | m in s.keys :: m in Apply(s, e).keys && Apply(s, e).keys[m] == s.keys[m]
  {
    KeysKept(s, e);
    forall id | id in Apply(s, e).calls ensures CallOk(Apply(s, e), Apply(s, e).calls[id]) {
      CallKept(s, e, id);
    }
    forall m | m in Apply(s, e).keys ensures Made(Apply(s, e), m, Apply(s, e).keys[m].value) {
      MadeKept(s, e, m);
    }
  }

  /** Over any run a month's salt, once created, is never replaced. */
  lemma {:induction false} SaltNeverChanges(s: State, es: seq<Event>)
    requires Inv(s) && IsRun(s, es)
    ensures Inv(After(s, es))
    ensures After(s, es).patience == s.patience
    ensures forall m | m in s.keys :: m in After(s, es).keys && After(s, es).keys[m] == s.keys[m]
    decreases |es|
  {
    if es != [] {
      Kept(s, es[0]);
      SaltNeverChanges(Apply(s, es[0]), es[1..]);
    }
  }

  predicate Empty(s: State) {
    s.keys == map[] && s.calls == map[]
  }

  /** Two finished flushes that read the clock in one month. */
  predicate SameMonth(s: State, a: CallId, b: CallId) {
    && a in s.calls && s.calls[a].step.Done? && b in s.calls && s.calls[b].step.Done?
    && Calendar.YearMonth(s.calls[a].readAt) == Calendar.YearMonth(s.calls[b].readAt)
  }

  predicate SameSalt(s: State, a: CallId, b: CallId)
    requires SameMonth(s, a, b)
  {
    s.calls[a].step.got.Some? && s.calls[a].step.got == s.calls[b].step.got
  }

  /** Every two finished flushes of one UTC month, on any instances, got the
      same salt, and neither found it missing: `w` is the flush of that month that
      brought it along. */
  lemma OneSaltPerMonth(s0: State, es: seq<Event>, a: CallId, b: CallId) returns (w: CallId)
    requires Empty(s0) && s0.patience <= 9 * 86_400_000 && IsRun(s0, es)
    requires SameMonth(After(s0, es), a, b)
    ensures SameSalt(After(s0, es), a, b)
    ensures var s := After(s0, es);
            && w in s.calls && Calendar.YearMonth(s.calls[w].readAt) == Calendar.YearMonth(s.calls[a].readAt)
            && s.calls[a].step.got == Some(s.calls[w].newSalt)
  {
    SaltNeverChanges(s0, es);
    var s := After(s0, es);
    assert CallOk(s, s.calls[a]) && CallOk(s, s.calls[b]);
    var m := s.calls[a].Key();
    assert Made(s, m, s.keys[m].value);
    w :| Brought(s, m, s.keys[m].value, w);
  }

  /** Every two flushes of a month agree, in every run with this patience. */
  ghost predicate AlwaysOneSalt(patience: nat) {
    forall s0: State, es, a: CallId, b: CallId | s0.patience == patience && Empty(s0) && IsRun(s0, es) && SameMonth(After(s0, es), a, b) ::
      SameSalt(After(s0, es), a, b)
  }

  const LATE := [Begin(0, [1]), SetIfAbsent(0), Get(0), Tick(31 * DAY_MS - 1), Begin(1, [2]),
                 Tick(SPARE_MS + 1), SetIfAbsent(1), Get(1)]

  lemma January(ms: int)
    requires 0 <= ms < 31 * DAY_MS
    ensures Calendar.YearMonth(ms) == (1970, 1)
  {
    assert 0 <= ms / Calendar.DAY_MS < 31;
    assert Calendar.MonthStart(1970, 1) == 0;
    assert Calendar.InMonth(ms / Calendar.DAY_MS, 1970, 1);
    Calendar.YearMonthIsTheCalendarMonth(ms, 1970, 1);
  }

  const END := 31 * DAY_MS - 1

  /** The second flush still waits; the first has stored and read its salt. */
  function Halfway(patience: nat, now: int): State {
    State(patience, now, map[(1970, 1) := Entry([1], 0, SALT_TTL_MS)], map[0 := Call(0, [1], Done(Some([1])))])
  }

  lemma FirstFlush(patience: nat)
    ensures IsRun(State(patience, 0, map[], map[]), LATE[..3])
    ensures After(State(patience, 0, map[], map[]), LATE[..3]) == Halfway(patience, 0)
  {
    January(0);
    var s0 := State(patience, 0, map[], map[]);
    var s1 := Apply(s0, LATE[0]);
    var s2 := Apply(s1, LATE[1]);
    var s3 := Apply(s2, LATE[2]);
    assert s3 == Halfway(patience, 0);
    assert LATE[..3] == [LATE[0], LATE[1], LATE[2]];
    ThreeSteps(s0, LATE[0], LATE[1], LATE[2]);
  }

  lemma ThreeSteps(s: State, e: Event, f: Event, g: Event)
    requires Enabled(s, e) && Enabled(Apply(s, e), f) && Enabled(Apply(Apply(s, e), f), g)
    ensures IsRun(s, [e, f, g]) && After(s, [e, f, g]) == Apply(Apply(Apply(s, e), f), g)
  {
    assert [e, f, g][1..] == [f, g] && [f, g][1..] == [g] && [g][1..] == [];
    var s3 := Apply(Apply(Apply(s, e), f), g);
    assert IsRun(s3, []) && After(s3, []) == s3;
    assert IsRun(Apply(Apply(s, e), f), [g]) && After(Apply(Apply(s, e), f), [g]) == s3;
    assert IsRun(Apply(s, e), [f, g]) && After(Apply(s, e), [f, g]) == s3;
  }

  /** ... reads the clock in the last millisecond of the month, and waits. */
  lemma SecondWaits(patience: nat)
    ensures var s := Halfway(patience, 0);
            && IsRun(s, LATE[3..6])
            && After(s, LATE[3..6])
               == Halfway(patience, END + SPARE_MS + 1).(calls := s.calls[1 := Call(END, [2], Keyed)])
  {
    assert LATE[3..6] == [LATE[3], LATE[4], LATE[5]];
    ThreeSteps(Halfway(patience, 0), LATE[3], LATE[4], LATE[5]);
  }

  /** ... and finds the key expired. */
  lemma SecondStores(s: State)
    requires s.patience > SPARE_MS
    requires s == Halfway(s.patience, END + SPARE_MS + 1).(calls := Halfway(s.patience, 0).calls[1 := Call(END, [2], Keyed)])
    ensures IsRun(s, LATE[6..])
    ensures SameMonth(After(s, LATE[6..]), 0, 1) && !SameSalt(After(s, LATE[6..]), 0, 1)
  {
    January(0);
    January(END);
    var s1 := Apply(s, SetIfAbsent(1));
    var s2 := Apply(s1, Get(1));
    assert s2.calls[1].step.got == Some([2]) && s2.calls[0].step.got == Some([1]);
    assert LATE[6..] == [SetIfAbsent(1), Get(1)];
    assert [SetIfAbsent(1), Get(1)][1..] == [Get(1)] && [Get(1)][1..] == [];
    assert IsRun(s2, []) && After(s2, []) == s2;
    assert IsRun(s1, [Get(1)]) && After(s1, [Get(1)]) == s2;
  }

  lemma {:induction false} Joins(s: State, es: seq<Event>, fs: seq<Event>)
    requires IsRun(s, es) && IsRun(After(s, es), fs)
    ensures IsRun(s, es + fs) && After(s, es + fs) == After(After(s, es), fs)
    decreases |es|
  {
    if es == [] {
      assert es + fs == fs;
    } else {
      Joins(Apply(s, es[0]), es[1..], fs);
      assert (es + fs)[1..] == es[1..] + fs;
    }
  }

  /** The first flush runs when January 1970 begins, the second reads the clock in
      its last millisecond and writes a little over nine days later. */
  lemma LateFlushDiffers(patience: nat)
    requires patience > SPARE_MS
    ensures var s0 := State(patience, 0, map[], map[]);
            IsRun(s0, LATE) && SameMonth(After(s0, LATE), 0, 1) && !SameSalt(After(s0, LATE), 0, 1)
  {
    var s0 := State(patience, 0, map[], map[]);
    FirstFlush(patience);
    SecondWaits(patience);
    SecondStores(After(Halfway(patience, 0), LATE[3..6]));
    Joins(s0, LATE[..3], LATE[3..6]);
    Joins(s0, LATE[..3] + LATE[3..6], LATE[6..]);
    assert LATE[..3] + LATE[3..6] + LATE[6..] == LATE;
  }

  /** All flushes of a month agree in every run if and only if the patience is at
      most nine days. */
  lemma OneSaltIff(patience: nat)
    ensures AlwaysOneSalt(patience) <==> patience <= 9 * 86_400_000
  {
    if patience <= SPARE_MS {
      forall s0: State, es, a: CallId, b: CallId | s0.patience == patience && Empty(s0) && IsRun(s0, es) && SameMonth(After(s0, es), a, b)
        ensures SameSalt(After(s0, es), a, b)
      {
        var _ := OneSaltPerMonth(s0, es, a, b);
      }
    } else {
      LateFlushDiffers(patience);
      assert Empty(State(patience, 0, map[], map[]));
    }
  }

  /** The salt dies: it can be read for 40 days from the clock reading that created
      it, 49 days after that reading it no longer can, and nothing brings it back. */
  lemma SaltDies(s: State, es: seq<Event>, m: Month)
    requires Inv(s) && m in s.keys && IsRun(s, es)
    ensures var now, since := After(s, es).now, s.keys[m].since;
            && (now < since + 40 * 86_400_000 ==> Live(After(s, es), m))
            && (now >= since + 49 * 86_400_000 ==> !Live(After(s, es), m))
  {
    SaltNeverChanges(s, es);
  }

  /** The Redis side of one flush, run without interruption. */
  class SaltKeys {
    var keys: map<Month, Entry>

    constructor ()
      ensures keys == map[]
    {
      keys := map[];
    }

    method MonthlySalt(now: int, newSalt: Bytes) returns (salt: Option<Bytes>)
      modifies this
      ensures var s := State(0, now, old(keys), map[0 := Call(now, newSalt, Keyed)]);
              && Enabled(s, SetIfAbsent(0)) && Enabled(Apply(s, SetIfAbsent(0)), Get(0))
              && var s' := Apply(Apply(s, SetIfAbsent(0)), Get(0));
              keys == s'.keys && s'.calls[0].step == Done(salt)
      ensures var m := Calendar.YearMonth(now);
              if m in old(keys) && now < old(keys)[m].expires
              then keys == old(keys) && salt == Some(old(keys)[m].value)
              else keys == old(keys)[m := Entry(newSalt, now, now + 40 * 86_400_000)] && salt == Some(newSalt)
    {
      var key := Calendar.YearMonth(now);
      if key !in keys || keys[key].expires <= now {
        keys := keys[key := Entry(newSalt, now, now + SALT_TTL_MS)];
      }
      salt := Some(keys[key].value);
    }
  }
}

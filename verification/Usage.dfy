/** Usage counters: tallied in memory per device, taken by a flush, and added to
    the table under a salted hash, or put back. */
module Usage {
  import opened Store

  datatype Tally = Tally(envelopes: int, bytes: int, pushes: int)

  const ZERO := Tally(0, 0, 0)

  function Plus(a: Tally, b: Tally): Tally {
    Tally(a.envelopes + b.envelopes, a.bytes + b.bytes, a.pushes + b.pushes)
  }

  type Tallies = map<DeviceId, Tally>

  function Get<K>(m: map<K, Tally>, k: K): Tally {
    if k in m then m[k] else ZERO
  }

  function Bump<K>(m: map<K, Tally>, k: K, t: Tally): map<K, Tally> {
    m[k := Plus(Get(m, k), t)]
  }

  function Merge(m: Tallies, t: Tallies): Tallies {
    map d | d in m.Keys + t.Keys :: Plus(Get(m, d), Get(t, d))
  }

  // ---- the table ----

  type Salt = nat
  type Digest = nat
  type Hash = (DeviceId, Salt) -> Digest
  datatype UsageRow = UsageRow(day: nat, digest: Digest)
  datatype Period = Period(day: nat, salt: Salt)

  /** Different devices or salts never share a digest. */
  ghost predicate Injective(hash: Hash) {
    forall d, s, d', s' | hash(d, s) == hash(d', s') :: d == d' && s == s'
  }

  predicate Distinct<T(==)>(q: seq<T>) {
    forall i, j | 0 <= i < j < |q| :: q[i] != q[j]
  }

  /** The adding upsert. */
  function Write(table: map<UsageRow, Tally>, p: Period, order: seq<DeviceId>, batch: Tallies, hash: Hash): map<UsageRow, Tally>
    decreases |order|
  {
    if order == [] then table
    else Write(Bump(table, UsageRow(p.day, hash(order[0], p.salt)), Get(batch, order[0])), p, order[1..], batch, hash)
  }

  /** The row of device `d` in period `p`. */
  function At(table: map<UsageRow, Tally>, p: Period, d: DeviceId, hash: Hash): Tally {
    Get(table, UsageRow(p.day, hash(d, p.salt)))
  }

  lemma BumpAt(table: map<UsageRow, Tally>, p: Period, x: DeviceId, t: Tally, hash: Hash, q: Period, d: DeviceId)
    requires Injective(hash)
    ensures At(Bump(table, UsageRow(p.day, hash(x, p.salt)), t), q, d, hash)
            == if q == p && d == x then Plus(At(table, q, d, hash), t) else At(table, q, d, hash)
  {
    if hash(x, p.salt) == hash(d, q.salt) { assert d == x && q.salt == p.salt; }
  }

  /** Each device's row of that period grows by its tally; no other row changes. */
  lemma {:induction false} WriteAdds(table: map<UsageRow, Tally>, p: Period, order: seq<DeviceId>, batch: Tallies,
                                     hash: Hash, q: Period, d: DeviceId)
    requires Injective(hash) && Distinct(order)
    ensures At(Write(table, p, order, batch, hash), q, d, hash)
            == if q == p && d in order then Plus(At(table, q, d, hash), Get(batch, d)) else At(table, q, d, hash)
    decreases |order|
  {
    if order != [] {
      var x := order[0];
      assert d in order <==> d == x || d in order[1..];
      BumpAt(table, p, x, Get(batch, x), hash, q, d);
      WriteAdds(Bump(table, UsageRow(p.day, hash(x, p.salt)), Get(batch, x)), p, order[1..], batch, hash, q, d);
    }
  }

  // ---- runs over many instances ----

  /** `Done` flushes were written or put back. */
  datatype Flush = Open(inst: nat, batch: Tallies) | Done

  /** `periods` are the days and salts written under; `added` is everything ever
      counted. */
  datatype State = State(
    memory: seq<Tallies>, flushes: seq<Flush>, table: map<UsageRow, Tally>,
    periods: seq<Period>, added: Tallies)

  /** `order` is the order in which a flush lists its devices. */
  datatype Event =
    | Add(inst: nat, d: DeviceId, t: Tally)
    | Take(inst: nat)
    | Stored(flush: nat, p: Period, order: seq<DeviceId>)
    | Failed(flush: nat)

  predicate Enabled(s: State, e: Event) {
    match e
    case Add(inst, _, _) => inst < |s.memory|
    case Take(inst) => inst < |s.memory|
    case Stored(f, _, order) =>
      f < |s.flushes| && s.flushes[f].Open? && Distinct(order)
      && (set d | d in order) == s.flushes[f].batch.Keys
    case Failed(f) => f < |s.flushes| && s.flushes[f].Open? && s.flushes[f].inst < |s.memory|
  }

  function Apply(s: State, e: Event, hash: Hash): State
    requires Enabled(s, e)
  {
    match e
    case Add(inst, d, t) =>
      s.(memory := s.memory[inst := Bump(s.memory[inst], d, t)], added := Bump(s.added, d, t))
    case Take(inst) =>
      s.(memory := s.memory[inst := map[]], flushes := s.flushes + [Open(inst, s.memory[inst])])
    case Stored(f, p, order) =>
      s.(flushes := s.flushes[f := Done],
         table := Write(s.table, p, order, s.flushes[f].batch, hash),
         periods := if p in s.periods then s.periods else s.periods + [p])
    case Failed(f) =>
      var i := s.flushes[f].inst;
      s.(flushes := s.flushes[f := Done], memory := s.memory[i := Merge(s.memory[i], s.flushes[f].batch)])
  }

  predicate IsRun(s: State, es: seq<Event>, hash: Hash)
    decreases |es|
  {
    es == [] || (Enabled(s, es[0]) && IsRun(Apply(s, es[0], hash), es[1..], hash))
  }

  function After(s: State, es: seq<Event>, hash: Hash): State
    requires IsRun(s, es, hash)
    decreases |es|
  {
    if es == [] then s else After(Apply(s, es[0], hash), es[1..], hash)
  }

  // ---- sums ----

  datatype Counter = Envelopes | Bytes | Pushes

  function Of(t: Tally, c: Counter): int {
    match c
    case Envelopes => t.envelopes
    case Bytes => t.bytes
    case Pushes => t.pushes
  }

  lemma OfPlus(a: Tally, b: Tally, c: Counter)
    ensures Of(Plus(a, b), c) == Of(a, c) + Of(b, c)
  {
  }

  function InMemory(q: seq<Tallies>, d: DeviceId, c: Counter): int {
    if q == [] then 0 else InMemory(q[..|q| - 1], d, c) + Of(Get(q[|q| - 1], d), c)
  }

  function Carried(f: Flush, d: DeviceId): Tally {
    if f.Open? then Get(f.batch, d) else ZERO
  }

  function InFlight(q: seq<Flush>, d: DeviceId, c: Counter): int {
    if q == [] then 0 else InFlight(q[..|q| - 1], d, c) + Of(Carried(q[|q| - 1], d), c)
  }

  function InTable(table: map<UsageRow, Tally>, periods: seq<Period>, d: DeviceId, c: Counter, hash: Hash): int {
    if periods == [] then 0
    else InTable(table, periods[..|periods| - 1], d, c, hash) + Of(At(table, periods[|periods| - 1], d, hash), c)
  }

  lemma {:induction false} MemoryChanges(q: seq<Tallies>, k: nat, m: Tallies, d: DeviceId, c: Counter)
    requires k < |q|
    ensures InMemory(q[k := m], d, c) == InMemory(q, d, c) - Of(Get(q[k], d), c) + Of(Get(m, d), c)
  {
    var n := |q| - 1;
    if k < n {
      MemoryChanges(q[..n], k, m, d, c);
      assert q[k := m][..n] == q[..n][k := m];
    } else {
      assert q[k := m][..n] == q[..n];
    }
  }

  lemma {:induction false} FlightEnds(q: seq<Flush>, k: nat, d: DeviceId, c: Counter)
    requires k < |q|
    ensures InFlight(q[k := Done], d, c) == InFlight(q, d, c) - Of(Carried(q[k], d), c)
  {
    var n := |q| - 1;
    if k < n {
      FlightEnds(q[..n], k, d, c);
      assert q[k := Done][..n] == q[..n][k := Done];
    } else {
      assert q[k := Done][..n] == q[..n];
    }
  }

  lemma FlightStarts(q: seq<Flush>, f: Flush, d: DeviceId, c: Counter)
    ensures InFlight(q + [f], d, c) == InFlight(q, d, c) + Of(Carried(f, d), c)
  {
    assert (q + [f])[..|q|] == q;
  }

  lemma PeriodStarts(table: map<UsageRow, Tally>, q: seq<Period>, p: Period, d: DeviceId, c: Counter, hash: Hash)
    ensures InTable(table, q + [p], d, c, hash) == InTable(table, q, d, c, hash) + Of(At(table, p, d, hash), c)
  {
    assert (q + [p])[..|q|] == q;
  }

  lemma RowGrows(table: map<UsageRow, Tally>, p: Period, order: seq<DeviceId>, batch: Tallies,
                 q: Period, d: DeviceId, c: Counter, hash: Hash)
    requires Injective(hash) && Distinct(order)
    ensures Of(At(Write(table, p, order, batch, hash), q, d, hash), c)
            == Of(At(table, q, d, hash), c) + (if q == p && d in order then Of(Get(batch, d), c) else 0)
  {
    WriteAdds(table, p, order, batch, hash, q, d);
    OfPlus(At(table, q, d, hash), Get(batch, d), c);
  }

  /** Two tables that differ in one listed period differ by that much in the sum. */
  lemma {:induction false} SumsDiffer(table: map<UsageRow, Tally>, table': map<UsageRow, Tally>, periods: seq<Period>,
                                      p: Period, d: DeviceId, c: Counter, amount: int, hash: Hash)
    requires Distinct(periods)
    requires forall q :: Of(At(table', q, d, hash), c) == Of(At(table, q, d, hash), c) + (if q == p then amount else 0)
    ensures InTable(table', periods, d, c, hash)
            == InTable(table, periods, d, c, hash) + (if p in periods then amount else 0)
    decreases |periods|
  {
    if periods != [] {
      var n := |periods| - 1;
      SumsDiffer(table, table', periods[..n], p, d, c, amount, hash);
      assert p in periods <==> p in periods[..n] || p == periods[n];
    }
  }

  /** A write under a period that is listed once adds the batch to the sum. */
  lemma TableGrows(table: map<UsageRow, Tally>, periods: seq<Period>, p: Period, order: seq<DeviceId>,
                   batch: Tallies, d: DeviceId, c: Counter, hash: Hash)
    requires Injective(hash) && Distinct(order) && Distinct(periods) && (d in order <==> d in batch)
    ensures InTable(Write(table, p, order, batch, hash), periods, d, c, hash)
            == InTable(table, periods, d, c, hash) + (if p in periods then Of(Get(batch, d), c) else 0)
  {
    var table' := Write(table, p, order, batch, hash);
    var amount := Of(Get(batch, d), c);
    forall q ensures Of(At(table', q, d, hash), c) == Of(At(table, q, d, hash), c) + (if q == p then amount else 0) {
      RowGrows(table, p, order, batch, q, d, c, hash);
    }
    SumsDiffer(table, table', periods, p, d, c, amount, hash);
  }

  lemma MergeAdds(m: Tallies, t: Tallies, d: DeviceId, c: Counter)
    ensures Of(Get(Merge(m, t), d), c) == Of(Get(m, d), c) + Of(Get(t, d), c)
  {
    OfPlus(Get(m, d), Get(t, d), c);
  }

  // ---- conservation ----

  function Somewhere(s: State, d: DeviceId, c: Counter, hash: Hash): int {
    InTable(s.table, s.periods, d, c, hash) + InMemory(s.memory, d, c) + InFlight(s.flushes, d, c)
  }

  predicate Balanced(s: State, d: DeviceId, c: Counter, hash: Hash) {
    Of(Get(s.added, d), c) == Somewhere(s, d, c, hash)
  }

  /** Every row was written under one of the periods. */
  ghost predicate Known(table: map<UsageRow, Tally>, periods: seq<Period>, hash: Hash) {
    forall p: Period, d: DeviceId | UsageRow(p.day, hash(d, p.salt)) in table :: p in periods
  }

  ghost predicate Inv(s: State, hash: Hash) {
    && (forall d, c :: Balanced(s, d, c, hash))
    && Distinct(s.periods) && Known(s.table, s.periods, hash)
  }

  lemma AddBalanced(s: State, inst: nat, x: DeviceId, t: Tally, d: DeviceId, c: Counter, hash: Hash)
    requires Balanced(s, d, c, hash) && inst < |s.memory|
    ensures Balanced(Apply(s, Add(inst, x, t), hash), d, c, hash)
  {
    MemoryChanges(s.memory, inst, Bump(s.memory[inst], x, t), d, c);
    OfPlus(Get(s.memory[inst], d), t, c);
    OfPlus(Get(s.added, d), t, c);
  }

  lemma TakeBalanced(s: State, inst: nat, d: DeviceId, c: Counter, hash: Hash)
    requires Balanced(s, d, c, hash) && inst < |s.memory|
    ensures Balanced(Apply(s, Take(inst), hash), d, c, hash)
  {
    MemoryChanges(s.memory, inst, map[], d, c);
    FlightStarts(s.flushes, Open(inst, s.memory[inst]), d, c);
  }

  lemma FailBalanced(s: State, f: nat, d: DeviceId, c: Counter, hash: Hash)
    requires Balanced(s, d, c, hash) && Enabled(s, Failed(f))
    ensures Balanced(Apply(s, Failed(f), hash), d, c, hash)
  {
    var i := s.flushes[f].inst;
    MemoryChanges(s.memory, i, Merge(s.memory[i], s.flushes[f].batch), d, c);
    MergeAdds(s.memory[i], s.flushes[f].batch, d, c);
    FlightEnds(s.flushes, f, d, c);
  }

  lemma StoreGrows(s: State, f: nat, p: Period, order: seq<DeviceId>, d: DeviceId, c: Counter, hash: Hash)
    requires Distinct(s.periods) && Known(s.table, s.periods, hash) && Injective(hash)
    requires Enabled(s, Stored(f, p, order))
    ensures var s' := Apply(s, Stored(f, p, order), hash);
            InTable(s'.table, s'.periods, d, c, hash)
            == InTable(s.table, s.periods, d, c, hash) + Of(Get(s.flushes[f].batch, d), c)
  {
    var batch := s.flushes[f].batch;
    var table' := Write(s.table, p, order, batch, hash);
    assert d in order <==> d in batch by { assert d in (set x | x in order) <==> d in batch.Keys; }
    TableGrows(s.table, s.periods, p, order, batch, d, c, hash);
    if p !in s.periods {
      PeriodStarts(table', s.periods, p, d, c, hash);
      assert At(s.table, p, d, hash) == ZERO;
      RowGrows(s.table, p, order, batch, p, d, c, hash);
    }
  }

  lemma StoreBalanced(s: State, f: nat, p: Period, order: seq<DeviceId>, d: DeviceId, c: Counter, hash: Hash)
    requires Balanced(s, d, c, hash) && Distinct(s.periods) && Known(s.table, s.periods, hash) && Injective(hash)
    requires Enabled(s, Stored(f, p, order))
    ensures Balanced(Apply(s, Stored(f, p, order), hash), d, c, hash)
  {
    StoreGrows(s, f, p, order, d, c, hash);
    FlightEnds(s.flushes, f, d, c);
  }

  lemma {:induction false} WriteKnown(table: map<UsageRow, Tally>, periods: seq<Period>, p: Period, order: seq<DeviceId>,
                                      batch: Tallies, hash: Hash)
    requires Injective(hash) && Known(table, periods, hash) && p in periods
    ensures Known(Write(table, p, order, batch, hash), periods, hash)
    decreases |order|
  {
    if order != [] {
      WriteKnown(Bump(table, UsageRow(p.day, hash(order[0], p.salt)), Get(batch, order[0])), periods, p, order[1..], batch, hash);
    }
  }

  lemma Kept(s: State, e: Event, hash: Hash)
    requires Inv(s, hash) && Injective(hash) && Enabled(s, e)
    ensures Inv(Apply(s, e, hash), hash)
  {
    var s' := Apply(s, e, hash);
    forall d, c ensures Balanced(s', d, c, hash) {
      assert Balanced(s, d, c, hash);
      match e
      case Add(inst, x, t) => AddBalanced(s, inst, x, t, d, c, hash);
      case Take(inst) => TakeBalanced(s, inst, d, c, hash);
      case Stored(f, p, order) => StoreBalanced(s, f, p, order, d, c, hash);
      case Failed(f) => FailBalanced(s, f, d, c, hash);
    }
    if e.Stored? { WriteKnown(s.table, s'.periods, e.p, e.order, s.flushes[e.flush].batch, hash); }
  }

  lemma {:induction false} KeptOverRun(s: State, es: seq<Event>, hash: Hash)
    requires Inv(s, hash) && Injective(hash) && IsRun(s, es, hash)
    ensures Inv(After(s, es, hash), hash)
    decreases |es|
  {
    if es != [] {
      Kept(s, es[0], hash);
      KeptOverRun(Apply(s, es[0], hash), es[1..], hash);
    }
  }

  function Blank(n: nat): seq<Tallies> {
    if n == 0 then [] else Blank(n - 1) + [map[]]
  }

  function Init(instances: nat): State {
    State(Blank(instances), [], map[], [], map[])
  }

  lemma {:induction false} BlankIsZero(n: nat, d: DeviceId, c: Counter)
    ensures InMemory(Blank(n), d, c) == 0
  {
    if n > 0 {
      BlankIsZero(n - 1, d, c);
      assert Blank(n)[..|Blank(n)| - 1] == Blank(n - 1);
    }
  }

  lemma InitInv(n: nat, hash: Hash)
    ensures Inv(Init(n), hash)
  {
    forall d, c ensures Balanced(Init(n), d, c, hash) { BlankIsZero(n, d, c); }
  }

  /** The sum of all counting events for a device and counter. */
  function Counted(es: seq<Event>, d: DeviceId, c: Counter): int
    decreases |es|
  {
    if es == [] then 0
    else (if es[0].Add? && es[0].d == d then Of(es[0].t, c) else 0) + Counted(es[1..], d, c)
  }

  lemma {:induction false} AddedIsCounted(s: State, es: seq<Event>, hash: Hash, d: DeviceId, c: Counter)
    requires IsRun(s, es, hash)
    ensures Of(Get(After(s, es, hash).added, d), c) == Of(Get(s.added, d), c) + Counted(es, d, c)
    decreases |es|
  {
    if es != [] {
      AddedIsCounted(Apply(s, es[0], hash), es[1..], hash, d, c);
      if es[0].Add? { OfPlus(Get(s.added, d), es[0].t, c); }
    }
  }

  /** Nothing counted is lost or counted twice: from the start of any number of
      instances, over any interleaving of counting, taking, writing and putting
      back, what is stored, in memory and being flushed adds up, for every device
      and counter, to the sum of all that was counted. */
  lemma UsageConserved(instances: nat, es: seq<Event>, hash: Hash, d: DeviceId, c: Counter)
    requires Injective(hash) && IsRun(Init(instances), es, hash)
    ensures var s := After(Init(instances), es, hash);
            Counted(es, d, c)
            == InTable(s.table, s.periods, d, c, hash) + InMemory(s.memory, d, c) + InFlight(s.flushes, d, c)
  {
    InitInv(instances, hash);
    KeptOverRun(Init(instances), es, hash);
    AddedIsCounted(Init(instances), es, hash, d, c);
    assert Balanced(After(Init(instances), es, hash), d, c, hash);
  }
}

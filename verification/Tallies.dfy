/** The counters of one instance, updated in place, and the flush that empties
    them into the table. */
module TallyStore {
  import opened Store
  import opened Usage

  function Without(m: Tallies, left: set<DeviceId>): Tallies {
    map d | d in m && d !in left :: m[d]
  }

  lemma MergeOne(m: Tallies, back: Tallies, left: set<DeviceId>, d: DeviceId)
    requires d in left && d in back
    ensures Bump(Merge(m, Without(back, left)), d, back[d]) == Merge(m, Without(back, left - {d}))
  {
  }

  lemma MergeEnds(m: Tallies, back: Tallies)
    ensures Merge(m, Without(back, back.Keys)) == m && Merge(m, Without(back, {})) == Merge(m, back)
  {
    assert Without(back, {}) == back;
  }

  class Counters {
    var tallies: Tallies

    constructor ()
      ensures tallies == map[]
    {
      tallies := map[];
    }

    method AddEnvelope(d: DeviceId, bytes: nat)
      modifies this
      ensures tallies == Bump(old(tallies), d, Tally(1, bytes, 0))
    {
      var t := if d in tallies then tallies[d] else ZERO;
      tallies := tallies[d := t.(envelopes := t.envelopes + 1, bytes := t.bytes + bytes)];
    }

    method AddPush(d: DeviceId)
      modifies this
      ensures tallies == Bump(old(tallies), d, Tally(0, 0, 1))
    {
      var t := if d in tallies then tallies[d] else ZERO;
      tallies := tallies[d := t.(pushes := t.pushes + 1)];
    }

    method TakeAll() returns (taken: Tallies)
      modifies this
      ensures taken == old(tallies) && tallies == map[]
    {
      taken := tallies;
      tallies := map[];
    }

    /** Put back counters that could not be written, one device at a time. */
    method Restore(back: Tallies)
      modifies this
      ensures tallies == Merge(old(tallies), back)
    {
      ghost var before := tallies;
      var left := back.Keys;
      MergeEnds(before, back);
      while left != {}
        invariant left <= back.Keys
        invariant tallies == Merge(before, Without(back, left))
        decreases |left|
      {
        var d :| d in left;
        MergeOne(before, back, left, d);
        var e := if d in tallies then tallies[d] else ZERO;
        tallies := tallies[d := Plus(e, back[d])];
        left := left - {d};
      }
    }
  }

  /** The devices of a batch in some order. */
  method Listed(batch: Tallies) returns (order: seq<DeviceId>)
    ensures Distinct(order) && (set d | d in order) == batch.Keys && |order| == |batch|
  {
    order := [];
    var left := batch.Keys;
    while left != {}
      invariant left <= batch.Keys && Distinct(order)
      invariant forall d :: d in order <==> d in batch && d !in left
      invariant |order| + |left| == |batch|
      decreases |left|
    {
      var d :| d in left;
      order := order + [d];
      left := left - {d};
    }
  }

  class Daily {
    var table: map<UsageRow, Tally>

    constructor ()
      ensures table == map[]
    {
      table := map[];
    }

    /** One statement: either every row is added to or, when it fails, none. */
    method AddBatch(p: Period, order: seq<DeviceId>, batch: Tallies, hash: Hash, ok: bool)
      modifies this
      ensures table == if ok then Write(old(table), p, order, batch, hash) else old(table)
    {
      if ok {
        var k := 0;
        while k < |order|
          invariant 0 <= k <= |order|
          invariant Write(table, p, order[k..], batch, hash) == Write(old(table), p, order, batch, hash)
        {
          assert order[k..][1..] == order[k + 1..];
          table := Bump(table, UsageRow(p.day, hash(order[k], p.salt)), Get(batch, order[k]));
          k := k + 1;
        }
      }
    }
  }

  /** One flush. `salt` is what the monthly salt lookup returned, `ok` whether the
      write succeeds. A failed flush changes nothing. */
  method FlushAll(counters: Counters, daily: Daily, day: nat, salt: Option<Salt>, hash: Hash, ok: bool)
    returns (written: Option<nat>)
    requires Injective(hash)
    modifies counters, daily
    ensures written.None? <==> old(counters.tallies) != map[] && (salt.None? || !ok)
    ensures written.None? ==> daily.table == old(daily.table) && counters.tallies == old(counters.tallies)
    ensures written.Some? ==> counters.tallies == map[] && written.value == |old(counters.tallies)|
    ensures written.Some? ==> forall q, d ::
                                At(daily.table, q, d, hash) == Flushed(old(daily.table), old(counters.tallies), day, salt, q, d, hash)
  {
    var taken := counters.TakeAll();
    if taken == map[] {
      return Some(0);
    }
    if salt.None? {
      RestoredIsSame(taken);
      counters.Restore(taken);
      return None;
    }
    var order := Listed(taken);
    daily.AddBatch(Period(day, salt.value), order, taken, hash, ok);
    if !ok {
      RestoredIsSame(taken);
      counters.Restore(taken);
      return None;
    }
    AllFlushed(old(daily.table), taken, day, salt, order, hash);
    return Some(|order|);
  }

  /** The row of device `d` in period `q` after a flush of `batch`. */
  function Flushed(table: map<UsageRow, Tally>, batch: Tallies, day: nat, salt: Option<Salt>,
                   q: Period, d: DeviceId, hash: Hash): Tally
  {
    if salt.Some? && q == Period(day, salt.value) && d in batch then Plus(At(table, q, d, hash), batch[d])
    else At(table, q, d, hash)
  }

  lemma AllFlushed(table: map<UsageRow, Tally>, batch: Tallies, day: nat, salt: Option<Salt>, order: seq<DeviceId>, hash: Hash)
    requires Injective(hash) && salt.Some? && Distinct(order) && (set d | d in order) == batch.Keys
    ensures forall q, d :: At(Write(table, Period(day, salt.value), order, batch, hash), q, d, hash)
                           == Flushed(table, batch, day, salt, q, d, hash)
  {
    var p := Period(day, salt.value);
    forall q, d ensures At(Write(table, p, order, batch, hash), q, d, hash) == Flushed(table, batch, day, salt, q, d, hash) {
      assert d in order <==> d in batch by { assert d in (set x | x in order) <==> d in batch.Keys; }
      WriteAdds(table, p, order, batch, hash, q, d);
    }
  }

  lemma RestoredIsSame(m: Tallies)
    ensures Merge(map[], m) == m
  {
  }
}

/** Signed revocation statements and the "delete all data" call. Whether a
    signature verifies over the revocation message of a pair, a signer and a time
    is a parameter. */
module Revocations {
  import opened Store
  import opened TextForms

  const CLOCK_SKEW_MS := 600_000

  type Signs = (PairId, DeviceId, int, Bytes) -> bool

  datatype Revocation = Revocation(pair: PairId, revokedAt: Option<int>, sig: Option<string>)

  /** The checks on one statement; anything missing or wrong is a bad request. */
  function VerifyStatement(pair: PairId, caller: DeviceId, revokedAt: Option<int>, sig: Option<string>,
                           now: int, signs: Signs): Option<Statement>
  {
    if revokedAt.None? || sig.None? then None
    else
      var at := revokedAt.value;
      var bytes := Decode64(sig.value);
      if bytes.None? || |bytes.value| != 64 then None
      else if at < 0 then None
      else if at - now > CLOCK_SKEW_MS || now - at > CLOCK_SKEW_MS then None
      else if !signs(pair, caller, at, bytes.value) then None
      else Some(Statement(pair, caller, at, bytes.value))
  }

  /** `st` says what the item says, recently and signed by `caller`. */
  predicate Vouches(item: Revocation, st: Statement, caller: DeviceId, now: int, signs: Signs) {
    && st.pair == item.pair && st.signer == caller
    && item.revokedAt == Some(st.at) && 0 <= st.at && -600_000 <= st.at - now <= 600_000
    && item.sig == Some(Encode64(st.sig)) && |st.sig| == 64
    && signs(st.pair, caller, st.at, st.sig)
  }

  /** A statement is accepted exactly when it vouches for the item, and there is
      only one that can: its text has a single reading. */
  lemma AcceptsWhatItVouches(item: Revocation, st: Statement, caller: DeviceId, now: int, signs: Signs)
    ensures VerifyStatement(item.pair, caller, item.revokedAt, item.sig, now, signs) == Some(st)
            <==> Vouches(item, st, caller, now, signs)
  {
    if item.sig.Some? {
      if Decode64(item.sig.value).Some? { Encode64Decoded(item.sig.value); }
      Decode64Encoded(st.sig);
    }
  }

  predicate DistinctPairs(items: seq<Revocation>) {
    forall i, j | 0 <= i < j < |items| :: items[i].pair != items[j].pair
  }

  function Read(item: Revocation, caller: DeviceId, now: int, signs: Signs): Option<Statement> {
    VerifyStatement(item.pair, caller, item.revokedAt, item.sig, now, signs)
  }

  /** Some item is a valid statement for pair `p`. */
  predicate Covered(p: PairId, items: seq<Revocation>, caller: DeviceId, now: int, signs: Signs) {
    exists i | 0 <= i < |items| :: items[i].pair == p && Read(items[i], caller, now, signs).Some?
  }

  type Held = seq<(PairId, DeviceId)>

  /** One statement per held pair, in order, each taken from an item. */
  predicate Matches(held: Held, signed: seq<(Statement, DeviceId)>, items: seq<Revocation>,
                    caller: DeviceId, now: int, signs: Signs)
  {
    && |signed| == |held|
    && forall k | 0 <= k < |held| ::
         && signed[k].1 == held[k].1 && signed[k].0.pair == held[k].0
         && exists i | 0 <= i < |items| :: Read(items[i], caller, now, signs) == Some(signed[k].0)
  }

  predicate Indexes(byPair: map<PairId, Revocation>, items: seq<Revocation>) {
    && (forall j | 0 <= j < |items| :: items[j].pair in byPair && byPair[items[j].pair] == items[j])
    && (forall p | p in byPair :: byPair[p].pair == p && byPair[p] in items)
  }

  /** The statements by pair id; two for one pair are refused. */
  method IndexByPair(items: seq<Revocation>) returns (byPair: Option<map<PairId, Revocation>>)
    ensures byPair.Some? <==> DistinctPairs(items)
    ensures byPair.Some? ==> Indexes(byPair.value, items)
  {
    var m: map<PairId, Revocation> := map[];
    var i := 0;
    while i < |items|
      invariant 0 <= i <= |items| && DistinctPairs(items[..i]) && Indexes(m, items[..i])
    {
      if items[i].pair in m {
        var other := m[items[i].pair];
        assert other in items[..i] && other.pair == items[i].pair;
        return None;
      }
      m := m[items[i].pair := items[i]];
      assert items[..i + 1] == items[..i] + [items[i]];
      i := i + 1;
    }
    assert items[..i] == items;
    byPair := Some(m);
  }

  method VerifyRevocations(held: Held, items: seq<Revocation>, caller: DeviceId, now: int, signs: Signs)
    returns (r: Option<seq<(Statement, DeviceId)>>)
    ensures r.Some? <==> DistinctPairs(items)
                         && forall k | 0 <= k < |held| :: Covered(held[k].0, items, caller, now, signs)
    ensures r.Some? ==> Matches(held, r.value, items, caller, now, signs)
  {
    var byPair := IndexByPair(items);
    if byPair.None? {
      return None;
    }
    var signed: seq<(Statement, DeviceId)> := [];
    var k := 0;
    while k < |held|
      invariant 0 <= k <= |held|
      invariant Matches(held[..k], signed, items, caller, now, signs)
      invariant forall n | 0 <= n < k :: Covered(held[n].0, items, caller, now, signs)
    {
      var p := held[k].0;
      if p !in byPair.value {
        assert !Covered(p, items, caller, now, signs);
        return None;
      }
      var item := byPair.value[p];
      OnlyItem(items, item, caller, now, signs);
      var st := VerifyStatement(p, caller, item.revokedAt, item.sig, now, signs);
      if st.None? {
        return None;
      }
      signed := signed + [(st.value, held[k].1)];
      k := k + 1;
    }
    assert held[..k] == held;
    r := Some(signed);
  }

  /** With distinct pair ids, one item decides whether its pair is covered. */
  lemma OnlyItem(items: seq<Revocation>, item: Revocation, caller: DeviceId, now: int, signs: Signs)
    requires DistinctPairs(items) && item in items
    ensures Covered(item.pair, items, caller, now, signs) <==> Read(item, caller, now, signs).Some?
    ensures exists i | 0 <= i < |items| :: Read(items[i], caller, now, signs) == Read(item, caller, now, signs)
  {
    var i :| 0 <= i < |items| && items[i] == item;
  }

  // ---- deleting a device ----

  /** `held` lists every unrevoked pair of `d` once, with the peer. */
  predicate Lists(held: Held, db: Db, d: DeviceId) {
    && (forall i, j | 0 <= i < j < |held| :: held[i].0 != held[j].0)
    && (forall k | 0 <= k < |held| :: Unrevoked(db, d, held[k].0) && held[k].1 == db.pairs[held[k].0].Other(d))
    && (forall p | p in db.pairs && Unrevoked(db, d, p) :: exists k | 0 <= k < |held| :: held[k].0 == p)
  }

  /** The query for the unrevoked pairs, in no particular order. */
  method ReadHeld(db: Db, d: DeviceId) returns (held: Held)
    ensures Lists(held, db, d)
  {
    held := [];
    var left := db.pairs.Keys;
    while left != {}
      invariant left <= db.pairs.Keys
      invariant forall i, j | 0 <= i < j < |held| :: held[i].0 != held[j].0
      invariant forall k | 0 <= k < |held| ::
                  held[k].0 !in left && Unrevoked(db, d, held[k].0) && held[k].1 == db.pairs[held[k].0].Other(d)
      invariant forall p | p in db.pairs && p !in left && Unrevoked(db, d, p) :: exists k | 0 <= k < |held| :: held[k].0 == p
      decreases |left|
    {
      var p :| p in left;
      if Unrevoked(db, d, p) {
        ghost var before := held;
        held := held + [(p, db.pairs[p].Other(d))];
        assert held[|before|].0 == p;
        assert forall k | 0 <= k < |before| :: held[k] == before[k];
      }
      left := left - {p};
    }
  }

  /** Each peer is told once: silently, or with a statement for its pair that is
      one of the items. */
  predicate TellsPeers(held: Held, told: seq<(Option<Statement>, DeviceId)>, items: Option<seq<Revocation>>,
                       caller: DeviceId, now: int, signs: Signs)
  {
    && |told| == |held|
    && forall k | 0 <= k < |held| ::
         && told[k].1 == held[k].1
         && (items.None? <==> told[k].0.None?)
         && (items.Some? ==> told[k].0.value.pair == held[k].0 &&
                             exists i | 0 <= i < |items.value| :: Read(items.value[i], caller, now, signs) == told[k].0)
  }

  class Tables {
    var db: Db

    constructor (db: Db)
      ensures this.db == db
    {
      this.db := db;
    }

    /** The delete transaction. With `items`, every unrevoked pair needs its
        statement; without, the device leaves silently. All or nothing. */
    method DeleteWithPeers(d: DeviceId, items: Option<seq<Revocation>>, now: int, signs: Signs)
      returns (held: Held, told: Option<seq<(Option<Statement>, DeviceId)>>)
      modifies this
      ensures Lists(held, old(db), d)
      ensures told.Some? <==> items.None? || (DistinctPairs(items.value) &&
                                              forall p | p in old(db).pairs && Unrevoked(old(db), d, p) ::
                                                Covered(p, items.value, d, now, signs))
      ensures db == if told.Some? then DeleteDevice(old(db), d) else old(db)
      ensures told.Some? ==> TellsPeers(held, told.value, items, d, now, signs)
    {
      held := ReadHeld(db, d);
      if items.None? {
        told := Some(seq(|held|, k requires 0 <= k < |held| => (None, held[k].1)));
      } else {
        var signed := VerifyRevocations(held, items.value, d, now, signs);
        AllCovered(held, db, d, items.value, now, signs);
        if signed.None? {
          told := None;
          return;
        }
        told := Some(seq(|held|, k requires 0 <= k < |held| => (Some(signed.value[k].0), held[k].1)));
      }
      db := DeleteDevice(db, d);
    }
  }

  lemma AllCovered(held: Held, db: Db, d: DeviceId, items: seq<Revocation>, now: int, signs: Signs)
    requires Lists(held, db, d)
    ensures (forall k | 0 <= k < |held| :: Covered(held[k].0, items, d, now, signs))
            <==> (forall p | p in db.pairs && Unrevoked(db, d, p) :: Covered(p, items, d, now, signs))
  {
  }

  /** Afterwards the device and all its pairs are gone, and nothing else. */
  lemma DeleteTakesExactly(db: Db, d: DeviceId, p: PairId, x: DeviceId)
    ensures x in DeleteDevice(db, d).devices <==> x in db.devices && x != d
    ensures x in DeleteDevice(db, d).locked <==> x in db.locked && x != d
    ensures p in DeleteDevice(db, d).pairs <==> p in db.pairs && db.pairs[p].a != d && db.pairs[p].b != d
    ensures p in DeleteDevice(db, d).pairs ==> DeleteDevice(db, d).pairs[p] == db.pairs[p]
  {
  }
}

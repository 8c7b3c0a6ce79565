/** The PostgreSQL side of the relay: the `devices` and `pairs` tables, the
    query every relay connection routes by, and the statements that change
    the tables, each as one committed transition. */
module Store {

  type DeviceId = nat
  type PairId = nat
  type Byte = b: int | 0 <= b < 256
  type Bytes = seq<Byte>

  datatype Option<+T> = None | Some(value: T)

  /** A verified revocation statement: `signer` revoked `pair` at time `at`. */
  datatype Statement = Statement(pair: PairId, signer: DeviceId, at: int, sig: Bytes)

  datatype Row = Row(a: DeviceId, b: DeviceId, attestation: Bytes, created: int, revoked: Option<Statement>) {
    predicate Has(d: DeviceId) { a == d || b == d }
    function Other(d: DeviceId): DeviceId { if a == d then b else a }
  }

  /** `locked` holds the devices whose `revoked_at` is set; no statement of
      the relay sets it. */
  datatype Db = Db(devices: set<DeviceId>, locked: set<DeviceId>, pairs: map<PairId, Row>)

  /** The schema's constraints: members exist (foreign keys) and differ. */
  predicate Sound(db: Db) {
    forall p :: p in db.pairs ==>
      db.pairs[p].a in db.devices && db.pairs[p].b in db.devices && db.pairs[p].a != db.pairs[p].b
  }

  predicate Unrevoked(db: Db, d: DeviceId, p: PairId) {
    p in db.pairs && db.pairs[p].Has(d) && db.pairs[p].revoked.None?
  }

  /** The pair rows that let `d` reach a peer. */
  predicate Routes(db: Db, d: DeviceId, p: PairId) {
    && Unrevoked(db, d, p)
    && db.pairs[p].Other(d) in db.devices
    && db.pairs[p].Other(d) !in db.locked
  }

  /** `active_peers`: `(pair_id, peer_device_id)` of every row that routes. */
  function ActivePeers(db: Db, d: DeviceId): set<(PairId, DeviceId)> {
    set p | p in db.pairs && Routes(db, d, p) :: (p, db.pairs[p].Other(d))
  }

  predicate CanInsert(db: Db, p: PairId, a: DeviceId, b: DeviceId) {
    p !in db.pairs && a in db.devices && b in db.devices && a != b
  }

  function InsertPair(db: Db, p: PairId, a: DeviceId, b: DeviceId, attestation: Bytes, created: int): Db {
    db.(pairs := db.pairs[p := Row(a, b, attestation, created, None)])
  }

  /** The `WHERE` clause of the revoking update: the signer is a member and
      the row carries no statement yet. */
  predicate CanRevoke(db: Db, st: Statement) {
    Unrevoked(db, st.signer, st.pair)
  }

  function RevokePair(db: Db, st: Statement): Db {
    if CanRevoke(db, st)
    then db.(pairs := db.pairs[st.pair := db.pairs[st.pair].(revoked := Some(st))])
    else db
  }

  /** Deleting a device takes its pair rows along (`ON DELETE CASCADE`). */
  function DeleteDevice(db: Db, d: DeviceId): Db {
    db.(devices := db.devices - {d},
        locked := db.locked - {d},
        pairs := map p | p in db.pairs && !db.pairs[p].Has(d) :: db.pairs[p])
  }

  function RegisterDevice(db: Db, d: DeviceId): Db {
    db.(devices := db.devices + {d})
  }

  // ---- the query, by the two members of a row ----

  /** Row `p` has the members `x` and `y` and carries no statement, and `y` is not
      locked. */
  predicate Joins(db: Db, p: PairId, x: DeviceId, y: DeviceId) {
    p in db.pairs && {db.pairs[p].a, db.pairs[p].b} == {x, y} && db.pairs[p].revoked.None? && y !in db.locked
  }

  /** `active_peers` of `x` lists `y` with pair `p` exactly when `p` joins them. */
  lemma ActivePeersExactly(db: Db, p: PairId, x: DeviceId, y: DeviceId)
    requires Sound(db)
    ensures (p, y) in ActivePeers(db, x) <==> Joins(db, p, x, y)
  {
    if p in db.pairs {
      var row := db.pairs[p];
      assert row.a in {row.a, row.b} && row.b in {row.a, row.b} && x in {x, y} && y in {x, y};
    }
  }

  /** Of two devices that are not locked, each routes to the other or neither does. */
  lemma RoutesBothWays(db: Db, p: PairId, x: DeviceId, y: DeviceId)
    requires Sound(db) && x !in db.locked && y !in db.locked
    ensures (p, y) in ActivePeers(db, x) <==> (p, x) in ActivePeers(db, y)
  {
    ActivePeersExactly(db, p, x, y);
    ActivePeersExactly(db, p, y, x);
    assert {x, y} == {y, x};
  }

  /** After an insert each member has the pair with the other one, unless that one is
      locked, and no other entry changes. */
  lemma InsertedForBoth(db: Db, p: PairId, a: DeviceId, b: DeviceId, att: Bytes, t: int)
    requires Sound(db) && p !in db.pairs && a in db.devices && b in db.devices && a != b
    ensures var db' := InsertPair(db, p, a, b, att, t);
            && Sound(db')
            && ((p, b) in ActivePeers(db', a) <==> b !in db.locked)
            && ((p, a) in ActivePeers(db', b) <==> a !in db.locked)
            && (forall q: PairId, x: DeviceId, y: DeviceId | q != p ::
                  (q, y) in ActivePeers(db', x) <==> (q, y) in ActivePeers(db, x))
  {
    var db' := InsertPair(db, p, a, b, att, t);
    ActivePeersExactly(db', p, a, b);
    ActivePeersExactly(db', p, b, a);
    assert {a, b} == {b, a};
    forall q: PairId, x: DeviceId, y: DeviceId | q != p
      ensures (q, y) in ActivePeers(db', x) <==> (q, y) in ActivePeers(db, x)
    {
      ActivePeersExactly(db', q, x, y);
      ActivePeersExactly(db, q, x, y);
    }
  }

  /** After a revocation by a member nobody has the pair, and no other entry changes. */
  lemma RevokedForNeither(db: Db, st: Statement)
    requires Sound(db) && st.pair in db.pairs && db.pairs[st.pair].revoked.None?
    requires st.signer == db.pairs[st.pair].a || st.signer == db.pairs[st.pair].b
    ensures var db' := RevokePair(db, st);
            && Sound(db')
            && (forall x: DeviceId, y: DeviceId :: (st.pair, y) !in ActivePeers(db', x))
            && (forall q: PairId, x: DeviceId, y: DeviceId | q != st.pair ::
                  (q, y) in ActivePeers(db', x) <==> (q, y) in ActivePeers(db, x))
  {
    var db' := RevokePair(db, st);
    forall x: DeviceId, y: DeviceId ensures (st.pair, y) !in ActivePeers(db', x) {
      ActivePeersExactly(db', st.pair, x, y);
    }
    forall q: PairId, x: DeviceId, y: DeviceId | q != st.pair
      ensures (q, y) in ActivePeers(db', x) <==> (q, y) in ActivePeers(db, x)
    {
      ActivePeersExactly(db', q, x, y);
      ActivePeersExactly(db, q, x, y);
    }
  }

  // ---- what each statement does to the routes of a device ----

  lemma InsertChangesOnlyMembers(db: Db, p: PairId, a: DeviceId, b: DeviceId, att: Bytes, t: int, d: DeviceId)
    requires CanInsert(db, p, a, b) && d != a && d != b
    ensures ActivePeers(InsertPair(db, p, a, b, att, t), d) == ActivePeers(db, d)
  {
    var db' := InsertPair(db, p, a, b, att, t);
    forall q | q in db'.pairs ensures Routes(db', d, q) <==> (q in db.pairs && Routes(db, d, q)) {}
  }

  lemma RevokeChangesOnlyMembers(db: Db, st: Statement, d: DeviceId)
    requires CanRevoke(db, st) && d != st.signer && d != db.pairs[st.pair].Other(st.signer)
    ensures ActivePeers(RevokePair(db, st), d) == ActivePeers(db, d)
  {
    var db' := RevokePair(db, st);
    forall q | q in db'.pairs ensures Routes(db', d, q) <==> (q in db.pairs && Routes(db, d, q)) {}
  }

  lemma DeleteChangesOnlyPeers(db: Db, gone: DeviceId, d: DeviceId)
    requires Sound(db) && d != gone
    requires forall p :: Unrevoked(db, gone, p) ==> db.pairs[p].Other(gone) != d
    ensures ActivePeers(DeleteDevice(db, gone), d) == ActivePeers(db, d)
  {
    var db' := DeleteDevice(db, gone);
    forall q | q in db.pairs && Routes(db, d, q) ensures q in db'.pairs && Routes(db', d, q) {
      if db.pairs[q].Has(gone) {
        assert Unrevoked(db, gone, q);
        assert false;
      }
    }
    forall q | q in db'.pairs && Routes(db', d, q) ensures Routes(db, d, q) {}
  }

  lemma RegisterChangesNone(db: Db, newcomer: DeviceId, d: DeviceId)
    requires Sound(db)
    ensures ActivePeers(RegisterDevice(db, newcomer), d) == ActivePeers(db, d)
  {
    var db' := RegisterDevice(db, newcomer);
    forall q | q in db.pairs ensures Routes(db', d, q) <==> Routes(db, d, q) {}
  }

  // ---- the table over time ----

  datatype Change =
    | Inserting(p: PairId, a: DeviceId, b: DeviceId, attestation: Bytes, created: int)
    | Revoking(st: Statement)
    | Deleting(d: DeviceId)
    | Registering(d: DeviceId)

  predicate Allowed(db: Db, ch: Change) {
    ch.Inserting? ==> CanInsert(db, ch.p, ch.a, ch.b)
  }

  function Changed(db: Db, ch: Change): Db {
    match ch
    case Inserting(p, a, b, att, t) => InsertPair(db, p, a, b, att, t)
    case Revoking(st) => RevokePair(db, st)
    case Deleting(d) => DeleteDevice(db, d)
    case Registering(d) => RegisterDevice(db, d)
  }

  ghost predicate Follows(db: Db, db': Db) {
    exists ch :: Allowed(db, ch) && db' == Changed(db, ch)
  }

  /** Every version comes from the one before by one committed statement. */
  ghost predicate Evolves(h: seq<Db>) {
    && (forall k :: 0 <= k < |h| ==> Sound(h[k]))
    && (forall k :: 0 < k < |h| ==> Follows(h[k - 1], h[k]))
  }

  predicate RevokedBy(db: Db, p: PairId, st: Statement) {
    p in db.pairs && db.pairs[p].revoked == Some(st)
  }

  predicate MembersAt(db: Db, row: Row) {
    row.a in db.devices && row.b in db.devices
  }

  /** A revoked row never becomes valid again and keeps its first statement,
      for as long as both members stay registered; and it stays no longer. */
  lemma {:induction false} FirstStatementStays(h: seq<Db>, m: nat, n: nat, p: PairId, st: Statement)
    requires Evolves(h) && m <= n < |h| && RevokedBy(h[m], p, st)
    ensures (forall k | m <= k <= n :: MembersAt(h[k], h[m].pairs[p]))
       <==> (forall k | m <= k <= n :: p in h[k].pairs && h[k].pairs[p] == h[m].pairs[p])
    decreases n - m
  {
    var row := h[m].pairs[p];
    if n > m {
      FirstStatementStays(h, m, n - 1, p, st);
      assert Follows(h[n - 1], h[n]);
      if forall k | m <= k <= n - 1 :: p in h[k].pairs && h[k].pairs[p] == row {
        var ch :| Allowed(h[n - 1], ch) && h[n] == Changed(h[n - 1], ch);
        StatementStep(h[n - 1], ch, p);
        assert MembersAt(h[n], row) ==> p in h[n].pairs && h[n].pairs[p] == row;
        assert p in h[n].pairs && h[n].pairs[p] == row ==> MembersAt(h[n], row);
      }
    }
  }

  lemma StatementStep(db: Db, ch: Change, p: PairId)
    requires Sound(db) && Allowed(db, ch) && p in db.pairs && db.pairs[p].revoked.Some?
    ensures var db' := Changed(db, ch);
            MembersAt(db', db.pairs[p]) ==> p in db'.pairs && db'.pairs[p] == db.pairs[p]
  {
  }

  /** Without that condition the promise fails: a member that deletes itself
      takes the revoked row along, registers again, and the same attested pair
      can be written anew, unrevoked. */
  lemma DeletedRowCanReturn(p: PairId, a: DeviceId, b: DeviceId, att: Bytes, t: int, st: Statement)
    requires a != b && st.pair == p && st.signer == a
    ensures var db0 := Db({a, b}, {}, map[p := Row(a, b, att, t, None)]);
            var h := [RevokePair(db0, st)];
            var h := h + [DeleteDevice(h[0], b)];
            var h := h + [RegisterDevice(h[1], b)];
            var h := h + [InsertPair(h[2], p, a, b, att, t)];
            Evolves(h) && RevokedBy(h[0], p, st) && Routes(h[3], a, p)
  {
    var db0 := Db({a, b}, {}, map[p := Row(a, b, att, t, None)]);
    var r := RevokePair(db0, st);
    var g := DeleteDevice(r, b);
    var n := RegisterDevice(g, b);
    var i := InsertPair(n, p, a, b, att, t);
    assert Allowed(r, Deleting(b)) && g == Changed(r, Deleting(b));
    assert Allowed(g, Registering(b)) && n == Changed(g, Registering(b));
    assert Allowed(n, Inserting(p, a, b, att, t)) && i == Changed(n, Inserting(p, a, b, att, t));
    assert Follows(r, g) && Follows(g, n) && Follows(n, i);
  }
}

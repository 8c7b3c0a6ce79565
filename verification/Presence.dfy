/** `presence:<device_id>`: which instance holds a device's connection. The
    refresh and release scripts compare before they write. */
module Presence {
  import opened Store
  import opened Messages

  type Keys = map<DeviceId, InstId>

  /** The refresh script answers 1: the key is missing or already ours. */
  predicate MayHold(keys: Keys, d: DeviceId, i: InstId) {
    d !in keys || keys[d] == i
  }

  function RefreshKey(keys: Keys, d: DeviceId, i: InstId): Keys {
    if MayHold(keys, d, i) then keys[d := i] else keys
  }

  /** The release script answers 1: the key was ours. */
  predicate Holds(keys: Keys, d: DeviceId, i: InstId) {
    d in keys && keys[d] == i
  }

  function ReleaseKey(keys: Keys, d: DeviceId, i: InstId): Keys {
    if Holds(keys, d, i) then keys - {d} else keys
  }

  /** The Redis connection an instance sends its presence commands on. */
  class PresenceStore {
    var keys: Keys

    constructor ()
      ensures keys == map[]
    {
      keys := map[];
    }

    /** A new connection always wins. */
    method Claim(d: DeviceId, i: InstId)
      modifies this
      ensures keys == old(keys)[d := i]
    {
      keys := keys[d := i];
    }

    /** Renew a key; a key another instance holds is left as it is. */
    method Refresh(d: DeviceId, i: InstId) returns (held: bool)
      modifies this
      ensures held <==> old(d !in keys || keys[d] == i)
      ensures keys == if held then old(keys)[d := i] else old(keys)
      ensures keys == RefreshKey(old(keys), d, i)
    {
      if d !in keys || keys[d] == i {
        keys := keys[d := i];
        held := true;
      } else {
        held := false;
      }
    }

    /** Delete a key; a key another instance holds is left as it is. */
    method Release(d: DeviceId, i: InstId) returns (deleted: bool)
      modifies this
      ensures deleted <==> old(d in keys && keys[d] == i)
      ensures keys == if deleted then old(keys) - {d} else old(keys)
      ensures keys == ReleaseKey(old(keys), d, i)
    {
      if d in keys && keys[d] == i {
        keys := keys - {d};
        deleted := true;
      } else {
        deleted := false;
      }
    }
  }

  datatype Op = ClaimOp(d: DeviceId, i: InstId) | RefreshOp(d: DeviceId, i: InstId)
              | ReleaseOp(d: DeviceId, i: InstId) | ExpireOp(d: DeviceId)

  function Do(keys: Keys, op: Op): Keys {
    match op
    case ClaimOp(d, i) => keys[d := i]
    case RefreshOp(d, i) => RefreshKey(keys, d, i)
    case ReleaseOp(d, i) => ReleaseKey(keys, d, i)
    case ExpireOp(d) => keys - {d}
  }

  function DoAll(keys: Keys, ops: seq<Op>): Keys
    decreases |ops|
  {
    if ops == [] then keys else DoAll(Do(keys, ops[0]), ops[1..])
  }

  /** Neither script touches the key of a device held by another instance. */
  lemma ScriptsSpareOthers(keys: Keys, op: Op, d: DeviceId, holder: InstId)
    requires op.RefreshOp? || op.ReleaseOp?
    requires Holds(keys, d, holder) && (op.d != d || op.i != holder)
    ensures Holds(Do(keys, op), d, holder)
  {
  }

  /** No claim, expiry or successful release of `d` happens. */
  predicate Undisputed(keys: Keys, ops: seq<Op>, d: DeviceId)
    decreases |ops|
  {
    ops == []
    || (&& !(ops[0].d == d && (ops[0].ClaimOp? || ops[0].ExpireOp?))
        && !(ops[0].ReleaseOp? && ops[0].d == d && Holds(keys, d, ops[0].i))
        && Undisputed(Do(keys, ops[0]), ops[1..], d))
  }

  predicate RefreshedAt(keys: Keys, ops: seq<Op>, n: nat, d: DeviceId, i: InstId)
    requires n < |ops|
  {
    ops[n] == RefreshOp(d, i) && MayHold(DoAll(keys, ops[..n]), d, i)
  }

  lemma {:induction false} HeldThroughout(keys: Keys, ops: seq<Op>, d: DeviceId, i: InstId)
    requires Undisputed(keys, ops, d) && Holds(keys, d, i)
    ensures Holds(DoAll(keys, ops), d, i)
    decreases |ops|
  {
    if ops != [] {
      HeldThroughout(Do(keys, ops[0]), ops[1..], d, i);
    }
  }

  lemma {:induction false} UndisputedPrefix(keys: Keys, ops: seq<Op>, d: DeviceId, n: nat)
    requires Undisputed(keys, ops, d) && n <= |ops|
    ensures Undisputed(keys, ops[..n], d) && Undisputed(DoAll(keys, ops[..n]), ops[n..], d)
    decreases n
  {
    if n > 0 {
      assert ops[..n][1..] == ops[1..][..n - 1];
      assert ops[1..][n - 1..] == ops[n..];
      UndisputedPrefix(Do(keys, ops[0]), ops[1..], d, n - 1);
    }
  }

  lemma {:induction false} DoAllSplit(keys: Keys, ops: seq<Op>, m: nat, n: nat)
    requires m <= n <= |ops|
    ensures DoAll(keys, ops[..n]) == DoAll(DoAll(keys, ops[..m]), ops[m..n])
    decreases m
  {
    if m == 0 {
      assert ops[..n] == ops[0..n];
    } else {
      assert ops[..n][1..] == ops[1..][..n - 1] && ops[..m][1..] == ops[1..][..m - 1];
      assert ops[1..][m - 1..n - 1] == ops[m..n];
      DoAllSplit(Do(keys, ops[0]), ops[1..], m - 1, n - 1);
    }
  }

  lemma HeldOnceRefreshed(keys: Keys, ops: seq<Op>, m: nat, d: DeviceId, i: InstId)
    requires m < |ops| && RefreshedAt(keys, ops, m, d, i)
    ensures Holds(DoAll(keys, ops[..m + 1]), d, i)
  {
    DoAllSplit(keys, ops, m, m + 1);
    assert ops[m..m + 1] == [RefreshOp(d, i)];
    assert [RefreshOp(d, i)][1..] == [];
  }

  /** Between claims, expiries and releases that delete, refresh succeeds for
      at most one instance, however the instances interleave. */
  lemma OneRefresher(keys: Keys, ops: seq<Op>, d: DeviceId, m: nat, i: InstId, n: nat, j: InstId)
    requires Undisputed(keys, ops, d) && m < n < |ops|
    requires RefreshedAt(keys, ops, m, d, i) && RefreshedAt(keys, ops, n, d, j)
    ensures i == j
  {
    UndisputedPrefix(keys, ops, d, m + 1);
    var held := DoAll(keys, ops[..m + 1]);
    HeldOnceRefreshed(keys, ops, m, d, i);
    DoAllSplit(keys, ops, m + 1, n);
    UndisputedPrefix(held, ops[m + 1..], d, n - (m + 1));
    assert ops[m + 1..][..n - (m + 1)] == ops[m + 1..n];
    HeldThroughout(held, ops[m + 1..n], d, i);
  }
}

/** Fixed-window limits kept in Redis: new registrations per hour, for the relay
    and per client address, and calls per minute. Times are integer
    milliseconds; reading the clock and running the script are one step. */
module Limits {
  import opened Store

  const HOUR := 3_600_000
  const MINUTE := 60_000
  const HOUR_TTL := 3_600_000
  const MINUTE_TTL := 120_000

  datatype Key = Global(hour: int) | Client(ip: nat, hour: int) | Quota(who: nat, minute: int)

  datatype Entry = Entry(count: nat, expires: int)

  type Redis = map<Key, Entry>

  predicate Live(db: Redis, k: Key, now: int) {
    k in db && now < db[k].expires
  }

  function Used(db: Redis, k: Key, now: int): nat {
    if Live(db, k, now) then db[k].count else 0
  }

  /** `INCR` then `EXPIRE`. */
  function Incr(db: Redis, k: Key, now: int, ttl: int): Redis {
    db[k := Entry(Used(db, k, now) + 1, now + ttl)]
  }

  // ---- the registration script ----

  predicate HasRoom(db: Redis, now: int, keys: seq<Key>, limits: seq<nat>)
    requires |keys| <= |limits|
  {
    forall i | 0 <= i < |keys| :: Used(db, keys[i], now) < limits[i]
  }

  function IncrAll(db: Redis, now: int, keys: seq<Key>): Redis
    decreases |keys|
  {
    if keys == [] then db else IncrAll(Incr(db, keys[0], now, HOUR_TTL), now, keys[1..])
  }

  class Script {
    var db: Redis

    constructor ()
      ensures db == map[]
    {
      db := map[];
    }

    /** Check every counter, then count; a refusal changes nothing. */
    method Eval(now: int, keys: seq<Key>, limits: seq<nat>) returns (refused: bool)
      requires |keys| <= |limits|
      modifies this
      ensures refused == !HasRoom(old(db), now, keys, limits)
      ensures db == if refused then old(db) else IncrAll(old(db), now, keys)
    {
      var i := 0;
      while i < |keys|
        invariant 0 <= i <= |keys| && db == old(db)
        invariant forall j | 0 <= j < i :: Used(db, keys[j], now) < limits[j]
      {
        if Used(db, keys[i], now) >= limits[i] {
          return true;
        }
        i := i + 1;
      }
      i := 0;
      while i < |keys|
        invariant 0 <= i <= |keys|
        invariant IncrAll(db, now, keys[i..]) == IncrAll(old(db), now, keys)
      {
        assert keys[i..][1..] == keys[i + 1..];
        db := Incr(db, keys[i], now, HOUR_TTL);
        i := i + 1;
      }
      refused := false;
    }
  }

  const EXACT := 0x20_0000_0000_0000

  /** Limits are handed to Lua, whose numbers are doubles. */
  function Clamp(n: nat): nat { if n < EXACT then n else EXACT }

  function Keys(ip: Option<nat>, now: int): seq<Key> {
    if ip.Some? then [Global(now / HOUR), Client(ip.value, now / HOUR)] else [Global(now / HOUR)]
  }

  /** Whole seconds until the window of `now` ends. */
  function RetryAfter(window: nat, now: int): int
    requires window > 0
  {
    var left := window - now % window;
    var secs := (left + 999) / 1000;
    if secs < 1 then 1 else secs
  }

  datatype Verdict = Taken | RateLimited(retryAfter: int)

  /** Under the limit, and under 2^53, the largest count a double holds exactly. */
  predicate Below(count: nat, limit: nat) {
    count < limit && count < 9_007_199_254_740_992
  }

  /** After so many seconds a later window has begun. */
  predicate Reaches(window: nat, now: int, secs: nat)
    requires window > 0
  {
    (now + 1000 * secs) / window > now / window
  }

  lemma RoomIsBelow(db: Redis, ip: Option<nat>, perIp: nat, global: nat, now: int)
    ensures HasRoom(db, now, Keys(ip, now), [Clamp(global), Clamp(perIp)]) <==>
              && Below(Used(db, Global(now / 3_600_000), now), global)
              && (ip.Some? ==> Below(Used(db, Client(ip.value, now / 3_600_000), now), perIp))
  {
    var keys, limits := Keys(ip, now), [Clamp(global), Clamp(perIp)];
    if HasRoom(db, now, keys, limits) {
      assert Used(db, keys[0], now) < limits[0];
      if ip.Some? { assert Used(db, keys[1], now) < limits[1]; }
    }
  }

  method CheckRegistration(redis: Script, ip: Option<nat>, perIp: nat, global: nat, now: int) returns (v: Verdict)
    modifies redis
    ensures v.Taken? <==>
              && Below(Used(old(redis.db), Global(now / 3_600_000), now), global)
              && (ip.Some? ==> Below(Used(old(redis.db), Client(ip.value, now / 3_600_000), now), perIp))
    ensures redis.db == if v.Taken? then IncrAll(old(redis.db), now, Keys(ip, now)) else old(redis.db)
    ensures v.RateLimited? ==> forall secs: nat :: Reaches(3_600_000, now, secs) <==> secs >= v.retryAfter
  {
    RoomIsBelow(redis.db, ip, perIp, global, now);
    forall secs: nat ensures Reaches(HOUR, now, secs) <==> secs >= RetryAfter(HOUR, now) {
      RetryAfterIsLeast(HOUR, now, secs);
    }
    var refused := redis.Eval(now, Keys(ip, now), [Clamp(global), Clamp(perIp)]);
    if !refused {
      return Taken;
    }
    return RateLimited(RetryAfter(HOUR, now));
  }

  // ---- Retry-After ----

  lemma Quotient(a: int, w: int, q: int)
    requires w > 0 && q * w <= a < (q + 1) * w
    ensures a / w == q
  {
    var p := a / w;
    if p > q {
      MulMonotone(q + 1, p, w);
    } else if p < q {
      MulMonotone(p + 1, q, w);
    }
  }

  lemma MulMonotone(a: int, b: int, w: int)
    requires w > 0 && a <= b
    ensures a * w <= b * w
  {
  }

  /** The next window starts exactly when the rest of this one has passed. */
  lemma WindowEnds(window: nat, now: int, later: int)
    requires window > 0 && now <= later
    ensures later / window > now / window <==> later >= now + (window - now % window)
  {
    var q := now / window;
    assert now == q * window + now % window;
    assert (q + 1) * window == q * window + window;
    if later < (q + 1) * window {
      Quotient(later, window, q);
    } else {
      var p := later / window;
      assert later == p * window + later % window;
      if p <= q { MulMonotone(p, q, window); assert false; }
    }
  }

  /** `Retry-After` is the least number of whole seconds that reaches the next
      window. */
  lemma RetryAfterIsLeast(window: nat, now: int, secs: nat)
    requires window > 0
    ensures Reaches(window, now, secs) <==> secs >= RetryAfter(window, now)
  {
    WindowEnds(window, now, now + 1000 * secs);
  }

  // ---- hourly runs ----

  datatype Attempt = Attempt(ip: Option<nat>, hour: int, taken: bool)

  datatype Hourly = Hourly(now: int, db: Redis, log: seq<Attempt>)

  datatype Event = Tick(dt: nat) | Register(ip: Option<nat>)

  function Admit(s: Hourly, ip: Option<nat>, perIp: nat, global: nat): Hourly {
    var keys := Keys(ip, s.now);
    if HasRoom(s.db, s.now, keys, [Clamp(global), Clamp(perIp)])
    then s.(db := IncrAll(s.db, s.now, keys), log := s.log + [Attempt(ip, s.now / HOUR, true)])
    else s.(log := s.log + [Attempt(ip, s.now / HOUR, false)])
  }

  function Next(s: Hourly, e: Event, perIp: nat, global: nat): Hourly {
    match e
    case Tick(dt) => s.(now := s.now + dt)
    case Register(ip) => Admit(s, ip, perIp, global)
  }

  function Run(s: Hourly, es: seq<Event>, perIp: nat, global: nat): Hourly
    decreases |es|
  {
    if es == [] then s else Run(Next(s, es[0], perIp, global), es[1..], perIp, global)
  }

  /** A taken attempt counts against the relay and, with an address, the client. */
  predicate CountsFor(a: Attempt, k: Key) {
    a.taken && match k
               case Global(hour) => a.hour == hour
               case Client(ip, hour) => a.hour == hour && a.ip == Some(ip)
               case Quota(_, _) => false
  }

  function Accepted(log: seq<Attempt>, k: Key): nat {
    if log == [] then 0
    else Accepted(log[..|log| - 1], k) + (if CountsFor(log[|log| - 1], k) then 1 else 0)
  }

  predicate KeyOk(s: Hourly, k: Key, perIp: nat, global: nat)
    requires !k.Quota?
  {
    && (k.hour > s.now / HOUR ==> k !in s.db && Accepted(s.log, k) == 0)
    && (k in s.db ==> s.db[k].count == Accepted(s.log, k) && (k.hour + 1) * HOUR <= s.db[k].expires <= s.now + 3_600_000)
    && (k !in s.db ==> Accepted(s.log, k) == 0)
    && Accepted(s.log, k) <= (if k.Global? then Clamp(global) else Clamp(perIp))
  }

  ghost predicate Inv(s: Hourly, perIp: nat, global: nat) {
    forall k: Key | !k.Quota? :: KeyOk(s, k, perIp, global)
  }

  /** No key expires inside its own window, and none lives longer than an hour. */
  lemma LiveInOwnHour(s: Hourly, k: Key, perIp: nat, global: nat)
    requires !k.Quota? && KeyOk(s, k, perIp, global) && k.hour == s.now / HOUR
    ensures k in s.db ==> Live(s.db, k, s.now) && s.db[k].expires - s.now <= 3_600_000
    ensures Used(s.db, k, s.now) == Accepted(s.log, k)
  {
  }

  lemma AcceptedGrows(log: seq<Attempt>, a: Attempt, k: Key)
    ensures Accepted(log + [a], k) == Accepted(log, k) + (if CountsFor(a, k) then 1 else 0)
  {
    assert (log + [a])[..|log|] == log;
  }

  lemma IncrAllOther(db: Redis, now: int, ip: Option<nat>, k: Key)
    ensures k !in Keys(ip, now) ==> (k in IncrAll(db, now, Keys(ip, now)) <==> k in db)
    ensures k !in Keys(ip, now) && k in db ==> IncrAll(db, now, Keys(ip, now))[k] == db[k]
    ensures k in Keys(ip, now) ==>
              var db' := IncrAll(db, now, Keys(ip, now));
              k in db' && db'[k] == Entry(Used(db, k, now) + 1, now + HOUR_TTL)
  {
    var keys := Keys(ip, now);
    var db1 := Incr(db, keys[0], now, HOUR_TTL);
    if ip.Some? {
      assert keys[1..] == [keys[1]];
      assert IncrAll(db1, now, [keys[1]]) == Incr(db1, keys[1], now, HOUR_TTL) by {
        assert [keys[1]][1..] == [];
      }
      assert IncrAll(db, now, keys) == Incr(db1, keys[1], now, HOUR_TTL);
    } else {
      assert keys[1..] == [];
      assert IncrAll(db, now, keys) == db1;
    }
  }

  lemma RefusedKey(s: Hourly, ip: Option<nat>, k: Key, perIp: nat, global: nat)
    requires !k.Quota? && KeyOk(s, k, perIp, global)
    ensures KeyOk(s.(log := s.log + [Attempt(ip, s.now / HOUR, false)]), k, perIp, global)
  {
    AcceptedGrows(s.log, Attempt(ip, s.now / HOUR, false), k);
  }

  lemma OtherKey(s: Hourly, ip: Option<nat>, k: Key, perIp: nat, global: nat)
    requires !k.Quota? && KeyOk(s, k, perIp, global) && k !in Keys(ip, s.now)
    ensures KeyOk(s.(db := IncrAll(s.db, s.now, Keys(ip, s.now)), log := s.log + [Attempt(ip, s.now / HOUR, true)]),
                  k, perIp, global)
  {
    var a := Attempt(ip, s.now / HOUR, true);
    AcceptedGrows(s.log, a, k);
    IncrAllOther(s.db, s.now, ip, k);
    assert !CountsFor(a, k) by {
      assert Keys(ip, s.now)[0] in Keys(ip, s.now);
      if ip.Some? { assert Keys(ip, s.now)[1] in Keys(ip, s.now); }
    }
  }

  lemma OwnKey(s: Hourly, ip: Option<nat>, k: Key, perIp: nat, global: nat)
    requires !k.Quota? && KeyOk(s, k, perIp, global) && k in Keys(ip, s.now)
    requires Used(s.db, k, s.now) < (if k.Global? then Clamp(global) else Clamp(perIp))
    ensures KeyOk(s.(db := IncrAll(s.db, s.now, Keys(ip, s.now)), log := s.log + [Attempt(ip, s.now / HOUR, true)]),
                  k, perIp, global)
  {
    AcceptedGrows(s.log, Attempt(ip, s.now / HOUR, true), k);
    IncrAllOther(s.db, s.now, ip, k);
    LiveInOwnHour(s, k, perIp, global);
  }

  lemma AdmitKey(s: Hourly, ip: Option<nat>, k: Key, perIp: nat, global: nat)
    requires !k.Quota? && KeyOk(s, k, perIp, global)
    ensures KeyOk(Admit(s, ip, perIp, global), k, perIp, global)
  {
    var keys := Keys(ip, s.now);
    var limits := [Clamp(global), Clamp(perIp)];
    if !HasRoom(s.db, s.now, keys, limits) {
      RefusedKey(s, ip, k, perIp, global);
    } else if k in keys {
      var i := if k.Global? then 0 else 1;
      assert keys[i] == k && Used(s.db, keys[i], s.now) < limits[i];
      OwnKey(s, ip, k, perIp, global);
    } else {
      OtherKey(s, ip, k, perIp, global);
    }
  }

  lemma TickKey(s: Hourly, dt: nat, k: Key, perIp: nat, global: nat)
    requires !k.Quota? && KeyOk(s, k, perIp, global)
    ensures KeyOk(s.(now := s.now + dt), k, perIp, global)
  {
  }

  lemma Kept(s: Hourly, e: Event, perIp: nat, global: nat)
    requires Inv(s, perIp, global)
    ensures Inv(Next(s, e, perIp, global), perIp, global)
  {
    forall k: Key | !k.Quota? ensures KeyOk(Next(s, e, perIp, global), k, perIp, global) {
      assert KeyOk(s, k, perIp, global);
      match e
      case Tick(dt) => TickKey(s, dt, k, perIp, global);
      case Register(ip) => AdmitKey(s, ip, k, perIp, global);
    }
  }

  lemma {:induction false} KeptOverRun(s: Hourly, es: seq<Event>, perIp: nat, global: nat)
    requires Inv(s, perIp, global)
    ensures Inv(Run(s, es, perIp, global), perIp, global)
    decreases |es|
  {
    if es != [] {
      Kept(s, es[0], perIp, global);
      KeptOverRun(Next(s, es[0], perIp, global), es[1..], perIp, global);
    }
  }

  /** Over any run from an empty store, in no hour are more registrations accepted
      than the cap of the relay, or of one client. */
  lemma HourlyCaps(now: int, es: seq<Event>, perIp: nat, global: nat, ip: nat, hour: int)
    ensures var s := Run(Hourly(now, map[], []), es, perIp, global);
            && Accepted(s.log, Global(hour)) <= global
            && Accepted(s.log, Client(ip, hour)) <= perIp
  {
    var s0 := Hourly(now, map[], []);
    var s := Run(s0, es, perIp, global);
    StartsEmpty(now, perIp, global);
    KeptOverRun(s0, es, perIp, global);
    assert KeyOk(s, Global(hour), perIp, global) && KeyOk(s, Client(ip, hour), perIp, global);
  }

  lemma StartsEmpty(now: int, perIp: nat, global: nat)
    ensures Inv(Hourly(now, map[], []), perIp, global)
  {
  }

  /** The next request is accepted exactly when acceptances leave room; the
      counters then grow by one, and a refused request changes neither. */
  lemma NextDecision(now: int, es: seq<Event>, perIp: nat, global: nat, ip: Option<nat>)
    ensures var s := Run(Hourly(now, map[], []), es, perIp, global);
            var s' := Admit(s, ip, perIp, global);
            var h := s.now / 3_600_000;
            var room := Below(Accepted(s.log, Global(h)), global)
                        && (ip.Some? ==> Below(Accepted(s.log, Client(ip.value, h)), perIp));
            && s'.log == s.log + [Attempt(ip, h, room)]
            && (!room ==> s'.db == s.db)
            && Used(s'.db, Global(h), s.now) == Accepted(s'.log, Global(h))
            && (ip.Some? ==> Used(s'.db, Client(ip.value, h), s.now) == Accepted(s'.log, Client(ip.value, h)))
  {
    var s0 := Hourly(now, map[], []);
    var s := Run(s0, es, perIp, global);
    StartsEmpty(now, perIp, global);
    KeptOverRun(s0, es, perIp, global);
    DecisionFits(s, ip, perIp, global);
  }

  lemma DecisionFits(s: Hourly, ip: Option<nat>, perIp: nat, global: nat)
    requires Inv(s, perIp, global)
    ensures var s' := Admit(s, ip, perIp, global);
            var h := s.now / 3_600_000;
            var room := Below(Accepted(s.log, Global(h)), global)
                        && (ip.Some? ==> Below(Accepted(s.log, Client(ip.value, h)), perIp));
            && s'.log == s.log + [Attempt(ip, h, room)]
            && (!room ==> s'.db == s.db)
            && Used(s'.db, Global(h), s.now) == Accepted(s'.log, Global(h))
            && (ip.Some? ==> Used(s'.db, Client(ip.value, h), s.now) == Accepted(s'.log, Client(ip.value, h)))
  {
    var s' := Admit(s, ip, perIp, global);
    var h := s.now / HOUR;
    var keys := Keys(ip, s.now);
    Kept(s, Register(ip), perIp, global);
    assert KeyOk(s, Global(h), perIp, global) && KeyOk(s', Global(h), perIp, global);
    LiveInOwnHour(s, Global(h), perIp, global);
    LiveInOwnHour(s', Global(h), perIp, global);
    assert keys[0] == Global(h);
    if ip.Some? {
      var k := Client(ip.value, h);
      assert keys[1] == k;
      assert KeyOk(s, k, perIp, global) && KeyOk(s', k, perIp, global);
      LiveInOwnHour(s, k, perIp, global);
      LiveInOwnHour(s', k, perIp, global);
    }
  }
}

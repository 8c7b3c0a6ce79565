/** Calls per minute: every call counts, and those up to the quota pass. */
module Minutes {
  import opened Limits

  /** `INCR` and `EXPIRE` in one transaction; returns the new value. */
  method IncrWindow(redis: Script, k: Key, now: int) returns (count: nat)
    modifies redis
    ensures redis.db == Incr(old(redis.db), k, now, MINUTE_TTL)
    ensures count == Used(old(redis.db), k, now) + 1
  {
    count := (if k in redis.db && now < redis.db[k].expires then redis.db[k].count else 0) + 1;
    redis.db := redis.db[k := Entry(count, now + MINUTE_TTL)];
  }

  function Decision(count: nat, limit: nat, now: int): Verdict {
    if count <= limit then Taken else RateLimited(RetryAfter(MINUTE, now))
  }

  method CountMinute(redis: Script, who: nat, limit: nat, now: int) returns (v: Verdict)
    modifies redis
    ensures var k := Quota(who, now / 60_000);
            var used := if k in old(redis.db) && now < old(redis.db)[k].expires then old(redis.db)[k].count else 0;
            && redis.db == old(redis.db)[k := Entry(used + 1, now + 120_000)]
            && (v.Taken? <==> used < limit)
    ensures v.RateLimited? ==> forall secs: nat :: Reaches(60_000, now, secs) <==> secs >= v.retryAfter
    ensures v == Decision(Used(old(redis.db), Quota(who, now / MINUTE), now) + 1, limit, now)
  {
    forall secs: nat ensures Reaches(MINUTE, now, secs) <==> secs >= RetryAfter(MINUTE, now) {
      RetryAfterIsLeast(MINUTE, now, secs);
    }
    var count := IncrWindow(redis, Quota(who, now / MINUTE), now);
    v := Decision(count, limit, now);
  }

  datatype Call = Call(who: nat, minute: int, passed: bool)

  datatype State = State(now: int, db: Redis, log: seq<Call>)

  datatype Event = Tick(dt: nat) | Request(who: nat)

  function Answer(s: State, who: nat, quota: nat -> nat): State {
    var k := Quota(who, s.now / MINUTE);
    var v := Decision(Used(s.db, k, s.now) + 1, quota(who), s.now);
    s.(db := Incr(s.db, k, s.now, MINUTE_TTL), log := s.log + [Call(who, s.now / MINUTE, v.Taken?)])
  }

  function Next(s: State, e: Event, quota: nat -> nat): State {
    match e
    case Tick(dt) => s.(now := s.now + dt)
    case Request(who) => Answer(s, who, quota)
  }

  function Run(s: State, es: seq<Event>, quota: nat -> nat): State
    decreases |es|
  {
    if es == [] then s else Run(Next(s, es[0], quota), es[1..], quota)
  }

  function Calls(log: seq<Call>, who: nat, minute: int): nat {
    if log == [] then 0
    else Calls(log[..|log| - 1], who, minute)
         + (if log[|log| - 1].who == who && log[|log| - 1].minute == minute then 1 else 0)
  }

  function Passed(log: seq<Call>, who: nat, minute: int): nat {
    if log == [] then 0
    else Passed(log[..|log| - 1], who, minute)
         + (if log[|log| - 1] == Call(who, minute, true) then 1 else 0)
  }

  function Min(a: nat, b: nat): nat { if a <= b then a else b }

  predicate KeyOk(s: State, who: nat, minute: int) {
    var k := Quota(who, minute);
    && (minute > s.now / MINUTE ==> k !in s.db)
    && (k in s.db ==> s.db[k].count == Calls(s.log, who, minute) && (minute + 1) * MINUTE <= s.db[k].expires <= s.now + 120_000)
    && (k !in s.db ==> Calls(s.log, who, minute) == 0)
  }

  /** Call `k` passed exactly when fewer calls than the quota came before it. */
  predicate InQuota(log: seq<Call>, k: nat, quota: nat -> nat)
    requires k < |log|
  {
    log[k].passed <==> Calls(log[..k], log[k].who, log[k].minute) < quota(log[k].who)
  }

  ghost predicate Inv(s: State, quota: nat -> nat) {
    && (forall who, minute :: KeyOk(s, who, minute))
    && (forall k | 0 <= k < |s.log| :: InQuota(s.log, k, quota))
  }

  lemma LogGrows(log: seq<Call>, c: Call, who: nat, minute: int)
    ensures Calls(log + [c], who, minute) == Calls(log, who, minute) + (if c.who == who && c.minute == minute then 1 else 0)
    ensures Passed(log + [c], who, minute) == Passed(log, who, minute) + (if c == Call(who, minute, true) then 1 else 0)
  {
    assert (log + [c])[..|log|] == log;
  }

  lemma AnswerKey(s: State, x: nat, who: nat, minute: int, quota: nat -> nat)
    requires KeyOk(s, who, minute)
    ensures KeyOk(Answer(s, x, quota), who, minute)
  {
    var s' := Answer(s, x, quota);
    LogGrows(s.log, s'.log[|s.log|], who, minute);
  }

  lemma AnswerInQuota(s: State, x: nat, k: nat, quota: nat -> nat)
    requires Inv(s, quota) && k <= |s.log|
    ensures InQuota(Answer(s, x, quota).log, k, quota)
  {
    var s' := Answer(s, x, quota);
    assert s'.log[..k] == s.log[..k];
    if k < |s.log| {
      assert InQuota(s.log, k, quota);
    } else {
      assert s.log[..k] == s.log;
      assert KeyOk(s, x, s.now / MINUTE);
    }
  }

  lemma Kept(s: State, e: Event, quota: nat -> nat)
    requires Inv(s, quota)
    ensures Inv(Next(s, e, quota), quota)
  {
    var s' := Next(s, e, quota);
    forall who, minute ensures KeyOk(s', who, minute) {
      assert KeyOk(s, who, minute);
      if e.Request? { AnswerKey(s, e.who, who, minute, quota); }
    }
    forall k | 0 <= k < |s'.log| ensures InQuota(s'.log, k, quota) {
      if e.Request? { AnswerInQuota(s, e.who, k, quota); } else { assert InQuota(s.log, k, quota); }
    }
  }

  lemma {:induction false} KeptOverRun(s: State, es: seq<Event>, quota: nat -> nat)
    requires Inv(s, quota)
    ensures Inv(Run(s, es, quota), quota)
    decreases |es|
  {
    if es != [] {
      Kept(s, es[0], quota);
      KeptOverRun(Next(s, es[0], quota), es[1..], quota);
    }
  }

  /** If each call is judged by its place in the minute, the number that pass is
      the smaller of calls and quota. */
  lemma {:induction false} FirstOnesPass(log: seq<Call>, quota: nat -> nat, who: nat, minute: int)
    requires forall k | 0 <= k < |log| :: InQuota(log, k, quota)
    ensures Passed(log, who, minute) == Min(Calls(log, who, minute), quota(who))
  {
    if log != [] {
      var n := |log| - 1;
      var q := log[..n];
      forall k | 0 <= k < n ensures InQuota(q, k, quota) {
        assert InQuota(log, k, quota) && q[..k] == log[..k];
      }
      FirstOnesPass(q, quota, who, minute);
      assert log == q + [log[n]];
      LogGrows(q, log[n], who, minute);
      assert InQuota(log, n, quota);
    }
  }

  /** Over any run, a call passes if and only if fewer calls than the quota were
      made before it in its minute; so exactly the first ones pass, as many as the
      quota allows. */
  lemma MinuteQuota(now: int, es: seq<Event>, quota: nat -> nat, who: nat, minute: int)
    ensures var log := Run(State(now, map[], []), es, quota).log;
            && (forall k | 0 <= k < |log| :: InQuota(log, k, quota))
            && Passed(log, who, minute) == Min(Calls(log, who, minute), quota(who))
  {
    var s0 := State(now, map[], []);
    assert Inv(s0, quota);
    KeptOverRun(s0, es, quota);
    FirstOnesPass(Run(s0, es, quota).log, quota, who, minute);
  }
}

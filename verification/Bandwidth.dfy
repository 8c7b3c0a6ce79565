/** The per-pair bandwidth limit: a token bucket that may go into debt. A frame
    always passes; the debt it leaves is the time before the next read. The
    code computes in `f64`; here the bucket is over the reals. */
module Bandwidth {

  type Speed = r: real | r >= 1.0 witness 1.0

  /** Burst size and refill per second are the same number. */
  datatype Bucket = Bucket(rate: Speed, tokens: real, updated: real)

  function Max0(x: real): real { if x >= 0.0 then x else 0.0 }
  function Min(x: real, y: real): real { if x <= y then x else y }

  function Rate(bytesPerSec: nat): Speed {
    (if bytesPerSec < 1 then 1 else bytesPerSec) as real
  }

  function Full(rate: Speed, now: real): Bucket {
    Bucket(rate, rate, now)
  }

  /** Tokens at time `now`, before a frame is taken. */
  function Level(b: Bucket, now: real): real {
    Min(b.tokens + Max0(now - b.updated) * b.rate, b.rate)
  }

  function Take(b: Bucket, cost: nat, now: real): Bucket {
    b.(tokens := Level(b, now) - cost as real, updated := now)
  }

  /** How long to wait after a take. */
  function Wait(b: Bucket): real {
    if b.tokens >= 0.0 then 0.0 else -b.tokens / b.rate
  }

  lemma Quotient(x: real, r: real)
    requires r > 0.0
    ensures x / r * r == x
  {
  }

  lemma Scale(r: real, x: real, y: real)
    requires r > 0.0 && x <= y
    ensures x * r <= y * r
  {
  }

  /** Once the wait is over, the debt is repaid. */
  lemma WaitRepays(b: Bucket, now: real)
    requires now >= b.updated + Wait(b)
    ensures Paid(b, now)
  {
    Scale(b.rate, Wait(b), now - b.updated);
    Quotient(-b.tokens, b.rate);
  }

  lemma Quotients(x: real, y: real, r: real)
    requires r > 0.0 && x <= y
    ensures x / r <= y / r
  {
  }

  lemma DebtWaits(b: Bucket, cost: real)
    requires cost >= 0.0 && -b.tokens <= cost
    ensures 0.0 <= Wait(b) <= cost / b.rate
  {
    Quotients(0.0, cost, b.rate);
    if b.tokens < 0.0 {
      Quotients(-b.tokens, cost, b.rate);
      Quotients(0.0, -b.tokens, b.rate);
    }
  }

  predicate Paid(b: Bucket, now: real) {
    b.tokens + (now - b.updated) * b.rate >= 0.0
  }

  lemma TakeFacts(b: Bucket, cost: nat, now: real)
    requires b.updated <= now
    ensures var b' := Take(b, cost, now);
            && b'.rate == b.rate && b'.updated == now
            && b'.tokens <= b.rate - cost as real
            && b'.tokens <= b.tokens + (now - b.updated) * b.rate - cost as real
            && (Paid(b, now) ==> -b'.tokens <= cost as real)
  {
  }

  /** A take that starts without debt waits at most cost / rate. */
  lemma WaitIsBounded(b: Bucket, cost: nat, now: real)
    requires b.updated <= now && Paid(b, now)
    ensures 0.0 <= Wait(Take(b, cost, now)) <= cost as real / b.rate
  {
    TakeFacts(b, cost, now);
    DebtWaits(Take(b, cost, now), cost as real);
  }

  class TokenBucket {
    const rate: Speed
    const capacity: real
    var tokens: real
    var updated: real

    predicate Valid() reads this { capacity == rate }

    function View(): Bucket reads this { Bucket(rate, tokens, updated) }

    constructor (bytesPerSec: nat, now: real)
      ensures Valid() && View() == Full(Rate(bytesPerSec), now)
    {
      var r := Rate(bytesPerSec);
      rate := r;
      capacity := r;
      tokens := r;
      updated := now;
    }

    /** Take `cost` bytes; returns how long to wait before the next read. */
    method TakeBytes(cost: nat, now: real) returns (wait: real)
      requires Valid()
      modifies this
      ensures Valid() && View() == Take(old(View()), cost, now)
      ensures wait == Wait(View())
    {
      var elapsed := Max0(now - updated);
      tokens := Min(tokens + elapsed * rate, capacity);
      updated := now;
      tokens := tokens - cost as real;
      if tokens >= 0.0 {
        wait := 0.0;
      } else {
        wait := -tokens / rate;
      }
    }
  }
}

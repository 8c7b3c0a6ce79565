/** The part of a connection that its frame handlers update in place. The clock
    and the number of receivers of a publish come from outside; `now`, `read` and
    `log` are history. Each handler is one event of the sending loop, so what is
    proved of every run of that loop holds of any sequence of calls. */
module Sender {
  import opened Store
  import opened Wire
  import opened BusCodec
  import opened Bandwidth
  import opened Inbound

  /** What the sender is told about a frame: the error it was answered with, or that
      its peer is not connected when nobody received it. */
  predicate Told(err: Option<RelayError>, o: Outcome) {
    && (o.Answered? ==> err == Some(o.err))
    && (o.Passed? && o.reached ==> err == None)
    && (o.Passed? && !o.reached ==> err == Some(NotConnected))
  }

  class Sending {
    const me: Uuid
    const rate: Speed
    var peers: set<Uuid>
    var buckets: map<Uuid, Bucket>
    var pending: Option<Pending>
    var envelopes: nat
    var volume: nat
    ghost var now: real
    ghost var read: seq<Frame>
    ghost var log: seq<Entry>

    ghost function View(): Loop reads this {
      Loop(me, rate, now, peers, buckets, pending, read, log, envelopes, volume)
    }

    constructor (me: Uuid, bytesPerSec: nat, peers: set<Uuid>, now: real)
      ensures Start(View()) && this.me == me && this.peers == peers && this.now == now
    {
      this.me, this.rate, this.peers := me, Rate(bytesPerSec), peers;
      buckets, pending, envelopes, volume := map[], None, 0, 0;
      this.now, read, log := now, [], [];
    }

    /** Buckets of peers that are gone are dropped. */
    method ReloadPeers(active: set<Uuid>)
      modifies this
      ensures View() == Apply(old(View()), Reload(active))
    {
      peers := active;
      buckets := map d | d in buckets && d in peers :: buckets[d];
    }

    /** Returns the error sent back, if any. Nothing else is read while a frame
        waits, so the waiting slot is free. */
    method HandleFrame(f: Frame, at: real, receivers: nat) returns (err: Option<RelayError>)
      requires pending.None? && at >= now
      modifies this
      ensures View() == Apply(Apply(old(View()), Tick(at - old(now))), ReadFrame(f, receivers > 0))
      ensures pending.None? ==> |log| == |old(log)| + 1 && Told(err, log[|old(log)|].outcome)
      ensures pending.Some? ==> err.None? && log == old(log)
    {
      now, read := at, read + [f];
      match Route(f, me) {
        case Refuse(e) =>
          err := Some(e);
          log := log + [Entry(f, peers, Answered(e))];
        case Go(to, bus, bytes) =>
          err := ForwardFrame(f, to, bus, bytes, at, receivers);
      }
    }

    method ForwardFrame(f: Frame, to: Uuid, bus: BusMessage, bytes: nat, at: real, receivers: nat)
      returns (err: Option<RelayError>)
      requires pending.None? && at == now
      modifies this
      ensures View() == Forward(old(View()), f, to, bus, bytes, receivers > 0)
      ensures pending.None? ==> |log| == |old(log)| + 1 && Told(err, log[|old(log)|].outcome)
      ensures pending.Some? ==> err.None?
    {
      if to !in peers {
        log := log + [Entry(f, peers, Answered(NotPaired))];
        return Some(NotPaired);
      }
      var b := Take(if to in buckets then buckets[to] else Full(rate, at), bytes, at);
      buckets := buckets[to := b];
      var wait := Bandwidth.Wait(b);
      if wait == 0.0 {
        err := PublishForward(Pending(f, peers, to, bus, bytes, at), receivers);
      } else {
        pending := Some(Pending(f, peers, to, bus, bytes, at + wait));
        err := None;
      }
    }

    /** Nobody subscribed means the peer is not connected. */
    method PublishForward(p: Pending, receivers: nat) returns (err: Option<RelayError>)
      modifies this`log, this`envelopes, this`volume
      ensures View() == Publish(old(View()), p.frame, p.known, p.to, p.bus, p.bytes, receivers > 0)
      ensures |log| == |old(log)| + 1 && Told(err, log[|old(log)|].outcome)
      ensures err == if receivers > 0 then None else Some(NotConnected)
    {
      log := log + [Entry(p.frame, p.known, Passed(p.to, p.bus, p.bytes, now, receivers > 0))];
      if receivers == 0 {
        err := Some(NotConnected);
      } else {
        envelopes := envelopes + 1;
        volume := volume + p.bytes;
        err := None;
      }
    }

    /** The deadline branch of the loop. */
    method OnDeadline(at: real, receivers: nat) returns (err: Option<RelayError>)
      requires pending.Some? && at >= now && at >= pending.value.deadline
      modifies this
      ensures View() == Apply(Apply(old(View()), Tick(at - old(now))), Fire(receivers > 0))
      ensures err == if receivers > 0 then None else Some(NotConnected)
    {
      var p := pending.value;
      now, pending := at, None;
      err := PublishForward(p, receivers);
    }
  }
}

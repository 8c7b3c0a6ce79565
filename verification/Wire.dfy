/** Byte-level basics and the binary `HR` frame: big-endian integers, UUIDs,
    UTF-8 text, and the relay's rewrite of destination into source. */
module Wire {
  import opened Store

  type Uuid = u: Bytes | |u| == 16 witness seq(16, _ => 0)
  type Key32 = k: Bytes | |k| == 32 witness seq(32, _ => 0)
  type Sig64 = k: Bytes | |k| == 64 witness seq(64, _ => 0)
  type I64 = n: int | -0x8000_0000_0000_0000 <= n < 0x8000_0000_0000_0000
  type U64 = n: int | 0 <= n < 0x1_0000_0000_0000_0000
  type U16 = n: int | 0 <= n < 0x1_0000

  // ---- big-endian integers ----

  function Pow256(k: nat): (p: nat)
    ensures p >= 1
  {
    if k == 0 then 1 else 256 * Pow256(k - 1)
  }

  /** The low `k` bytes of `n`, most significant first. */
  function ToBe(n: nat, k: nat): (r: Bytes)
    ensures |r| == k
  {
    if k == 0 then [] else ToBe(n / 256, k - 1) + [n % 256]
  }

  function FromBe(b: Bytes): (n: nat) {
    if b == [] then 0 else FromBe(b[..|b| - 1]) * 256 + b[|b| - 1]
  }

  lemma {:induction false} BeBound(b: Bytes)
    ensures FromBe(b) < Pow256(|b|)
  {
    if b != [] { BeBound(b[..|b| - 1]); }
  }

  lemma {:induction false} BeRoundTrip(n: nat, k: nat)
    requires n < Pow256(k)
    ensures FromBe(ToBe(n, k)) == n
  {
    if k > 0 {
      BeRoundTrip(n / 256, k - 1);
      var r := ToBe(n, k);
      assert r[..|r| - 1] == ToBe(n / 256, k - 1);
    }
  }

  lemma {:induction false} BeUnique(b: Bytes)
    ensures ToBe(FromBe(b), |b|) == b
  {
    if b != [] {
      var front := b[..|b| - 1];
      BeUnique(front);
      assert FromBe(b) / 256 == FromBe(front) && FromBe(b) % 256 == b[|b| - 1];
      assert b == front + [b[|b| - 1]];
    }
  }

  /** The value of a byte string by the weights of its places: the sum of
      `b[k] * 256^(|b| - 1 - k)`. */
  function Weighed(b: Bytes): nat {
    if b == [] then 0 else (b[0] as int) * Pow256(|b| - 1) + Weighed(b[1..])
  }

  lemma {:induction false} WeighedPush(b: Bytes, x: Byte)
    ensures Weighed(b + [x]) == Weighed(b) * 256 + x
  {
    if b == [] {
      assert [x][1..] == [] && b + [x] == [x];
    } else {
      WeighedPush(b[1..], x);
      assert (b + [x])[1..] == b[1..] + [x];
      var w, p := b[0] as int, Pow256(|b| - 1);
      assert w * (256 * p) == (w * p) * 256;
    }
  }

  /** Most significant byte first. */
  lemma {:induction false} FromBeWeighs(b: Bytes)
    ensures FromBe(b) == Weighed(b)
  {
    if b != [] {
      var front := b[..|b| - 1];
      FromBeWeighs(front);
      WeighedPush(front, b[|b| - 1]);
      assert b == front + [b[|b| - 1]];
    }
  }

  lemma Pow256Values()
    ensures Pow256(2) == 0x1_0000 && Pow256(8) == 0x1_0000_0000_0000_0000
  {
    assert Pow256(4) == 0x1_0000_0000;
    assert Pow256(6) == 0x1_0000_0000_0000;
  }

  function U64ToBe(n: U64): (r: Bytes) ensures |r| == 8 { ToBe(n, 8) }

  /** Two's complement, as `i64::to_be_bytes`. */
  function I64ToBe(n: I64): (r: Bytes)
    ensures |r| == 8
  {
    ToBe(if n < 0 then n + 0x1_0000_0000_0000_0000 else n, 8)
  }

  function I64FromBe(b: Bytes): (n: I64)
    requires |b| == 8
  {
    BeBound(b);
    Pow256Values();
    var u := FromBe(b);
    if u < 0x8000_0000_0000_0000 then u else u - 0x1_0000_0000_0000_0000
  }

  lemma I64RoundTrip(n: I64)
    ensures I64FromBe(I64ToBe(n)) == n
  {
    Pow256Values();
    BeRoundTrip(if n < 0 then n + 0x1_0000_0000_0000_0000 else n, 8);
  }

  lemma I64Unique(b: Bytes)
    requires |b| == 8
    ensures I64ToBe(I64FromBe(b)) == b
  {
    BeBound(b);
    Pow256Values();
    BeUnique(b);
  }

  /** The bytes of a time weigh the time itself, or, when it is negative, the time
      plus 2^64. */
  lemma TimeWeighs(n: I64, u: U64)
    ensures Weighed(I64ToBe(n)) == if n < 0 then n + 0x1_0000_0000_0000_0000 else n
    ensures Weighed(U64ToBe(u)) == u
  {
    Pow256Values();
    BeRoundTrip(if n < 0 then n + 0x1_0000_0000_0000_0000 else n, 8);
    BeRoundTrip(u, 8);
    FromBeWeighs(I64ToBe(n));
    FromBeWeighs(U64ToBe(u));
  }

  lemma U64Injective(m: U64, n: U64)
    requires U64ToBe(m) == U64ToBe(n)
    ensures m == n
  {
    Pow256Values();
    BeRoundTrip(m, 8);
    BeRoundTrip(n, 8);
  }

  // ---- UTF-8 ----

  predicate Cont(b: Byte) { 0x80 <= b < 0xC0 }

  /** Length of the well-formed scalar at the start of `t`, 0 if there is none
      (the well-formed byte sequences of the Unicode Standard, table 3-7). */
  function ScalarLength(t: Bytes): (n: nat)
    ensures n <= |t|
  {
    if t == [] then 0
    else if t[0] < 0x80 then 1
    else if 0xC2 <= t[0] < 0xE0 then (if |t| >= 2 && Cont(t[1]) then 2 else 0)
    else if 0xE0 <= t[0] < 0xF0 then
      if |t| >= 3 && Cont(t[1]) && Cont(t[2]) && (t[0] == 0xE0 ==> t[1] >= 0xA0) && (t[0] == 0xED ==> t[1] < 0xA0)
      then 3 else 0
    else if 0xF0 <= t[0] < 0xF5 then
      if |t| >= 4 && Cont(t[1]) && Cont(t[2]) && Cont(t[3]) && (t[0] == 0xF0 ==> t[1] >= 0x90)
         && (t[0] == 0xF4 ==> t[1] < 0x90)
      then 4 else 0
    else 0
  }

  predicate ValidUtf8(t: Bytes)
    decreases |t|
  {
    t == [] || (ScalarLength(t) > 0 && ValidUtf8(t[ScalarLength(t)..]))
  }

  /** A Rust `String`, as its bytes. */
  type Text = t: Bytes | ValidUtf8(t) witness []

  // ---- the HR frame ----

  const MAX_FRAME_BYTES := 256 * 1024
  const HR_HEADER_LEN := 20

  /** Destination of an `HR` forward frame; none for a wrong magic, version or
      op, or when no inner frame follows the header. */
  function ParseHr(frame: Bytes): (to: Option<Uuid>)
    ensures to.Some? <==> |frame| > 20 && frame[..4] == [0x48, 0x52, 0x01, 0x01]
    ensures to.Some? ==> to.value == frame[4..20]
  {
    if |frame| <= HR_HEADER_LEN || frame[0] != 0x48 || frame[1] != 0x52 || frame[2] != 0x01 || frame[3] != 0x01
    then None
    else Some(frame[4..20])
  }

  /** A device id is a UUID of version 8 and the RFC 4122 variant. */
  predicate IsDeviceId(u: Uuid) {
    u[6] / 16 == 8 && u[8] / 64 == 2
  }

  /** The frame with bytes 4 to 20 replaced. */
  function Rewritten(frame: Bytes, source: Uuid): Bytes
    requires |frame| >= 20
  {
    frame[..4] + source + frame[20..]
  }

  /** The relay copies the frame and overwrites the destination in place. */
  method RewriteHr(frame: Bytes, source: Uuid) returns (out: array<Byte>)
    requires |frame| >= HR_HEADER_LEN
    ensures out[..] == Rewritten(frame, source)
  {
    out := new Byte[|frame|](k requires 0 <= k < |frame| => frame[k]);
    for k := 0 to 16
      invariant forall j | 0 <= j < |frame| :: out[j] == if 4 <= j < 4 + k then source[j - 4] else frame[j]
    {
      out[4 + k] := source[k];
    }
    assert forall j | 0 <= j < |frame| :: out[..][j] == Rewritten(frame, source)[j];
  }

  /** What the destination reads: the frame parses, names the source, and every
      byte outside the device id is the sender's; rewriting back restores it. */
  lemma RewriteKeepsTheRest(frame: Bytes, source: Uuid)
    requires ParseHr(frame).Some?
    ensures ParseHr(Rewritten(frame, source)) == Some(source)
    ensures |Rewritten(frame, source)| == |frame|
    ensures forall k | 0 <= k < |frame| && !(4 <= k < 20) :: Rewritten(frame, source)[k] == frame[k]
    ensures Rewritten(Rewritten(frame, source), ParseHr(frame).value) == frame
  {
    var r := Rewritten(frame, source);
    assert r[4..20] == source;
    assert r[..4] == frame[..4] && r[20..] == frame[20..];
  }
}

/** UTF-8 (section 3 of RFC 3629): the texts the relay takes for valid are exactly
    the encodings of sequences of Unicode scalar values. */
module Utf8 {
  import opened Store
  import opened Wire

  type Scalar = n: int | 0 <= n < 0xD800 || 0xE000 <= n < 0x110000

  function Coded(n: Scalar): Bytes {
    var k: int := n;
    if k < 0x80 then [k]
    else if k < 0x800 then [0xC0 + k / 64, 0x80 + k % 64]
    else if k < 0x10000 then [0xE0 + k / 4096, 0x80 + k / 64 % 64, 0x80 + k % 64]
    else [0xF0 + k / 262144, 0x80 + k / 4096 % 64, 0x80 + k / 64 % 64, 0x80 + k % 64]
  }

  function CodedAll(q: seq<Scalar>): Bytes {
    if q == [] then [] else Coded(q[0]) + CodedAll(q[1..])
  }

  lemma CodedIsScalar(n: Scalar, rest: Bytes)
    ensures ScalarLength(Coded(n) + rest) == |Coded(n)| > 0
  {
    var k: int := n;
    var t := Coded(n) + rest;
    if 0x800 <= k < 0x10000 {
      assert k < 0x1000 ==> k / 64 >= 32;
      assert 0xD000 <= k < 0xE000 ==> k / 64 % 64 < 32;
    } else if k >= 0x10000 {
      assert k < 0x40000 ==> k / 4096 >= 16;
      assert k >= 0x100000 ==> k / 4096 % 64 < 16;
    }
  }

  lemma TwoBytes(a: Byte, b: Byte) returns (n: Scalar)
    requires 0xC2 <= a < 0xE0 && Cont(b)
    ensures Coded(n) == [a, b]
  {
    n := (a - 0xC0) * 64 + (b - 0x80);
  }

  lemma ThreeBytes(a: Byte, b: Byte, c: Byte) returns (n: Scalar)
    requires 0xE0 <= a < 0xF0 && Cont(b) && Cont(c) && (a == 0xE0 ==> b >= 0xA0) && (a == 0xED ==> b < 0xA0)
    ensures Coded(n) == [a, b, c]
  {
    n := (a - 0xE0) * 4096 + (b - 0x80) * 64 + (c - 0x80);
  }

  lemma LastSextet(m: int, d: int)
    requires 0 <= d < 64
    ensures (64 * m + d) / 64 == m && (64 * m + d) % 64 == d
  {
  }

  lemma FourSextets(a: int, b: int, c: int, d: int, k: int)
    requires 0 <= a && 0 <= b < 64 && 0 <= c < 64 && 0 <= d < 64 && k == a * 262144 + b * 4096 + c * 64 + d
    ensures k / 262144 == a && k / 4096 % 64 == b && k / 64 % 64 == c && k % 64 == d
  {
    LastSextet(a * 4096 + b * 64 + c, d);
    LastSextet(a * 64 + b, c);
    LastSextet(a, b);
    assert k / 4096 == k / 64 / 64 && k / 262144 == k / 4096 / 64;
  }

  lemma FourBytes(a: Byte, b: Byte, c: Byte, d: Byte) returns (n: Scalar)
    requires 0xF0 <= a < 0xF5 && Cont(b) && Cont(c) && Cont(d) && (a == 0xF0 ==> b >= 0x90) && (a == 0xF4 ==> b < 0x90)
    ensures Coded(n) == [a, b, c, d]
  {
    var k: int := (a - 0xF0) * 262144 + (b - 0x80) * 4096 + (c - 0x80) * 64 + (d - 0x80);
    FourSextets(a - 0xF0, b - 0x80, c - 0x80, d - 0x80, k);
    n := k;
  }

  lemma ScalarIsCoded(t: Bytes) returns (n: Scalar)
    requires ScalarLength(t) > 0
    ensures Coded(n) == t[..ScalarLength(t)]
  {
    var k := ScalarLength(t);
    if k == 1 {
      n := t[0];
      assert t[..1] == [t[0]];
    } else if k == 2 {
      n := TwoBytes(t[0], t[1]);
      assert t[..2] == [t[0], t[1]];
    } else if k == 3 {
      n := ThreeBytes(t[0], t[1], t[2]);
      assert t[..3] == [t[0], t[1], t[2]];
    } else {
      n := FourBytes(t[0], t[1], t[2], t[3]);
      assert t[..4] == [t[0], t[1], t[2], t[3]];
    }
  }

  lemma {:induction false} CodedIsValid(q: seq<Scalar>)
    ensures ValidUtf8(CodedAll(q))
  {
    if q != [] {
      var rest := CodedAll(q[1..]);
      CodedIsScalar(q[0], rest);
      CodedIsValid(q[1..]);
      assert CodedAll(q)[|Coded(q[0])|..] == rest;
    }
  }

  lemma CodedFirst(n: Scalar, rest: seq<Scalar>)
    ensures CodedAll([n] + rest) == Coded(n) + CodedAll(rest)
  {
    assert ([n] + rest)[1..] == rest;
  }

  lemma ValidRest(t: Bytes)
    requires t != [] && ValidUtf8(t)
    ensures 0 < ScalarLength(t) <= |t| && ValidUtf8(t[ScalarLength(t)..])
  {
  }

  lemma {:induction false} ValidIsCoded(t: Bytes) returns (q: seq<Scalar>)
    requires ValidUtf8(t)
    ensures CodedAll(q) == t
    decreases |t|
  {
    if t == [] {
      q := [];
    } else {
      ValidRest(t);
      var k := ScalarLength(t);
      var n := ScalarIsCoded(t);
      var rest := ValidIsCoded(t[k..]);
      CodedFirst(n, rest);
      q := [n] + rest;
      assert t == t[..k] + t[k..];
    }
  }

  /** A byte string is a text if and only if it encodes some scalar values. */
  lemma ValidIffCoded(t: Bytes)
    ensures ValidUtf8(t) <==> exists q :: CodedAll(q) == t
  {
    if ValidUtf8(t) {
      var q := ValidIsCoded(t);
    }
    if q :| CodedAll(q) == t {
      CodedIsValid(q);
    }
  }
}

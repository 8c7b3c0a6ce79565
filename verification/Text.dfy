/** The text forms inside a queued revocation notice: base64url without
    padding (section 5 of RFC 4648), hyphenated UUIDs and signed decimals. */
module TextForms {
  import opened Store
  import opened Wire

  // ---- base64url without padding ----

  type Sextet = v: int | 0 <= v < 64

  function Symbol(v: Sextet): (c: char)
    ensures c != '|'
  {
    if v < 26 then (v + 65) as char
    else if v < 52 then (v + 71) as char
    else if v < 62 then (v - 4) as char
    else if v == 62 then '-'
    else '_'
  }

  function Value(c: char): Option<Sextet> {
    if 'A' <= c <= 'Z' then Some(c as int - 65)
    else if 'a' <= c <= 'z' then Some(c as int - 71)
    else if '0' <= c <= '9' then Some(c as int + 4)
    else if c == '-' then Some(62)
    else if c == '_' then Some(63)
    else None
  }

  /** The alphabet of section 5 of RFC 4648: letters, small letters and digits in
      order, then `-` and `_`. */
  lemma Alphabet(v: Sextet)
    ensures Symbol(0) == 'A' && Symbol(25) == 'Z' && Symbol(26) == 'a' && Symbol(51) == 'z'
    ensures Symbol(52) == '0' && Symbol(61) == '9' && Symbol(62) == '-' && Symbol(63) == '_'
    ensures v + 1 !in {26, 52, 62, 63, 64} ==> Symbol(v + 1) as int == Symbol(v) as int + 1
  {
  }

  lemma SymbolValue(v: Sextet)
    ensures Value(Symbol(v)) == Some(v)
  {
  }

  lemma ValueSymbol(c: char)
    requires Value(c).Some?
    ensures Symbol(Value(c).value) == c
  {
  }

  /** Three bytes as four sextets. */
  datatype Quad = Quad(a: Sextet, b: Sextet, c: Sextet, d: Sextet)
  datatype Three = Three(x: Byte, y: Byte, z: Byte)

  function Unpack(v: Three): Quad {
    Quad(v.x / 4, v.x % 4 * 16 + v.y / 16, v.y % 16 * 4 + v.z / 64, v.z % 64)
  }

  function Pack(q: Quad): Three {
    var a, b, c, d: int := q.a, q.b, q.c, q.d;
    Three(a * 4 + b / 16, b % 16 * 16 + c / 4, c % 4 * 64 + d)
  }

  lemma PackUnpack(v: Three)
    ensures Pack(Unpack(v)) == v
    ensures v.z == 0 ==> Unpack(v).c % 4 == 0 && Unpack(v).d == 0
    ensures v.y == 0 && v.z == 0 ==> Unpack(v).b % 16 == 0 && Unpack(v).c == 0
  {
  }

  lemma UnpackPack(q: Quad)
    ensures Unpack(Pack(q)) == q
    ensures q.c % 4 == 0 && q.d == 0 ==> Pack(q).z == 0
    ensures q.b % 16 == 0 && q.c == 0 && q.d == 0 ==> Pack(q).y == 0
  {
    var a, b, c, d: int := q.a, q.b, q.c, q.d;
    assert (a * 4 + b / 16) / 4 == a && (a * 4 + b / 16) % 4 == b / 16;
    assert (b % 16 * 16 + c / 4) / 16 == b % 16 && (b % 16 * 16 + c / 4) % 16 == c / 4;
    assert (c % 4 * 64 + d) / 64 == c % 4 && (c % 4 * 64 + d) % 64 == d;
  }

  /** A group is the same 24-bit number in both forms, first byte highest. */
  lemma SameNumber(v: Three)
    ensures var q := Unpack(v);
            (((q.a as int) * 64 + q.b) * 64 + q.c) * 64 + q.d == ((v.x as int) * 256 + v.y) * 256 + v.z
  {
  }

  function Symbols(q: Quad): string {
    [Symbol(q.a), Symbol(q.b), Symbol(q.c), Symbol(q.d)]
  }

  function Encode64(b: Bytes): string {
    if |b| == 0 then []
    else if |b| == 1 then Symbols(Unpack(Three(b[0], 0, 0)))[..2]
    else if |b| == 2 then Symbols(Unpack(Three(b[0], b[1], 0)))[..3]
    else Symbols(Unpack(Three(b[0], b[1], b[2]))) + Encode64(b[3..])
  }

  predicate AllSymbols(t: string) { forall k | 0 <= k < |t| :: Value(t[k]).Some? }

  function Sextets(t: string): Quad
    requires |t| == 4 && AllSymbols(t)
  {
    Quad(Value(t[0]).value, Value(t[1]).value, Value(t[2]).value, Value(t[3]).value)
  }

  /** Strict decoding: no padding, no other symbols, no leftover bits. A short
      last group is read as if filled up with zeros. */
  function Decode64(t: string): Option<Bytes> {
    if |t| == 0 then Some([])
    else if |t| == 1 then None
    else if |t| == 2 then
      if !AllSymbols(t) then None
      else var q := Sextets(t + "AA"); if q.b % 16 == 0 then Some([Pack(q).x]) else None
    else if |t| == 3 then
      if !AllSymbols(t) then None
      else var q := Sextets(t + "A"); if q.c % 4 == 0 then Some([Pack(q).x, Pack(q).y]) else None
    else if !AllSymbols(t[..4]) then None
    else
      var v := Pack(Sextets(t[..4]));
      match Decode64(t[4..])
      case None => None
      case Some(rest) => Some([v.x, v.y, v.z] + rest)
  }

  lemma SextetsSymbols(q: Quad)
    ensures AllSymbols(Symbols(q)) && Sextets(Symbols(q)) == q
  {
    SymbolValue(q.a);
    SymbolValue(q.b);
    SymbolValue(q.c);
    SymbolValue(q.d);
  }

  lemma SymbolsSextets(t: string)
    requires |t| == 4 && AllSymbols(t)
    ensures Symbols(Sextets(t)) == t
  {
    ValueSymbol(t[0]);
    ValueSymbol(t[1]);
    ValueSymbol(t[2]);
    ValueSymbol(t[3]);
  }

  lemma LastOne(x: Byte)
    ensures Decode64(Encode64([x])) == Some([x])
  {
    var q := Unpack(Three(x, 0, 0));
    PackUnpack(Three(x, 0, 0));
    SextetsSymbols(q);
    var t := Encode64([x]);
    assert t == Symbols(q)[..2] && t + "AA" == Symbols(q) by { assert Symbol(0) == 'A'; }
    assert AllSymbols(t) by { assert forall k | 0 <= k < 2 :: t[k] == Symbols(q)[k]; }
  }

  lemma LastTwo(x: Byte, y: Byte)
    ensures Decode64(Encode64([x, y])) == Some([x, y])
  {
    var q := Unpack(Three(x, y, 0));
    PackUnpack(Three(x, y, 0));
    SextetsSymbols(q);
    var t := Encode64([x, y]);
    assert t == Symbols(q)[..3] && t + "A" == Symbols(q) by { assert Symbol(0) == 'A'; }
    assert AllSymbols(t) by { assert forall k | 0 <= k < 3 :: t[k] == Symbols(q)[k]; }
  }

  lemma {:induction false} Decode64Encoded(b: Bytes)
    ensures Decode64(Encode64(b)) == Some(b)
  {
    if |b| == 1 {
      LastOne(b[0]);
      assert b == [b[0]];
    } else if |b| == 2 {
      LastTwo(b[0], b[1]);
      assert b == [b[0], b[1]];
    } else if |b| >= 3 {
      var v := Three(b[0], b[1], b[2]);
      PackUnpack(v);
      SextetsSymbols(Unpack(v));
      Decode64Encoded(b[3..]);
      assert Encode64(b)[..4] == Symbols(Unpack(v)) && Encode64(b)[4..] == Encode64(b[3..]);
      assert b == [v.x, v.y, v.z] + b[3..];
    }
  }

  /** No two texts decode to the same bytes. */
  lemma {:induction false} Encode64Decoded(t: string)
    requires Decode64(t).Some?
    ensures Encode64(Decode64(t).value) == t
    decreases |t|
  {
    if |t| >= 2 {
      var f := if |t| == 2 then t + "AA" else if |t| == 3 then t + "A" else t[..4];
      SymbolsSextets(f);
      UnpackPack(Sextets(f));
      assert f[..if |t| < 4 then |t| else 4] == t[..if |t| < 4 then |t| else 4];
      if |t| >= 4 {
        Encode64Decoded(t[4..]);
        assert Decode64(t).value[3..] == Decode64(t[4..]).value;
        assert t == t[..4] + t[4..];
      }
    }
  }

  // ---- hyphenated UUIDs ----

  type Nibble = v: int | 0 <= v < 16

  function HexDigit(v: Nibble): (c: char)
    ensures c != '|'
  {
    if v < 10 then (v + 48) as char else (v + 87) as char
  }

  /** Both cases are read. */
  function HexValue(c: char): Option<Nibble> {
    if '0' <= c <= '9' then Some(c as int - 48)
    else if 'a' <= c <= 'f' then Some(c as int - 87)
    else if 'A' <= c <= 'F' then Some(c as int - 55)
    else None
  }

  /** Digits and small letters in order. */
  lemma HexAlphabet(v: Nibble)
    ensures HexDigit(0) == '0' && HexDigit(9) == '9' && HexDigit(10) == 'a' && HexDigit(15) == 'f'
    ensures v != 9 && v != 15 ==> HexDigit(v + 1) as int == HexDigit(v) as int + 1
  {
  }

  /** Two digits per byte, the high one first. */
  lemma {:induction false} HexAt(b: Bytes, k: nat)
    requires k < |b|
    ensures Hex(b)[2 * k] == HexDigit(b[k] / 16) && Hex(b)[2 * k + 1] == HexDigit(b[k] % 16)
  {
    if k > 0 {
      HexAt(b[1..], k - 1);
      assert Hex(b)[2..] == Hex(b[1..]);
    }
  }

  lemma HexDigitValue(v: Nibble)
    ensures HexValue(HexDigit(v)) == Some(v)
  {
  }

  function Hex(b: Bytes): (t: string)
    ensures |t| == 2 * |b|
  {
    if b == [] then [] else [HexDigit(b[0] / 16), HexDigit(b[0] % 16)] + Hex(b[1..])
  }

  function Unhex(t: string): (b: Option<Bytes>)
    ensures b.Some? ==> |t| == 2 * |b.value|
  {
    if t == [] then Some([])
    else if |t| == 1 || HexValue(t[0]).None? || HexValue(t[1]).None? then None
    else
      var hi, lo: int := HexValue(t[0]).value, HexValue(t[1]).value;
      match Unhex(t[2..])
      case None => None
      case Some(rest) => Some([hi * 16 + lo] + rest)
  }

  lemma {:induction false} UnhexHex(b: Bytes)
    ensures Unhex(Hex(b)) == Some(b)
  {
    if b != [] {
      UnhexHex(b[1..]);
      HexDigitValue(b[0] / 16);
      HexDigitValue(b[0] % 16);
      assert Hex(b)[2..] == Hex(b[1..]);
      assert b == [b[0]] + b[1..];
    }
  }

  function Hyphenated(u: Uuid): (t: string)
    ensures |t| == 36
  {
    Hex(u[..4]) + "-" + Hex(u[4..6]) + "-" + Hex(u[6..8]) + "-" + Hex(u[8..10]) + "-" + Hex(u[10..])
  }

  function ParseHyphenated(t: string): Option<Uuid>
    requires |t| == 36
  {
    if t[8] != '-' || t[13] != '-' || t[18] != '-' || t[23] != '-' then None
    else
      var b := Unhex(t[..8] + t[9..13] + t[14..18] + t[19..23] + t[24..]);
      if b.None? then None else Some(b.value)
  }

  /** `Uuid::parse_str`: plain, hyphenated, braced or URN text. */
  function ParseUuid(t: string): Option<Uuid> {
    if |t| == 32 then (var b := Unhex(t); if b.None? then None else Some(b.value))
    else if |t| == 36 then ParseHyphenated(t)
    else if |t| == 38 && t[0] == '{' && t[37] == '}' then ParseHyphenated(t[1..37])
    else if |t| == 45 && t[..9] == "urn:uuid:" then ParseHyphenated(t[9..])
    else None
  }

  lemma FiveParts(a: string, b: string, c: string, d: string, e: string)
    requires |a| == 8 && |b| == 4 && |c| == 4 && |d| == 4
    ensures var t := a + "-" + b + "-" + c + "-" + d + "-" + e;
            && t[8] == '-' && t[13] == '-' && t[18] == '-' && t[23] == '-'
            && t[..8] == a && t[9..13] == b && t[14..18] == c && t[19..23] == d && t[24..] == e
  {
  }

  lemma HyphenatedParts(u: Uuid)
    ensures var t := Hyphenated(u);
            && t[8] == '-' && t[13] == '-' && t[18] == '-' && t[23] == '-'
            && t[..8] == Hex(u[..4]) && t[9..13] == Hex(u[4..6]) && t[14..18] == Hex(u[6..8])
            && t[19..23] == Hex(u[8..10]) && t[24..] == Hex(u[10..])
  {
    FiveParts(Hex(u[..4]), Hex(u[4..6]), Hex(u[6..8]), Hex(u[8..10]), Hex(u[10..]));
  }

  lemma {:induction false} HexJoin(a: Bytes, b: Bytes)
    ensures Hex(a) + Hex(b) == Hex(a + b)
  {
    if a == [] {
      assert a + b == b;
    } else {
      assert (a + b)[1..] == a[1..] + b;
      HexJoin(a[1..], b);
    }
  }

  lemma UuidRoundTrip(u: Uuid)
    ensures ParseUuid(Hyphenated(u)) == Some(u)
  {
    HyphenatedParts(u);
    var t := Hyphenated(u);
    HexJoin(u[..4], u[4..6]);
    HexJoin(u[..4] + u[4..6], u[6..8]);
    HexJoin(u[..4] + u[4..6] + u[6..8], u[8..10]);
    HexJoin(u[..4] + u[4..6] + u[6..8] + u[8..10], u[10..]);
    assert u[..4] + u[4..6] + u[6..8] + u[8..10] + u[10..] == u;
    assert t[..8] + t[9..13] + t[14..18] + t[19..23] + t[24..] == Hex(u);
    UnhexHex(u);
  }

  // ---- signed decimals ----

  predicate IsDigit(c: char) { '0' <= c <= '9' }

  function Digits(n: nat): (t: string)
    ensures |t| >= 1
  {
    if n < 10 then [(n + 48) as char] else Digits(n / 10) + [(n % 10 + 48) as char]
  }

  function Decimal(n: int): string {
    if n < 0 then "-" + Digits(-n) else Digits(n)
  }

  function ParseDigits(t: string): Option<nat> {
    if t == [] then None
    else if !IsDigit(t[|t| - 1]) then None
    else
      var last := t[|t| - 1] as int - 48;
      if |t| == 1 then Some(last)
      else match ParseDigits(t[..|t| - 1])
           case None => None
           case Some(n) => Some(n * 10 + last)
  }

  /** `i64::from_str`: an optional sign, digits, and the value must fit. */
  function ParseI64(t: string): Option<I64> {
    if t == [] then None
    else
      var neg := t[0] == '-';
      var digits := if neg || t[0] == '+' then t[1..] else t;
      match ParseDigits(digits)
      case None => None
      case Some(n) =>
        var k: int := n;
        var v: int := if neg then -k else k;
        if -0x8000_0000_0000_0000 <= v < 0x8000_0000_0000_0000 then Some(v) else None
  }

  function Pow10(k: nat): nat { if k == 0 then 1 else 10 * Pow10(k - 1) }

  /** The value of decimal digits by the weights of their places. */
  function Worth(t: string): int {
    if t == [] then 0 else (t[0] as int - 48) * Pow10(|t| - 1) + Worth(t[1..])
  }

  lemma {:induction false} WorthPush(t: string, c: char)
    ensures Worth(t + [c]) == Worth(t) * 10 + (c as int - 48)
  {
    if t == [] {
      assert [c][1..] == [] && t + [c] == [c];
    } else {
      WorthPush(t[1..], c);
      assert (t + [c])[1..] == t[1..] + [c];
      var w, p := t[0] as int - 48, Pow10(|t| - 1);
      assert w * (10 * p) == (w * p) * 10;
    }
  }

  /** Printed digits are worth the number, and none leads with a needless zero. */
  lemma {:induction false} DigitsWorth(n: nat)
    ensures Worth(Digits(n)) == n
    ensures Digits(n)[0] == '0' ==> n == 0
  {
    if n < 10 {
      assert Digits(n)[1..] == [];
    } else {
      DigitsWorth(n / 10);
      WorthPush(Digits(n / 10), (n % 10 + 48) as char);
    }
  }

  lemma {:induction false} DigitsRoundTrip(n: nat)
    ensures ParseDigits(Digits(n)) == Some(n)
    ensures forall k | 0 <= k < |Digits(n)| :: IsDigit(Digits(n)[k])
  {
    if n >= 10 {
      DigitsRoundTrip(n / 10);
      var t := Digits(n);
      assert t[..|t| - 1] == Digits(n / 10);
    }
  }

  lemma NegativeRoundTrip(n: I64, t: string)
    requires (n as int) < 0 && t == "-" + Digits(-(n as int))
    ensures ParseI64(t) == Some(n)
  {
    DigitsRoundTrip(-(n as int));
    assert t[1..] == Digits(-(n as int));
  }

  lemma DecimalRoundTrip(n: I64)
    ensures ParseI64(Decimal(n)) == Some(n)
  {
    if (n as int) < 0 {
      NegativeRoundTrip(n, Decimal(n));
    } else {
      DigitsRoundTrip(n);
      assert IsDigit(Digits(n)[0]);
    }
  }

  // ---- none of the forms contains the separator ----

  predicate NoBar(t: string) { forall k | 0 <= k < |t| :: t[k] != '|' }

  lemma {:induction false} HexNoBar(b: Bytes)
    ensures NoBar(Hex(b))
  {
    if b != [] { HexNoBar(b[1..]); }
  }

  lemma HyphenatedNoBar(u: Uuid)
    ensures NoBar(Hyphenated(u))
  {
    HexNoBar(u[..4]);
    HexNoBar(u[4..6]);
    HexNoBar(u[6..8]);
    HexNoBar(u[8..10]);
    HexNoBar(u[10..]);
  }

  lemma DecimalNoBar(n: int)
    ensures NoBar(Decimal(n))
  {
    DigitsRoundTrip(if n < 0 then -n else n);
  }

  lemma {:induction false} Encode64NoBar(b: Bytes)
    ensures NoBar(Encode64(b))
  {
    if |b| >= 3 { Encode64NoBar(b[3..]); }
  }
}

/** `revoked_notice` members: `<pair_id>|<by>|<revoked_at>|<sig>`. */
module Notice {
  import opened Store
  import opened Wire
  import opened TextForms
  import opened BusCodec

  function Member(st: Revoked): string {
    Hyphenated(st.pairId) + "|" + (Hyphenated(st.signer) + "|" + (Decimal(st.revokedAt) + "|" + Encode64(st.sig)))
  }

  /** `str::split('|')`. */
  function Split(t: string): (parts: seq<string>)
    ensures parts != []
  {
    if t == [] then [[]]
    else if t[0] == '|' then [[]] + Split(t[1..])
    else var rest := Split(t[1..]); [[t[0]] + rest[0]] + rest[1..]
  }

  function Parse(t: string): Option<Revoked> {
    var parts := Split(t);
    if |parts| != 4 then None
    else
      var pair, signer, at, sig := ParseUuid(parts[0]), ParseUuid(parts[1]), ParseI64(parts[2]), Decode64(parts[3]);
      if pair.None? || signer.None? || at.None? || sig.None? || |sig.value| != 64 then None
      else Some(Revoked(pair.value, signer.value, at.value, sig.value))
  }

  lemma {:induction false} SplitAtBar(a: string, rest: string)
    requires NoBar(a)
    ensures Split(a + "|" + rest) == [a] + Split(rest)
  {
    if a == [] {
      assert (a + "|" + rest)[1..] == rest;
    } else {
      assert (a + "|" + rest)[1..] == a[1..] + "|" + rest;
      SplitAtBar(a[1..], rest);
      assert a == [a[0]] + a[1..];
    }
  }

  lemma {:induction false} SplitNoBar(a: string)
    requires NoBar(a)
    ensures Split(a) == [a]
  {
    if a != [] {
      SplitNoBar(a[1..]);
      assert a == [a[0]] + a[1..];
    }
  }

  /** The four parts come back as printed. */
  lemma SplitMember(st: Revoked)
    ensures Split(Member(st)) ==
            [Hyphenated(st.pairId), Hyphenated(st.signer), Decimal(st.revokedAt), Encode64(st.sig)]
  {
    HyphenatedNoBar(st.pairId);
    HyphenatedNoBar(st.signer);
    DecimalNoBar(st.revokedAt);
    Encode64NoBar(st.sig);
    SplitNoBar(Encode64(st.sig));
    SplitAtBar(Decimal(st.revokedAt), Encode64(st.sig));
    SplitAtBar(Hyphenated(st.signer), Decimal(st.revokedAt) + "|" + Encode64(st.sig));
    SplitAtBar(Hyphenated(st.pairId), Hyphenated(st.signer) + "|" + (Decimal(st.revokedAt) + "|" + Encode64(st.sig)));
  }

  /** Every queued statement is read back unchanged. */
  lemma NoticeRoundTrip(st: Revoked)
    ensures Parse(Member(st)) == Some(st)
  {
    SplitMember(st);
    UuidRoundTrip(st.pairId);
    UuidRoundTrip(st.signer);
    DecimalRoundTrip(st.revokedAt);
    Decode64Encoded(st.sig);
  }

  /** Distinct statements are distinct set members. */
  lemma MemberInjective(st: Revoked, st': Revoked)
    requires Member(st) == Member(st')
    ensures st == st'
  {
    NoticeRoundTrip(st);
    NoticeRoundTrip(st');
  }
}

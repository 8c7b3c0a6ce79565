/** The encoding of bus messages on Redis channels: one tag byte, then fixed
    fields. It is a bijection between messages and the byte strings that
    `decode` accepts. */
module BusCodec {
  import opened Store
  import opened Wire

  datatype Revoked = Revoked(pairId: Uuid, signer: Uuid, revokedAt: I64, sig: Sig64)

  datatype BusMessage =
    | ForwardText(from: Uuid, text: Text)
    | ForwardBinary(from: Uuid, frame: Bytes)
    | Control(text: Text)
    | PairRevoked(statement: Revoked)
    | PairsChanged
    | Replace(connId: Uuid)
    | Close(code: U16)

  const TAG_TEXT: Byte := 1
  const TAG_BINARY: Byte := 2
  const TAG_CONTROL: Byte := 3
  const TAG_PAIR_REVOKED: Byte := 4
  const TAG_PAIRS_CHANGED: Byte := 5
  const TAG_REPLACE: Byte := 6
  const TAG_CLOSE: Byte := 7
  const PAIR_REVOKED_LEN := 16 + 16 + 8 + 64

  function Fields(st: Revoked): Bytes {
    st.pairId + st.signer + I64ToBe(st.revokedAt) + st.sig
  }

  function Encoded(m: BusMessage): Bytes {
    match m
    case ForwardText(from, text) => [TAG_TEXT] + from + text
    case ForwardBinary(from, frame) => [TAG_BINARY] + from + frame
    case Control(text) => [TAG_CONTROL] + text
    case PairRevoked(st) => [TAG_PAIR_REVOKED] + Fields(st)
    case PairsChanged => [TAG_PAIRS_CHANGED]
    case Replace(conn) => [TAG_REPLACE] + conn
    case Close(code) => [TAG_CLOSE] + ToBe(code, 2)
  }

  method AppendStatement(buf: Bytes, st: Revoked) returns (out: Bytes)
    ensures out == buf + Fields(st)
  {
    out := buf + st.pairId;
    out := out + st.signer;
    out := out + I64ToBe(st.revokedAt);
    out := out + st.sig;
  }

  /** Where tag and fields stand. */
  predicate Layout(m: BusMessage, b: Bytes) {
    |b| >= 1 && match m
                case ForwardText(from, text) => b[0] == 1 && |b| >= 17 && b[1..17] == from && b[17..] == text
                case ForwardBinary(from, frame) => b[0] == 2 && |b| >= 17 && b[1..17] == from && b[17..] == frame
                case Control(text) => b[0] == 3 && b[1..] == text
                case PairRevoked(st) => b[0] == 4 && StatementAt(st, b[1..])
                case PairsChanged => b == [5]
                case Replace(conn) => b[0] == 6 && b[1..] == conn
                case Close(code) => b[0] == 7 && |b| == 3 && Weighed(b[1..]) == code
  }

  predicate StatementAt(st: Revoked, b: Bytes) {
    && |b| == 104 && b[..16] == st.pairId && b[16..32] == st.signer && b[40..] == st.sig
    && Weighed(b[32..40]) == if st.revokedAt < 0 then st.revokedAt + 0x1_0000_0000_0000_0000 else st.revokedAt
  }

  lemma StatementStands(st: Revoked)
    ensures StatementAt(st, Fields(st))
  {
    FieldsSplit(st);
    TimeWeighs(st.revokedAt, 0);
  }

  lemma FieldsStand(m: BusMessage)
    ensures Layout(m, Encoded(m))
  {
    var b := Encoded(m);
    match m
    case ForwardText(from, text) => assert b[1..17] == from && b[17..] == text;
    case ForwardBinary(from, frame) => assert b[1..17] == from && b[17..] == frame;
    case Control(text) => assert b[1..] == text;
    case PairRevoked(st) =>
      assert b[1..] == Fields(st);
      StatementStands(st);
    case PairsChanged =>
    case Replace(conn) => assert b[1..] == conn;
    case Close(code) =>
      assert b[1..] == ToBe(code, 2);
      Pow256Values();
      BeRoundTrip(code, 2);
      FromBeWeighs(ToBe(code, 2));
  }

  /** The relay appends the fields to one buffer, which decodes to the message. */
  method Encode(m: BusMessage) returns (out: Bytes)
    ensures Decode(out) == Some(m) && Layout(m, out)
  {
    out := Append(m);
    DecodeEncoded(m);
    FieldsStand(m);
  }

  method Append(m: BusMessage) returns (out: Bytes)
    ensures out == Encoded(m)
  {
    match m {
      case ForwardText(from, text) =>
        out := [TAG_TEXT];
        out := out + from;
        out := out + text;
      case ForwardBinary(from, frame) =>
        out := [TAG_BINARY];
        out := out + from;
        out := out + frame;
      case Control(text) =>
        out := [TAG_CONTROL];
        out := out + text;
      case PairRevoked(st) =>
        out := AppendStatement([TAG_PAIR_REVOKED], st);
      case PairsChanged => out := [TAG_PAIRS_CHANGED];
      case Replace(conn) =>
        out := [TAG_REPLACE];
        out := out + conn;
      case Close(code) =>
        out := [TAG_CLOSE];
        out := out + ToBe(code, 2);
    }
  }

  function Decode(bytes: Bytes): Option<BusMessage> {
    if bytes == [] then None
    else
      var tag, rest := bytes[0], bytes[1..];
      if tag == TAG_TEXT then
        (if |rest| >= 16 && ValidUtf8(rest[16..]) then Some(ForwardText(rest[..16], rest[16..])) else None)
      else if tag == TAG_BINARY then
        (if |rest| >= 16 then Some(ForwardBinary(rest[..16], rest[16..])) else None)
      else if tag == TAG_CONTROL then
        (if ValidUtf8(rest) then Some(Control(rest)) else None)
      else if tag == TAG_PAIR_REVOKED && |rest| == PAIR_REVOKED_LEN then
        Some(PairRevoked(Revoked(rest[..16], rest[16..32], I64FromBe(rest[32..40]), rest[40..])))
      else if tag == TAG_PAIRS_CHANGED && rest == [] then Some(PairsChanged)
      else if tag == TAG_REPLACE && |rest| == 16 then Some(Replace(rest))
      else if tag == TAG_CLOSE && |rest| == 2 then Some(Close((rest[0] as int) * 256 + rest[1]))
      else None
  }

  lemma TwoBytes(n: U16)
    ensures var b := ToBe(n, 2); (b[0] as int) * 256 + b[1] == n
  {
    assert ToBe(n, 2) == ToBe(n / 256, 1) + [n % 256];
    assert ToBe(n / 256, 1) == ToBe(n / 256 / 256, 0) + [n / 256 % 256];
  }

  lemma FieldsSplit(st: Revoked)
    ensures var f := Fields(st);
            && |f| == PAIR_REVOKED_LEN && f[..16] == st.pairId && f[16..32] == st.signer
            && f[32..40] == I64ToBe(st.revokedAt) && f[40..] == st.sig
  {
  }

  /** Decoding an encoded message gives the message back. */
  lemma DecodeEncoded(m: BusMessage)
    ensures Decode(Encoded(m)) == Some(m)
  {
    var bytes := Encoded(m);
    match m
    case ForwardText(from, text) =>
      assert bytes[1..] == from + text && (from + text)[..16] == from && (from + text)[16..] == text;
    case ForwardBinary(from, frame) =>
      assert bytes[1..] == from + frame && (from + frame)[..16] == from && (from + frame)[16..] == frame;
    case Control(text) => assert bytes[1..] == text;
    case PairRevoked(st) =>
      assert bytes[1..] == Fields(st);
      FieldsSplit(st);
      I64RoundTrip(st.revokedAt);
    case PairsChanged => assert bytes[1..] == [];
    case Replace(conn) => assert bytes[1..] == conn;
    case Close(code) =>
      assert bytes[1..] == ToBe(code, 2);
      TwoBytes(code);
  }

  lemma TwoBytesBack(b: Bytes)
    requires |b| == 2
    ensures ToBe((b[0] as int) * 256 + b[1], 2) == b
  {
    var n := (b[0] as int) * 256 + b[1];
    assert ToBe(n, 2) == ToBe(n / 256, 1) + [n % 256];
    assert ToBe(n / 256, 1) == ToBe(n / 256 / 256, 0) + [n / 256 % 256];
    assert n / 256 == b[0] && n % 256 == b[1];
  }

  /** Encoding a decoded message gives the same bytes: no two byte strings mean
      the same message. */
  lemma EncodeDecoded(bytes: Bytes)
    requires Decode(bytes).Some?
    ensures Encoded(Decode(bytes).value) == bytes
  {
    var m := Decode(bytes).value;
    var rest := bytes[1..];
    assert bytes == [bytes[0]] + rest;
    match m
    case ForwardText(from, text) => assert rest == from + text;
    case ForwardBinary(from, frame) => assert rest == from + frame;
    case Control(text) =>
    case PairRevoked(st) =>
      I64Unique(rest[32..40]);
      assert rest == rest[..16] + rest[16..32] + rest[32..40] + rest[40..];
    case PairsChanged =>
    case Replace(conn) =>
    case Close(code) => TwoBytesBack(rest);
  }

  /** Bytes a message holds in a receiver's queue. */
  function QueuedLen(m: BusMessage): nat {
    match m
    case ForwardText(_, text) => |text|
    case Control(text) => |text|
    case ForwardBinary(_, frame) => |frame|
    case _ => 0
  }

  /** A message holds what it carries beyond tag, sender and fixed fields. */
  lemma QueuedIsPayload(m: BusMessage)
    ensures QueuedLen(m) == |Encoded(m)| - (match m case ForwardText(_, _) => 17 case ForwardBinary(_, _) => 17
                                                   case Control(_) => 1 case _ => |Encoded(m)|)
  {
  }

  /** A binary frame as it travels: rewritten by the sending instance, encoded,
      published, decoded by the receiving instance. The device gets a frame
      that names the source and is otherwise the sender's, byte for byte. */
  lemma HrEndToEnd(frame: Bytes, source: Uuid)
    requires ParseHr(frame).Some?
    ensures var got := Decode(Encoded(ForwardBinary(source, Rewritten(frame, source))));
            && got.Some? && got.value.ForwardBinary? && got.value.from == source
            && ParseHr(got.value.frame) == Some(source)
            && |got.value.frame| == |frame| == QueuedLen(got.value)
            && forall k | 0 <= k < |frame| && !(4 <= k < 20) :: got.value.frame[k] == frame[k]
  {
    DecodeEncoded(ForwardBinary(source, Rewritten(frame, source)));
    RewriteKeepsTheRest(frame, source);
  }
}

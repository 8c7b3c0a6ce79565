/** The byte strings devices sign: registration, token, revocation and pair
    attestation. Together they are injective: the bytes tell which kind of
    message was signed and every field of it, so a signature over one can never
    be taken for another. */
module Signed {
  import opened Store
  import opened Wire

  datatype Attestation = Attestation(
    pairId: Uuid, deviceA: Uuid, deviceB: Uuid, keyA: Key32, keyB: Key32, createdAt: I64)

  datatype Message =
    | Registration(device: Uuid, key: Key32, platform: Text, ts: I64)
    | Auth(challenge: Key32, device: Uuid)
    | Revocation(pairId: Uuid, signer: Uuid, revokedAt: U64)
    | Pairing(att: Attestation)

  const REGISTER_LABEL: Bytes := [0x48, 0x4C, 0x52, 0x45, 0x47, 0x31]                        // HLREG1
  const AUTH_LABEL: Bytes := [0x48, 0x4C, 0x41, 0x55, 0x54, 0x48, 0x31]                      // HLAUTH1
  const REVOKE_LABEL: Bytes := [0x48, 0x4C, 0x52, 0x45, 0x56, 0x4F, 0x4B, 0x45, 0x31]        // HLREVOKE1
  const ATTESTATION_LABEL: Bytes := [0x48, 0x4C, 0x50, 0x41, 0x49, 0x52, 0x31]               // HLPAIR1
  const ATTESTATION_LEN := 127

  function AttestationBytes(a: Attestation): Bytes {
    ATTESTATION_LABEL + a.pairId + a.deviceA + a.deviceB + a.keyA + a.keyB + I64ToBe(a.createdAt)
  }

  /** The signed layouts; only a platform has variable length. */
  function ToSign(m: Message): Bytes {
    match m
    case Registration(device, key, platform, ts) => REGISTER_LABEL + device + key + platform + I64ToBe(ts)
    case Auth(challenge, device) => AUTH_LABEL + challenge + device
    case Revocation(pairId, signer, at) => REVOKE_LABEL + pairId + signer + U64ToBe(at)
    case Pairing(att) => AttestationBytes(att)
  }

  /** `Attestation::parse`. */
  function ParseAttestation(bytes: Bytes): (r: Option<Attestation>) {
    if |bytes| != ATTESTATION_LEN || bytes[..7] != ATTESTATION_LABEL then None
    else
      var rest := bytes[7..];
      Some(Attestation(rest[..16], rest[16..32], rest[32..48], rest[48..80], rest[80..112], I64FromBe(rest[112..])))
  }

  lemma SixParts(a: Uuid, b: Uuid, c: Uuid, d: Key32, e: Key32, f: Bytes)
    ensures var rest := a + b + c + d + e + f;
            && rest[..16] == a && rest[16..32] == b && rest[32..48] == c
            && rest[48..80] == d && rest[80..112] == e && rest[112..] == f
  {
  }

  lemma AttestationFields(a: Attestation)
    ensures var b := AttestationBytes(a);
            && |b| == ATTESTATION_LEN && b[..7] == ATTESTATION_LABEL
            && b[7..][..16] == a.pairId && b[7..][16..32] == a.deviceA && b[7..][32..48] == a.deviceB
            && b[7..][48..80] == a.keyA && b[7..][80..112] == a.keyB && b[7..][112..] == I64ToBe(a.createdAt)
  {
    var time := I64ToBe(a.createdAt);
    assert AttestationBytes(a)[7..] == a.pairId + a.deviceA + a.deviceB + a.keyA + a.keyB + time;
    SixParts(a.pairId, a.deviceA, a.deviceB, a.keyA, a.keyB, time);
  }

  /** Parsing accepts exactly the images of the encoding, and inverts it. */
  lemma ParseInverts(a: Attestation)
    ensures ParseAttestation(AttestationBytes(a)) == Some(a)
  {
    AttestationFields(a);
    I64RoundTrip(a.createdAt);
  }

  lemma ParseAcceptsOnlyImages(bytes: Bytes)
    requires ParseAttestation(bytes).Some?
    ensures AttestationBytes(ParseAttestation(bytes).value) == bytes
  {
    var rest := bytes[7..];
    I64Unique(rest[112..]);
    assert rest == rest[..16] + rest[16..32] + rest[32..48] + rest[48..80] + rest[80..112] + rest[112..];
    assert bytes == bytes[..7] + rest;
  }

  // ---- reading a message back ----

  lemma RegistrationFields(m: Message)
    requires m.Registration?
    ensures var b := ToSign(m);
            && |b| >= 62 && b[..6] == REGISTER_LABEL && b[6..22] == m.device && b[22..54] == m.key
            && b[54..|b| - 8] == m.platform && b[|b| - 8..] == I64ToBe(m.ts)
  {
  }

  lemma AuthFields(m: Message)
    requires m.Auth?
    ensures var b := ToSign(m); |b| == 55 && b[..7] == AUTH_LABEL && b[7..39] == m.challenge && b[39..] == m.device
  {
  }

  lemma RevocationFields(m: Message)
    requires m.Revocation?
    ensures var b := ToSign(m);
            |b| == 49 && b[..9] == REVOKE_LABEL && b[9..25] == m.pairId && b[25..41] == m.signer
            && b[41..] == U64ToBe(m.revokedAt)
  {
  }

  /** Byte 2, and byte 4 when it is `R`, name the kind. */
  function KindOf(b: Bytes): nat
    requires |b| >= 5
  {
    if b[2] == 0x41 then 1 else if b[2] == 0x50 then 3 else if b[4] == 0x56 then 2 else 0
  }

  lemma KindIsVisible(m: Message)
    ensures |ToSign(m)| >= 5
    ensures KindOf(ToSign(m)) == match m case Registration(_, _, _, _) => 0 case Auth(_, _) => 1
                                         case Revocation(_, _, _) => 2 case Pairing(_) => 3
  {
    var b := ToSign(m);
    match m
    case Registration(_, _, _, _) =>
      RegistrationFields(m);
      assert b[2] == b[..6][2] && b[4] == b[..6][4];
    case Auth(_, _) =>
      AuthFields(m);
      assert b[2] == b[..7][2];
    case Revocation(_, _, _) =>
      RevocationFields(m);
      assert b[2] == b[..9][2] && b[4] == b[..9][4];
    case Pairing(a) =>
      AttestationFields(a);
      assert b[2] == b[..7][2];
  }

  /** Equal bytes mean the same kind and the same fields. */
  lemma JointlyInjective(m: Message, n: Message)
    requires ToSign(m) == ToSign(n)
    ensures m == n
  {
    KindIsVisible(m);
    KindIsVisible(n);
    match m
    case Registration(_, _, _, _) =>
      RegistrationFields(m);
      RegistrationFields(n);
      I64RoundTrip(m.ts);
      I64RoundTrip(n.ts);
    case Auth(_, _) =>
      AuthFields(m);
      AuthFields(n);
    case Revocation(_, _, _) =>
      RevocationFields(m);
      RevocationFields(n);
      U64Injective(m.revokedAt, n.revokedAt);
    case Pairing(_) =>
      ParseInverts(m.att);
      ParseInverts(n.att);
  }

  /** ASCII text as bytes. */
  predicate Spells(b: Bytes, text: string) {
    |b| == |text| && forall k | 0 <= k < |b| :: b[k] == text[k] as int
  }

  /** Eight bytes that hold a signed time in two's complement, highest byte first. */
  predicate HoldsTime(b: Bytes, n: I64) {
    |b| == 8 && Weighed(b) == if n < 0 then n + 0x1_0000_0000_0000_0000 else n
  }

  /** Where each field stands. */
  predicate Layout(m: Message, b: Bytes) {
    match m
    case Registration(device, key, platform, ts) =>
      var n := |platform|;
      && |b| == 62 + n && Spells(b[..6], "HLREG1") && b[6..22] == device && b[22..54] == key
      && b[54..54 + n] == platform && HoldsTime(b[54 + n..], ts)
    case Auth(challenge, device) =>
      |b| == 55 && Spells(b[..7], "HLAUTH1") && b[7..39] == challenge && b[39..] == device
    case Revocation(pairId, signer, at) =>
      && |b| == 49 && Spells(b[..9], "HLREVOKE1") && b[9..25] == pairId && b[25..41] == signer
      && Weighed(b[41..]) == at
    case Pairing(a) =>
      && |b| == 127 && Spells(b[..7], "HLPAIR1") && b[7..23] == a.pairId && b[23..39] == a.deviceA
      && b[39..55] == a.deviceB && b[55..87] == a.keyA && b[87..119] == a.keyB && HoldsTime(b[119..], a.createdAt)
  }

  lemma RegistrationStands(m: Message)
    requires m.Registration?
    ensures Layout(m, ToSign(m))
  {
    RegistrationFields(m);
    TimeWeighs(m.ts, 0);
  }

  lemma RevocationStands(m: Message)
    requires m.Revocation?
    ensures Layout(m, ToSign(m))
  {
    RevocationFields(m);
    TimeWeighs(0, m.revokedAt);
  }

  lemma PairingStands(m: Message)
    requires m.Pairing?
    ensures Layout(m, ToSign(m))
  {
    var b := ToSign(m);
    AttestationFields(m.att);
    TimeWeighs(m.att.createdAt, 0);
    assert b[7..23] == b[7..][..16] && b[23..39] == b[7..][16..32] && b[39..55] == b[7..][32..48];
    assert b[55..87] == b[7..][48..80] && b[87..119] == b[7..][80..112] && b[119..] == b[7..][112..];
  }

  lemma FieldsStand(m: Message)
    ensures Layout(m, ToSign(m))
  {
    match m
    case Registration(_, _, _, _) => RegistrationStands(m);
    case Auth(_, _) => AuthFields(m);
    case Revocation(_, _, _) => RevocationStands(m);
    case Pairing(_) => PairingStands(m);
  }

  /** The relay builds each message by appending to one buffer. */
  method Build(m: Message) returns (out: Bytes)
    ensures Layout(m, out)
    ensures m.Pairing? ==> ParseAttestation(out) == Some(m.att)
  {
    out := Append(m);
    FieldsStand(m);
    if m.Pairing? { ParseInverts(m.att); }
  }

  method Append(m: Message) returns (out: Bytes)
    ensures out == ToSign(m)
  {
    match m
    case Registration(device, key, platform, ts) =>
      out := REGISTER_LABEL;
      out := out + device;
      out := out + key;
      out := out + platform;
      out := out + I64ToBe(ts);
    case Auth(challenge, device) =>
      out := AUTH_LABEL;
      out := out + challenge;
      out := out + device;
    case Revocation(pairId, signer, at) =>
      out := REVOKE_LABEL;
      out := out + pairId;
      out := out + signer;
      out := out + U64ToBe(at);
    case Pairing(a) =>
      out := ATTESTATION_LABEL;
      out := out + a.pairId;
      out := out + a.deviceA;
      out := out + a.deviceB;
      out := out + a.keyA;
      out := out + a.keyB;
      out := out + I64ToBe(a.createdAt);
  }
}

/**
 V2GTP framing: the eight header bytes around an EXI payload, and the namespace the receiver
 decodes the payload with, which it takes from the payload type alone.
 */
module V2gtp {
  import opened Options
  import opened Messages

  type byte = x: int | 0 <= x < 256

  /** The negotiated protocol; any ISO 15118-20 schema counts the same here. */
  datatype Protocol = Unknown | Din | Iso2 | Iso20

  datatype Namespace = SapNs | DinNs | Iso2Ns | CommonNs | AcNs | DcNs | WptNs | AcdpNs

  const ExiEncoded: nat := 0x8001
  const Mainstream: nat := 0x8002
  const AcMainstream: nat := 0x8003
  const DcMainstream: nat := 0x8004
  const AcdpMainstream: nat := 0x8005
  const WptMainstream: nat := 0x8006

  datatype Message = Message(protocol: Protocol, payloadType: nat, payload: seq<byte>)

  datatype Parse = Parsed(message: Message) | Invalid | RaisesValueError

  function Power(base: nat, exponent: nat): nat {
    if exponent == 0 then 1 else base * Power(base, exponent - 1)
  }

  function ToBigEndian(n: nat, width: nat): (bytes: seq<byte>)
    ensures |bytes| == width
  {
    if width == 0 then [] else ToBigEndian(n / 256, width - 1) + [n % 256]
  }

  function FromBigEndian(bytes: seq<byte>): (n: nat) {
    if bytes == [] then 0 else FromBigEndian(bytes[..|bytes| - 1]) * 256 + bytes[|bytes| - 1]
  }

  lemma {:induction false} BigEndianRoundTrip(n: nat, width: nat)
    requires n < Power(256, width)
    ensures FromBigEndian(ToBigEndian(n, width)) == n
  {
    if width > 0 {
      BigEndianRoundTrip(n / 256, width - 1);
      var bytes := ToBigEndian(n, width);
      assert bytes[..|bytes| - 1] == ToBigEndian(n / 256, width - 1);
    }
  }

  predicate IsIso20Type(payloadType: nat) {
    0x8001 <= payloadType <= 0x8006 || 0x8101 <= payloadType <= 0x8104 || 0x9000 <= payloadType <= 0x9003
  }

  predicate IsIso2Type(payloadType: nat) { payloadType == 0x8001 || payloadType == 0x9000 || payloadType == 0x9001 }

  /** Nothing is asked of the payload types of DIN SPEC 70121. */
  predicate TypeValid(protocol: Protocol, payloadType: nat) {
    match protocol
    case Din => true
    case Iso20 => IsIso20Type(payloadType)
    case _ => IsIso2Type(payloadType)
  }

  /** The payload types by name: EXI, the five mainstream sets, four side streams and the discovery messages. */
  lemma AcceptedTypes(payloadType: nat)
    ensures TypeValid(Iso20, payloadType) <==>
      payloadType in [ExiEncoded, Mainstream, AcMainstream, DcMainstream, AcdpMainstream, WptMainstream,
                      0x8101, 0x8102, 0x8103, 0x8104, 0x9000, 0x9001, 0x9002, 0x9003]
    ensures forall protocol: Protocol :: protocol.Iso2? || protocol.Unknown? ==>
      (TypeValid(protocol, payloadType) <==> payloadType in [0x8001, 0x9000, 0x9001])
  {
  }

  function Framed(m: Message, length: nat): seq<byte> {
    [1, 0xFE] + ToBigEndian(m.payloadType, 2) + ToBigEndian(length, 4) + m.payload
  }

  function ToBytes(m: Message): seq<byte> { Framed(m, |m.payload|) }

  predicate HeaderValid(protocol: Protocol, data: seq<byte>)
    requires |data| >= 8
  {
    data[0] == 1 && data[1] == 0xFE && TypeValid(protocol, FromBigEndian(data[2..4]))
  }

  /** The length field is read but never compared with the data. */
  function FromBytes(protocol: Protocol, data: seq<byte>): Parse {
    if |data| < 10 then Invalid
    else if !HeaderValid(protocol, data) then Invalid
    else
      var payloadType := FromBigEndian(data[2..4]);
      if protocol.Din? && !IsIso2Type(payloadType) then RaisesValueError
      else Parsed(Message(protocol, payloadType, data[8..]))
  }

  /** Messages that the constructor accepts and whose length fits the header. */
  predicate Sendable(m: Message) {
    TypeValid(m.protocol, m.payloadType) && m.payloadType < 0x1_0000 && |m.payload| < 0x1_0000_0000
  }

  lemma PowersOf256()
    ensures Power(256, 2) == 0x1_0000 && Power(256, 4) == 0x1_0000_0000
  {
    assert Power(256, 1) == 256 * Power(256, 0);
    assert Power(256, 2) == 256 * Power(256, 1);
    assert Power(256, 3) == 256 * Power(256, 2);
    assert Power(256, 4) == 256 * Power(256, 3);
  }

  lemma FrameParts(m: Message, length: nat)
    requires m.payloadType < 0x1_0000
    ensures var data := Framed(m, length);
      |data| == |m.payload| + 8 && data[0] == 1 && data[1] == 0xFE && data[8..] == m.payload
      && FromBigEndian(data[2..4]) == m.payloadType
  {
    PowersOf256();
    BigEndianRoundTrip(m.payloadType, 2);
    assert Framed(m, length)[2..4] == ToBigEndian(m.payloadType, 2);
  }

  /**
   What is framed is parsed again exactly when the payload has at least two bytes; the
   shortest message counted with is a discovery request.
   */
  lemma RoundTrip(m: Message)
    requires Sendable(m) && (m.protocol.Din? ==> IsIso2Type(m.payloadType))
    ensures FromBytes(m.protocol, ToBytes(m)) == Parsed(m) <==> |m.payload| >= 2
    ensures |m.payload| < 2 ==> FromBytes(m.protocol, ToBytes(m)) == Invalid
  {
    FrameParts(m, |m.payload|);
  }

  /** The length field says how long the payload is, and a type foreign to DIN SPEC 70121 makes its receiver raise. */
  lemma HeaderFields(m: Message)
    requires Sendable(m)
    ensures FromBigEndian(ToBytes(m)[4..8]) == |m.payload|
    ensures m.protocol.Din? && !IsIso2Type(m.payloadType) && |m.payload| >= 2 ==> FromBytes(m.protocol, ToBytes(m)) == RaisesValueError
  {
    PowersOf256();
    BigEndianRoundTrip(|m.payload|, 4);
    FrameParts(m, |m.payload|);
    assert ToBytes(m)[4..8] == ToBigEndian(|m.payload|, 4);
  }

  /** Whatever the length field says, the payload is all that follows the header. */
  lemma LengthIsIgnored(m: Message, length: nat)
    requires Sendable(m)
    ensures FromBytes(m.protocol, Framed(m, length)) == FromBytes(m.protocol, ToBytes(m))
  {
    FrameParts(m, length);
    FrameParts(m, |m.payload|);
  }

  /** `get_exi_ns`. */
  function ExiNamespace(protocol: Protocol, payloadType: nat): Namespace {
    match protocol
    case Unknown => SapNs
    case Iso2 => Iso2Ns
    case Din => DinNs
    case Iso20 =>
      if payloadType == AcMainstream then AcNs
      else if payloadType == DcMainstream then DcNs
      else if payloadType == AcdpMainstream then AcdpNs
      else if payloadType == WptMainstream then WptNs
      else CommonNs
  }

  /** The namespace both sides encode a message of the kind with, request, response or failed response. */
  function EncodedWith(kind: Kind): Namespace {
    match kind
    case KAcParameters => AcNs
    case KAcLoop => AcNs
    case KDcParameters => DcNs
    case KCableCheck => DcNs
    case KPreCharge => DcNs
    case KDcLoop => DcNs
    case KWelding => DcNs
    case _ => CommonNs
  }

  /** The payload type they frame it with; the certificate installation request leaves the default. */
  function FramedAs(kind: Kind): nat {
    match kind
    case KAcParameters => AcMainstream
    case KAcLoop => AcMainstream
    case KDcParameters => DcMainstream
    case KCableCheck => DcMainstream
    case KPreCharge => DcMainstream
    case KDcLoop => DcMainstream
    case KWelding => DcMainstream
    case KCertificateInstallation => ExiEncoded
    case _ => Mainstream
  }

  /** Every ISO 15118-20 message is decoded with the namespace it was encoded with. */
  lemma NamespaceSurvives(kind: Kind, payload: seq<byte>)
    requires 2 <= |payload| < 0x1_0000_0000
    ensures var parse := FromBytes(Iso20, ToBytes(Message(Iso20, FramedAs(kind), payload)));
      parse.Parsed? && parse.message.payload == payload && ExiNamespace(Iso20, parse.message.payloadType) == EncodedWith(kind)
  {
    RoundTrip(Message(Iso20, FramedAs(kind), payload));
  }
}

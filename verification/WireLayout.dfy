/**
 The two wire formats written out: for every frame the bytes it is sent as, as a
 list of parts, and the proof that this is what the encoders write.
 */
module WireLayout {
  import opened Arithmetic
  import opened Common
  import opened ErrorCodes
  import PeerFrames
  import PeerCodec
  import SdkCodec
  import opened BigEndian
  import opened WireFields
  import opened WireFraming

  // --------------------------------------------------------------------- parts

  /** The byte of `n` that counts multiples of 256 to the power `k`. */
  function Digit(n: nat, k: nat): byte { (n / Pow256(k) % 256) as byte }

  /** Most significant byte first. */
  function Number(n: nat, width: nat): Bytes { seq(width, i requires 0 <= i < width => Digit(n, width - 1 - i)) }

  function Text(t: Bytes): Bytes { Number(|t|, 2) + t }

  function Joined(parts: seq<Bytes>): Bytes { if parts == [] then [] else parts[0] + Joined(parts[1..]) }

  const CODES: seq<ErrorCode> := [
    InvalidArgument, Unauthenticated, PermissionDenied, NotFound, FailedPrecondition, Unavailable,
    DeadlineExceeded, ResourceExhausted, Cancelled, ProtocolError, Internal, AlreadyExists]

  /** Codes are numbered from one, in this order. */
  lemma CodesNumbered(i: nat)
    requires i < |CODES|
    ensures CodeToWire(CODES[i]) as int == i + 1
  {
  }

  lemma ObservationsNumbered()
    ensures ObservationToWire(NotObserved) == 1 && ObservationToWire(MaybeObserved) == 2
    ensures ObservationToWire(Observed) == 3
  {
  }

  lemma DivideTwice(n: nat, p: nat)
    requires p >= 1
    ensures n / 256 / p == n / (256 * p)
  {
    var m := n / 256;
    var q, b := m / p, m % p;
    Divided(m, p);
    Compose(p, q, b);
    Quotient(256 * p, q, 256 * b + n % 256);
  }

  lemma Divided(m: nat, p: nat)
    requires p >= 1
    ensures m == p * (m / p) + m % p && m % p < p
  {
  }

  lemma Compose(p: nat, q: nat, b: nat)
    ensures 256 * (p * q + b) == 256 * p * q + 256 * b
  {
  }

  lemma Quotient(d: nat, q: nat, r: nat)
    requires r < d
    ensures (d * q + r) / d == q
  {
    var n := d * q + r;
    var k := n / d;
    Residue(q, d, r);
    Divided(n, d);
    Distribute(d, k, q);
    Distribute(d, q, k);
    if k > q { MulAtLeast(d, k - q); } else if k < q { MulAtLeast(d, q - k); }
  }

  lemma DigitShift(n: nat, k: nat)
    ensures Digit(n / 256, k) == Digit(n, k + 1)
  {
    DivideTwice(n, Pow256(k));
  }

  lemma LastDigit(n: nat)
    ensures Digit(n, 0) as int == n % 256
  {
    assert Pow256(0) == 1;
  }

  /** The encoders' numbers are big-endian. */
  lemma {:induction false} BeIsNumber(n: nat, width: nat)
    ensures Be(n, width) == Number(n, width)
    decreases width
  {
    if width > 0 {
      BeIsNumber(n / 256, width - 1);
      LastDigit(n);
      forall i | 0 <= i < width - 1 ensures Number(n / 256, width - 1)[i] == Number(n, width)[i] {
        DigitShift(n, width - 2 - i);
      }
      assert Number(n, width) == Number(n / 256, width - 1) + [(n % 256) as byte];
    }
  }

  // -------------------------------------------------------------------- frames

  /** A frame's kind byte and the parts of its payload. */
  datatype Layout = Layout(kind: byte, parts: seq<Bytes>)

  function PeerLayout(f: PeerFrames.PeerFrame): Layout {
    match f
    case Hello(h) =>
      Layout(1, [Text(h.gatewayName), Number(h.gatewayId, 16),
                 Number(h.expectedPeerGatewayId, 16), Number(h.dialerGatewayId, 16), Number(h.peerTransportId, 16)])
    case Welcome(h) =>
      Layout(2, [Text(h.gatewayName), Number(h.gatewayId, 16),
                 Number(h.expectedPeerGatewayId, 16), Number(h.dialerGatewayId, 16), Number(h.peerTransportId, 16)])
    case HandshakeRejected(code, message) => Layout(3, [[CodeToWire(code)], Text(message)])
    case Open(stream, id, d, session, binding) =>
      Layout(4, [Number(stream, 8),
                 Number(id.entryGateway, 16), Number(id.originSession, 16), Number(id.connectionId, 8),
                 Text(d.namespace), Text(d.name), Number(session, 16), Number(binding, 16)])
    case Opened(stream) => Layout(5, [Number(stream, 8)])
    case Failed(stream, code, observation, message) =>
      Layout(6, [Number(stream, 8), [CodeToWire(code)], [ObservationToWire(observation)], Text(message)])
    case Data(stream, payload) => Layout(7, [Number(stream, 8), payload])
    case Fin(stream) => Layout(8, [Number(stream, 8)])
    case Close(stream) => Layout(9, [Number(stream, 8)])
    case Reset(stream, code, message) => Layout(10, [Number(stream, 8), [CodeToWire(code)], Text(message)])
    case Ping(nonce) => Layout(11, [Number(nonce, 8)])
    case Pong(nonce) => Layout(12, [Number(nonce, 8)])
  }

  function SdkLayout(f: SdkCodec.Frame): Layout {
    match f
    case Hello => Layout(1, [])
    case Welcome(session) => Layout(2, [Number(session, 16)])
    case SessionRejected(code, message) => Layout(3, [[CodeToWire(code)], Text(message)])
    case Publish(request, d, token) => Layout(4, [Number(request, 8), Text(d.namespace), Text(d.name), Text(token)])
    case Published(request, binding) => Layout(5, [Number(request, 8), Number(binding, 16)])
    case PublishFailed(request, code, message) => Layout(6, [Number(request, 8), [CodeToWire(code)], Text(message)])
    case Unpublish(request, binding) => Layout(7, [Number(request, 8), Number(binding, 16)])
    case Unpublished(request) => Layout(8, [Number(request, 8)])
    case Dial(connection, d, token) =>
      Layout(9, [Number(connection, 8), Text(d.namespace), Text(d.name), Text(token)])
    case Offer(p, binding, d) =>
      Layout(10, [Number(p.originSession, 16), Number(p.connectionId, 8),
                 Number(binding, 16), Text(d.namespace), Text(d.name)])
    case OfferAccepted(p) => Layout(11, [Number(p.originSession, 16), Number(p.connectionId, 8)])
    case OfferRejected(p, code, message) =>
      Layout(12, [Number(p.originSession, 16), Number(p.connectionId, 8), [CodeToWire(code)], Text(message)])
    case Opened(p) => Layout(13, [Number(p.originSession, 16), Number(p.connectionId, 8)])
    case DialFailed(connection, code, observation, message) =>
      Layout(14, [Number(connection, 8), [CodeToWire(code)], [ObservationToWire(observation)], Text(message)])
    case Data(p, payload) => Layout(15, [Number(p.originSession, 16), Number(p.connectionId, 8), payload])
    case Fin(p) => Layout(16, [Number(p.originSession, 16), Number(p.connectionId, 8)])
    case Close(p) => Layout(17, [Number(p.originSession, 16), Number(p.connectionId, 8)])
    case Reset(p, code, message) =>
      Layout(18, [Number(p.originSession, 16), Number(p.connectionId, 8), [CodeToWire(code)], Text(message)])
    case Ping(nonce) => Layout(19, [Number(nonce, 8)])
    case Pong(nonce) => Layout(20, [Number(nonce, 8)])
    case Cancel(p) => Layout(21, [Number(p.originSession, 16), Number(p.connectionId, 8)])
  }

  /** The texts a frame carries. */
  function PeerTexts(f: PeerFrames.PeerFrame): seq<Bytes> {
    match f
    case Hello(h) => [h.gatewayName]
    case Welcome(h) => [h.gatewayName]
    case HandshakeRejected(_, message) => [message]
    case Open(_, _, d, _, _) => [d.namespace, d.name]
    case Failed(_, _, _, message) => [message]
    case Reset(_, _, message) => [message]
    case _ => []
  }

  function SdkTexts(f: SdkCodec.Frame): seq<Bytes> {
    match f
    case SessionRejected(_, message) => [message]
    case Publish(_, d, token) => [d.namespace, d.name, token]
    case PublishFailed(_, _, message) => [message]
    case Dial(_, d, token) => [d.namespace, d.name, token]
    case Offer(_, _, d) => [d.namespace, d.name]
    case OfferRejected(_, _, message) => [message]
    case DialFailed(_, _, _, message) => [message]
    case Reset(_, _, message) => [message]
    case _ => []
  }

  // ---------------------------------------------------------- what is written

  /** Header and payload: magic, version 3, kind, payload length in four bytes, and the parts in order. */
  function Sent(magic: Bytes, l: Layout): Bytes {
    magic + [3, l.kind] + Number(|Joined(l.parts)|, 4) + Joined(l.parts)
  }

  /** What sending a frame of this layout must do: refused when a text or the payload is too long, written otherwise. */
  function Expected(magic: Bytes, texts: seq<Bytes>, l: Layout, maxFrameLen: nat): Encoded {
    if exists t :: t in texts && |t| > 65535 then Refused(FieldTooLong)
    else if |Joined(l.parts)| > maxFrameLen then Refused(FrameTooLarge)
    else if |Joined(l.parts)| >= 4294967296 then Refused(LengthOverflow)
    else Written(Sent(magic, l))
  }

  /** The bytes of a value, whatever the length of a text. */
  function Part(v: Value): Bytes {
    match v
    case VCode(c) => [CodeToWire(c)]
    case VObservation(o) => [ObservationToWire(o)]
    case VU64(n) => Number(n, 8)
    case VUuid(u) => Number(u, 16)
    case VText(t) => Text(t)
    case VRest(bytes) => bytes
  }

  function PartsOf(vs: seq<Value>): seq<Bytes> { seq(|vs|, i requires 0 <= i < |vs| => Part(vs[i])) }

  predicate TooLong(v: Value) { v.VText? && |v.text| > 65535 }

  lemma FieldWritten(v: Value)
    ensures EncodeField(v) == if TooLong(v) then None else Some(Part(v))
  {
    match v
    case VU64(n) => BeIsNumber(n, 8);
    case VUuid(u) => BeIsNumber(u, 16);
    case VText(t) => BeIsNumber(|t|, 2);
    case _ =>
  }

  lemma {:induction false} FieldsWritten(vs: seq<Value>)
    ensures EncodeFields(vs) == if exists v :: v in vs && TooLong(v) then None else Some(Joined(PartsOf(vs)))
  {
    if vs != [] {
      FieldWritten(vs[0]);
      FieldsWritten(vs[1..]);
      assert PartsOf(vs)[1..] == PartsOf(vs[1..]);
      assert forall v :: v in vs <==> v == vs[0] || v in vs[1..];
    }
  }

  lemma RawWritten(f: Format, r: Raw, texts: seq<Bytes>, l: Layout)
    requires l == Layout(r.kind, PartsOf(r.values))
    requires (exists v :: v in r.values && TooLong(v)) <==> exists t :: t in texts && |t| > 65535
    ensures EncodeRaw(f, r) == Expected([f.magic0, f.magic1], texts, l, f.maxFrameLen)
  {
    FieldsWritten(r.values);
    var payload := Joined(l.parts);
    BeIsNumber(|payload|, 4);
    assert [f.magic0, f.magic1] + [3, l.kind] == [f.magic0, f.magic1, VERSION, r.kind];
  }

  lemma TextsTooLong(vs: seq<Value>, texts: seq<Bytes>)
    requires forall v :: v in vs && v.VText? ==> v.text in texts
    requires forall t :: t in texts ==> VText(t) in vs
    ensures (exists v :: v in vs && TooLong(v)) <==> exists t :: t in texts && |t| > 65535
  {
    if exists t :: t in texts && |t| > 65535 {
      var t :| t in texts && |t| > 65535;
      assert VText(t) in vs && TooLong(VText(t));
    }
  }

  lemma PeerPartsOf(f: PeerFrames.PeerFrame)
    ensures PeerLayout(f) == Layout(PeerCodec.KindOf(f), PartsOf(PeerCodec.ValuesOf(f)))
  {
    assert PartsOf(PeerCodec.ValuesOf(f)) == PeerLayout(f).parts;
  }

  lemma PeerTextsOf(f: PeerFrames.PeerFrame)
    ensures forall v :: v in PeerCodec.ValuesOf(f) && v.VText? ==> v.text in PeerTexts(f)
    ensures forall t :: t in PeerTexts(f) ==> VText(t) in PeerCodec.ValuesOf(f)
  {
  }

  /** The Gateway-to-Gateway encoder writes exactly this, and refuses exactly what is too long. */
  lemma PeerEncodes(maxFrameLen: nat, utf8: Bytes -> bool, f: PeerFrames.PeerFrame)
    ensures PeerCodec.Encode(maxFrameLen, utf8, f) == Expected([71, 80], PeerTexts(f), PeerLayout(f), maxFrameLen)
  {
    PeerPartsOf(f);
    PeerTextsOf(f);
    TextsTooLong(PeerCodec.ValuesOf(f), PeerTexts(f));
    RawWritten(PeerCodec.PeerFormat(maxFrameLen, utf8), PeerCodec.ToRaw(f), PeerTexts(f), PeerLayout(f));
  }

  lemma SdkPartsOf(f: SdkCodec.Frame)
    ensures SdkLayout(f) == Layout(SdkCodec.KindOf(f), PartsOf(SdkCodec.ValuesOf(f)))
  {
    assert PartsOf(SdkCodec.ValuesOf(f)) == SdkLayout(f).parts;
  }

  lemma SdkTextsOf(f: SdkCodec.Frame)
    ensures forall v :: v in SdkCodec.ValuesOf(f) && v.VText? ==> v.text in SdkTexts(f)
    ensures forall t :: t in SdkTexts(f) ==> VText(t) in SdkCodec.ValuesOf(f)
  {
  }

  /** And so does the SDK-to-Gateway encoder. */
  lemma SdkEncodes(maxFrameLen: nat, utf8: Bytes -> bool, f: SdkCodec.Frame)
    ensures SdkCodec.Encode(maxFrameLen, utf8, f) == Expected([82, 71], SdkTexts(f), SdkLayout(f), maxFrameLen)
  {
    SdkPartsOf(f);
    SdkTextsOf(f);
    TextsTooLong(SdkCodec.ValuesOf(f), SdkTexts(f));
    RawWritten(SdkCodec.SdkFormat(maxFrameLen, utf8), SdkCodec.ToRaw(f), SdkTexts(f), SdkLayout(f));
  }
}

/** The Gateway-to-Gateway wire format. */
module PeerCodec {
  import opened Common
  import opened PeerFrames
  import opened BigEndian
  import opened Destinations
  import opened WireFields
  import opened WireFraming
  import opened WireStream

  const HANDSHAKE: seq<FieldKind> := [FText(NonEmpty), FUuid, FUuid, FUuid, FUuid]

  /** The fields of each frame kind, in wire order. */
  function PeerSchema(kind: byte): Option<seq<FieldKind>> {
    match kind
    case 1 => Some(HANDSHAKE)
    case 2 => Some(HANDSHAKE)
    case 3 => Some([FCode, FText(Plain)])
    case 4 => Some([FU64, FUuid, FUuid, FU64, FText(NamespaceText(InvalidField)), FText(NameText(InvalidField)),
                    FUuid, FUuid])
    case 5 => Some([FU64])
    case 6 => Some([FU64, FCode, FObservation, FText(Plain)])
    case 7 => Some([FU64, FRest])
    case 8 => Some([FU64])
    case 9 => Some([FU64])
    case 10 => Some([FU64, FCode, FText(Plain)])
    case 11 => Some([FU64])
    case 12 => Some([FU64])
    case _ => None
  }

  function PeerFormat(maxFrameLen: nat, utf8: Bytes -> bool): Format {
    Format(71, 80, PeerSchema, utf8, maxFrameLen)
  }

  lemma PeerFormatOk(maxFrameLen: nat, utf8: Bytes -> bool)
    ensures FormatOk(PeerFormat(maxFrameLen, utf8))
  {
    forall k | PeerSchema(k).Some? ensures RestLast(PeerSchema(k).value) { }
  }

  // ------------------------------------------------------- frames and fields

  function KindOf(f: PeerFrame): byte {
    match f
    case Hello(_) => 1
    case Welcome(_) => 2
    case HandshakeRejected(_, _) => 3
    case Open(_, _, _, _, _) => 4
    case Opened(_) => 5
    case Failed(_, _, _, _) => 6
    case Data(_, _) => 7
    case Fin(_) => 8
    case Close(_) => 9
    case Reset(_, _, _) => 10
    case Ping(_) => 11
    case Pong(_) => 12
  }

  function HandshakeValues(h: PeerHandshake): seq<Value> {
    [VText(h.gatewayName), VUuid(h.gatewayId), VUuid(h.expectedPeerGatewayId), VUuid(h.dialerGatewayId),
     VUuid(h.peerTransportId)]
  }

  function ValuesOf(f: PeerFrame): seq<Value> {
    match f
    case Hello(h) => HandshakeValues(h)
    case Welcome(h) => HandshakeValues(h)
    case HandshakeRejected(code, message) => [VCode(code), VText(message)]
    case Open(s, id, d, session, binding) =>
      [VU64(s), VUuid(id.entryGateway), VUuid(id.originSession), VU64(id.connectionId),
       VText(d.namespace), VText(d.name), VUuid(session), VUuid(binding)]
    case Opened(s) => [VU64(s)]
    case Failed(s, code, observation, message) => [VU64(s), VCode(code), VObservation(observation), VText(message)]
    case Data(s, payload) => [VU64(s), VRest(payload)]
    case Fin(s) => [VU64(s)]
    case Close(s) => [VU64(s)]
    case Reset(s, code, message) => [VU64(s), VCode(code), VText(message)]
    case Ping(nonce) => [VU64(nonce)]
    case Pong(nonce) => [VU64(nonce)]
  }

  function ToRaw(f: PeerFrame): Raw { Raw(KindOf(f), ValuesOf(f)) }

  function HandshakeFrom(vs: seq<Value>): PeerHandshake
    requires Shaped(HANDSHAKE, vs)
  {
    assert ShapedField(HANDSHAKE[0], vs[0]) && ShapedField(HANDSHAKE[1], vs[1]) && ShapedField(HANDSHAKE[2], vs[2])
        && ShapedField(HANDSHAKE[3], vs[3]) && ShapedField(HANDSHAKE[4], vs[4]);
    PeerHandshake(vs[0].text, vs[1].uuid, vs[2].uuid, vs[3].uuid, vs[4].uuid)
  }

  function FromRaw(r: Raw): PeerFrame
    requires PeerSchema(r.kind).Some? && Shaped(PeerSchema(r.kind).value, r.values)
  {
    var ks, vs := PeerSchema(r.kind).value, r.values;
    assert forall i :: 0 <= i < |ks| ==> ShapedField(ks[i], vs[i]);
    match r.kind
    case 1 => Hello(HandshakeFrom(vs))
    case 2 => Welcome(HandshakeFrom(vs))
    case 3 => HandshakeRejected(vs[0].code, vs[1].text)
    case 4 =>
      Open(vs[0].number, OpenIdentity(vs[1].uuid, vs[2].uuid, vs[3].number), Destination(vs[4].text, vs[5].text),
           vs[6].uuid, vs[7].uuid)
    case 5 => Opened(vs[0].number)
    case 6 => Failed(vs[0].number, vs[1].code, vs[2].observation, vs[3].text)
    case 7 => Data(vs[0].number, vs[1].bytes)
    case 8 => Fin(vs[0].number)
    case 9 => Close(vs[0].number)
    case 10 => Reset(vs[0].number, vs[1].code, vs[2].text)
    case 11 => Ping(vs[0].number)
    case _ => Pong(vs[0].number)
  }

  /** What the frame types guarantee: texts are UTF-8, names are not empty, Destinations are valid. */
  predicate Typed(utf8: Bytes -> bool, f: PeerFrame) {
    match f
    case Hello(h) => utf8(h.gatewayName) && h.gatewayName != []
    case Welcome(h) => utf8(h.gatewayName) && h.gatewayName != []
    case HandshakeRejected(_, message) => utf8(message)
    case Open(_, _, d, _, _) => utf8(d.namespace) && utf8(d.name) && ValidDestination(d)
    case Failed(_, _, _, message) => utf8(message)
    case Reset(_, _, message) => utf8(message)
    case _ => true
  }

  /** Taking a frame apart and putting it together again changes nothing. */
  lemma RawOfFrame(maxFrameLen: nat, utf8: Bytes -> bool, f: PeerFrame)
    requires Typed(utf8, f)
    ensures WellTyped(PeerFormat(maxFrameLen, utf8), ToRaw(f)) && Shaped(PeerSchema(KindOf(f)).value, ValuesOf(f))
    ensures FromRaw(ToRaw(f)) == f
  {
    if KindOf(f) <= 6 { RawOfEarly(maxFrameLen, utf8, f); } else { RawOfLate(maxFrameLen, utf8, f); }
  }

  lemma RawOfEarly(maxFrameLen: nat, utf8: Bytes -> bool, f: PeerFrame)
    requires Typed(utf8, f) && KindOf(f) <= 6
    ensures WellTyped(PeerFormat(maxFrameLen, utf8), ToRaw(f)) && Shaped(PeerSchema(KindOf(f)).value, ValuesOf(f))
    ensures FromRaw(ToRaw(f)) == f
  {
  }

  lemma RawOfLate(maxFrameLen: nat, utf8: Bytes -> bool, f: PeerFrame)
    requires Typed(utf8, f) && KindOf(f) > 6
    ensures WellTyped(PeerFormat(maxFrameLen, utf8), ToRaw(f)) && Shaped(PeerSchema(KindOf(f)).value, ValuesOf(f))
    ensures FromRaw(ToRaw(f)) == f
  {
  }

  lemma FrameOfRaw(maxFrameLen: nat, utf8: Bytes -> bool, r: Raw)
    requires WellTyped(PeerFormat(maxFrameLen, utf8), r)
    ensures Shaped(PeerSchema(r.kind).value, r.values)
    ensures Typed(utf8, FromRaw(r)) && ToRaw(FromRaw(r)) == r
  {
    var ks, vs := PeerSchema(r.kind).value, r.values;
    FitsIsShaped(utf8, ks, vs);
    assert forall i :: 0 <= i < |ks| ==> Fits(utf8, ks[i], vs[i]);
    assert ValuesOf(FromRaw(r)) == vs;
  }

  // --------------------------------------------------------- typed round trips

  function Encode(maxFrameLen: nat, utf8: Bytes -> bool, f: PeerFrame): Encoded {
    EncodeRaw(PeerFormat(maxFrameLen, utf8), ToRaw(f))
  }

  function Decode(maxFrameLen: nat, utf8: Bytes -> bool, b: Bytes): Incoming<PeerFrame> {
    var format := PeerFormat(maxFrameLen, utf8);
    match DecodeRaw(format, b)
    case NeedMore => Waiting
    case Bad(error, left) => Broken(error, left)
    case Got(raw, left) =>
      FrameCanonical(format, b);
      FrameOfRaw(maxFrameLen, utf8, raw);
      Arrived(FromRaw(raw), left)
  }

  /** Every encodable frame is read back exactly, whatever follows it; any strict prefix asks for more. */
  lemma PeerRoundTrip(maxFrameLen: nat, utf8: Bytes -> bool, f: PeerFrame, more: Bytes, n: nat)
    requires Typed(utf8, f) && Encode(maxFrameLen, utf8, f).Written?
    requires n < |Encode(maxFrameLen, utf8, f).bytes|
    ensures Decode(maxFrameLen, utf8, Encode(maxFrameLen, utf8, f).bytes + more) == Arrived(f, more)
    ensures Decode(maxFrameLen, utf8, Encode(maxFrameLen, utf8, f).bytes[..n]) == Waiting
  {
    var format := PeerFormat(maxFrameLen, utf8);
    PeerFormatOk(maxFrameLen, utf8);
    RawOfFrame(maxFrameLen, utf8, f);
    FrameRoundTrip(format, ToRaw(f), more);
    PrefixNeedsMore(format, ToRaw(f), n);
  }

  /** Whatever the decoder accepts is a well-typed frame that encodes to the very same bytes. */
  lemma PeerCanonical(maxFrameLen: nat, utf8: Bytes -> bool, b: Bytes)
    requires Decode(maxFrameLen, utf8, b).Arrived?
    ensures var d := Decode(maxFrameLen, utf8, b);
            && Typed(utf8, d.frame) && Encode(maxFrameLen, utf8, d.frame).Written?
            && b == Encode(maxFrameLen, utf8, d.frame).bytes + d.left
  {
    var format := PeerFormat(maxFrameLen, utf8);
    FrameCanonical(format, b);
    FrameOfRaw(maxFrameLen, utf8, DecodeRaw(format, b).raw);
  }

  // ---------------------------------------------------------------- streams

  lemma DecodesSteadily(maxFrameLen: nat, utf8: Bytes -> bool, d: Decoder<PeerFrame>)
    requires forall b :: d(b) == Decode(maxFrameLen, utf8, b)
    ensures Steady(d) && d([]).Waiting?
  {
    forall b, more | !d(b).Waiting? ensures d(b + more) == Extended(d(b), more) {
      LaterBytes(PeerFormat(maxFrameLen, utf8), b, more);
    }
  }

  ghost function DecoderFor(maxFrameLen: nat, utf8: Bytes -> bool): (d: Decoder<PeerFrame>)
    ensures Steady(d) && d([]).Waiting?
  {
    var d: Decoder<PeerFrame> := b => Decode(maxFrameLen, utf8, b);
    DecodesSteadily(maxFrameLen, utf8, d);
    d
  }

  ghost predicate Sendable(maxFrameLen: nat, utf8: Bytes -> bool, fs: seq<PeerFrame>) {
    forall i :: 0 <= i < |fs| ==> Typed(utf8, fs[i]) && Encode(maxFrameLen, utf8, fs[i]).Written?
  }

  ghost function Pieces(maxFrameLen: nat, utf8: Bytes -> bool, fs: seq<PeerFrame>): seq<Bytes>
    requires Sendable(maxFrameLen, utf8, fs)
  {
    seq(|fs|, i requires 0 <= i < |fs| => Encode(maxFrameLen, utf8, fs[i]).bytes)
  }

  /** The bytes a list of frames puts on the wire. */
  ghost function SentBytes(maxFrameLen: nat, utf8: Bytes -> bool, fs: seq<PeerFrame>): Bytes
    requires Sendable(maxFrameLen, utf8, fs)
  {
    Joined(Pieces(maxFrameLen, utf8, fs))
  }

  lemma EncodingReads(maxFrameLen: nat, utf8: Bytes -> bool, f: PeerFrame)
    requires Typed(utf8, f) && Encode(maxFrameLen, utf8, f).Written?
    ensures ReadsAs(DecoderFor(maxFrameLen, utf8), Encode(maxFrameLen, utf8, f).bytes, f)
  {
    var d, bytes := DecoderFor(maxFrameLen, utf8), Encode(maxFrameLen, utf8, f).bytes;
    forall more ensures d(bytes + more) == Arrived(f, more) { PeerRoundTrip(maxFrameLen, utf8, f, more, 0); }
  }

  /** The bytes of any list of frames are read back as exactly that list, with nothing left over. */
  lemma PeerStreamRoundTrip(maxFrameLen: nat, utf8: Bytes -> bool, fs: seq<PeerFrame>)
    requires Sendable(maxFrameLen, utf8, fs)
    ensures Gather(DecoderFor(maxFrameLen, utf8), SentBytes(maxFrameLen, utf8, fs)) == Received(fs, [], None)
  {
    var d, pieces := DecoderFor(maxFrameLen, utf8), Pieces(maxFrameLen, utf8, fs);
    forall i | 0 <= i < |fs| ensures ReadsAs(d, pieces[i], fs[i]) {
      assert Typed(utf8, fs[i]) && Encode(maxFrameLen, utf8, fs[i]).Written?;
      EncodingReads(maxFrameLen, utf8, fs[i]);
    }
    GatherJoined(d, fs, pieces);
  }

  // -------------------------------------------------------- announced lengths

  function StringWireLen(text: Bytes): Option<nat> {
    if |text| > MAX_STRING_LEN then None else Some(2 + |text|)
  }

  function Plus(n: nat, length: Option<nat>): Option<nat> {
    match length
    case None => None
    case Some(m) => Some(n + m)
  }

  /** `frame_metadata`: the payload length announced before anything is written. */
  function AnnouncedLength(f: PeerFrame): Option<nat> {
    match f
    case Hello(h) => Plus(64, StringWireLen(h.gatewayName))
    case Welcome(h) => Plus(64, StringWireLen(h.gatewayName))
    case HandshakeRejected(_, message) => Plus(1, StringWireLen(message))
    case Open(_, _, d, _, _) => Some(80 + |CanonicalKey(d)|)
    case Opened(_) => Some(8)
    case Failed(_, _, _, message) => Plus(10, StringWireLen(message))
    case Data(_, payload) => Some(8 + |payload|)
    case Fin(_) => Some(8)
    case Close(_) => Some(8)
    case Reset(_, _, message) => Plus(9, StringWireLen(message))
    case Ping(_) => Some(8)
    case Pong(_) => Some(8)
  }

  function LengthOf(payload: Option<Bytes>): Option<nat> {
    match payload
    case None => None
    case Some(bytes) => Some(|bytes|)
  }

  /** Where a frame's only text of unlimited length sits, if it has one. */
  function TextAt(f: PeerFrame): Option<nat> {
    match f
    case Hello(_) => Some(0)
    case Welcome(_) => Some(0)
    case HandshakeRejected(_, _) => Some(1)
    case Failed(_, _, _, _) => Some(3)
    case Reset(_, _, _) => Some(2)
    case _ => None
  }

  lemma OnlyTextFails(utf8: Bytes -> bool, f: PeerFrame, i: nat)
    requires Typed(utf8, f) && i < |ValuesOf(f)| && TextAt(f) != Some(i)
    ensures EncodeField(ValuesOf(f)[i]).Some?
  {
    if f.Open? { ValidLengths(f.destination); }
  }

  /** The announcement fails exactly when writing would. */
  lemma AnnouncedFails(utf8: Bytes -> bool, f: PeerFrame)
    requires Typed(utf8, f)
    ensures AnnouncedLength(f).None? <==> EncodeFields(ValuesOf(f)).None?
  {
    var vs := ValuesOf(f);
    FieldsLength(vs);
    forall i: nat | i < |vs| && TextAt(f) != Some(i) ensures EncodeField(vs[i]).Some? { OnlyTextFails(utf8, f, i); }
    if TextAt(f).Some? {
      assert AnnouncedLength(f).None? <==> EncodeField(vs[TextAt(f).value]).None?;
    }
  }

  lemma HandshakeTotal(h: PeerHandshake)
    ensures TotalLength(HandshakeValues(h)) == 66 + |h.gatewayName|
  {
    var vs := HandshakeValues(h);
    Total4(vs[1], vs[2], vs[3], vs[4]);
    TotalCons(vs[0], [vs[1], vs[2], vs[3], vs[4]]);
    assert [vs[0]] + [vs[1], vs[2], vs[3], vs[4]] == vs;
  }

  lemma OpenTotal(f: PeerFrame)
    requires f.Open?
    ensures TotalLength(ValuesOf(f)) == 84 + |f.destination.namespace| + |f.destination.name|
  {
    var vs := ValuesOf(f);
    Total4(vs[4], vs[5], vs[6], vs[7]);
    var tail := [vs[4], vs[5], vs[6], vs[7]];
    TotalCons(vs[3], tail);
    TotalCons(vs[2], [vs[3]] + tail);
    TotalCons(vs[1], [vs[2]] + ([vs[3]] + tail));
    TotalCons(vs[0], [vs[1]] + ([vs[2]] + ([vs[3]] + tail)));
    assert [vs[0]] + ([vs[1]] + ([vs[2]] + ([vs[3]] + tail))) == vs;
  }

  lemma TextTotal(f: PeerFrame)
    requires AnnouncedLength(f).Some? && (f.Failed? || f.Reset? || f.HandshakeRejected?)
    ensures AnnouncedLength(f).value == TotalLength(ValuesOf(f))
  {
    match f
    case Failed(s, code, observation, message) =>
      Total4(VU64(s), VCode(code), VObservation(observation), VText(message));
    case Reset(s, code, message) => Total4(VU64(s), VU64(s), VCode(code), VText(message));
    case HandshakeRejected(code, message) => Total2(VCode(code), VText(message));
  }

  lemma NumberTotal(n: U64)
    ensures TotalLength([VU64(n)]) == 8
  {
    Total2(VU64(n), VU64(n));
  }

  lemma AnnouncedTotal(f: PeerFrame)
    requires AnnouncedLength(f).Some?
    ensures AnnouncedLength(f).value == TotalLength(ValuesOf(f))
  {
    match f
    case Hello(h) => HandshakeTotal(h);
    case Welcome(h) => HandshakeTotal(h);
    case Open(_, _, _, _, _) => OpenTotal(f);
    case Failed(_, _, _, _) => TextTotal(f);
    case Reset(_, _, _) => TextTotal(f);
    case HandshakeRejected(_, _) => TextTotal(f);
    case Data(s, payload) => Total2(VU64(s), VRest(payload));
    case Opened(s) => NumberTotal(s);
    case Fin(s) => NumberTotal(s);
    case Close(s) => NumberTotal(s);
    case Ping(nonce) => NumberTotal(nonce);
    case Pong(nonce) => NumberTotal(nonce);
  }

  lemma WrittenTotal(vs: seq<Value>)
    requires EncodeFields(vs).Some?
    ensures |EncodeFields(vs).value| == TotalLength(vs)
  {
    FieldsLength(vs);
  }

  /** The announced length is the number of bytes written, and it is withheld exactly when writing would fail. */
  lemma AnnouncedIsWritten(utf8: Bytes -> bool, f: PeerFrame)
    requires Typed(utf8, f)
    ensures AnnouncedLength(f) == LengthOf(EncodeFields(ValuesOf(f)))
  {
    AnnouncedFails(utf8, f);
    if AnnouncedLength(f).Some? {
      AnnouncedTotal(f);
      WrittenTotal(ValuesOf(f));
    }
  }

  lemma ShortTexts(d: Destination)
    requires ValidDestination(d)
    ensures |d.namespace| % 0x1_0000 == |d.namespace| && |d.name| % 0x1_0000 == |d.name|
    ensures EncodeField(VText(d.namespace)) == Some(Be(|d.namespace|, 2) + d.namespace)
    ensures EncodeField(VText(d.name)) == Some(Be(|d.name|, 2) + d.name)
  {
    ValidLengths(d);
  }

  lemma Regroup(a: Bytes, b: Bytes, c: Bytes, d: Bytes)
    ensures (a + b) + (c + d) == a + b + c + d
  {
  }

  /** The Destination's field pair on the wire is its canonical key. */
  lemma CanonicalKeyOnWire(d: Destination)
    requires ValidDestination(d)
    ensures EncodeFields([VText(d.namespace), VText(d.name)]) == Some(CanonicalKey(d))
  {
    ShortTexts(d);
    TwoFields(VText(d.namespace), VText(d.name));
    Regroup(Be(|d.namespace|, 2), d.namespace, Be(|d.name|, 2), d.name);
  }

  /** The canonical key names its Destination: reading the two fields back gives exactly the parts. */
  lemma CanonicalKeyDecodes(utf8: Bytes -> bool, d: Destination)
    requires ValidDestination(d) && utf8(d.namespace) && utf8(d.name)
    ensures DecodeFields(utf8, [FText(NamespaceText(InvalidField)), FText(NameText(InvalidField))], CanonicalKey(d))
            == Took([VText(d.namespace), VText(d.name)], [])
  {
    CanonicalKeyOnWire(d);
    FieldsRoundTrip(utf8, [FText(NamespaceText(InvalidField)), FText(NameText(InvalidField))],
                    [VText(d.namespace), VText(d.name)]);
  }

  /** No two valid Destinations share a canonical key. */
  lemma CanonicalKeyInjective(d: Destination, e: Destination)
    requires ValidDestination(d) && ValidDestination(e) && CanonicalKey(d) == CanonicalKey(e)
    ensures d == e
  {
    CanonicalKeyDecodes(_ => true, d);
    CanonicalKeyDecodes(_ => true, e);
  }

  // -------------------------------------------------------------- the buffers

  /** Appends one frame; a frame that cannot be sent leaves the buffer as it was. */
  method EncodeInto(maxFrameLen: nat, utf8: Bytes -> bool, f: PeerFrame, output: ByteBuffer)
    returns (error: Option<WireError>)
    requires Typed(utf8, f)
    modifies output
    ensures match Encode(maxFrameLen, utf8, f)
            case Written(bytes) => error.None? && output.bytes == old(output.bytes) + bytes
            case Refused(e) => error == Some(e) && output.bytes == old(output.bytes)
  {
    AnnouncedIsWritten(utf8, f);
    var format := PeerFormat(maxFrameLen, utf8);
    var announced := AnnouncedLength(f);
    if announced.None? { return Some(FieldTooLong); }
    if LengthError(format, announced.value).Some? { return LengthError(format, announced.value); }
    output.Put([format.magic0, format.magic1]);
    output.Put([VERSION]);
    output.Put([KindOf(f)]);
    output.Put(Be(announced.value, 4));
    var payload := EncodeFields(ValuesOf(f));
    output.Put(payload.value);
    HeaderPieces(old(output.bytes), format, KindOf(f), announced.value, payload.value);
    return None;
  }

  /** Takes one frame off the front of the buffer; while more bytes are needed nothing is consumed. */
  method DecodeFrom(maxFrameLen: nat, utf8: Bytes -> bool, source: ByteBuffer) returns (r: Incoming<PeerFrame>)
    modifies source
    ensures r == Decode(maxFrameLen, utf8, old(source.bytes))
    ensures source.bytes == if r.Waiting? then old(source.bytes) else r.left
  {
    var format := PeerFormat(maxFrameLen, utf8);
    var b := source.bytes;
    if |b| < HEADER_LEN { return Waiting; }
    if b[0] != format.magic0 || b[1] != format.magic1 { return Broken(InvalidMagic, b); }
    if b[2] != VERSION { return Broken(UnsupportedVersion, b); }
    var kind, length := b[3], FromBe(b[4..8]);
    if LengthError(format, length).Some? { return Broken(LengthError(format, length).value, b); }
    if |b| < HEADER_LEN + length { return Waiting; }
    source.bytes := b[HEADER_LEN..];
    var payload := source.bytes[..length];
    source.bytes := source.bytes[length..];
    assert payload == b[HEADER_LEN..HEADER_LEN + length] && source.bytes == b[HEADER_LEN + length..];
    match DecodePayload(format, kind, payload) {
      case BadPayload(error) => return Broken(error, source.bytes);
      case Fields(values) =>
        PayloadCanonical(format, kind, payload);
        FrameOfRaw(maxFrameLen, utf8, Raw(kind, values));
        return Arrived(FromRaw(Raw(kind, values)), source.bytes);
    }
  }

  method TakeOne(maxFrameLen: nat, utf8: Bytes -> bool, source: ByteBuffer, ghost d: Decoder<PeerFrame>)
    returns (r: Incoming<PeerFrame>)
    requires SameAs(d, DecoderFor(maxFrameLen, utf8))
    modifies source
    ensures r == d(old(source.bytes)) && source.bytes == if r.Waiting? then old(source.bytes) else r.left
  {
    assert Asked(source.bytes);
    r := DecodeFrom(maxFrameLen, utf8, source);
  }

  /** Takes frames off the buffer until it needs more bytes or refuses them. */
  method ReadAll(maxFrameLen: nat, utf8: Bytes -> bool, source: ByteBuffer, ghost d: Decoder<PeerFrame>)
    returns (frames: seq<PeerFrame>, failed: Option<WireError>)
    requires SameAs(d, DecoderFor(maxFrameLen, utf8)) && Steady(d)
    modifies source
    ensures Received(frames, source.bytes, failed) == Gather(d, old(source.bytes))
  {
    frames := [];
    while true
      invariant Gather(d, old(source.bytes)) == Preceded(frames, Gather(d, source.bytes))
      decreases |source.bytes|
    {
      var r := TakeOne(maxFrameLen, utf8, source, d);
      match r {
        case Waiting => return frames, None;
        case Broken(error, _) => return frames, Some(error);
        case Arrived(f, left) =>
          PrecededTwice(frames, [f], Gather(d, left));
          frames := frames + [f];
      }
    }
  }

  /** Chunks come in, and after each one all whole frames are taken off. */
  method Collect(maxFrameLen: nat, utf8: Bytes -> bool, chunks: seq<Bytes>, ghost d: Decoder<PeerFrame>)
    returns (r: Received<PeerFrame>)
    requires SameAs(d, DecoderFor(maxFrameLen, utf8)) && Steady(d)
    ensures r == FeedAll(d, chunks)
  {
    var buffer := new ByteBuffer([]);
    var frames, failed := [], None;
    for i := 0 to |chunks|
      invariant fresh(buffer)
      invariant FeedAll(d, chunks[..i]) == Received(frames, buffer.bytes, failed)
    {
      assert chunks[..i + 1][..i] == chunks[..i];
      buffer.Put(chunks[i]);
      if failed.None? {
        var more;
        more, failed := ReadAll(maxFrameLen, utf8, buffer, d);
        frames := frames + more;
      }
    }
    assert chunks[..|chunks|] == chunks;
    r := Received(frames, buffer.bytes, failed);
  }

  /**
   The reader: however the bytes were cut, it gets what is in all of them together; from the bytes of a list of
   frames it gets exactly that list.
   */
  method Receive(maxFrameLen: nat, utf8: Bytes -> bool, chunks: seq<Bytes>) returns (r: Received<PeerFrame>)
    ensures r == Gather(DecoderFor(maxFrameLen, utf8), Concat(chunks))
    ensures forall fs :: Sendable(maxFrameLen, utf8, fs) && Concat(chunks) == SentBytes(maxFrameLen, utf8, fs) ==>
              r == Received(fs, [], None)
  {
    ghost var d := DecoderFor(maxFrameLen, utf8);
    r := Collect(maxFrameLen, utf8, chunks, d);
    ChunksDoNotMatter(d, chunks);
    forall fs | Sendable(maxFrameLen, utf8, fs) && Concat(chunks) == SentBytes(maxFrameLen, utf8, fs)
      ensures r == Received(fs, [], None)
    {
      PeerStreamRoundTrip(maxFrameLen, utf8, fs);
    }
  }
}

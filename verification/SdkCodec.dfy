/** The SDK-to-Gateway wire format. */
module SdkCodec {
  import opened Common
  import opened ErrorCodes
  import opened BigEndian
  import opened Destinations
  import opened WireFields
  import opened WireFraming
  import opened WireStream

  datatype PipeId = PipeId(originSession: Uuid, connectionId: U64)

  datatype Frame =
    | Hello
    | Welcome(sessionId: Uuid)
    | SessionRejected(code: ErrorCode, message: Bytes)
    | Publish(requestId: U64, destination: Destination, accessToken: Bytes)
    | Published(requestId: U64, bindingId: Uuid)
    | PublishFailed(requestId: U64, code: ErrorCode, message: Bytes)
    | Unpublish(requestId: U64, bindingId: Uuid)
    | Unpublished(requestId: U64)
    | Dial(connectionId: U64, destination: Destination, accessToken: Bytes)
    | Offer(pipeId: PipeId, bindingId: Uuid, destination: Destination)
    | OfferAccepted(pipeId: PipeId)
    | OfferRejected(pipeId: PipeId, code: ErrorCode, message: Bytes)
    | Opened(pipeId: PipeId)
    | DialFailed(connectionId: U64, code: ErrorCode, observation: PeerObservation, message: Bytes)
    | Data(pipeId: PipeId, payload: Bytes)
    | Fin(pipeId: PipeId)
    | Close(pipeId: PipeId)
    | Reset(pipeId: PipeId, code: ErrorCode, message: Bytes)
    | Ping(nonce: U64)
    | Pong(nonce: U64)
    | Cancel(pipeId: PipeId)

  const DATA_KIND: byte := 15

  /** The fields of each frame kind, in wire order; a PipeId is a session id and a number. */
  function SdkSchema(kind: byte): Option<seq<FieldKind>> {
    match kind
    case 1 => Some([])
    case 2 => Some([FUuid])
    case 3 => Some([FCode, FText(Plain)])
    case 4 => Some([FU64, FText(NamespaceText(BadDestination)), FText(NameText(BadDestination)), FText(TokenText)])
    case 5 => Some([FU64, FUuid])
    case 6 => Some([FU64, FCode, FText(Plain)])
    case 7 => Some([FU64, FUuid])
    case 8 => Some([FU64])
    case 9 => Some([FU64, FText(NamespaceText(BadDestination)), FText(NameText(BadDestination)), FText(TokenText)])
    case 10 => Some([FUuid, FU64, FUuid, FText(NamespaceText(BadDestination)), FText(NameText(BadDestination))])
    case 11 => Some([FUuid, FU64])
    case 12 => Some([FUuid, FU64, FCode, FText(Plain)])
    case 13 => Some([FUuid, FU64])
    case 14 => Some([FU64, FCode, FObservation, FText(Plain)])
    case 15 => Some([FUuid, FU64, FRest])
    case 16 => Some([FUuid, FU64])
    case 17 => Some([FUuid, FU64])
    case 18 => Some([FUuid, FU64, FCode, FText(Plain)])
    case 19 => Some([FU64])
    case 20 => Some([FU64])
    case 21 => Some([FUuid, FU64])
    case _ => None
  }

  function SdkFormat(maxFrameLen: nat, utf8: Bytes -> bool): Format {
    Format(82, 71, SdkSchema, utf8, maxFrameLen)
  }

  lemma SdkFormatOk(maxFrameLen: nat, utf8: Bytes -> bool)
    ensures FormatOk(SdkFormat(maxFrameLen, utf8))
  {
    forall k | SdkSchema(k).Some? ensures RestLast(SdkSchema(k).value) { }
  }

  // ------------------------------------------------------- frames and fields

  function KindOf(f: Frame): byte {
    match f
    case Hello => 1
    case Welcome(_) => 2
    case SessionRejected(_, _) => 3
    case Publish(_, _, _) => 4
    case Published(_, _) => 5
    case PublishFailed(_, _, _) => 6
    case Unpublish(_, _) => 7
    case Unpublished(_) => 8
    case Dial(_, _, _) => 9
    case Offer(_, _, _) => 10
    case OfferAccepted(_) => 11
    case OfferRejected(_, _, _) => 12
    case Opened(_) => 13
    case DialFailed(_, _, _, _) => 14
    case Data(_, _) => 15
    case Fin(_) => 16
    case Close(_) => 17
    case Reset(_, _, _) => 18
    case Ping(_) => 19
    case Pong(_) => 20
    case Cancel(_) => 21
  }

  function ValuesOf(f: Frame): seq<Value> {
    match f
    case Hello => []
    case Welcome(session) => [VUuid(session)]
    case SessionRejected(code, message) => [VCode(code), VText(message)]
    case Publish(id, d, token) => [VU64(id), VText(d.namespace), VText(d.name), VText(token)]
    case Published(id, binding) => [VU64(id), VUuid(binding)]
    case PublishFailed(id, code, message) => [VU64(id), VCode(code), VText(message)]
    case Unpublish(id, binding) => [VU64(id), VUuid(binding)]
    case Unpublished(id) => [VU64(id)]
    case Dial(id, d, token) => [VU64(id), VText(d.namespace), VText(d.name), VText(token)]
    case Offer(p, binding, d) =>
      [VUuid(p.originSession), VU64(p.connectionId), VUuid(binding), VText(d.namespace), VText(d.name)]
    case OfferAccepted(p) => [VUuid(p.originSession), VU64(p.connectionId)]
    case OfferRejected(p, code, message) => [VUuid(p.originSession), VU64(p.connectionId), VCode(code), VText(message)]
    case Opened(p) => [VUuid(p.originSession), VU64(p.connectionId)]
    case DialFailed(id, code, observation, message) =>
        [VU64(id), VCode(code), VObservation(observation), VText(message)]
    case Data(p, payload) => [VUuid(p.originSession), VU64(p.connectionId), VRest(payload)]
    case Fin(p) => [VUuid(p.originSession), VU64(p.connectionId)]
    case Close(p) => [VUuid(p.originSession), VU64(p.connectionId)]
    case Reset(p, code, message) => [VUuid(p.originSession), VU64(p.connectionId), VCode(code), VText(message)]
    case Ping(nonce) => [VU64(nonce)]
    case Pong(nonce) => [VU64(nonce)]
    case Cancel(p) => [VUuid(p.originSession), VU64(p.connectionId)]
  }

  function ToRaw(f: Frame): Raw { Raw(KindOf(f), ValuesOf(f)) }

  /** Frames of the session and its registrations. */
  function ControlFrom(r: Raw): Frame
    requires 1 <= r.kind <= 10 && Shaped(SdkSchema(r.kind).value, r.values)
  {
    var ks, vs := SdkSchema(r.kind).value, r.values;
    assert forall i :: 0 <= i < |ks| ==> ShapedField(ks[i], vs[i]);
    match r.kind
    case 1 => Hello
    case 2 => Welcome(vs[0].uuid)
    case 3 => SessionRejected(vs[0].code, vs[1].text)
    case 4 => Publish(vs[0].number, Destination(vs[1].text, vs[2].text), vs[3].text)
    case 5 => Published(vs[0].number, vs[1].uuid)
    case 6 => PublishFailed(vs[0].number, vs[1].code, vs[2].text)
    case 7 => Unpublish(vs[0].number, vs[1].uuid)
    case 8 => Unpublished(vs[0].number)
    case 9 => Dial(vs[0].number, Destination(vs[1].text, vs[2].text), vs[3].text)
    case _ => Offer(PipeId(vs[0].uuid, vs[1].number), vs[2].uuid, Destination(vs[3].text, vs[4].text))
  }

  /** Frames of one Pipe, and the liveness probes. */
  function PipeFrom(r: Raw): Frame
    requires 11 <= r.kind <= 21 && Shaped(SdkSchema(r.kind).value, r.values)
  {
    var ks, vs := SdkSchema(r.kind).value, r.values;
    assert forall i :: 0 <= i < |ks| ==> ShapedField(ks[i], vs[i]);
    match r.kind
    case 11 => OfferAccepted(PipeId(vs[0].uuid, vs[1].number))
    case 12 => OfferRejected(PipeId(vs[0].uuid, vs[1].number), vs[2].code, vs[3].text)
    case 13 => Opened(PipeId(vs[0].uuid, vs[1].number))
    case 14 => DialFailed(vs[0].number, vs[1].code, vs[2].observation, vs[3].text)
    case 15 => Data(PipeId(vs[0].uuid, vs[1].number), vs[2].bytes)
    case 16 => Fin(PipeId(vs[0].uuid, vs[1].number))
    case 17 => Close(PipeId(vs[0].uuid, vs[1].number))
    case 18 => Reset(PipeId(vs[0].uuid, vs[1].number), vs[2].code, vs[3].text)
    case 19 => Ping(vs[0].number)
    case 20 => Pong(vs[0].number)
    case _ => Cancel(PipeId(vs[0].uuid, vs[1].number))
  }

  function FromRaw(r: Raw): Frame
    requires SdkSchema(r.kind).Some? && Shaped(SdkSchema(r.kind).value, r.values)
  {
    if r.kind <= 10 then ControlFrom(r) else PipeFrom(r)
  }

  predicate TextsOk(utf8: Bytes -> bool, d: Destination) {
    utf8(d.namespace) && utf8(d.name) && ValidDestination(d)
  }

  predicate TokenOk(utf8: Bytes -> bool, token: Bytes) { utf8(token) && |token| <= MAX_BEARER_TOKEN_BYTES }

  /** What the frame types guarantee. */
  predicate Typed(utf8: Bytes -> bool, f: Frame) {
    match f
    case SessionRejected(_, message) => utf8(message)
    case Publish(_, d, token) => TextsOk(utf8, d) && TokenOk(utf8, token)
    case PublishFailed(_, _, message) => utf8(message)
    case Dial(_, d, token) => TextsOk(utf8, d) && TokenOk(utf8, token)
    case Offer(_, _, d) => TextsOk(utf8, d)
    case OfferRejected(_, _, message) => utf8(message)
    case DialFailed(_, _, _, message) => utf8(message)
    case Reset(_, _, message) => utf8(message)
    case _ => true
  }

  lemma RawOfSession(maxFrameLen: nat, utf8: Bytes -> bool, f: Frame)
    requires Typed(utf8, f) && KindOf(f) <= 5
    ensures WellTyped(SdkFormat(maxFrameLen, utf8), ToRaw(f)) && Shaped(SdkSchema(KindOf(f)).value, ValuesOf(f))
    ensures ControlFrom(ToRaw(f)) == f
  {
  }

  lemma RawOfRequest(maxFrameLen: nat, utf8: Bytes -> bool, f: Frame)
    requires Typed(utf8, f) && 5 < KindOf(f) <= 10
    ensures WellTyped(SdkFormat(maxFrameLen, utf8), ToRaw(f)) && Shaped(SdkSchema(KindOf(f)).value, ValuesOf(f))
    ensures ControlFrom(ToRaw(f)) == f
  {
  }

  lemma RawOfOffer(maxFrameLen: nat, utf8: Bytes -> bool, f: Frame)
    requires Typed(utf8, f) && 10 < KindOf(f) <= 15
    ensures WellTyped(SdkFormat(maxFrameLen, utf8), ToRaw(f)) && Shaped(SdkSchema(KindOf(f)).value, ValuesOf(f))
    ensures PipeFrom(ToRaw(f)) == f
  {
  }

  lemma RawOfPipe(maxFrameLen: nat, utf8: Bytes -> bool, f: Frame)
    requires Typed(utf8, f) && KindOf(f) > 15
    ensures WellTyped(SdkFormat(maxFrameLen, utf8), ToRaw(f)) && Shaped(SdkSchema(KindOf(f)).value, ValuesOf(f))
    ensures PipeFrom(ToRaw(f)) == f
  {
  }

  lemma RawOfFrame(maxFrameLen: nat, utf8: Bytes -> bool, f: Frame)
    requires Typed(utf8, f)
    ensures WellTyped(SdkFormat(maxFrameLen, utf8), ToRaw(f)) && Shaped(SdkSchema(KindOf(f)).value, ValuesOf(f))
    ensures FromRaw(ToRaw(f)) == f
  {
    if KindOf(f) <= 5 { RawOfSession(maxFrameLen, utf8, f); }
    else if KindOf(f) <= 10 { RawOfRequest(maxFrameLen, utf8, f); }
    else if KindOf(f) <= 15 { RawOfOffer(maxFrameLen, utf8, f); }
    else { RawOfPipe(maxFrameLen, utf8, f); }
  }

  lemma ControlOfRaw(maxFrameLen: nat, utf8: Bytes -> bool, r: Raw)
    requires WellTyped(SdkFormat(maxFrameLen, utf8), r) && r.kind <= 10
    ensures Shaped(SdkSchema(r.kind).value, r.values)
    ensures Typed(utf8, ControlFrom(r)) && ToRaw(ControlFrom(r)) == r
  {
    var ks, vs := SdkSchema(r.kind).value, r.values;
    FitsIsShaped(utf8, ks, vs);
    assert forall i :: 0 <= i < |ks| ==> Fits(utf8, ks[i], vs[i]);
    assert ValuesOf(ControlFrom(r)) == vs;
  }

  lemma PipeOfRaw(maxFrameLen: nat, utf8: Bytes -> bool, r: Raw)
    requires WellTyped(SdkFormat(maxFrameLen, utf8), r) && r.kind > 10
    ensures Shaped(SdkSchema(r.kind).value, r.values)
    ensures Typed(utf8, PipeFrom(r)) && ToRaw(PipeFrom(r)) == r
  {
    var ks, vs := SdkSchema(r.kind).value, r.values;
    FitsIsShaped(utf8, ks, vs);
    assert forall i :: 0 <= i < |ks| ==> Fits(utf8, ks[i], vs[i]);
    assert ValuesOf(PipeFrom(r)) == vs;
  }

  lemma FrameOfRaw(maxFrameLen: nat, utf8: Bytes -> bool, r: Raw)
    requires WellTyped(SdkFormat(maxFrameLen, utf8), r)
    ensures Shaped(SdkSchema(r.kind).value, r.values)
    ensures Typed(utf8, FromRaw(r)) && ToRaw(FromRaw(r)) == r
  {
    if r.kind <= 10 { ControlOfRaw(maxFrameLen, utf8, r); } else { PipeOfRaw(maxFrameLen, utf8, r); }
  }

  // --------------------------------------------------------- typed round trips

  function Encode(maxFrameLen: nat, utf8: Bytes -> bool, f: Frame): Encoded {
    EncodeRaw(SdkFormat(maxFrameLen, utf8), ToRaw(f))
  }

  function Decode(maxFrameLen: nat, utf8: Bytes -> bool, b: Bytes): Incoming<Frame> {
    var format := SdkFormat(maxFrameLen, utf8);
    match DecodeRaw(format, b)
    case NeedMore => Waiting
    case Bad(error, left) => Broken(error, left)
    case Got(raw, left) =>
      FrameCanonical(format, b);
      FrameOfRaw(maxFrameLen, utf8, raw);
      Arrived(FromRaw(raw), left)
  }

  /** Every encodable frame is read back exactly, whatever follows it; any strict prefix asks for more. */
  lemma SdkRoundTrip(maxFrameLen: nat, utf8: Bytes -> bool, f: Frame, more: Bytes, n: nat)
    requires Typed(utf8, f) && Encode(maxFrameLen, utf8, f).Written?
    requires n < |Encode(maxFrameLen, utf8, f).bytes|
    ensures Decode(maxFrameLen, utf8, Encode(maxFrameLen, utf8, f).bytes + more) == Arrived(f, more)
    ensures Decode(maxFrameLen, utf8, Encode(maxFrameLen, utf8, f).bytes[..n]) == Waiting
  {
    var format := SdkFormat(maxFrameLen, utf8);
    SdkFormatOk(maxFrameLen, utf8);
    RawOfFrame(maxFrameLen, utf8, f);
    FrameRoundTrip(format, ToRaw(f), more);
    PrefixNeedsMore(format, ToRaw(f), n);
  }

  /** Whatever the decoder accepts is a well-typed frame that encodes to the very same bytes. */
  lemma SdkCanonical(maxFrameLen: nat, utf8: Bytes -> bool, b: Bytes)
    requires Decode(maxFrameLen, utf8, b).Arrived?
    ensures var d := Decode(maxFrameLen, utf8, b);
            && Typed(utf8, d.frame) && Encode(maxFrameLen, utf8, d.frame).Written?
            && b == Encode(maxFrameLen, utf8, d.frame).bytes + d.left
  {
    var format := SdkFormat(maxFrameLen, utf8);
    FrameCanonical(format, b);
    FrameOfRaw(maxFrameLen, utf8, DecodeRaw(format, b).raw);
  }

  // ---------------------------------------------------------------- streams

  lemma DecodesSteadily(maxFrameLen: nat, utf8: Bytes -> bool, d: Decoder<Frame>)
    requires forall b :: d(b) == Decode(maxFrameLen, utf8, b)
    ensures Steady(d) && d([]).Waiting?
  {
    forall b, more | !d(b).Waiting? ensures d(b + more) == Extended(d(b), more) {
      LaterBytes(SdkFormat(maxFrameLen, utf8), b, more);
    }
  }

  ghost function DecoderFor(maxFrameLen: nat, utf8: Bytes -> bool): (d: Decoder<Frame>)
    ensures Steady(d) && d([]).Waiting?
  {
    var d: Decoder<Frame> := b => Decode(maxFrameLen, utf8, b);
    DecodesSteadily(maxFrameLen, utf8, d);
    d
  }

  ghost predicate Sendable(maxFrameLen: nat, utf8: Bytes -> bool, fs: seq<Frame>) {
    forall i :: 0 <= i < |fs| ==> Typed(utf8, fs[i]) && Encode(maxFrameLen, utf8, fs[i]).Written?
  }

  ghost function Pieces(maxFrameLen: nat, utf8: Bytes -> bool, fs: seq<Frame>): seq<Bytes>
    requires Sendable(maxFrameLen, utf8, fs)
  {
    seq(|fs|, i requires 0 <= i < |fs| => Encode(maxFrameLen, utf8, fs[i]).bytes)
  }

  /** The bytes a list of frames puts on the wire. */
  ghost function SentBytes(maxFrameLen: nat, utf8: Bytes -> bool, fs: seq<Frame>): Bytes
    requires Sendable(maxFrameLen, utf8, fs)
  {
    Joined(Pieces(maxFrameLen, utf8, fs))
  }

  lemma EncodingReads(maxFrameLen: nat, utf8: Bytes -> bool, f: Frame)
    requires Typed(utf8, f) && Encode(maxFrameLen, utf8, f).Written?
    ensures ReadsAs(DecoderFor(maxFrameLen, utf8), Encode(maxFrameLen, utf8, f).bytes, f)
  {
    var d, bytes := DecoderFor(maxFrameLen, utf8), Encode(maxFrameLen, utf8, f).bytes;
    forall more ensures d(bytes + more) == Arrived(f, more) { SdkRoundTrip(maxFrameLen, utf8, f, more, 0); }
  }

  /** The bytes of any list of frames are read back as exactly that list, with nothing left over. */
  lemma SdkStreamRoundTrip(maxFrameLen: nat, utf8: Bytes -> bool, fs: seq<Frame>)
    requires Sendable(maxFrameLen, utf8, fs)
    ensures Gather(DecoderFor(maxFrameLen, utf8), SentBytes(maxFrameLen, utf8, fs)) == Received(fs, [], None)
  {
    var d, pieces := DecoderFor(maxFrameLen, utf8), Pieces(maxFrameLen, utf8, fs);
    forall i | 0 <= i < |fs| ensures ReadsAs(d, pieces[i], fs[i]) {
      assert Typed(utf8, fs[i]) && Encode(maxFrameLen, utf8, fs[i]).Written?;
      EncodingReads(maxFrameLen, utf8, fs[i]);
    }
    GatherJoined(d, fs, pieces);
  }

  // -------------------------------------------------------------- the buffers

  const PIPE_ID_WIRE_LEN: nat := 24

  lemma DataFields(p: PipeId, payload: Bytes)
    ensures EncodeFields(ValuesOf(Data(p, payload)))
            == Some(Be(p.originSession, 16) + Be(p.connectionId, 8) + payload)
  {
    var session, number, rest := VUuid(p.originSession), VU64(p.connectionId), VRest(payload);
    assert [session, number, rest][1..] == [number, rest];
    TwoFields(number, rest);
    assert Be(p.originSession, 16) + (Be(p.connectionId, 8) + payload)
        == Be(p.originSession, 16) + Be(p.connectionId, 8) + payload;
  }

  /** Appends one frame; DATA goes straight to the output, with the same result as the general way. */
  method EncodeInto(maxFrameLen: nat, utf8: Bytes -> bool, f: Frame, output: ByteBuffer)
    returns (error: Option<WireError>)
    modifies output
    ensures match Encode(maxFrameLen, utf8, f)
            case Written(bytes) => error.None? && output.bytes == old(output.bytes) + bytes
            case Refused(e) => error == Some(e) && output.bytes == old(output.bytes)
  {
    var format := SdkFormat(maxFrameLen, utf8);
    if f.Data? {
      DataFields(f.pipeId, f.payload);
      var length := PIPE_ID_WIRE_LEN + |f.payload|;
      if LengthError(format, length).Some? { return LengthError(format, length); }
      output.Put([format.magic0, format.magic1]);
      output.Put([VERSION]);
      output.Put([DATA_KIND]);
      output.Put(Be(length, 4));
      output.Put(Be(f.pipeId.originSession, 16) + Be(f.pipeId.connectionId, 8) + f.payload);
      HeaderPieces(old(output.bytes), format, DATA_KIND, length,
                   Be(f.pipeId.originSession, 16) + Be(f.pipeId.connectionId, 8) + f.payload);
      return None;
    }
    var payload := EncodeFields(ValuesOf(f));
    if payload.None? { return Some(FieldTooLong); }
    var length := |payload.value|;
    if LengthError(format, length).Some? { return LengthError(format, length); }
    output.Put([format.magic0, format.magic1]);
    output.Put([VERSION]);
    output.Put([KindOf(f)]);
    output.Put(Be(length, 4));
    output.Put(payload.value);
    HeaderPieces(old(output.bytes), format, KindOf(f), length, payload.value);
    return None;
  }

  /** Takes one frame off the front of the buffer; while more bytes are needed nothing is consumed. */
  method DecodeFrom(maxFrameLen: nat, utf8: Bytes -> bool, source: ByteBuffer) returns (r: Incoming<Frame>)
    modifies source
    ensures r == Decode(maxFrameLen, utf8, old(source.bytes))
    ensures source.bytes == if r.Waiting? then old(source.bytes) else r.left
  {
    var format := SdkFormat(maxFrameLen, utf8);
    var b := source.bytes;
    if |b| < HEADER_LEN { return Waiting; }
    if b[0] != format.magic0 || b[1] != format.magic1 { return Broken(InvalidMagic, b); }
    if b[2] != VERSION { return Broken(UnsupportedVersion, b); }
    var kind, length := b[3], FromBe(b[4..8]);
    HeaderLengthFits(b);
    if length > maxFrameLen { return Broken(FrameTooLarge, b); }
    if |b| < HEADER_LEN + length { return Waiting; }
    source.bytes := b[HEADER_LEN..];
    var payload := source.bytes[..length];
    source.bytes := source.bytes[length..];
    assert payload == b[HEADER_LEN..HEADER_LEN + length] && source.bytes == b[HEADER_LEN + length..];
    match DecodePayload(format, kind, payload) {
      case BadPayload(error) => return Broken(error, source.bytes);
      case Fields(values) =>
        PayloadCanonical(format, kind, payload);
        FrameOfRaw(maxFrameLen, utf8, Raw(kind, values));
        return Arrived(FromRaw(Raw(kind, values)), source.bytes);
    }
  }

  /** Four bytes cannot announce more than 32 bits. */
  lemma HeaderLengthFits(b: Bytes)
    requires |b| >= HEADER_LEN
    ensures FromBe(b[4..8]) < U32_LIMIT
  {
    Widths();
    FromBeBounded(b[4..8]);
  }

  method TakeOne(maxFrameLen: nat, utf8: Bytes -> bool, source: ByteBuffer, ghost d: Decoder<Frame>)
    returns (r: Incoming<Frame>)
    requires SameAs(d, DecoderFor(maxFrameLen, utf8))
    modifies source
    ensures r == d(old(source.bytes)) && source.bytes == if r.Waiting? then old(source.bytes) else r.left
  {
    assert Asked(source.bytes);
    r := DecodeFrom(maxFrameLen, utf8, source);
  }

  /** Takes frames off the buffer until it needs more bytes or refuses them. */
  method ReadAll(maxFrameLen: nat, utf8: Bytes -> bool, source: ByteBuffer, ghost d: Decoder<Frame>)
    returns (frames: seq<Frame>, failed: Option<WireError>)
    requires SameAs(d, DecoderFor(maxFrameLen, utf8)) && Steady(d)
    modifies source
    ensures Received(frames, source.bytes, failed) == Gather(d, old(source.bytes))
  {
    frames := [];
    while true
      invariant Gather(d, old(source.bytes)) == Preceded(frames, Gather(d, source.bytes))
      decreases |source.bytes|
    {
      var r := TakeOne(maxFrameLen, utf8, source, d);
      match r {
        case Waiting => return frames, None;
        case Broken(error, _) => return frames, Some(error);
        case Arrived(f, left) =>
          PrecededTwice(frames, [f], Gather(d, left));
          frames := frames + [f];
      }
    }
  }

  /** Chunks come in, and after each one all whole frames are taken off. */
  method Collect(maxFrameLen: nat, utf8: Bytes -> bool, chunks: seq<Bytes>, ghost d: Decoder<Frame>)
    returns (r: Received<Frame>)
    requires SameAs(d, DecoderFor(maxFrameLen, utf8)) && Steady(d)
    ensures r == FeedAll(d, chunks)
  {
    var buffer := new ByteBuffer([]);
    var frames, failed := [], None;
    for i := 0 to |chunks|
      invariant fresh(buffer)
      invariant FeedAll(d, chunks[..i]) == Received(frames, buffer.bytes, failed)
    {
      assert chunks[..i + 1][..i] == chunks[..i];
      buffer.Put(chunks[i]);
      if failed.None? {
        var more;
        more, failed := ReadAll(maxFrameLen, utf8, buffer, d);
        frames := frames + more;
      }
    }
    assert chunks[..|chunks|] == chunks;
    r := Received(frames, buffer.bytes, failed);
  }

  /**
   The reader: however the bytes were cut, it gets what is in all of them together; from the bytes of a list of
   frames it gets exactly that list.
   */
  method Receive(maxFrameLen: nat, utf8: Bytes -> bool, chunks: seq<Bytes>) returns (r: Received<Frame>)
    ensures r == Gather(DecoderFor(maxFrameLen, utf8), Concat(chunks))
    ensures forall fs :: Sendable(maxFrameLen, utf8, fs) && Concat(chunks) == SentBytes(maxFrameLen, utf8, fs) ==>
              r == Received(fs, [], None)
  {
    ghost var d := DecoderFor(maxFrameLen, utf8);
    r := Collect(maxFrameLen, utf8, chunks, d);
    ChunksDoNotMatter(d, chunks);
    forall fs | Sendable(maxFrameLen, utf8, fs) && Concat(chunks) == SentBytes(maxFrameLen, utf8, fs)
      ensures r == Received(fs, [], None)
    {
      SdkStreamRoundTrip(maxFrameLen, utf8, fs);
    }
  }
}

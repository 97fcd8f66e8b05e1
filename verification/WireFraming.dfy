/**
 Length-prefixed framing: an eight-byte header (magic, version, kind, 32-bit
 payload length) followed by the fields of that kind.
 */
module WireFraming {
  import opened Common
  import opened BigEndian
  import opened WireFields

  const VERSION: byte := 3
  const HEADER_LEN: nat := 8
  const U32_LIMIT: nat := 0x1_0000_0000

  /** A wire format: its magic, the fields of each frame kind, the UTF-8 check and the payload limit. */
  datatype Format = Format(magic0: byte, magic1: byte, schema: byte -> Option<seq<FieldKind>>,
                           utf8: Bytes -> bool, maxFrameLen: nat)

  datatype Raw = Raw(kind: byte, values: seq<Value>)

  ghost predicate FormatOk(f: Format) { forall k :: f.schema(k).Some? ==> RestLast(f.schema(k).value) }

  ghost predicate WellTyped(f: Format, r: Raw) {
    f.schema(r.kind).Some? && AllFit(f.utf8, f.schema(r.kind).value, r.values)
  }

  /** The values have the shapes the schema asks for; a compiled counterpart of `AllFit`. */
  predicate Shaped(ks: seq<FieldKind>, vs: seq<Value>) {
    |ks| == |vs| && forall i :: 0 <= i < |ks| ==> ShapedField(ks[i], vs[i])
  }

  predicate ShapedField(k: FieldKind, v: Value) {
    match k
    case FCode => v.VCode?
    case FObservation => v.VObservation?
    case FU64 => v.VU64?
    case FUuid => v.VUuid?
    case FText(_) => v.VText?
    case FRest => v.VRest?
  }

  lemma FitsIsShaped(utf8: Bytes -> bool, ks: seq<FieldKind>, vs: seq<Value>)
    requires AllFit(utf8, ks, vs)
    ensures Shaped(ks, vs)
  {
  }

  datatype Encoded = Written(bytes: Bytes) | Refused(error: WireError)

  function Header(f: Format, kind: byte, length: nat): (h: Bytes)
    ensures |h| == HEADER_LEN
  {
    [f.magic0, f.magic1, VERSION, kind] + Be(length, 4)
  }

  lemma HeaderPieces(before: Bytes, f: Format, kind: byte, length: nat, payload: Bytes)
    ensures before + [f.magic0, f.magic1] + [VERSION] + [kind] + Be(length, 4) + payload
            == before + (Header(f, kind, length) + payload)
  {
    var header := Header(f, kind, length);
    assert header == [f.magic0, f.magic1] + [VERSION] + [kind] + Be(length, 4);
    assert before + [f.magic0, f.magic1] + [VERSION] + [kind] + Be(length, 4) == before + header;
  }

  function LengthError(f: Format, length: nat): Option<WireError> {
    if length > f.maxFrameLen then Some(FrameTooLarge)
    else if length >= U32_LIMIT then Some(LengthOverflow)
    else None
  }

  function EncodeRaw(f: Format, r: Raw): Encoded {
    match EncodeFields(r.values)
    case None => Refused(FieldTooLong)
    case Some(payload) =>
      match LengthError(f, |payload|)
      case Some(error) => Refused(error)
      case None => Written(Header(f, r.kind, |payload|) + payload)
  }

  datatype Payload = Fields(values: seq<Value>) | BadPayload(error: WireError)

  function DecodePayload(f: Format, kind: byte, payload: Bytes): Payload {
    match f.schema(kind)
    case None => BadPayload(UnknownFrameKind)
    case Some(ks) =>
      match DecodeFields(f.utf8, ks, payload)
      case Fault(error) => BadPayload(error)
      case Took(values, rest) => if rest == [] then Fields(values) else BadPayload(TrailingBytes)
  }

  /** `left` is what stays in the source buffer. */
  datatype Decoded = NeedMore | Bad(error: WireError, left: Bytes) | Got(raw: Raw, left: Bytes)

  function DecodeRaw(f: Format, b: Bytes): Decoded {
    if |b| < HEADER_LEN then NeedMore
    else if b[0] != f.magic0 || b[1] != f.magic1 then Bad(InvalidMagic, b)
    else if b[2] != VERSION then Bad(UnsupportedVersion, b)
    else
      var length := FromBe(b[4..8]);
      if LengthError(f, length).Some? then Bad(LengthError(f, length).value, b)
      else if |b| < HEADER_LEN + length then NeedMore
      else
        var left := b[HEADER_LEN + length..];
        match DecodePayload(f, b[3], b[HEADER_LEN..HEADER_LEN + length])
        case Fields(values) => Got(Raw(b[3], values), left)
        case BadPayload(error) => Bad(error, left)
  }

  // ------------------------------------------------------------- one frame

  lemma HeaderReads(f: Format, kind: byte, length: nat, more: Bytes)
    requires length < U32_LIMIT
    ensures var b := Header(f, kind, length) + more;
            && b[0] == f.magic0 && b[1] == f.magic1 && b[2] == VERSION && b[3] == kind
            && FromBe(b[4..8]) == length && b[HEADER_LEN..] == more
  {
    Widths();
    BeRoundTrip(length, 4);
    assert (Header(f, kind, length) + more)[4..8] == Be(length, 4);
  }

  /** A written frame is read back, whatever follows it in the buffer. */
  lemma FrameRoundTrip(f: Format, r: Raw, more: Bytes)
    requires FormatOk(f) && WellTyped(f, r) && EncodeRaw(f, r).Written?
    ensures DecodeRaw(f, EncodeRaw(f, r).bytes + more) == Got(r, more)
  {
    var payload := EncodeFields(r.values).value;
    HeaderReads(f, r.kind, |payload|, payload + more);
    FramePieces(Header(f, r.kind, |payload|), payload, more);
    PayloadReads(f, r, payload);
  }

  lemma FramePieces(header: Bytes, payload: Bytes, more: Bytes)
    requires |header| == HEADER_LEN
    ensures header + payload + more == header + (payload + more)
    ensures var b := header + (payload + more);
            b[HEADER_LEN..HEADER_LEN + |payload|] == payload && b[HEADER_LEN + |payload|..] == more
  {
  }

  lemma PayloadReads(f: Format, r: Raw, payload: Bytes)
    requires FormatOk(f) && WellTyped(f, r) && EncodeFields(r.values) == Some(payload)
    ensures DecodePayload(f, r.kind, payload) == Fields(r.values)
  {
    FieldsRoundTrip(f.utf8, f.schema(r.kind).value, r.values);
  }

  /** A strict prefix of a written frame is never taken for anything: more bytes are needed. */
  lemma PrefixNeedsMore(f: Format, r: Raw, n: nat)
    requires EncodeRaw(f, r).Written? && n < |EncodeRaw(f, r).bytes|
    ensures DecodeRaw(f, EncodeRaw(f, r).bytes[..n]) == NeedMore
  {
    var payload := EncodeFields(r.values).value;
    if n >= HEADER_LEN {
      HeaderReads(f, r.kind, |payload|, payload[..n - HEADER_LEN]);
      assert EncodeRaw(f, r).bytes[..n] == Header(f, r.kind, |payload|) + payload[..n - HEADER_LEN];
    }
  }

  lemma HeaderCanonical(f: Format, b: Bytes)
    requires |b| >= HEADER_LEN && b[0] == f.magic0 && b[1] == f.magic1 && b[2] == VERSION
    ensures Header(f, b[3], FromBe(b[4..8])) == b[..HEADER_LEN]
  {
    FromBeCanonical(b[4..8]);
    assert b[..HEADER_LEN] == [b[0], b[1], b[2], b[3]] + b[4..8];
  }

  lemma PayloadCanonical(f: Format, kind: byte, payload: Bytes)
    requires DecodePayload(f, kind, payload).Fields?
    ensures var values := DecodePayload(f, kind, payload).values;
            WellTyped(f, Raw(kind, values)) && EncodeFields(values) == Some(payload)
  {
    FieldsCanonical(f.utf8, f.schema(kind).value, payload);
    var values := DecodePayload(f, kind, payload).values;
    assert EncodeFields(values).value + [] == EncodeFields(values).value;
  }

  lemma CutFrame(b: Bytes, n: nat)
    requires HEADER_LEN + n <= |b|
    ensures b[..HEADER_LEN] + b[HEADER_LEN..HEADER_LEN + n] + b[HEADER_LEN + n..] == b
  {
  }

  /** Any frame the decoder accepts is well typed, and writing it again gives the identical bytes. */
  lemma FrameCanonical(f: Format, b: Bytes)
    requires DecodeRaw(f, b).Got?
    ensures var d := DecodeRaw(f, b);
            WellTyped(f, d.raw) && EncodeRaw(f, d.raw).Written? && b == EncodeRaw(f, d.raw).bytes + d.left
  {
    var length := FromBe(b[4..8]);
    PayloadCanonical(f, b[3], b[HEADER_LEN..HEADER_LEN + length]);
    HeaderCanonical(f, b);
    CutFrame(b, length);
  }

  // ------------------------------------------------------------- later bytes

  /** Once the decoder has made up its mind, later bytes do not change it. */
  lemma LaterBytes(f: Format, b: Bytes, more: Bytes)
    requires !DecodeRaw(f, b).NeedMore?
    ensures match DecodeRaw(f, b)
            case Got(raw, left) => DecodeRaw(f, b + more) == Got(raw, left + more)
            case Bad(error, left) => DecodeRaw(f, b + more) == Bad(error, left + more)
  {
    assert (b + more)[4..8] == b[4..8];
    var length := FromBe(b[4..8]);
    if |b| >= HEADER_LEN + length {
      assert (b + more)[HEADER_LEN..HEADER_LEN + length] == b[HEADER_LEN..HEADER_LEN + length];
      assert (b + more)[HEADER_LEN + length..] == b[HEADER_LEN + length..] + more;
    }
  }

  // ---------------------------------------------------------------- buffers

  class ByteBuffer {
    var bytes: Bytes

    constructor (bytes: Bytes)
      ensures this.bytes == bytes
    {
      this.bytes := bytes;
    }

    method Put(more: Bytes)
      modifies this
      ensures bytes == old(bytes) + more
    {
      bytes := bytes + more;
    }
  }
}

/** The typed fields both wire formats are made of: how each is written and read back. */
module WireFields {
  import opened Common
  import opened ErrorCodes
  import opened BigEndian
  import opened Destinations

  const MAX_STRING_LEN: nat := 0xFFFF
  const MAX_BEARER_TOKEN_BYTES: nat := 4096

  datatype WireError =
    | InvalidMagic | UnsupportedVersion | UnknownFrameKind | UnknownEnum | Truncated | InvalidUtf8
    | InvalidField | BadDestination | FieldTooLong | TrailingBytes | FrameTooLarge | LengthOverflow

  /** What a text must satisfy besides being UTF-8. */
  datatype TextRule =
    | Plain
    | NonEmpty
    | NamespaceText(otherwise: WireError)
    | NameText(otherwise: WireError)
    | TokenText

  datatype FieldKind = FCode | FObservation | FU64 | FUuid | FText(rule: TextRule) | FRest

  datatype Value =
    | VCode(code: ErrorCode)
    | VObservation(observation: PeerObservation)
    | VU64(number: U64)
    | VUuid(uuid: Uuid)
    | VText(text: Bytes)
    | VRest(bytes: Bytes)

  predicate Allows(rule: TextRule, text: Bytes) {
    match rule
    case Plain => true
    case NonEmpty => text != []
    case NamespaceText(_) => ValidNamespace(text)
    case NameText(_) => ValidName(text)
    case TokenText => |text| <= MAX_BEARER_TOKEN_BYTES
  }

  function RuleError(rule: TextRule): WireError {
    match rule
    case NamespaceText(e) => e
    case NameText(e) => e
    case TokenText => FieldTooLong
    case _ => InvalidField
  }

  /** The value has the field's type: what the program's own types guarantee. */
  predicate Fits(utf8: Bytes -> bool, k: FieldKind, v: Value) {
    match k
    case FCode => v.VCode?
    case FObservation => v.VObservation?
    case FU64 => v.VU64?
    case FUuid => v.VUuid?
    case FText(rule) => v.VText? && utf8(v.text) && Allows(rule, v.text)
    case FRest => v.VRest?
  }

  /** The bytes of one field; `None` when a text is too long for its 16-bit length. */
  function EncodeField(v: Value): Option<Bytes> {
    match v
    case VCode(c) => Some([CodeToWire(c)])
    case VObservation(o) => Some([ObservationToWire(o)])
    case VU64(n) => Some(Be(n, 8))
    case VUuid(u) => Some(Be(u, 16))
    case VText(text) => if |text| > MAX_STRING_LEN then None else Some(Be(|text|, 2) + text)
    case VRest(bytes) => Some(bytes)
  }

  datatype Read<+T> = Took(value: T, rest: Bytes) | Fault(error: WireError)

  function Take(n: nat, b: Bytes): Read<Bytes> {
    if |b| < n then Fault(Truncated) else Took(b[..n], b[n..])
  }

  function DecodeText(utf8: Bytes -> bool, rule: TextRule, b: Bytes): Read<Value> {
    match Take(2, b)
    case Fault(e) => Fault(e)
    case Took(head, rest) =>
      var length := FromBe(head);
      if rule.TokenText? && length > MAX_BEARER_TOKEN_BYTES then Fault(FieldTooLong)
      else
        match Take(length, rest)
        case Fault(e) => Fault(e)
        case Took(text, left) =>
          if !utf8(text) then Fault(InvalidUtf8)
          else if !Allows(rule, text) then Fault(RuleError(rule))
          else Took(VText(text), left)
  }

  function DecodeField(utf8: Bytes -> bool, k: FieldKind, b: Bytes): Read<Value> {
    match k
    case FCode =>
      if b == [] then Fault(Truncated)
      else if CodeFromWire(b[0]).None? then Fault(UnknownEnum)
      else Took(VCode(CodeFromWire(b[0]).value), b[1..])
    case FObservation =>
      if b == [] then Fault(Truncated)
      else if ObservationFromWire(b[0]).None? then Fault(UnknownEnum)
      else Took(VObservation(ObservationFromWire(b[0]).value), b[1..])
    case FU64 =>
      if |b| < 8 then Fault(Truncated)
      else Widths(); FromBeBounded(b[..8]); Took(VU64(FromBe(b[..8])), b[8..])
    case FUuid =>
      if |b| < 16 then Fault(Truncated)
      else Widths(); FromBeBounded(b[..16]); Took(VUuid(FromBe(b[..16])), b[16..])
    case FText(rule) => DecodeText(utf8, rule, b)
    case FRest => Took(VRest(b), [])
  }

  // ------------------------------------------------------------- one field

  lemma NumberRoundTrip(n: nat, width: nat, rest: Bytes)
    requires n < Pow256(width)
    ensures (Be(n, width) + rest)[..width] == Be(n, width) && (Be(n, width) + rest)[width..] == rest
    ensures FromBe((Be(n, width) + rest)[..width]) == n
  {
    BeRoundTrip(n, width);
    assert (Be(n, width) + rest)[..width] == Be(n, width);
  }

  lemma TextRoundTrip(utf8: Bytes -> bool, rule: TextRule, text: Bytes, rest: Bytes)
    requires utf8(text) && Allows(rule, text) && |text| <= MAX_STRING_LEN
    ensures DecodeText(utf8, rule, Be(|text|, 2) + text + rest) == Took(VText(text), rest)
  {
    var tail := text + rest;
    assert Be(|text|, 2) + text + rest == Be(|text|, 2) + tail;
    Widths();
    NumberRoundTrip(|text|, 2, tail);
    assert Take(|text|, tail) == Took(text, rest);
  }

  /** What was written is read back, and nothing more is consumed. */
  lemma FieldRoundTrip(utf8: Bytes -> bool, k: FieldKind, v: Value, rest: Bytes)
    requires Fits(utf8, k, v) && EncodeField(v).Some? && (k.FRest? ==> rest == [])
    ensures DecodeField(utf8, k, EncodeField(v).value + rest) == Took(v, rest)
  {
    Widths();
    match k
    case FCode => CodesExact(v.code, 0);
    case FObservation => ObservationsExact(v.observation, 0);
    case FU64 => NumberRoundTrip(v.number, 8, rest);
    case FUuid => NumberRoundTrip(v.uuid, 16, rest);
    case FText(rule) => TextRoundTrip(utf8, rule, v.text, rest);
    case FRest => assert EncodeField(v).value + rest == v.bytes;
  }

  lemma TextCanonical(utf8: Bytes -> bool, rule: TextRule, b: Bytes)
    requires DecodeText(utf8, rule, b).Took?
    ensures var r := DecodeText(utf8, rule, b);
            && Fits(utf8, FText(rule), r.value) && EncodeField(r.value).Some?
            && b == EncodeField(r.value).value + r.rest
  {
    var head, after := b[..2], b[2..];
    var length := FromBe(head);
    Widths();
    FromBeBounded(head);
    FromBeCanonical(head);
    assert after == after[..length] + after[length..];
    assert b == head + after;
  }

  lemma NumberCanonical(b: Bytes, width: nat)
    requires width <= |b|
    ensures FromBe(b[..width]) < Pow256(width) && b == Be(FromBe(b[..width]), width) + b[width..]
  {
    FromBeBounded(b[..width]);
    FromBeCanonical(b[..width]);
  }

  /** What is read is exactly what writing it again would put there. */
  lemma FieldCanonical(utf8: Bytes -> bool, k: FieldKind, b: Bytes)
    requires DecodeField(utf8, k, b).Took?
    ensures var r := DecodeField(utf8, k, b);
            && Fits(utf8, k, r.value) && EncodeField(r.value).Some?
            && b == EncodeField(r.value).value + r.rest
  {
    Widths();
    match k
    case FCode => CodesExact(CodeFromWire(b[0]).value, b[0]);
    case FObservation => ObservationsExact(ObservationFromWire(b[0]).value, b[0]);
    case FU64 => NumberCanonical(b, 8);
    case FUuid => NumberCanonical(b, 16);
    case FText(rule) => TextCanonical(utf8, rule, b);
    case FRest => assert b == b + [];
  }

  // ------------------------------------------------------------ field lists

  /** Only the last field may be open-ended. */
  predicate RestLast(ks: seq<FieldKind>) { forall i :: 0 <= i < |ks| - 1 ==> !ks[i].FRest? }

  ghost predicate AllFit(utf8: Bytes -> bool, ks: seq<FieldKind>, vs: seq<Value>) {
    |ks| == |vs| && forall i :: 0 <= i < |ks| ==> Fits(utf8, ks[i], vs[i])
  }

  function EncodeFields(vs: seq<Value>): Option<Bytes> {
    if vs == [] then Some([])
    else
      match EncodeField(vs[0])
      case None => None
      case Some(head) =>
        match EncodeFields(vs[1..])
        case None => None
        case Some(tail) => Some(head + tail)
  }

  function DecodeFields(utf8: Bytes -> bool, ks: seq<FieldKind>, b: Bytes): Read<seq<Value>>
    decreases |ks|
  {
    if ks == [] then Took([], b)
    else
      match DecodeField(utf8, ks[0], b)
      case Fault(e) => Fault(e)
      case Took(v, rest) =>
        match DecodeFields(utf8, ks[1..], rest)
        case Fault(e) => Fault(e)
        case Took(vs, left) => Took([v] + vs, left)
  }

  lemma {:induction false} FieldsRoundTrip(utf8: Bytes -> bool, ks: seq<FieldKind>, vs: seq<Value>)
    requires AllFit(utf8, ks, vs) && RestLast(ks) && EncodeFields(vs).Some?
    ensures DecodeFields(utf8, ks, EncodeFields(vs).value) == Took(vs, [])
    decreases |ks|
  {
    if ks != [] {
      var tail := EncodeFields(vs[1..]).value;
      assert |ks| == 1 ==> vs[1..] == [];
      FieldRoundTrip(utf8, ks[0], vs[0], tail);
      FieldsRoundTrip(utf8, ks[1..], vs[1..]);
      assert [vs[0]] + vs[1..] == vs;
    }
  }

  lemma {:induction false} FieldsCanonical(utf8: Bytes -> bool, ks: seq<FieldKind>, b: Bytes)
    requires DecodeFields(utf8, ks, b).Took?
    ensures var r := DecodeFields(utf8, ks, b);
            && AllFit(utf8, ks, r.value) && EncodeFields(r.value).Some?
            && b == EncodeFields(r.value).value + r.rest
    decreases |ks|
  {
    if ks == [] {
      assert [] + b == b;
    } else {
      FieldCanonical(utf8, ks[0], b);
      var first := DecodeField(utf8, ks[0], b);
      FieldsCanonical(utf8, ks[1..], first.rest);
      var more := DecodeFields(utf8, ks[1..], first.rest);
      assert ([first.value] + more.value)[1..] == more.value;
    }
  }

  lemma TwoFields(a: Value, b: Value)
    requires EncodeField(a).Some? && EncodeField(b).Some?
    ensures EncodeFields([a, b]) == Some(EncodeField(a).value + EncodeField(b).value)
  {
    assert [a, b][1..] == [b] && [b][1..] == [];
    assert EncodeFields([b]) == Some(EncodeField(b).value + []);
    assert EncodeField(b).value + [] == EncodeField(b).value;
  }

  function FieldLength(v: Value): nat {
    match v
    case VCode(_) => 1
    case VObservation(_) => 1
    case VU64(_) => 8
    case VUuid(_) => 16
    case VText(text) => 2 + |text|
    case VRest(bytes) => |bytes|
  }

  function TotalLength(vs: seq<Value>): nat { if vs == [] then 0 else FieldLength(vs[0]) + TotalLength(vs[1..]) }

  lemma TotalCons(v: Value, vs: seq<Value>)
    ensures TotalLength([v] + vs) == FieldLength(v) + TotalLength(vs)
  {
    assert ([v] + vs)[1..] == vs;
  }

  lemma Total2(a: Value, b: Value)
    ensures TotalLength([a]) == FieldLength(a) && TotalLength([a, b]) == FieldLength(a) + FieldLength(b)
  {
    TotalCons(b, []);
    TotalCons(a, []);
    TotalCons(a, [b]);
    assert [a] + [b] == [a, b] && [a] + [] == [a] && [b] + [] == [b];
  }

  lemma Total4(a: Value, b: Value, c: Value, d: Value)
    ensures TotalLength([b, c, d]) == FieldLength(b) + FieldLength(c) + FieldLength(d)
    ensures TotalLength([a, b, c, d]) == FieldLength(a) + FieldLength(b) + FieldLength(c) + FieldLength(d)
  {
    Total2(c, d);
    TotalCons(b, [c, d]);
    TotalCons(a, [b, c, d]);
    assert [b] + [c, d] == [b, c, d] && [a] + [b, c, d] == [a, b, c, d];
  }

  /** Only an overlong text keeps a list of fields from being written; otherwise its length is the sum of the parts. */
  lemma {:induction false} FieldsLength(vs: seq<Value>)
    ensures EncodeFields(vs).None? <==> exists i :: 0 <= i < |vs| && EncodeField(vs[i]).None?
    ensures EncodeFields(vs).Some? ==> |EncodeFields(vs).value| == TotalLength(vs)
  {
    if vs != [] {
      FieldsLength(vs[1..]);
      assert forall i :: 0 < i < |vs| ==> vs[i] == vs[1..][i - 1];
      if exists i :: 0 <= i < |vs[1..]| && EncodeField(vs[1..][i]).None? {
        var i :| 0 <= i < |vs[1..]| && EncodeField(vs[1..][i]).None?;
        assert EncodeField(vs[i + 1]).None?;
      }
    }
  }
}

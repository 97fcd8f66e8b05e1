/** Validated routing keys: labels, namespaces, names, their text and their canonical bytes. */
module Destinations {
  import opened Common
  import opened BigEndian

  const MAX_LABEL_BYTES: nat := 63
  const MAX_DESTINATION_NAME_BYTES: nat := 253

  const HYPHEN: byte := 45
  const DOT: byte := 46
  const SLASH: byte := 47

  datatype DestinationError =
    InvalidNamespace | LabelLength | LabelBoundary | LabelCharacter | DestinationNameLength | InvalidDestination

  predicate Alphanumeric(b: byte) { 97 <= b <= 122 || 48 <= b <= 57 }

  function LabelError(word: Bytes): Option<DestinationError> {
    if word == [] || |word| > MAX_LABEL_BYTES then Some(LabelLength)
    else if !Alphanumeric(word[0]) || !Alphanumeric(word[|word| - 1]) then Some(LabelBoundary)
    else if exists i :: 0 <= i < |word| && !Alphanumeric(word[i]) && word[i] != HYPHEN then Some(LabelCharacter)
    else None
  }

  function NamespaceError(text: Bytes): Option<DestinationError> {
    if DOT in text then Some(InvalidNamespace) else LabelError(text)
  }

  /** Where `b` first occurs, or the length of `text`. */
  function IndexOf(text: Bytes, b: byte): (i: nat)
    ensures i <= |text| && b !in text[..i] && (i < |text| ==> text[i] == b)
  {
    if text == [] || text[0] == b then 0
    else
      var i := IndexOf(text[1..], b);
      assert text[..i + 1] == [text[0]] + text[1..][..i];
      i + 1
  }

  /** The first error among the dot-separated labels. */
  function LabelsError(text: Bytes): Option<DestinationError>
    decreases |text|
  {
    var i := IndexOf(text, DOT);
    if LabelError(text[..i]).Some? then LabelError(text[..i])
    else if i == |text| then None
    else LabelsError(text[i + 1..])
  }

  function NameError(text: Bytes): Option<DestinationError> {
    if |text| > MAX_DESTINATION_NAME_BYTES then Some(DestinationNameLength) else LabelsError(text)
  }

  predicate ValidNamespace(text: Bytes) { NamespaceError(text).None? }

  predicate ValidName(text: Bytes) { NameError(text).None? }

  predicate ValidDestination(d: Destination) { ValidNamespace(d.namespace) && ValidName(d.name) }

  lemma LabelHas(word: Bytes, b: byte)
    requires LabelError(word).None? && b in word
    ensures Alphanumeric(b) || b == HYPHEN
  {
  }

  lemma {:induction false} LabelsHave(text: Bytes, b: byte)
    requires LabelsError(text).None? && b in text
    ensures Alphanumeric(b) || b == HYPHEN || b == DOT
    decreases |text|
  {
    var i := IndexOf(text, DOT);
    assert i < |text| ==> text == text[..i] + [DOT] + text[i + 1..];
    assert i == |text| ==> text[..i] == text;
    if b in text[..i] { LabelHas(text[..i], b); }
    else if b != DOT { LabelsHave(text[i + 1..], b); }
  }

  /** Neither part of a valid Destination contains the separator. */
  lemma NoSlash(d: Destination)
    requires ValidDestination(d)
    ensures SLASH !in d.namespace && SLASH !in d.name
  {
    if SLASH in d.namespace { LabelHas(d.namespace, SLASH); }
    if SLASH in d.name { LabelsHave(d.name, SLASH); }
  }

  // --------------------------------------------------------------- text form

  function Display(d: Destination): Bytes { d.namespace + [SLASH] + d.name }

  datatype ParseResult = Parsed(destination: Destination) | Rejected(error: DestinationError)

  function Parse(text: Bytes): ParseResult {
    var i := IndexOf(text, SLASH);
    if i == |text| || SLASH in text[i + 1..] then Rejected(InvalidDestination)
    else
      match NamespaceError(text[..i])
      case Some(error) => Rejected(error)
      case None =>
        match NameError(text[i + 1..])
        case Some(error) => Rejected(error)
        case None => Parsed(Destination(text[..i], text[i + 1..]))
  }

  lemma {:induction false} FirstSlash(before: Bytes, after: Bytes)
    requires SLASH !in before
    ensures IndexOf(before + [SLASH] + after, SLASH) == |before|
  {
    var text := before + [SLASH] + after;
    if before != [] {
      assert before[0] in before && text[1..] == before[1..] + [SLASH] + after;
      FirstSlash(before[1..], after);
    }
  }

  /** Printing then parsing gives the Destination back. */
  lemma DisplayParses(d: Destination)
    requires ValidDestination(d)
    ensures Parse(Display(d)) == Parsed(d)
  {
    NoSlash(d);
    FirstSlash(d.namespace, d.name);
    assert Display(d)[..|d.namespace|] == d.namespace;
    assert Display(d)[|d.namespace| + 1..] == d.name;
  }

  /** Only the printed form parses to a Destination, and what parses is valid. */
  lemma ParseDisplays(text: Bytes)
    requires Parse(text).Parsed?
    ensures ValidDestination(Parse(text).destination) && Display(Parse(text).destination) == text
  {
    var i := IndexOf(text, SLASH);
    assert text == text[..i] + [SLASH] + text[i + 1..];
  }

  // ---------------------------------------------------------- canonical bytes

  /** The bytes that are hashed: both parts with their lengths as 16-bit numbers. */
  function CanonicalKey(d: Destination): Bytes {
    Be(|d.namespace| % 0x1_0000, 2) + d.namespace + Be(|d.name| % 0x1_0000, 2) + d.name
  }

  lemma ValidLengths(d: Destination)
    requires ValidDestination(d)
    ensures 1 <= |d.namespace| <= MAX_LABEL_BYTES && 1 <= |d.name| <= MAX_DESTINATION_NAME_BYTES
  {
  }

  // ------------------------------------------------ which texts are names, byte by byte

  predicate NameByte(b: byte) { 97 <= b <= 122 || 48 <= b <= 57 || b == 45 || b == 46 }

  /** The byte begins or ends a label. */
  predicate AtEdge(text: Bytes, k: nat)
    requires k < |text|
  {
    k == 0 || k == |text| - 1 || text[k - 1] == 46 || text[k + 1] == 46
  }

  predicate LetterOrDigit(b: byte) { 97 <= b <= 122 || 48 <= b <= 57 }

  predicate BytesOk(text: Bytes) { forall k :: 0 <= k < |text| ==> NameByte(text[k]) }

  predicate EdgesOk(text: Bytes) { forall k :: 0 <= k < |text| && AtEdge(text, k) ==> LetterOrDigit(text[k]) }

  predicate HasDot(text: Bytes, from: nat) { exists j :: from <= j < from + 64 && j < |text| && text[j] == 46 }

  /** No 64 bytes in a row without a dot. */
  predicate LabelsShort(text: Bytes) { forall k :: 0 <= k && k + 64 <= |text| ==> HasDot(text, k) }

  predicate Named(text: Bytes) { text != [] && BytesOk(text) && EdgesOk(text) && LabelsShort(text) }

  lemma TooLong(text: Bytes)
    requires |text| >= 64 && forall j :: 0 <= j < 64 ==> text[j] != 46
    ensures !LabelsShort(text)
  {
    assert !HasDot(text, 0);
  }

  lemma OneLabel(text: Bytes)
    requires DOT !in text
    ensures LabelError(text).None? <==> Named(text)
  {
    if |text| >= 64 { TooLong(text); }
    else if Named(text) { assert AtEdge(text, 0) && AtEdge(text, |text| - 1); }
  }

  lemma FirstLabelBytes(a: Bytes, b: Bytes)
    requires DOT !in a
    ensures var text := a + [DOT] + b;
            BytesOk(text) <==> BytesOk(a) && BytesOk(b)
  {
    var text := a + [DOT] + b;
    assert forall k :: 0 <= k < |a| ==> text[k] == a[k];
    assert forall k :: 0 <= k < |b| ==> text[|a| + 1 + k] == b[k];
    assert text[|a|] == DOT;
    forall k | 0 <= k < |text| && BytesOk(a) && BytesOk(b) ensures NameByte(text[k]) {
      if k < |a| { assert NameByte(a[k]); } else if k > |a| { assert NameByte(b[k - |a| - 1]); }
    }
  }

  lemma EdgeShift(a: Bytes, b: Bytes, k: nat)
    requires DOT !in a && a != [] && b != []
    ensures var text := a + [DOT] + b;
            && (k < |a| ==> text[k] == a[k] && AtEdge(text, k) == AtEdge(a, k))
            && (k < |b| ==> text[|a| + 1 + k] == b[k] && AtEdge(text, |a| + 1 + k) == AtEdge(b, k))
  {
    var text := a + [DOT] + b;
    assert text[|a|] == DOT;
    if k < |a| {
      assert k > 0 ==> text[k - 1] == a[k - 1];
      assert k + 1 < |a| ==> text[k + 1] == a[k + 1];
    }
    if k < |b| {
      assert k > 0 ==> text[|a| + k] == b[k - 1];
      assert k + 1 < |b| ==> text[|a| + 2 + k] == b[k + 1];
    }
  }

  lemma FirstLabelEdges(a: Bytes, b: Bytes)
    requires DOT !in a && a != [] && b != []
    ensures EdgesOk(a + [DOT] + b) ==> EdgesOk(a) && EdgesOk(b)
    ensures EdgesOk(a) && EdgesOk(b) ==> b[0] != DOT && EdgesOk(a + [DOT] + b)
  {
    var text := a + [DOT] + b;
    if EdgesOk(text) {
      forall k | 0 <= k < |a| && AtEdge(a, k) ensures LetterOrDigit(a[k]) { EdgeShift(a, b, k); }
      forall k | 0 <= k < |b| && AtEdge(b, k) ensures LetterOrDigit(b[k]) { EdgeShift(a, b, k); }
    }
    if EdgesOk(a) && EdgesOk(b) {
      assert AtEdge(b, 0);
      forall k | 0 <= k < |text| && AtEdge(text, k) ensures LetterOrDigit(text[k]) {
        if k < |a| { EdgeShift(a, b, k); }
        else if k > |a| { EdgeShift(a, b, k - |a| - 1); }
        else { assert text[k - 1] == a[k - 1] && text[k + 1] == b[0]; }
      }
    }
  }

  lemma FirstLabelShort(a: Bytes, b: Bytes)
    requires DOT !in a
    ensures LabelsShort(a + [DOT] + b) <==> |a| < 64 && LabelsShort(b)
  {
    var text := a + [DOT] + b;
    assert forall k :: 0 <= k < |a| ==> text[k] == a[k];
    assert forall k :: 0 <= k < |b| ==> text[|a| + 1 + k] == b[k];
    assert text[|a|] == DOT;
    if |a| >= 64 { TooLong(text); }
    if LabelsShort(text) {
      forall k | 0 <= k && k + 64 <= |b| ensures HasDot(b, k) {
        assert HasDot(text, |a| + 1 + k);
        var j :| |a| + 1 + k <= j < |a| + 1 + k + 64 && j < |text| && text[j] == 46;
        assert b[j - |a| - 1] == 46;
      }
    }
    if |a| < 64 && LabelsShort(b) {
      forall k | 0 <= k && k + 64 <= |text| ensures HasDot(text, k) {
        if k > |a| {
          assert HasDot(b, k - |a| - 1);
          var j :| k - |a| - 1 <= j < k - |a| - 1 + 64 && j < |b| && b[j] == 46;
          assert text[|a| + 1 + j] == 46;
        }
      }
    }
  }

  lemma FirstLabel(a: Bytes, b: Bytes)
    requires DOT !in a
    ensures Named(a + [DOT] + b) <==> Named(a) && Named(b)
  {
    var text := a + [DOT] + b;
    FirstLabelBytes(a, b);
    FirstLabelShort(a, b);
    assert text[|a|] == DOT;
    if |a| >= 64 { TooLong(a); }
    if a == [] { assert AtEdge(text, 0); }
    else if b == [] { assert AtEdge(text, |a|); }
    else { FirstLabelEdges(a, b); }
  }

  lemma {:induction false} LabelsNamed(text: Bytes)
    ensures LabelsError(text).None? <==> Named(text)
    decreases |text|
  {
    var i := IndexOf(text, DOT);
    var a := text[..i];
    OneLabel(a);
    if i == |text| {
      assert a == text;
    } else {
      var b := text[i + 1..];
      assert text == a + [DOT] + b;
      FirstLabel(a, b);
      LabelsNamed(b);
    }
  }

  /**
   A name is 1 to 253 lowercase letters, digits, hyphens and dots, with a letter or digit at both ends and on both
   sides of every dot, and never 64 bytes in a row without a dot.
   */
  lemma NameExactly(text: Bytes)
    ensures ValidName(text) <==> |text| <= 253 && Named(text)
  {
    LabelsNamed(text);
  }

  /** A namespace is a name of one label. */
  lemma NamespaceExactly(text: Bytes)
    ensures ValidNamespace(text) <==> 46 !in text && |text| <= 63 && Named(text)
  {
    if DOT !in text { OneLabel(text); }
  }
}

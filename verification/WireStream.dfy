/**
 Reading a stream of frames with any decoder that, once it has made up its mind,
 is not swayed by later bytes.
 */
module WireStream {
  import opened Common
  import opened WireFields

  /** What a decoder finds at the front of its input; `left` is what stays. */
  datatype Incoming<F> = Waiting | Broken(error: WireError, left: Bytes) | Arrived(frame: F, left: Bytes)

  type Decoder<!F> = Bytes -> Incoming<F>

  function Extended<F>(r: Incoming<F>, more: Bytes): Incoming<F> {
    match r
    case Waiting => Waiting
    case Broken(error, left) => Broken(error, left + more)
    case Arrived(f, left) => Arrived(f, left + more)
  }

  /** A frame takes up bytes, and bytes after a verdict do not change it. */
  ghost predicate Steady<F>(d: Decoder<F>) {
    && (forall b :: d(b).Arrived? ==> |d(b).left| < |b|)
    && (forall b, more {:trigger d(b + more)} :: !d(b).Waiting? ==> d(b + more) == Extended(d(b), more))
  }

  predicate Asked(b: Bytes) { true }

  /** Two names for one decoder, compared only where `Asked`. */
  ghost predicate SameAs<F>(d: Decoder<F>, e: Decoder<F>) { forall b {:trigger Asked(b)} :: Asked(b) ==> d(b) == e(b) }

  /** What a reader has got out of its input. */
  datatype Received<F> = Received(frames: seq<F>, left: Bytes, failed: Option<WireError>)

  /** Take frames off the front until more bytes are needed or the input is refused. */
  ghost function Gather<F>(d: Decoder<F>, b: Bytes): Received<F>
    requires Steady(d)
    decreases |b|
  {
    match d(b)
    case Waiting => Received([], b, None)
    case Broken(error, left) => Received([], left, Some(error))
    case Arrived(f, left) => Preceded([f], Gather(d, left))
  }

  function Preceded<F>(frames: seq<F>, r: Received<F>): Received<F> { r.(frames := frames + r.frames) }

  lemma PrecededTwice<F>(a: seq<F>, b: seq<F>, r: Received<F>)
    ensures Preceded(a, Preceded(b, r)) == Preceded(a + b, r)
  {
    assert a + (b + r.frames) == a + b + r.frames;
  }

  /** One more chunk arrives. */
  ghost function Feed<F>(d: Decoder<F>, r: Received<F>, chunk: Bytes): Received<F>
    requires Steady(d)
  {
    if r.failed.Some? then r.(left := r.left + chunk) else Preceded(r.frames, Gather(d, r.left + chunk))
  }

  ghost function FeedAll<F>(d: Decoder<F>, chunks: seq<Bytes>): Received<F>
    requires Steady(d)
  {
    if chunks == [] then Received([], [], None)
    else Feed(d, FeedAll(d, chunks[..|chunks| - 1]), chunks[|chunks| - 1])
  }

  function Concat(chunks: seq<Bytes>): Bytes {
    if chunks == [] then [] else Concat(chunks[..|chunks| - 1]) + chunks[|chunks| - 1]
  }

  lemma FeedPreceded<F>(d: Decoder<F>, frames: seq<F>, r: Received<F>, chunk: Bytes)
    requires Steady(d)
    ensures Feed(d, Preceded(frames, r), chunk) == Preceded(frames, Feed(d, r, chunk))
  {
    if r.failed.None? { PrecededTwice(frames, r.frames, Gather(d, r.left + chunk)); }
  }

  lemma {:induction false} GatherMore<F>(d: Decoder<F>, b: Bytes, chunk: Bytes)
    requires Steady(d)
    ensures Gather(d, b + chunk) == Feed(d, Gather(d, b), chunk)
    decreases |b|
  {
    match d(b)
    case Waiting => assert [] + Gather(d, b + chunk).frames == Gather(d, b + chunk).frames;
    case Broken(_, _) => assert d(b + chunk) == Extended(d(b), chunk);
    case Arrived(f, left) =>
      assert d(b + chunk) == Extended(d(b), chunk);
      GatherMore(d, left, chunk);
      FeedPreceded(d, [f], Gather(d, left), chunk);
  }

  /** How the input is cut into chunks makes no difference, for any bytes whatsoever. */
  lemma {:induction false} ChunksDoNotMatter<F>(d: Decoder<F>, chunks: seq<Bytes>)
    requires Steady(d) && d([]).Waiting?
    ensures FeedAll(d, chunks) == Gather(d, Concat(chunks))
  {
    if chunks != [] {
      var init := chunks[..|chunks| - 1];
      ChunksDoNotMatter(d, init);
      GatherMore(d, Concat(init), chunks[|chunks| - 1]);
    }
  }

  /** These bytes are read as this frame, whatever follows them. */
  ghost predicate ReadsAs<F>(d: Decoder<F>, bytes: Bytes, f: F) {
    forall more {:trigger bytes + more} :: d(bytes + more) == Arrived(f, more)
  }

  function Joined(pieces: seq<Bytes>): Bytes { if pieces == [] then [] else pieces[0] + Joined(pieces[1..]) }

  /** Frames written one after the other are read back, and nothing is left. */
  lemma {:induction false} GatherJoined<F>(d: Decoder<F>, fs: seq<F>, pieces: seq<Bytes>)
    requires Steady(d) && d([]).Waiting? && |fs| == |pieces|
    requires forall i :: 0 <= i < |fs| ==> ReadsAs(d, pieces[i], fs[i])
    ensures Gather(d, Joined(pieces)) == Received(fs, [], None)
    decreases |fs|
  {
    if fs != [] {
      assert ReadsAs(d, pieces[0], fs[0]);
      GatherJoined(d, fs[1..], pieces[1..]);
      assert [fs[0]] + fs[1..] == fs;
    }
  }
}

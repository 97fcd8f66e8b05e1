/** A token bucket in integer nanosecond credit. */
module RateLimit {
  import opened Common
  import opened Arithmetic

  const TOKEN: nat := 1_000_000_000
  const U128_MAX: nat := U128_LIMIT - 1

  function SaturatingMul(a: nat, b: nat): nat { if a * b > U128_MAX then U128_MAX else a * b }

  function SaturatingAdd(a: nat, b: nat): nat { if a + b > U128_MAX then U128_MAX else a + b }

  function Min(a: nat, b: nat): nat { if a <= b then a else b }

  /** Nanoseconds from `then` to `now`, none when the clock went back. */
  function Since(now: Instant, before: Instant): nat { if now >= before then now - before else 0 }

  datatype Bucket = Bucket(rate: nat, capacity: nat, credit: nat, updatedAt: Instant)

  predicate Filled(b: Bucket) { b.credit <= b.capacity }

  predicate Sound(b: Bucket) { Filled(b) && b.capacity <= U128_MAX }

  /** The credit at `now` with unbounded arithmetic. */
  function Ideal(b: Bucket, now: Instant): nat { Min(b.capacity, b.credit + b.rate * Since(now, b.updatedAt)) }

  /** Saturation never shows: the capacity caps the credit before it could. */
  lemma SaturationIsInvisible(b: Bucket, now: Instant)
    requires Sound(b)
    ensures Min(b.capacity, SaturatingAdd(b.credit, SaturatingMul(Since(now, b.updatedAt), b.rate))) == Ideal(b, now)
  {
    var elapsed := Since(now, b.updatedAt);
    assert elapsed * b.rate == b.rate * elapsed;
  }

  function Refilled(b: Bucket, now: Instant): Bucket { b.(credit := Ideal(b, now), updatedAt := now) }

  predicate Admits(b: Bucket, now: Instant) { Ideal(b, now) >= TOKEN }

  function Taken(b: Bucket, now: Instant): Bucket {
    var r := Refilled(b, now);
    if r.credit >= TOKEN then r.(credit := r.credit - TOKEN) else r
  }

  // -------------------------------------------------------------------- runs

  datatype Op = Poll(at: Instant) | Take(at: Instant)

  function Step(b: Bucket, x: Op): Bucket {
    match x
    case Poll(at) => Refilled(b, at)
    case Take(at) => Taken(b, at)
  }

  /** Times never go back, starting from `from`. */
  predicate Ordered(ops: seq<Op>, from: Instant)
    decreases |ops|
  {
    ops != [] ==> from <= ops[0].at && Ordered(ops[1..], ops[0].at)
  }

  /** What each take is told. */
  function Admissions(b: Bucket, ops: seq<Op>): seq<bool>
    decreases |ops|
  {
    if ops == [] then []
    else
      var later := Admissions(Step(b, ops[0]), ops[1..]);
      if ops[0].Take? then [Admits(b, ops[0].at)] + later else later
  }

  function Count(answers: seq<bool>): nat {
    if answers == [] then 0 else (if answers[0] then 1 else 0) + Count(answers[1..])
  }

  /** The time of the last operation, or `from` if there is none. */
  function End(ops: seq<Op>, from: Instant): Instant
    decreases |ops|
  {
    if ops == [] then from else End(ops[1..], ops[0].at)
  }

  /** How far the clock moved forward in all, starting from `from`; moves back count for nothing. */
  function Forward(ops: seq<Op>, from: Instant): nat
    decreases |ops|
  {
    if ops == [] then 0 else Since(ops[0].at, from) + Forward(ops[1..], ops[0].at)
  }

  /** Forward movement is the time passed exactly when the clock never went back; otherwise it is more. */
  lemma {:induction false} ForwardIsElapsed(ops: seq<Op>, from: Instant)
    ensures Forward(ops, from) >= End(ops, from) - from
    ensures Forward(ops, from) == End(ops, from) - from <==> Ordered(ops, from)
    decreases |ops|
  {
    if ops != [] { ForwardIsElapsed(ops[1..], ops[0].at); }
  }

  lemma CountCons(x: bool, rest: seq<bool>)
    ensures Count([x] + rest) == (if x then 1 else 0) + Count(rest)
  {
    assert ([x] + rest)[1..] == rest;
  }

  lemma StepSpends(b: Bucket, x: Op)
    requires Filled(b)
    ensures Filled(Step(b, x)) && Step(b, x).updatedAt == x.at
    ensures Step(b, x).rate == b.rate && Step(b, x).capacity == b.capacity
    ensures (if x.Take? && Admits(b, x.at) then TOKEN else 0) + Step(b, x).credit
            <= b.credit + b.rate * Since(x.at, b.updatedAt)
  {
  }

  /** Whatever the clock does, every token taken was paid for by credit at the start or by forward movement. */
  lemma {:induction false} TakesArePaid(b: Bucket, ops: seq<Op>)
    requires Filled(b)
    ensures TOKEN * Count(Admissions(b, ops)) <= b.credit + b.rate * Forward(ops, b.updatedAt)
    decreases |ops|
  {
    if ops != [] {
      var x, next := ops[0], Step(b, ops[0]);
      StepSpends(b, x);
      TakesArePaid(next, ops[1..]);
      if x.Take? { CountCons(Admits(b, x.at), Admissions(next, ops[1..])); }
      Distribute(b.rate, Forward(ops, b.updatedAt), Since(x.at, b.updatedAt));
    }
  }

  /** The same bound from the first operation on: the burst plus the rate times the forward movement. */
  lemma TakesWithinForward(b: Bucket, ops: seq<Op>)
    requires Filled(b) && ops != []
    ensures TOKEN * Count(Admissions(b, ops)) <= b.capacity + b.rate * Forward(ops, ops[0].at)
  {
    var x := ops[0];
    var r := Refilled(b, x.at);
    assert Step(r, x) == Step(b, x);
    assert Admissions(r, ops) == Admissions(b, ops);
    TakesArePaid(r, ops);
  }

  // --------------------------------------------------------------- the limit

  /** The limit: the tokens taken do not exceed the burst plus the rate times the time from first to last operation. */
  predicate WithinLimit(b: Bucket, ops: seq<Op>)
    requires ops != []
  {
    TOKEN * Count(Admissions(b, ops)) <= b.capacity + b.rate * (End(ops, ops[0].at) - ops[0].at)
  }

  lemma TakesWithinLimit(b: Bucket, ops: seq<Op>)
    requires Filled(b) && ops != [] && Ordered(ops, ops[0].at)
    ensures WithinLimit(b, ops)
  {
    TakesWithinForward(b, ops);
    ForwardIsElapsed(ops, ops[0].at);
  }

  /** `run` reads the clock when `ops` does, any number of times over, and does anything at those times. */
  predicate Over(run: seq<Op>, ops: seq<Op>)
    decreases |run|
  {
    if run == [] || ops == [] then run == [] && ops == []
    else run[0].at == ops[0].at && (Over(run[1..], ops) || Over(run[1..], ops[1..]))
  }

  lemma {:induction false} OverSameClock(run: seq<Op>, ops: seq<Op>, from: Instant)
    requires Over(run, ops)
    ensures Ordered(run, from) == Ordered(ops, from)
    ensures Forward(run, from) == Forward(ops, from) && End(run, from) == End(ops, from)
    decreases |run|
  {
    if run != [] && ops != [] {
      if Over(run[1..], ops) { OverSameClock(run[1..], ops, run[0].at); }
      else { OverSameClock(run[1..], ops[1..], run[0].at); }
    }
  }

  /** `n` takes at one moment. */
  function Takes(at: Instant, n: nat): seq<Op> { if n == 0 then [] else [Take(at)] + Takes(at, n - 1) }

  /** At each moment take all there is: one token for each nanosecond moved forward, and `spare` at the first moment. */
  function Greedy(ops: seq<Op>, from: Instant, spare: nat): seq<Op>
    decreases |ops|
  {
    if ops == [] then []
    else
      var at := ops[0].at;
      [Poll(at)] + (Takes(at, spare + Since(at, from)) + Greedy(ops[1..], at, 0))
  }

  lemma {:induction false} TakesOver(at: Instant, n: nat, run: seq<Op>, ops: seq<Op>)
    requires ops != [] && ops[0].at == at && Over(run, ops[1..])
    ensures Over([Poll(at)] + (Takes(at, n) + run), ops)
  {
    if n == 0 {
      assert Takes(at, 0) + run == run;
      assert ([Poll(at)] + run)[1..] == run;
    } else {
      var rest := Takes(at, n - 1) + run;
      TakesOver(at, n - 1, run, ops);
      assert ([Poll(at)] + rest)[1..] == rest;
      var longer := [Poll(at)] + (Takes(at, n) + run);
      assert longer[1..] == [Take(at)] + rest && longer[1..][1..] == rest;
      assert Over(longer[1..], ops);
    }
  }

  lemma {:induction false} GreedyOver(ops: seq<Op>, from: Instant, spare: nat)
    ensures Over(Greedy(ops, from, spare), ops)
    decreases |ops|
  {
    if ops != [] {
      GreedyOver(ops[1..], ops[0].at, 0);
      TakesOver(ops[0].at, spare + Since(ops[0].at, from), Greedy(ops[1..], ops[0].at, 0), ops);
    }
  }

  lemma {:induction false} TakesEmpty(b: Bucket, n: nat, run: seq<Op>)
    requires Filled(b) && b.credit == TOKEN * n
    ensures Count(Admissions(b, Takes(b.updatedAt, n) + run)) == n + Count(Admissions(b.(credit := 0), run))
    decreases n
  {
    var ops := Takes(b.updatedAt, n) + run;
    if n == 0 {
      assert ops == run;
    } else {
      var rest := Takes(b.updatedAt, n - 1) + run;
      assert ops[0] == Take(b.updatedAt) && ops[1..] == rest;
      var next := b.(credit := TOKEN * (n - 1));
      assert Step(b, ops[0]) == next && Admits(b, b.updatedAt);
      TakesEmpty(next, n - 1, run);
      CountCons(true, Admissions(next, rest));
    }
  }

  lemma {:induction false} BurstOf(b: Bucket, n: nat)
    requires Filled(b)
    ensures Count(Admissions(b, Takes(b.updatedAt, n))) == Min(n, b.credit / TOKEN)
    decreases n
  {
    if n > 0 {
      var ops, rest := Takes(b.updatedAt, n), Takes(b.updatedAt, n - 1);
      assert ops[0] == Take(b.updatedAt) && ops[1..] == rest;
      var next := Step(b, ops[0]);
      BurstOf(next, n - 1);
      CountCons(Admits(b, b.updatedAt), Admissions(next, rest));
    }
  }

  lemma RefilledFirst(b: Bucket, at: Instant, n: nat)
    requires Filled(b)
    ensures Admissions(Refilled(b, at), Takes(at, n)) == Admissions(b, Takes(at, n))
  {
    var r := Refilled(b, at);
    assert Ideal(r, at) == r.credit;
    assert Step(r, Take(at)) == Step(b, Take(at)) && Admits(r, at) == Admits(b, at);
    if n > 0 { assert Takes(at, n)[0] == Take(at); }
  }

  /** Of takes at one moment, exactly as many succeed as whole tokens have accrued since, up to the capacity. */
  lemma BurstExactly(b: Bucket, at: Instant, n: nat)
    requires Filled(b)
    ensures var elapsed := if b.updatedAt <= at then at - b.updatedAt else 0;
            var accrued := b.credit + b.rate * elapsed;
            Count(Admissions(b, Takes(at, n))) ==
            Min(n, (if accrued <= b.capacity then accrued else b.capacity) / TOKEN)
  {
    BurstOf(Refilled(b, at), n);
    RefilledFirst(b, at, n);
  }

  /** No single move forward is longer than `burst` nanoseconds. */
  predicate MovesWithin(ops: seq<Op>, from: Instant, burst: nat)
    decreases |ops|
  {
    ops != [] ==> Since(ops[0].at, from) <= burst && MovesWithin(ops[1..], ops[0].at, burst)
  }

  lemma {:induction false} GreedyTakesAll(b: Bucket, ops: seq<Op>, burst: nat, spare: nat)
    requires Filled(b) && b.rate == TOKEN && b.capacity == TOKEN * burst && b.credit == TOKEN * spare
    requires MovesWithin(ops, b.updatedAt, burst)
    requires ops != [] ==> spare + Since(ops[0].at, b.updatedAt) <= burst
    ensures Count(Admissions(b, Greedy(ops, b.updatedAt, spare))) ==
            if ops == [] then 0 else spare + Forward(ops, b.updatedAt)
    decreases |ops|
  {
    if ops != [] {
      var at := ops[0].at;
      var n := spare + Since(at, b.updatedAt);
      var rest := Greedy(ops[1..], at, 0);
      var run := Greedy(ops, b.updatedAt, spare);
      assert run[0] == Poll(at) && run[1..] == Takes(at, n) + rest;
      var full := b.(credit := TOKEN * n, updatedAt := at);
      assert Step(b, run[0]) == full;
      TakesEmpty(full, n, rest);
      GreedyTakesAll(full.(credit := 0), ops[1..], burst, 0);
    }
  }

  /** A new bucket, as the program makes it. */
  function Full(rate: nat, burst: nat, now: Instant): Bucket { Bucket(rate, burst * TOKEN, burst * TOKEN, now) }

  /** The bound in forward movement is met exactly, at one token each nanosecond and any burst that no move exceeds. */
  lemma ForwardIsTight(ops: seq<Op>, burst: nat)
    requires ops != [] && MovesWithin(ops, ops[0].at, burst)
    ensures var run := Greedy(ops, ops[0].at, burst);
            var b := Full(TOKEN, burst, ops[0].at);
            Over(run, ops) && TOKEN * Count(Admissions(b, run)) == b.capacity + b.rate * Forward(ops, ops[0].at)
  {
    GreedyOver(ops, ops[0].at, burst);
    GreedyTakesAll(Full(TOKEN, burst, ops[0].at), ops, burst, burst);
  }

  /** The longest single move forward. */
  function LongestMove(ops: seq<Op>, from: Instant): (burst: nat)
    ensures MovesWithin(ops, from, burst)
    decreases |ops|
  {
    if ops == [] then 0
    else
      var here, later := Since(ops[0].at, from), LongestMove(ops[1..], ops[0].at);
      MovesWithinMore(ops[1..], ops[0].at, later, if here <= later then later else here);
      if here <= later then later else here
  }

  lemma {:induction false} MovesWithinMore(ops: seq<Op>, from: Instant, burst: nat, more: nat)
    requires MovesWithin(ops, from, burst) && burst <= more
    ensures MovesWithin(ops, from, more)
    decreases |ops|
  {
    if ops != [] { MovesWithinMore(ops[1..], ops[0].at, burst, more); }
  }

  /** If the clock goes back, a new bucket of any sufficient burst exceeds the limit over those same times. */
  lemma BackwardExceeds(ops: seq<Op>, burst: nat)
    requires ops != [] && MovesWithin(ops, ops[0].at, burst) && !Ordered(ops, ops[0].at)
    ensures var run := Greedy(ops, ops[0].at, burst);
            Over(run, ops) && !WithinLimit(Full(TOKEN, burst, ops[0].at), run)
  {
    var from := ops[0].at;
    var run := Greedy(ops, from, burst);
    ForwardIsTight(ops, burst);
    OverSameClock(run, ops, from);
    ForwardIsElapsed(ops, from);
  }

  lemma OverWithinLimit(b: Bucket, run: seq<Op>, ops: seq<Op>)
    requires Filled(b) && ops != [] && Over(run, ops) && Ordered(ops, ops[0].at)
    ensures WithinLimit(b, run)
  {
    OverSameClock(run, ops, ops[0].at);
    TakesWithinLimit(b, run);
  }

  /** For each burst that no move forward exceeds: all its buckets keep the limit over these times exactly when
      the clock never goes back. */
  lemma LimitExactlyAt(ops: seq<Op>, burst: nat)
    requires ops != [] && MovesWithin(ops, ops[0].at, burst)
    ensures Ordered(ops, ops[0].at) <==>
            forall b, run :: Filled(b) && b.capacity == burst * TOKEN && Over(run, ops) ==> WithinLimit(b, run)
  {
    if Ordered(ops, ops[0].at) {
      forall b, run | Filled(b) && Over(run, ops) ensures WithinLimit(b, run) { OverWithinLimit(b, run, ops); }
    } else {
      BackwardExceeds(ops, burst);
      assert Filled(Full(TOKEN, burst, ops[0].at));
    }
  }

  /** Over all buckets: the limit is kept over these times if and only if the clock never goes back. */
  lemma LimitExactly(ops: seq<Op>)
    requires ops != []
    ensures Ordered(ops, ops[0].at) <==> forall b, run :: Filled(b) && Over(run, ops) ==> WithinLimit(b, run)
  {
    if Ordered(ops, ops[0].at) {
      forall b, run | Filled(b) && Over(run, ops) ensures WithinLimit(b, run) { OverWithinLimit(b, run, ops); }
    } else {
      var burst := LongestMove(ops, ops[0].at);
      BackwardExceeds(ops, burst);
      assert Filled(Full(TOKEN, burst, ops[0].at));
    }
  }

  /** A bucket that the program can make: rate and burst are machine words, and it starts full. */
  predicate Made(b: Bucket) {
    b.rate < U64_LIMIT && b.credit == b.capacity && b.capacity % TOKEN == 0 && b.capacity / TOKEN < U64_LIMIT
  }

  /**
   Over the buckets the program can make, for a clock that never jumps ahead by 2^64 nanoseconds (584 years) at once:
   the limit is kept over these times if and only if the clock never goes back.
   */
  lemma LimitExactlyMade(ops: seq<Op>)
    requires ops != [] && MovesWithin(ops, ops[0].at, U64_LIMIT - 1)
    ensures Ordered(ops, ops[0].at) <==> forall b, run :: Made(b) && Over(run, ops) ==> WithinLimit(b, run)
  {
    if Ordered(ops, ops[0].at) {
      forall b, run | Made(b) && Over(run, ops) ensures WithinLimit(b, run) { OverWithinLimit(b, run, ops); }
    } else {
      BackwardExceeds(ops, U64_LIMIT - 1);
      assert Made(Full(TOKEN, U64_LIMIT - 1, ops[0].at));
    }
  }

  /** An instance: two tokens at one moment from a burst of one. */
  lemma BackwardClockBreaksLimit()
    ensures var b := Full(1, 1, 0);
            var ops := [Take(TOKEN), Poll(0), Take(TOKEN)];
            Count(Admissions(b, ops)) == 2 && !WithinLimit(b, ops)
  {
    var b := Full(1, 1, 0);
    var ops := [Take(TOKEN), Poll(0), Take(TOKEN)];
    var b1 := Step(b, ops[0]);
    var b2 := Step(b1, ops[1]);
    assert ops[1..][1..] == [Take(TOKEN)] && [Take(TOKEN)][1..] == [];
    assert Admissions(b2, [Take(TOKEN)]) == [true] && End([Take(TOKEN)], 0) == TOKEN;
    assert Admissions(b1, ops[1..]) == [true] && End(ops[1..], TOKEN) == TOKEN;
    assert Admissions(b, ops) == [true, true] && End(ops, TOKEN) == TOKEN;
    CountCons(true, [true]);
    CountCons(true, []);
    assert [true] + [true] == [true, true] && [true] + [] == [true];
  }

  // ------------------------------------------------------------------- polls

  lemma RefillTwice(rate: nat, u: nat, v: nat, w: nat)
    requires u <= v <= w
    ensures rate * (v - u) + rate * (w - v) == rate * (w - u)
  {
    Distribute(rate, w - u, v - u);
  }

  /** Looking earlier does not change what is there later. */
  lemma SameAfterPoll(b: Bucket, at: Instant, now: Instant)
    requires Filled(b) && b.updatedAt <= at <= now
    ensures Ideal(Refilled(b, at), now) == Ideal(b, now)
  {
    RefillTwice(b.rate, b.updatedAt, at, now);
  }

  /** Two buckets that will have the same credit at every later moment. */
  ghost predicate Alike(b: Bucket, c: Bucket, from: Instant) {
    && b.rate == c.rate && b.capacity == c.capacity && Filled(b) && Filled(c)
    && b.updatedAt <= from && c.updatedAt <= from
    && Ideal(b, from) == Ideal(c, from)
  }

  lemma AlikeLater(b: Bucket, c: Bucket, from: Instant, now: Instant)
    requires Alike(b, c, from) && from <= now
    ensures Alike(b, c, now)
  {
    SameAfterPoll(b, from, now);
    SameAfterPoll(c, from, now);
  }

  lemma AlikeTake(b: Bucket, c: Bucket, at: Instant)
    requires Alike(b, c, at)
    ensures Admits(b, at) == Admits(c, at) && Alike(Taken(b, at), Taken(c, at), at)
  {
  }

  lemma AlikePoll(b: Bucket, c: Bucket, at: Instant)
    requires Alike(b, c, at)
    ensures Alike(Refilled(b, at), c, at)
  {
    SameAfterPoll(b, at, at);
  }

  function TakesOnly(ops: seq<Op>): seq<Op>
    decreases |ops|
  {
    if ops == [] then [] else (if ops[0].Take? then [ops[0]] else []) + TakesOnly(ops[1..])
  }

  lemma {:induction false} AlikeRuns(b: Bucket, c: Bucket, ops: seq<Op>, from: Instant)
    requires Alike(b, c, from) && Ordered(ops, from)
    ensures Admissions(b, ops) == Admissions(c, TakesOnly(ops))
    decreases |ops|
  {
    if ops != [] {
      var x := ops[0];
      AlikeLater(b, c, from, x.at);
      if x.Poll? {
        AlikePoll(b, c, x.at);
        AlikeRuns(Refilled(b, x.at), c, ops[1..], x.at);
        assert TakesOnly(ops) == TakesOnly(ops[1..]);
      } else {
        AlikeTake(b, c, x.at);
        AlikeRuns(Taken(b, x.at), Taken(c, x.at), ops[1..], x.at);
        assert TakesOnly(ops)[1..] == TakesOnly(ops[1..]);
      }
    }
  }

  /** With non-decreasing time, polls change no admission, wherever they are put. */
  lemma PollsDoNotMatter(b: Bucket, ops: seq<Op>)
    requires Filled(b) && Ordered(ops, b.updatedAt)
    ensures Admissions(b, ops) == Admissions(b, TakesOnly(ops))
  {
    AlikeRuns(b, b, ops, b.updatedAt);
  }

  /** Times never go up, starting from `from`. */
  predicate Falling(ops: seq<Op>, from: Instant)
    decreases |ops|
  {
    ops != [] ==> ops[0].at <= from && Falling(ops[1..], ops[0].at)
  }

  lemma {:induction false} FallingNoForward(ops: seq<Op>, from: Instant)
    ensures Falling(ops, from) <==> Forward(ops, from) == 0
    ensures Falling(ops, from) ==> End(ops, from) <= from
    decreases |ops|
  {
    if ops != [] { FallingNoForward(ops[1..], ops[0].at); }
  }

  /** While time only falls nothing is refilled, so the credit is all that counts. */
  lemma {:induction false} FallingRuns(b: Bucket, c: Bucket, ops: seq<Op>, from: Instant)
    requires Filled(b) && c == b.(updatedAt := c.updatedAt)
    requires from <= b.updatedAt && from <= c.updatedAt && Falling(ops, from)
    ensures Admissions(b, ops) == Admissions(c, TakesOnly(ops))
    decreases |ops|
  {
    if ops != [] {
      var x := ops[0];
      if x.Poll? {
        FallingRuns(Refilled(b, x.at), c, ops[1..], x.at);
        assert TakesOnly(ops) == TakesOnly(ops[1..]);
      } else {
        FallingRuns(Taken(b, x.at), Taken(c, x.at), ops[1..], x.at);
        assert TakesOnly(ops)[1..] == TakesOnly(ops[1..]);
      }
    }
  }

  /** A poll at each moment, and `n` takes at the last. */
  function LateTakes(ops: seq<Op>, n: nat): seq<Op>
    requires ops != []
    decreases |ops|
  {
    [Poll(ops[0].at)] + if |ops| == 1 then Takes(ops[0].at, n) else LateTakes(ops[1..], n)
  }

  lemma {:induction false} OnlyTakes(at: Instant, n: nat)
    ensures TakesOnly(Takes(at, n)) == Takes(at, n)
  {
    if n > 0 {
      OnlyTakes(at, n - 1);
      assert Takes(at, n)[1..] == Takes(at, n - 1);
    }
  }

  lemma {:induction false} LateTakesShape(ops: seq<Op>, from: Instant, n: nat)
    requires ops != []
    ensures Over(LateTakes(ops, n), ops) && TakesOnly(LateTakes(ops, n)) == Takes(End(ops, from), n)
    decreases |ops|
  {
    var run := LateTakes(ops, n);
    if |ops| == 1 {
      TakesOver(ops[0].at, n, [], ops);
      assert Takes(ops[0].at, n) + [] == Takes(ops[0].at, n);
      assert run[1..] == Takes(ops[0].at, n);
      OnlyTakes(ops[0].at, n);
      assert End(ops[1..], ops[0].at) == ops[0].at;
    } else {
      LateTakesShape(ops[1..], ops[0].at, n);
      assert run[1..] == LateTakes(ops[1..], n);
    }
  }

  /** With the polls every nanosecond of forward movement pays for a token. */
  lemma {:induction false} LateTakesPaid(b: Bucket, ops: seq<Op>, have: nat)
    requires ops != [] && b.rate == TOKEN && b.credit == TOKEN * have
    requires b.capacity >= TOKEN * (have + Forward(ops, b.updatedAt))
    ensures Count(Admissions(b, LateTakes(ops, have + Forward(ops, b.updatedAt)))) == have + Forward(ops, b.updatedAt)
    decreases |ops|
  {
    var at := ops[0].at;
    var now, n := have + Since(at, b.updatedAt), have + Forward(ops, b.updatedAt);
    var run := LateTakes(ops, n);
    var next := b.(credit := TOKEN * now, updatedAt := at);
    assert run[0] == Poll(at) && Step(b, run[0]) == next;
    if |ops| == 1 {
      assert Forward(ops[1..], at) == 0;
      assert run[1..] == Takes(at, n) == Takes(at, n) + [];
      TakesEmpty(next, n, []);
    } else {
      assert run[1..] == LateTakes(ops[1..], n);
      LateTakesPaid(next, ops[1..], now);
    }
  }

  lemma {:induction false} TakesForward(at: Instant, n: nat, from: Instant)
    ensures Forward(Takes(at, n), from) <= Since(at, from)
  {
    if n > 0 {
      TakesForward(at, n - 1, at);
      assert Takes(at, n)[1..] == Takes(at, n - 1);
    }
  }

  /** If the moments go both up and down, some bucket and some run over them admit more with the polls than without. */
  lemma PollsMatter(ops: seq<Op>, from: Instant)
    requires !Ordered(ops, from) && !Falling(ops, from)
    ensures var n := Forward(ops, from);
            var b, run := Bucket(TOKEN, TOKEN * n, 0, from), LateTakes(ops, n);
            Over(run, ops) && Count(Admissions(b, TakesOnly(run))) < n == Count(Admissions(b, run))
  {
    var n := Forward(ops, from);
    var b := Bucket(TOKEN, TOKEN * n, 0, from);
    LateTakesShape(ops, from, n);
    LateTakesPaid(b, ops, 0);
    var takes := Takes(End(ops, from), n);
    TakesArePaid(b, takes);
    TakesForward(End(ops, from), n, from);
    ForwardIsElapsed(ops, from);
    FallingNoForward(ops, from);
  }

  /**
   Polls change no admission of any bucket last touched at `from`, in any run over these times, if and only if the
   moments, counted from there, never go back or never go forward.
   */
  lemma PollsExactly(ops: seq<Op>, from: Instant)
    ensures Ordered(ops, from) || Falling(ops, from) <==>
            forall b, run :: Filled(b) && b.updatedAt == from && Over(run, ops) ==>
              Admissions(b, run) == Admissions(b, TakesOnly(run))
  {
    if Ordered(ops, from) || Falling(ops, from) {
      forall b, run | Filled(b) && b.updatedAt == from && Over(run, ops)
        ensures Admissions(b, run) == Admissions(b, TakesOnly(run))
      {
        OverSameClock(run, ops, from);
        FallingNoForward(ops, from);
        FallingNoForward(run, from);
        if Ordered(ops, from) { PollsDoNotMatter(b, run); } else { FallingRuns(b, b, run, from); }
      }
    } else {
      PollsMatter(ops, from);
      assert Filled(Bucket(TOKEN, TOKEN * Forward(ops, from), 0, from));
    }
  }

  /** An instance: a poll in the past between two takes at one moment lets both through. */
  lemma PollBreaksAdmission()
    ensures var ops := [Take(TOKEN), Poll(0), Take(TOKEN)];
            Admissions(Full(1, 1, 0), ops) == [true, true] && Admissions(Full(1, 1, 0), TakesOnly(ops)) == [true, false]
  {
    var b, ops := Full(1, 1, 0), [Take(TOKEN), Poll(0), Take(TOKEN)];
    var b1 := Step(b, ops[0]);
    var b2 := Step(b1, ops[1]);
    assert ops[1..][1..] == [Take(TOKEN)] && [Take(TOKEN)][1..] == [];
    assert Admissions(b2, [Take(TOKEN)]) == [true];
    assert Admissions(b1, ops[1..]) == [true];
    assert TakesOnly([Take(TOKEN)]) == [Take(TOKEN)] && TakesOnly(ops[1..]) == [Take(TOKEN)];
    assert TakesOnly(ops) == [Take(TOKEN), Take(TOKEN)];
    assert TakesOnly(ops)[1..] == [Take(TOKEN)];
    assert Admissions(b1, [Take(TOKEN)]) == [false];
  }

  // ------------------------------------------------------------------ object

  class TokenBucket {
    const perSecond: nat
    const capacity: nat
    var credit: nat
    var updatedAt: Instant

    function Value(): Bucket reads this { Bucket(perSecond, capacity, credit, updatedAt) }

    constructor (perSecond: nat, burst: nat, now: Instant)
      requires burst < U64_LIMIT
      ensures Sound(Value()) && Value() == Full(perSecond, burst, now)
    {
      this.perSecond := perSecond;
      capacity, credit := burst * TOKEN, burst * TOKEN;
      updatedAt := now;
    }

    method HasCapacity(now: Instant) returns (r: bool)
      requires Sound(Value())
      modifies this
      ensures Value() == Refilled(old(Value()), now) && Sound(Value()) && r == (credit >= TOKEN)
    {
      SaturationIsInvisible(Value(), now);
      var added := SaturatingMul(Since(now, updatedAt), perSecond);
      credit := Min(capacity, SaturatingAdd(credit, added));
      updatedAt := now;
      r := credit >= TOKEN;
    }

    method TryTake(now: Instant) returns (r: bool)
      requires Sound(Value())
      modifies this
      ensures Value() == Taken(old(Value()), now) && Sound(Value()) && r == Admits(old(Value()), now)
    {
      r := HasCapacity(now);
      if r { credit := credit - TOKEN; }
    }
  }
}

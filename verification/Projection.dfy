/** One session's bindings, split over the shards that are responsible for them. */
module Projection {
  import opened Common
  import opened RouteModel
  import RT = RouteTable
  import opened Desired

  datatype Binding = Binding(id: Uuid, sessionId: Uuid, destination: Destination)

  /** Where and as what a binding is published. */
  datatype Origin = Origin(directory: Directory, gatewayId: Uuid, locator: Bytes, sessionId: Uuid)

  function Project(o: Origin, b: Binding): BindingProjection {
    BindingProjection(b.destination, BindingIdentity(o.gatewayId, o.sessionId, b.id), o.locator)
  }

  /** The projections of the bindings a shard is responsible for, in order. */
  function EntriesFor(o: Origin, bindings: seq<Binding>, shard: ShardId): seq<BindingProjection>
    requires o.directory.shards != []
  {
    if bindings == [] then []
    else
      var b := bindings[|bindings| - 1];
      EntriesFor(o, bindings[..|bindings| - 1], shard)
      + (if Authority(o.directory, b.destination) == shard then [Project(o, b)] else [])
  }

  /** An entry is there exactly when its binding is one of the session's and belongs to the shard. */
  lemma {:induction false} EntriesExact(o: Origin, bindings: seq<Binding>, shard: ShardId, e: BindingProjection)
    requires o.directory.shards != []
    ensures e in EntriesFor(o, bindings, shard) <==>
              exists k :: 0 <= k < |bindings| && Project(o, bindings[k]) == e
                          && Authority(o.directory, bindings[k].destination) == shard
  {
    if bindings != [] {
      var n := |bindings| - 1;
      var init, b := bindings[..n], bindings[n];
      EntriesExact(o, init, shard, e);
      if e in EntriesFor(o, init, shard) {
        var k :| 0 <= k < n && Project(o, init[k]) == e && Authority(o.directory, init[k].destination) == shard;
        assert bindings[k] == init[k];
      }
      if exists k :: 0 <= k < n && Project(o, bindings[k]) == e
                     && Authority(o.directory, bindings[k].destination) == shard {
        var k :| 0 <= k < n && Project(o, bindings[k]) == e
                 && Authority(o.directory, bindings[k].destination) == shard;
        assert init[k] == bindings[k];
      }
    }
  }

  /** Each binding has exactly one authority among the configured shards. */
  lemma OneAuthority(o: Origin, b: Binding)
    requires DirectoryOk(o.directory)
    ensures Authority(o.directory, b.destination) in o.directory.shards
  {
  }

  datatype ProjectionError = ForeignBinding | BadSnapshot

  datatype Outcome = Done(shards: seq<ProjectedSnapshot>) | Failed(error: ProjectionError)

  ghost predicate AllOurs(o: Origin, bindings: seq<Binding>) {
    forall k :: 0 <= k < |bindings| ==> bindings[k].sessionId == o.sessionId
  }

  ghost predicate AllDistinct(o: Origin, bindings: seq<Binding>)
    requires o.directory.shards != []
  {
    forall s :: s in o.directory.shards ==> Distinct(EntriesFor(o, bindings, s))
  }

  /** One shard's projected snapshot holds its entries, all of them; none at all is said outright. */
  ghost predicate Right(o: Origin, bindings: seq<Binding>, p: ProjectedSnapshot)
    requires o.directory.shards != []
  {
    var entries := EntriesFor(o, bindings, p.shardId);
    match p.snapshot
    case None => entries == []
    case Some(b) => entries != [] && Files(b, entries) && SnapshotOk(b)
  }

  /** Every configured shard appears exactly once, in directory order, with its entries. */
  ghost predicate AllRight(o: Origin, bindings: seq<Binding>, shards: seq<ProjectedSnapshot>)
    requires o.directory.shards != []
  {
    && |shards| == |o.directory.shards|
    && forall i :: 0 <= i < |shards| ==> shards[i].shardId == o.directory.shards[i] && Right(o, bindings, shards[i])
  }

  // ------------------------------------------------ in terms of the bindings

  /** Two bindings that cannot both be published: one Destination, or one id at one shard. */
  predicate Collide(o: Origin, a: Binding, b: Binding)
    requires o.directory.shards != []
  {
    || a.destination == b.destination
    || (a.id == b.id && Authority(o.directory, a.destination) == Authority(o.directory, b.destination))
  }

  ghost predicate NoneCollide(o: Origin, bindings: seq<Binding>)
    requires o.directory.shards != []
  {
    forall j, k :: 0 <= j < k < |bindings| ==> !Collide(o, bindings[j], bindings[k])
  }

  /** Of the bindings of one shard. */
  ghost predicate NoneCollideAt(o: Origin, bindings: seq<Binding>, shard: ShardId)
    requires o.directory.shards != []
  {
    forall j, k :: 0 <= j < k < |bindings| && At(o, bindings[j], shard) && At(o, bindings[k], shard) ==>
      !Collide(o, bindings[j], bindings[k])
  }

  predicate At(o: Origin, b: Binding, shard: ShardId)
    requires o.directory.shards != []
  {
    Authority(o.directory, b.destination) == shard
  }

  ghost predicate Unlike(entries: seq<BindingProjection>, e: BindingProjection) {
    forall x :: x in entries ==> x.identity != e.identity && !SameScope(x, e)
  }

  ghost predicate CollidesWithNone(o: Origin, bindings: seq<Binding>, b: Binding, shard: ShardId)
    requires o.directory.shards != []
  {
    forall k :: 0 <= k < |bindings| && At(o, bindings[k], shard) ==> !Collide(o, bindings[k], b)
  }

  lemma DistinctOneMore(entries: seq<BindingProjection>, e: BindingProjection)
    ensures Distinct(entries + [e]) <==> Distinct(entries) && Unlike(entries, e)
  {
    var longer := entries + [e];
    if Distinct(longer) {
      forall i, j | 0 <= i < j < |entries|
        ensures entries[i].identity != entries[j].identity && !SameScope(entries[i], entries[j])
      {
        assert longer[i] == entries[i] && longer[j] == entries[j];
      }
      forall x | x in entries ensures x.identity != e.identity && !SameScope(x, e) {
        var i :| 0 <= i < |entries| && entries[i] == x;
        assert longer[i] == x && longer[|entries|] == e;
      }
    } else {
      var i, j :| 0 <= i < j < |longer|
                  && (longer[i].identity == longer[j].identity || SameScope(longer[i], longer[j]));
      assert longer[i] == entries[i] && (j < |entries| ==> longer[j] == entries[j]);
    }
  }

  lemma OneMoreBinding(o: Origin, init: seq<Binding>, b: Binding, shard: ShardId, bindings: seq<Binding>)
    requires o.directory.shards != [] && bindings == init + [b]
    requires Distinct(EntriesFor(o, init, shard)) <==> NoneCollideAt(o, init, shard)
    ensures Distinct(EntriesFor(o, bindings, shard)) <==> NoneCollideAt(o, bindings, shard)
  {
    var entries := EntriesFor(o, init, shard);
    assert bindings[..|bindings| - 1] == init;
    CollideOneMore(o, init, b, shard);
    if At(o, b, shard) {
      assert EntriesFor(o, bindings, shard) == entries + [Project(o, b)];
      DistinctOneMore(entries, Project(o, b));
      NewEntryCollides(o, init, b, shard);
    } else {
      assert EntriesFor(o, bindings, shard) == entries;
    }
  }

  /** A shard's entries are distinct exactly when none of its bindings collide. */
  lemma {:induction false} DistinctMeansNoneCollide(o: Origin, bindings: seq<Binding>, shard: ShardId)
    requires o.directory.shards != []
    ensures Distinct(EntriesFor(o, bindings, shard)) <==> NoneCollideAt(o, bindings, shard)
  {
    if bindings != [] {
      var n := |bindings| - 1;
      var init, b := bindings[..n], bindings[n];
      DistinctMeansNoneCollide(o, init, shard);
      assert init + [b] == bindings;
      OneMoreBinding(o, init, b, shard, bindings);
    }
  }

  lemma CollideOneMore(o: Origin, init: seq<Binding>, b: Binding, shard: ShardId)
    requires o.directory.shards != []
    ensures NoneCollideAt(o, init + [b], shard) <==>
            NoneCollideAt(o, init, shard) && (At(o, b, shard) ==> CollidesWithNone(o, init, b, shard))
  {
    var bindings := init + [b];
    assert bindings[|init|] == b && forall k :: 0 <= k < |init| ==> bindings[k] == init[k];
    if NoneCollideAt(o, bindings, shard) && At(o, b, shard) {
      forall k | 0 <= k < |init| && At(o, init[k], shard) ensures !Collide(o, init[k], b) {
        assert bindings[k] == init[k] && bindings[|init|] == b;
      }
    }
    if NoneCollideAt(o, bindings, shard) {
      forall j, k | 0 <= j < k < |init| && At(o, init[j], shard) && At(o, init[k], shard)
        ensures !Collide(o, init[j], init[k])
      {
        assert bindings[j] == init[j] && bindings[k] == init[k];
      }
    }
  }

  lemma NewEntryCollides(o: Origin, init: seq<Binding>, b: Binding, shard: ShardId)
    requires o.directory.shards != [] && At(o, b, shard)
    ensures Unlike(EntriesFor(o, init, shard), Project(o, b)) <==> CollidesWithNone(o, init, b, shard)
  {
    var e, entries := Project(o, b), EntriesFor(o, init, shard);
    if CollidesWithNone(o, init, b, shard) {
      forall x | x in entries ensures x.identity != e.identity && !SameScope(x, e) {
        EntriesExact(o, init, shard, x);
        var k :| 0 <= k < |init| && Project(o, init[k]) == x && Authority(o.directory, init[k].destination) == shard;
        assert At(o, init[k], shard);
      }
    } else {
      var k :| 0 <= k < |init| && At(o, init[k], shard) && Collide(o, init[k], b);
      EntriesExact(o, init, shard, Project(o, init[k]));
      assert Project(o, init[k]) in entries;
    }
  }

  /** Two bindings collide at all exactly when they do at one of the shards. */
  lemma DistinctEverywhere(o: Origin, bindings: seq<Binding>)
    requires DirectoryOk(o.directory)
    ensures AllDistinct(o, bindings) <==> NoneCollide(o, bindings)
  {
    forall s | s in o.directory.shards
      ensures Distinct(EntriesFor(o, bindings, s)) <==> NoneCollideAt(o, bindings, s)
    {
      DistinctMeansNoneCollide(o, bindings, s);
    }
    if AllDistinct(o, bindings) {
      forall j, k | 0 <= j < k < |bindings| ensures !Collide(o, bindings[j], bindings[k]) {
        var s := Authority(o.directory, bindings[j].destination);
        OneAuthority(o, bindings[j]);
        assert Distinct(EntriesFor(o, bindings, s));
        assert At(o, bindings[j], s);
        assert At(o, bindings[k], s) || bindings[j].destination != bindings[k].destination;
      }
    }
  }

  /** The snapshot files the binding under the Gateway, the session and its id, with its Destination and the locator. */
  predicate Shows(o: Origin, b: Binding, p: ProjectedSnapshot) {
    var id := BindingIdentity(o.gatewayId, o.sessionId, b.id);
    p.snapshot.Some? && id in p.snapshot.value
    && p.snapshot.value[id] == BindingProjection(b.destination, id, o.locator)
  }

  /** Every binding is shown by its authority and by no other shard, and nothing else is shown. */
  ghost predicate ShowsExactly(o: Origin, bindings: seq<Binding>, p: ProjectedSnapshot)
    requires o.directory.shards != []
  {
    && (forall k :: 0 <= k < |bindings| ==> (Shows(o, bindings[k], p) <==> At(o, bindings[k], p.shardId)))
    && (p.snapshot.Some? ==> forall id :: id in p.snapshot.value ==> Sourced(o, bindings, p, id))
    && (p.snapshot.None? <==> forall k :: 0 <= k < |bindings| ==> !At(o, bindings[k], p.shardId))
  }

  ghost predicate Sourced(o: Origin, bindings: seq<Binding>, p: ProjectedSnapshot, id: BindingIdentity) {
    exists k :: 0 <= k < |bindings| && Shows(o, bindings[k], p)
                && id == BindingIdentity(o.gatewayId, o.sessionId, bindings[k].id)
  }

  lemma RightShowsExactly(o: Origin, bindings: seq<Binding>, p: ProjectedSnapshot)
    requires DirectoryOk(o.directory) && Right(o, bindings, p)
    ensures ShowsExactly(o, bindings, p)
  {
    forall k | 0 <= k < |bindings|
      ensures Shows(o, bindings[k], p) <==> At(o, bindings[k], p.shardId)
      ensures At(o, bindings[k], p.shardId) ==> p.snapshot.Some?
    {
      RightShows(o, bindings, p, k);
    }
    if p.snapshot.Some? {
      forall id | id in p.snapshot.value ensures Sourced(o, bindings, p, id) { RightSourced(o, bindings, p, id); }
      var e := EntriesFor(o, bindings, p.shardId)[0];
      EntriesExact(o, bindings, p.shardId, e);
      var k :| 0 <= k < |bindings| && Project(o, bindings[k]) == e
               && Authority(o.directory, bindings[k].destination) == p.shardId;
      assert At(o, bindings[k], p.shardId);
    }
  }

  lemma RightShows(o: Origin, bindings: seq<Binding>, p: ProjectedSnapshot, k: nat)
    requires DirectoryOk(o.directory) && Right(o, bindings, p) && k < |bindings|
    ensures Shows(o, bindings[k], p) <==> At(o, bindings[k], p.shardId)
  {
    var e, entries := Project(o, bindings[k]), EntriesFor(o, bindings, p.shardId);
    EntriesExact(o, bindings, p.shardId, e);
    if Shows(o, bindings[k], p) {
      assert p.snapshot.value[e.identity] in entries;
      var j :| 0 <= j < |bindings| && Project(o, bindings[j]) == e
               && Authority(o.directory, bindings[j].destination) == p.shardId;
      assert bindings[j].destination == bindings[k].destination;
    }
    if At(o, bindings[k], p.shardId) {
      assert e in entries;
      var j :| 0 <= j < |entries| && entries[j] == e;
      assert p.snapshot.value[entries[j].identity] == entries[j];
    }
  }

  lemma RightSourced(o: Origin, bindings: seq<Binding>, p: ProjectedSnapshot, id: BindingIdentity)
    requires DirectoryOk(o.directory) && Right(o, bindings, p) && p.snapshot.Some? && id in p.snapshot.value
    ensures Sourced(o, bindings, p, id)
  {
    var e := p.snapshot.value[id];
    assert e in EntriesFor(o, bindings, p.shardId);
    EntriesExact(o, bindings, p.shardId, e);
    var k :| 0 <= k < |bindings| && Project(o, bindings[k]) == e
             && Authority(o.directory, bindings[k].destination) == p.shardId;
    assert Shows(o, bindings[k], p);
  }

  // ---------------------------------------------------------- the projection

  method GroupByShard(o: Origin, bindings: seq<Binding>)
    returns (byShard: map<ShardId, seq<BindingProjection>>, foreign: bool)
    requires DirectoryOk(o.directory)
    ensures foreign <==> !AllOurs(o, bindings)
    ensures !foreign ==> forall s :: s in o.directory.shards ==>
             s in byShard && byShard[s] == EntriesFor(o, bindings, s)
  {
    byShard := map s | s in o.directory.shards :: [];
    var n := 0;
    while n < |bindings|
      invariant 0 <= n <= |bindings| && forall k :: 0 <= k < n ==> bindings[k].sessionId == o.sessionId
      invariant forall s :: s in o.directory.shards ==> s in byShard && byShard[s] == EntriesFor(o, bindings[..n], s)
    {
      var b := bindings[n];
      if b.sessionId != o.sessionId { return byShard, true; }
      var shard := Authority(o.directory, b.destination);
      OneAuthority(o, b);
      assert bindings[..n + 1][..n] == bindings[..n];
      byShard := byShard[shard := byShard[shard] + [Project(o, b)]];
      n := n + 1;
    }
    assert bindings[..n] == bindings;
    foreign := false;
  }

  /** Every configured shard appears exactly once, with exactly the bindings it is responsible for. */
  method ProjectSession(o: Origin, bindings: seq<Binding>) returns (r: Outcome)
    requires DirectoryOk(o.directory)
    ensures r.Done? <==> AllOurs(o, bindings) && NoneCollide(o, bindings)
    ensures r == Failed(ForeignBinding) <==> !AllOurs(o, bindings)
    ensures r.Done? ==>
              && AllRight(o, bindings, r.shards)
              && forall i :: 0 <= i < |r.shards| ==> ShowsExactly(o, bindings, r.shards[i])
  {
    DistinctEverywhere(o, bindings);
    var byShard, foreign := GroupByShard(o, bindings);
    if foreign { return Failed(ForeignBinding); }
    var shards: seq<ProjectedSnapshot> := [];
    var i := 0;
    while i < |o.directory.shards|
      invariant 0 <= i <= |o.directory.shards| && |shards| == i
      invariant forall k :: 0 <= k < i ==>
        shards[k].shardId == o.directory.shards[k] && Right(o, bindings, shards[k])
        && Distinct(EntriesFor(o, bindings, o.directory.shards[k]))
    {
      var s := o.directory.shards[i];
      assert s in o.directory.shards;
      var entries := byShard[s];
      var snapshot: Option<Bindings> := None;
      if entries != [] {
        var built := BuildSnapshot(entries);
        if built.Err? { return Failed(BadSnapshot); }
        snapshot := Some(built.value);
      }
      shards := shards + [ProjectedSnapshot(s, snapshot)];
      i := i + 1;
    }
    forall k | 0 <= k < |shards| ensures ShowsExactly(o, bindings, shards[k]) {
      RightShowsExactly(o, bindings, shards[k]);
    }
    return Done(shards);
  }

  /** Every snapshot produced passes its shard's own scope and authority validation. */
  lemma ProjectedInScope(o: Origin, bindings: seq<Binding>, p: ProjectedSnapshot, c: RT.ShardConfig,
                         key: RegistrationKey)
    requires DirectoryOk(o.directory) && Right(o, bindings, p) && p.snapshot.Some?
    requires c.directory == o.directory && c.shardId == p.shardId
    requires key == RegistrationKey(o.gatewayId, o.sessionId, p.shardId)
    ensures RT.InScope(c, key, p.snapshot.value)
  {
    var b, entries := p.snapshot.value, EntriesFor(o, bindings, p.shardId);
    forall i | i in b
      ensures b[i].identity.gatewayId == key.gatewayId && b[i].identity.relaySessionId == key.relaySessionId
      ensures Authority(c.directory, b[i].destination) == c.shardId
    {
      assert b[i] in entries;
      EntriesExact(o, bindings, p.shardId, b[i]);
    }
  }

  /** No binding is lost and none is published twice: exactly one shard shows it. */
  lemma BindingLandsOnce(o: Origin, bindings: seq<Binding>, shards: seq<ProjectedSnapshot>, k: nat)
    requires DirectoryOk(o.directory) && AllRight(o, bindings, shards) && k < |bindings|
    ensures exists i :: 0 <= i < |shards| && Shows(o, bindings[k], shards[i])
    ensures forall i, j | 0 <= i < |shards| && 0 <= j < |shards| ::
              Shows(o, bindings[k], shards[i]) && Shows(o, bindings[k], shards[j]) ==> i == j
  {
    OneAuthority(o, bindings[k]);
    var s := Authority(o.directory, bindings[k].destination);
    var i :| 0 <= i < |o.directory.shards| && o.directory.shards[i] == s;
    RightShows(o, bindings, shards[i], k);
    forall j | 0 <= j < |shards| && Shows(o, bindings[k], shards[j]) ensures j == i {
      RightShows(o, bindings, shards[j], k);
    }
  }
}

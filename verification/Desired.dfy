/** Desired routing state: committed per session, read back shard by shard as deltas. */
module Desired {
  import opened Common
  import opened RouteModel

  datatype Entry = Entry(version: nat, snapshot: Bindings)

  /** One shard's part: the sessions it should hold, and removals its worker has not seen yet. */
  datatype DesiredShard = DesiredShard(sessions: map<Uuid, Entry>, removed: map<Uuid, nat>)

  datatype ProjectedSnapshot = ProjectedSnapshot(shardId: ShardId, snapshot: Option<Bindings>)

  datatype Store = Store(version: nat, byShard: map<ShardId, DesiredShard>)

  const NO_SESSIONS := DesiredShard(map[], map[])

  function ShardOf(s: Store, id: ShardId): DesiredShard { if id in s.byShard then s.byShard[id] else NO_SESSIONS }

  // ------------------------------------------------------------------ commit

  function Without<V>(m: map<Uuid, V>, id: Uuid): map<Uuid, V> { map k | k in m && k != id :: m[k] }

  function Projected(d: DesiredShard, version: nat, session: Uuid, snapshot: Option<Bindings>): DesiredShard {
    match snapshot
    case Some(b) => DesiredShard(d.sessions[session := Entry(version, b)], Without(d.removed, session))
    case None =>
      if session in d.sessions then DesiredShard(Without(d.sessions, session), d.removed[session := version]) else d
  }

  function CommitAll(s: Store, session: Uuid, projected: seq<ProjectedSnapshot>): Store {
    if projected == [] then s
    else
      var t := CommitAll(s, session, projected[..|projected| - 1]);
      var p := projected[|projected| - 1];
      t.(byShard := t.byShard[p.shardId := Projected(ShardOf(t, p.shardId), t.version, session, p.snapshot)])
  }

  /** A new version, or `None` when versions are exhausted. */
  function Committed(s: Store, session: Uuid, projected: seq<ProjectedSnapshot>): Option<Store> {
    if s.version + 1 >= U64_LIMIT then None
    else Some(CommitAll(s.(version := s.version + 1), session, projected))
  }

  // -------------------------------------------------------------------- views

  datatype View = View(storeVersion: nat, changed: map<Uuid, Entry>, removed: map<Uuid, nat>)

  function Changed(d: DesiredShard, observed: nat): map<Uuid, Entry> {
    map k | k in d.sessions && d.sessions[k].version > observed :: d.sessions[k]
  }

  /** What changed for one shard after `observed`; the removals handed out are forgotten. */
  function Viewed(s: Store, id: ShardId, observed: nat): (Store, Option<View>) {
    if s.version <= observed then (s, None)
    else if id !in s.byShard then (s, Some(View(s.version, map[], map[])))
    else
      var d := s.byShard[id];
      (s.(byShard := s.byShard[id := d.(removed := map[])]), Some(View(s.version, Changed(d, observed), d.removed)))
  }

  // ------------------------------------------------------- a shard's worker

  /** What a worker holds and the version it has seen. */
  datatype Worker = Worker(held: map<Uuid, Entry>, observed: nat)

  const IDLE := Worker(map[], 0)

  function Apply(w: Worker, v: View): Worker {
    Worker(map k | k in w.held.Keys + v.changed.Keys && k !in v.removed ::
             if k in v.changed then v.changed[k] else w.held[k],
           v.storeVersion)
  }

  /** Store and worker fit together. */
  ghost predicate Fits(version: nat, d: DesiredShard, w: Worker) {
    && w.observed <= version
    && (forall k :: k in d.sessions ==> 1 <= d.sessions[k].version <= version)
    && (forall k :: k in d.removed ==> k !in d.sessions && w.observed < d.removed[k] <= version)
    && (forall k :: k in w.held ==> w.held[k].version <= w.observed)
    && (forall k :: k in d.sessions && d.sessions[k].version <= w.observed ==>
        k in w.held && w.held[k] == d.sessions[k])
    && (forall k :: k in w.held && k !in d.sessions ==> k in d.removed)
    && (forall k :: k in w.held && k in d.sessions && d.sessions[k].version <= w.observed ==>
        w.held[k] == d.sessions[k])
  }

  /** One shard's part of a commit keeps store and worker together. */
  lemma ProjectedFits(version: nat, d: DesiredShard, w: Worker, session: Uuid, snapshot: Option<Bindings>)
    requires Fits(version, d, w) && w.observed < version
    ensures Fits(version, Projected(d, version, session, snapshot), w)
  {
  }

  lemma NewVersionFits(version: nat, d: DesiredShard, w: Worker)
    requires Fits(version, d, w)
    ensures Fits(version + 1, d, w)
  {
  }

  /**
   After applying a view the worker holds exactly the store's sessions for the
   shard, and everything the view reported was news to it.
   */
  lemma ViewCatchesUp(s: Store, id: ShardId, w: Worker)
    requires Fits(s.version, ShardOf(s, id), w) && Viewed(s, id, w.observed).1.Some?
    ensures var (t, view) := Viewed(s, id, w.observed);
            && Apply(w, view.value) == Worker(ShardOf(s, id).sessions, s.version)
            && ShardOf(t, id).sessions == ShardOf(s, id).sessions && ShardOf(t, id).removed == map[]
            && Fits(t.version, ShardOf(t, id), Apply(w, view.value))
    ensures var v := Viewed(s, id, w.observed).1.value;
            && (forall k :: k in v.changed && k in w.held ==> v.changed[k].version > w.held[k].version)
            && (forall k :: k in v.removed && k in w.held ==> v.removed[k] > w.held[k].version)
            && (forall k :: k in v.removed ==> w.observed < v.removed[k] <= v.storeVersion)
            && (forall k :: k in v.changed ==> w.observed < v.changed[k].version <= v.storeVersion)
  {
  }

  lemma NoViewMeansSame(s: Store, id: ShardId, w: Worker)
    requires Fits(s.version, ShardOf(s, id), w) && Viewed(s, id, w.observed).1.None?
    ensures w.held == ShardOf(s, id).sessions
  {
  }

  // -------------------------------------------------------------------- runs

  datatype Report = Report(shard: ShardId, session: Uuid, version: nat)

  /** A store with one worker per shard; `reported` records the removals handed out. */
  datatype System = System(store: Store, workers: map<ShardId, Worker>, reported: set<Report>)

  datatype Step = Commit(session: Uuid, projected: seq<ProjectedSnapshot>) | Look(shard: ShardId)

  function WorkerOf(y: System, id: ShardId): Worker { if id in y.workers then y.workers[id] else IDLE }

  function Reports(id: ShardId, v: View): set<Report> { set k | k in v.removed :: Report(id, k, v.removed[k]) }

  function Next(y: System, x: Step): System {
    match x
    case Commit(session, projected) =>
      (match Committed(y.store, session, projected)
       case None => y
       case Some(store) => y.(store := store))
    case Look(id) =>
      var w := WorkerOf(y, id);
      var (store, view) := Viewed(y.store, id, w.observed);
      match view
      case None => y
      case Some(v) =>
        System(store, y.workers[id := Apply(w, v)], y.reported + Reports(id, v))
  }

  ghost predicate Inv(y: System) {
    && (forall id {:trigger WorkerOf(y, id)} {:trigger ShardOf(y.store, id)} ::
          Fits(y.store.version, ShardOf(y.store, id), WorkerOf(y, id)))
    && (forall r :: r in y.reported ==> r.version <= WorkerOf(y, r.shard).observed)
  }

  lemma {:induction false} CommitAllFits(s: Store, session: Uuid, projected: seq<ProjectedSnapshot>, id: ShardId,
                                         w: Worker)
    requires Fits(s.version, ShardOf(s, id), w) && w.observed < s.version
    ensures var t := CommitAll(s, session, projected);
            t.version == s.version && Fits(t.version, ShardOf(t, id), w)
  {
    if projected != [] {
      var init, p := projected[..|projected| - 1], projected[|projected| - 1];
      CommitAllFits(s, session, init, id, w);
      var t := CommitAll(s, session, init);
      if p.shardId == id { ProjectedFits(t.version, ShardOf(t, id), w, session, p.snapshot); }
    }
  }

  lemma CommitFits(s: Store, session: Uuid, projected: seq<ProjectedSnapshot>, id: ShardId, w: Worker)
    requires Fits(s.version, ShardOf(s, id), w) && Committed(s, session, projected).Some?
    ensures var t := Committed(s, session, projected).value; Fits(t.version, ShardOf(t, id), w)
  {
    NewVersionFits(s.version, ShardOf(s, id), w);
    CommitAllFits(s.(version := s.version + 1), session, projected, id, w);
  }

  lemma CommitInv(y: System, session: Uuid, projected: seq<ProjectedSnapshot>)
    requires Inv(y) && Committed(y.store, session, projected).Some?
    ensures Inv(y.(store := Committed(y.store, session, projected).value))
  {
    var z := y.(store := Committed(y.store, session, projected).value);
    forall id ensures Fits(z.store.version, ShardOf(z.store, id), WorkerOf(z, id)) {
      assert Fits(y.store.version, ShardOf(y.store, id), WorkerOf(y, id));
      CommitFits(y.store, session, projected, id, WorkerOf(y, id));
    }
    forall r | r in z.reported ensures r.version <= WorkerOf(z, r.shard).observed {
      assert WorkerOf(z, r.shard) == WorkerOf(y, r.shard);
    }
  }

  /** The look of one worker leaves every other shard and worker alone. */
  lemma LookElsewhere(y: System, id: ShardId, k: ShardId)
    requires k != id
    ensures var z := Next(y, Look(id));
            ShardOf(z.store, k) == ShardOf(y.store, k) && WorkerOf(z, k) == WorkerOf(y, k)
  {
  }

  lemma LookHere(y: System, id: ShardId)
    requires Fits(y.store.version, ShardOf(y.store, id), WorkerOf(y, id))
    ensures var z := Next(y, Look(id));
            && z.store.version == y.store.version
            && ShardOf(z.store, id).sessions == ShardOf(y.store, id).sessions
            && WorkerOf(z, id).held == ShardOf(z.store, id).sessions
            && Fits(z.store.version, ShardOf(z.store, id), WorkerOf(z, id))
            && WorkerOf(z, id).observed >= WorkerOf(y, id).observed
            && (forall r :: r in z.reported && r !in y.reported ==>
                r.shard == id && r.version <= WorkerOf(z, id).observed)
  {
    var w := WorkerOf(y, id);
    if Viewed(y.store, id, w.observed).1.None? {
      NoViewMeansSame(y.store, id, w);
    } else {
      ViewCatchesUp(y.store, id, w);
    }
  }

  lemma LookInv(y: System, id: ShardId)
    requires Inv(y)
    ensures Inv(Next(y, Look(id)))
  {
    var z := Next(y, Look(id));
    assert Fits(y.store.version, ShardOf(y.store, id), WorkerOf(y, id));
    LookHere(y, id);
    forall k ensures Fits(z.store.version, ShardOf(z.store, k), WorkerOf(z, k)) {
      if k != id {
        assert Fits(y.store.version, ShardOf(y.store, k), WorkerOf(y, k));
        LookElsewhere(y, id, k);
      }
    }
    forall r | r in z.reported ensures r.version <= WorkerOf(z, r.shard).observed {
      if r.shard != id { LookElsewhere(y, id, r.shard); }
    }
  }

  /** A removal that a view hands out has never been handed out before. */
  lemma RemovalsReportedOnce(y: System, id: ShardId)
    requires Inv(y) && Viewed(y.store, id, WorkerOf(y, id).observed).1.Some?
    ensures Reports(id, Viewed(y.store, id, WorkerOf(y, id).observed).1.value) !! y.reported
  {
    var w := WorkerOf(y, id);
    ViewCatchesUp(y.store, id, w);
    var v := Viewed(y.store, id, w.observed).1.value;
    forall r | r in Reports(id, v) ensures r !in y.reported { assert r.version > WorkerOf(y, r.shard).observed; }
  }

  function After(y: System, steps: seq<Step>): System {
    if steps == [] then y else Next(After(y, steps[..|steps| - 1]), steps[|steps| - 1])
  }

  const START := System(Store(0, map[]), map[], {})

  lemma {:induction false} RunInv(steps: seq<Step>)
    ensures Inv(After(START, steps))
  {
    if steps != [] {
      var init, x := steps[..|steps| - 1], steps[|steps| - 1];
      RunInv(init);
      var y := After(START, init);
      match x
      case Look(id) => LookInv(y, id);
      case Commit(session, projected) =>
        if Committed(y.store, session, projected).Some? { CommitInv(y, session, projected); }
    }
  }

  /** In every run, a worker that has just looked holds exactly what the store wants of its shard. */
  lemma WorkerFollowsStore(steps: seq<Step>, id: ShardId)
    ensures var y := After(START, steps + [Look(id)]);
            && WorkerOf(y, id).held == ShardOf(y.store, id).sessions
            && ShardOf(y.store, id).sessions == ShardOf(After(START, steps).store, id).sessions
  {
    RunInv(steps);
    var y := After(START, steps);
    assert Fits(y.store.version, ShardOf(y.store, id), WorkerOf(y, id));
    LookHere(y, id);
    assert (steps + [Look(id)])[..|steps|] == steps;
  }

  // -------------------------------------------------- what the next view says

  /** The last entry for shard `id`, which is the one that counts. */
  function LastFor(projected: seq<ProjectedSnapshot>, id: ShardId): Option<Option<Bindings>> {
    if projected == [] then None
    else
      var p := projected[|projected| - 1];
      if p.shardId == id then Some(p.snapshot) else LastFor(projected[..|projected| - 1], id)
  }

  /** The shard's part wants this of the session since `version`; `was` says if it wanted the session before. */
  predicate Wants(d: DesiredShard, session: Uuid, version: nat, snapshot: Option<Bindings>, was: bool) {
    match snapshot
    case Some(b) => session in d.sessions && d.sessions[session] == Entry(version, b)
    case None => session !in d.sessions && (was ==> session in d.removed && d.removed[session] == version)
  }

  lemma {:induction false} CommitAllWants(s: Store, session: Uuid, projected: seq<ProjectedSnapshot>, id: ShardId)
    ensures var t := CommitAll(s, session, projected);
            match LastFor(projected, id)
            case Some(snapshot) =>
              Wants(ShardOf(t, id), session, s.version, snapshot, session in ShardOf(s, id).sessions)
            case None => ShardOf(t, id) == ShardOf(s, id)
  {
    if projected != [] {
      CommitAllWants(s, session, projected[..|projected| - 1], id);
      CommitAllVersion(s, session, projected[..|projected| - 1]);
    }
  }

  /** A commit for one session leaves what is wanted of the others. */
  lemma {:induction false} CommitAllOthers(s: Store, session: Uuid, projected: seq<ProjectedSnapshot>, id: ShardId,
                                           other: Uuid, version: nat, snapshot: Option<Bindings>, was: bool)
    requires other != session && Wants(ShardOf(s, id), other, version, snapshot, was)
    ensures Wants(ShardOf(CommitAll(s, session, projected), id), other, version, snapshot, was)
  {
    if projected != [] {
      CommitAllOthers(s, session, projected[..|projected| - 1], id, other, version, snapshot, was);
    }
  }

  /** The step reads shard `id`, or commits the session there. */
  predicate Concerns(x: Step, session: Uuid, id: ShardId) {
    match x
    case Look(shard) => shard == id
    case Commit(s, projected) => s == session && LastFor(projected, id).Some?
  }

  /** What the session's last commit left at shard `id`, and the worker has not seen. */
  predicate News(y: System, id: ShardId, session: Uuid, version: nat, snapshot: Option<Bindings>, was: bool) {
    && WorkerOf(y, id).observed < version <= y.store.version
    && Wants(ShardOf(y.store, id), session, version, snapshot, was)
  }

  lemma NewsLasts(y: System, x: Step, id: ShardId, session: Uuid, version: nat, snapshot: Option<Bindings>, was: bool)
    requires News(y, id, session, version, snapshot, was) && !Concerns(x, session, id)
    ensures News(Next(y, x), id, session, version, snapshot, was)
  {
    match x
    case Look(shard) => LookElsewhere(y, shard, id);
    case Commit(s, projected) =>
      if Committed(y.store, s, projected).Some? {
        var start := y.store.(version := y.store.version + 1);
        CommitAllVersion(start, s, projected);
        if s == session { CommitAllWants(start, s, projected, id); }
        else { CommitAllOthers(start, s, projected, id, session, version, snapshot, was); }
      }
  }

  lemma {:induction false} NewsLastsLong(y: System, steps: seq<Step>, id: ShardId, session: Uuid, version: nat,
                                         snapshot: Option<Bindings>, was: bool)
    requires News(y, id, session, version, snapshot, was) && forall x :: x in steps ==> !Concerns(x, session, id)
    ensures News(After(y, steps), id, session, version, snapshot, was)
  {
    if steps != [] {
      NewsLastsLong(y, steps[..|steps| - 1], id, session, version, snapshot, was);
      NewsLasts(After(y, steps[..|steps| - 1]), steps[|steps| - 1], id, session, version, snapshot, was);
    }
  }

  /**
   What a view says of one session: the new entry and no removal; or a removal if the worker held it, with the
   commit's version if the session was wanted until then.
   */
  predicate Tells(v: View, w: Worker, session: Uuid, version: nat, snapshot: Option<Bindings>, was: bool) {
    match snapshot
    case Some(b) => session in v.changed && v.changed[session] == Entry(version, b) && session !in v.removed
    case None =>
      && session !in v.changed && (session in w.held ==> session in v.removed)
      && (was ==> session in v.removed && v.removed[session] == version)
  }

  lemma ViewTellsNews(y: System, id: ShardId, session: Uuid, version: nat, snapshot: Option<Bindings>, was: bool)
    requires Inv(y) && News(y, id, session, version, snapshot, was)
    ensures var view := Viewed(y.store, id, WorkerOf(y, id).observed).1;
            view.Some? && Tells(view.value, WorkerOf(y, id), session, version, snapshot, was)
  {
    assert Fits(y.store.version, ShardOf(y.store, id), WorkerOf(y, id));
  }

  lemma {:induction false} AfterConcat(y: System, a: seq<Step>, b: seq<Step>)
    ensures After(y, a + b) == After(After(y, a), b)
  {
    if b == [] {
      assert a + b == a;
    } else {
      AfterConcat(y, a, b[..|b| - 1]);
      assert (a + b)[..|a + b| - 1] == a + b[..|b| - 1];
    }
  }

  lemma CommitIsNews(y: System, session: Uuid, projected: seq<ProjectedSnapshot>, id: ShardId)
    requires LastFor(projected, id).Some? && y.store.version + 1 < U64_LIMIT
    requires WorkerOf(y, id).observed <= y.store.version
    ensures News(Next(y, Commit(session, projected)), id, session, y.store.version + 1,
                 LastFor(projected, id).value, session in ShardOf(y.store, id).sessions)
  {
    var start := y.store.(version := y.store.version + 1);
    CommitAllWants(start, session, projected, id);
    CommitAllVersion(start, session, projected);
  }

  /**
   In every run, the first view of a shard after a session's last commit there reports that commit's last entry:
   wanting the session again withdraws a removal not yet handed out, and not wanting it withdraws a change.
   */
  lemma NextViewReports(steps: seq<Step>, session: Uuid, projected: seq<ProjectedSnapshot>, between: seq<Step>,
                        id: ShardId)
    requires LastFor(projected, id).Some? && After(START, steps).store.version + 1 < U64_LIMIT
    requires forall x :: x in between ==> !Concerns(x, session, id)
    ensures var y := After(START, steps + [Commit(session, projected)] + between);
            var view := Viewed(y.store, id, WorkerOf(y, id).observed).1;
            && view.Some?
            && Tells(view.value, WorkerOf(y, id), session, After(START, steps).store.version + 1,
                     LastFor(projected, id).value, session in ShardOf(After(START, steps).store, id).sessions)
  {
    var commit := Commit(session, projected);
    var version := After(START, steps).store.version + 1;
    var snapshot := LastFor(projected, id).value;
    var was := session in ShardOf(After(START, steps).store, id).sessions;
    RunInv(steps);
    assert Fits(version - 1, ShardOf(After(START, steps).store, id), WorkerOf(After(START, steps), id));
    CommitIsNews(After(START, steps), session, projected, id);
    assert (steps + [commit])[..|steps|] == steps;
    NewsLastsLong(After(START, steps + [commit]), between, id, session, version, snapshot, was);
    AfterConcat(START, steps + [commit], between);
    RunInv(steps + [commit] + between);
    ViewTellsNews(After(START, steps + [commit] + between), id, session, version, snapshot, was);
  }

  // --------------------------------------------------------- what workers hold

  function Commits(steps: seq<Step>): nat {
    if steps == [] then 0 else Commits(steps[..|steps| - 1]) + if steps[|steps| - 1].Commit? then 1 else 0
  }

  /** What the session last committed for the shard, read from the steps; commits past the last version fail. */
  function LastCommitted(steps: seq<Step>, session: Uuid, id: ShardId): Option<Bindings> {
    if steps == [] then None
    else
      var init, x := steps[..|steps| - 1], steps[|steps| - 1];
      if Concerns(x, session, id) && x.Commit? && Commits(init) + 1 < U64_LIMIT
      then LastFor(x.projected, id).value
      else LastCommitted(init, session, id)
  }

  function SnapshotOf(sessions: map<Uuid, Entry>, session: Uuid): Option<Bindings> {
    if session in sessions then Some(sessions[session].snapshot) else None
  }

  lemma {:induction false} CommitAllStores(s: Store, owner: Uuid, projected: seq<ProjectedSnapshot>, id: ShardId,
                                           session: Uuid)
    ensures SnapshotOf(ShardOf(CommitAll(s, owner, projected), id).sessions, session) ==
            if owner == session && LastFor(projected, id).Some? then LastFor(projected, id).value
            else SnapshotOf(ShardOf(s, id).sessions, session)
  {
    if projected != [] { CommitAllStores(s, owner, projected[..|projected| - 1], id, session); }
  }

  lemma LookStores(y: System, shard: ShardId, id: ShardId)
    ensures var z := Next(y, Look(shard));
            z.store.version == y.store.version && ShardOf(z.store, id).sessions == ShardOf(y.store, id).sessions
  {
  }

  lemma {:induction false} StoreHoldsLast(steps: seq<Step>, session: Uuid, id: ShardId)
    ensures var s := After(START, steps).store;
            && s.version == (if Commits(steps) < U64_LIMIT then Commits(steps) else U64_LIMIT - 1)
            && SnapshotOf(ShardOf(s, id).sessions, session) == LastCommitted(steps, session, id)
  {
    if steps != [] {
      var init, x := steps[..|steps| - 1], steps[|steps| - 1];
      StoreHoldsLast(init, session, id);
      var y := After(START, init);
      match x
      case Look(shard) => LookStores(y, shard, id);
      case Commit(owner, projected) =>
        if y.store.version + 1 < U64_LIMIT {
          var start := y.store.(version := y.store.version + 1);
          CommitAllStores(start, owner, projected, id, session);
          CommitAllVersion(start, owner, projected);
        }
    }
  }

  /** In every run, a worker that has just looked holds of each session what it last committed for the shard. */
  lemma WorkerHoldsLastCommitted(steps: seq<Step>, session: Uuid, id: ShardId)
    ensures SnapshotOf(WorkerOf(After(START, steps + [Look(id)]), id).held, session) ==
            LastCommitted(steps, session, id)
  {
    WorkerFollowsStore(steps, id);
    StoreHoldsLast(steps, session, id);
  }

  // ------------------------------------------------------------------ object

  class DesiredStore {
    var version: nat
    var byShard: map<ShardId, DesiredShard>

    function Value(): Store reads this { Store(version, byShard) }

    constructor ()
      ensures Value() == START.store
    {
      version, byShard := 0, map[];
    }

    /** Stores one session's projection under a new version. */
    method Commit(session: Uuid, projected: seq<ProjectedSnapshot>) returns (r: Option<nat>)
      modifies this
      ensures match Committed(old(Value()), session, projected)
              case None => r.None? && Value() == old(Value())
              case Some(store) => r == Some(store.version) && Value() == store
    {
      if version + 1 >= U64_LIMIT { return None; }
      version := version + 1;
      ghost var start := Value();
      var i := 0;
      while i < |projected|
        invariant 0 <= i <= |projected| && version == start.version
        invariant Value() == CommitAll(start, session, projected[..i])
      {
        var p := projected[i];
        assert projected[..i + 1][..i] == projected[..i];
        var shard := ShardOf(Value(), p.shardId);
        if p.snapshot.Some? {
          shard := DesiredShard(shard.sessions[session := Entry(version, p.snapshot.value)],
                                Without(shard.removed, session));
        } else if session in shard.sessions {
          shard := DesiredShard(Without(shard.sessions, session), shard.removed[session := version]);
        }
        byShard := byShard[p.shardId := shard];
        i := i + 1;
      }
      assert projected[..i] == projected;
      CommitAllVersion(start, session, projected);
      return Some(version);
    }

    /** Hands out what changed for one shard, and forgets the removals it hands out. */
    method ShardViewAfter(id: ShardId, observed: nat) returns (view: Option<View>)
      modifies this
      ensures (Value(), view) == Viewed(old(Value()), id, observed)
    {
      if version <= observed { return None; }
      if id !in byShard { return Some(View(version, map[], map[])); }
      var d := byShard[id];
      view := Some(View(version, Changed(d, observed), d.removed));
      byShard := byShard[id := d.(removed := map[])];
    }
  }

  lemma {:induction false} CommitAllVersion(s: Store, session: Uuid, projected: seq<ProjectedSnapshot>)
    ensures CommitAll(s, session, projected).version == s.version
  {
    if projected != [] { CommitAllVersion(s, session, projected[..|projected| - 1]); }
  }
}

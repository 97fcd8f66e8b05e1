/** The values a RouteTable shard and its clients exchange. */
module RouteModel {
  import opened Common

  type ShardId = Bytes
  type Generation = Bytes

  datatype RegistrationKey = RegistrationKey(gatewayId: Uuid, relaySessionId: Uuid, shardId: ShardId)

  datatype BindingIdentity = BindingIdentity(gatewayId: Uuid, relaySessionId: Uuid, bindingId: Uuid)

  datatype BindingProjection = BindingProjection(destination: Destination, identity: BindingIdentity, locator: Bytes)

  type Bindings = map<BindingIdentity, BindingProjection>

  datatype RouteTableError =
    InvalidArgument | PermissionDenied | FailedPrecondition | NotFound | DeadlineOverflow

  datatype Result<+T> = Ok(value: T) | Err(error: RouteTableError)

  const FIRST_REVISION: nat := 1

  datatype RegistrationAck = RegistrationAck(lease: Uuid, acceptedRevision: Option<nat>, expiresIn: nat)

  // ------------------------------------------------------- binding snapshots

  /** Entries are filed under their own identity. */
  ghost predicate Filed(b: Bindings) { forall i :: i in b ==> b[i].identity == i }

  predicate SameScope(p: BindingProjection, q: BindingProjection) {
    && p.identity.gatewayId == q.identity.gatewayId
    && p.identity.relaySessionId == q.identity.relaySessionId
    && p.destination == q.destination
  }

  /** What every snapshot guarantees: filed, not empty, one binding per session and Destination. */
  ghost predicate SnapshotOk(b: Bindings) {
    && b != map[]
    && Filed(b)
    && forall i, j :: i in b && j in b && SameScope(b[i], b[j]) ==> i == j
  }

  /** No two entries share an identity, nor a session and Destination. */
  ghost predicate Distinct(entries: seq<BindingProjection>) {
    forall i, j :: 0 <= i < j < |entries| ==>
      entries[i].identity != entries[j].identity && !SameScope(entries[i], entries[j])
  }

  /** `b` files exactly these entries. */
  ghost predicate Files(b: Bindings, entries: seq<BindingProjection>) {
    && Filed(b)
    && (forall k :: 0 <= k < |entries| ==> entries[k].identity in b && b[entries[k].identity] == entries[k])
    && (forall i :: i in b ==> b[i] in entries)
  }

  lemma FilesAppend(b: Bindings, entries: seq<BindingProjection>, e: BindingProjection)
    requires Files(b, entries) && e.identity !in b
    ensures Files(b[e.identity := e], entries + [e])
  {
    var longer, more := entries + [e], b[e.identity := e];
    assert longer[|entries|] == e;
    forall i | i in more ensures more[i] in longer {
      assert i == e.identity || more[i] in entries;
    }
  }

  lemma DistinctAppend(b: Bindings, entries: seq<BindingProjection>, n: nat)
    requires n < |entries| && Files(b, entries[..n]) && Distinct(entries[..n])
    requires entries[n].identity !in b
    requires forall k :: 0 <= k < n ==> !SameScope(entries[k], entries[n])
    ensures Distinct(entries[..n + 1])
  {
    var longer := entries[..n + 1];
    forall i, j | 0 <= i < j < n + 1
      ensures longer[i].identity != longer[j].identity && !SameScope(longer[i], longer[j])
    {
      assert longer[i] == entries[..n][i] == entries[i];
      if j < n { assert longer[j] == entries[..n][j]; }
    }
  }

  datatype Scope = Scope(gatewayId: Uuid, relaySessionId: Uuid, destination: Destination)

  function ScopeOf(p: BindingProjection): Scope {
    Scope(p.identity.gatewayId, p.identity.relaySessionId, p.destination)
  }

  function ScopesOf(entries: seq<BindingProjection>): set<Scope> {
    set e | e in entries :: ScopeOf(e)
  }

  /** An entry whose scope or identity was seen before spoils the list. */
  lemma Clash(b: Bindings, entries: seq<BindingProjection>, n: nat)
    requires n < |entries| && Files(b, entries[..n])
    requires ScopeOf(entries[n]) in ScopesOf(entries[..n]) || entries[n].identity in b
    ensures !Distinct(entries)
  {
    var e := if entries[n].identity in b then b[entries[n].identity]
             else var e :| e in entries[..n] && ScopeOf(e) == ScopeOf(entries[n]); e;
    var k :| 0 <= k < n && entries[..n][k] == e;
    assert entries[k] == e;
  }

  lemma NoClash(b: Bindings, entries: seq<BindingProjection>, n: nat)
    requires n < |entries| && Files(b, entries[..n]) && Distinct(entries[..n])
    requires ScopeOf(entries[n]) !in ScopesOf(entries[..n]) && entries[n].identity !in b
    ensures Distinct(entries[..n + 1]) && Files(b[entries[n].identity := entries[n]], entries[..n + 1])
    ensures ScopesOf(entries[..n + 1]) == ScopesOf(entries[..n]) + {ScopeOf(entries[n])}
  {
    assert entries[..n + 1] == entries[..n] + [entries[n]];
    FilesAppend(b, entries[..n], entries[n]);
    forall k | 0 <= k < n ensures !SameScope(entries[k], entries[n]) {
      assert entries[..n][k] == entries[k];
      assert ScopeOf(entries[k]) in ScopesOf(entries[..n]);
    }
    DistinctAppend(b, entries, n);
  }

  /** `BindingSnapshot::new`: succeeds exactly on nonempty lists of distinct entries. */
  method BuildSnapshot(entries: seq<BindingProjection>) returns (r: Result<Bindings>)
    ensures r.Ok? <==> entries != [] && Distinct(entries)
    ensures r.Ok? ==> Files(r.value, entries) && SnapshotOk(r.value)
    ensures r.Err? ==> r.error == InvalidArgument
  {
    var byIdentity: Bindings := map[];
    var scopes: set<Scope> := {};
    var n := 0;
    while n < |entries|
      invariant 0 <= n <= |entries|
      invariant Files(byIdentity, entries[..n]) && Distinct(entries[..n]) && scopes == ScopesOf(entries[..n])
    {
      var entry := entries[n];
      if ScopeOf(entry) in scopes || entry.identity in byIdentity {
        Clash(byIdentity, entries, n);
        return Err(InvalidArgument);
      }
      NoClash(byIdentity, entries, n);
      scopes := scopes + {ScopeOf(entry)};
      byIdentity := byIdentity[entry.identity := entry];
      n := n + 1;
    }
    assert entries[..n] == entries;
    assert entries == [] || entries[0].identity in byIdentity;
    if byIdentity == map[] {
      return Err(InvalidArgument);
    }
    DistinctFiled(byIdentity, entries);
    return Ok(byIdentity);
  }

  lemma DistinctFiled(b: Bindings, entries: seq<BindingProjection>)
    requires Files(b, entries) && Distinct(entries) && b != map[]
    ensures SnapshotOk(b) && entries != []
  {
    var i :| i in b;
    assert b[i] in entries;
    forall i, j | i in b && j in b && SameScope(b[i], b[j]) ensures i == j {
      var m :| 0 <= m < |entries| && entries[m] == b[i];
      var n :| 0 <= n < |entries| && entries[n] == b[j];
    }
  }

  // --------------------------------------------------------------- directory

  /** The ordered shard directory; `hash` stands for the digest of a Destination's canonical key. */
  datatype Directory = Directory(generation: Generation, shards: seq<ShardId>, hash: Destination -> nat)

  ghost predicate DirectoryOk(d: Directory) {
    d.shards != [] && forall i, j :: 0 <= i < j < |d.shards| ==> d.shards[i] != d.shards[j]
  }

  function Authority(d: Directory, destination: Destination): ShardId
    requires d.shards != []
  {
    d.shards[d.hash(destination) % |d.shards|]
  }
}

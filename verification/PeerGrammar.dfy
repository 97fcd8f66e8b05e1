/**
 The observable life of every stream, spelled out as a grammar:

   inserted, opening event, DATA ..., at most one FIN, at most one terminal
   event, departure.
 */
module PeerGrammar {
  import opened Common
  import opened PeerFrames
  import opened PeerActor
  import opened PeerLifecycle
  import opened PeerRuns

  /** Notes a stream's user or the stream table can see. */
  predicate Visible(n: Note) { n.Inserted? || n.Emitted? || n.StreamEnded? || n.StreamLost? }

  /** The visible notes of stream `s`, in order. */
  function Story(h: seq<Record>, s: StreamId): seq<Note> {
    if h == [] then []
    else
      var last := h[|h| - 1];
      Story(h[..|h| - 1], s) + (if last.On? && last.s == s && Visible(last.note) then [last.note] else [])
  }

  predicate Opens(n: Note, id: OpenIdentity, here: bool) {
    n.Emitted? && if here then n.event == OpenedEvent(id)
                  else n.event.IncomingOpen? && n.event.openIdentity == id
  }

  predicate IsData(n: Note) { n.Emitted? && n.event.DataEvent? }

  predicate IsFin(n: Note) { n.Emitted? && n.event.FinEvent? }

  predicate Closes(n: Note) { n.Emitted? && (n.event.CloseEvent? || n.event.ResetEvent?) }

  predicate Fails(n: Note, id: OpenIdentity) { n.Emitted? && n.event.FailedEvent? && n.event.openIdentity == id }

  predicate Departs(n: Note, id: OpenIdentity) { (n.StreamEnded? || n.StreamLost?) && n.owner == id }

  function Front(v: seq<Note>): seq<Note> requires v != [] { v[..|v| - 1] }

  function Last(v: seq<Note>): Note requires v != [] { v[|v| - 1] }

  predicate JustInserted(v: seq<Note>, id: OpenIdentity) { v == [Inserted(id)] }

  predicate Streamed(v: seq<Note>, id: OpenIdentity, here: bool) {
    && |v| >= 2 && v[0] == Inserted(id) && Opens(v[1], id, here)
    && forall i :: 2 <= i < |v| ==> IsData(v[i])
  }

  predicate HalfClosed(v: seq<Note>, id: OpenIdentity, here: bool) {
    v != [] && IsFin(Last(v)) && Streamed(Front(v), id, here)
  }

  predicate Terminated(v: seq<Note>, id: OpenIdentity, here: bool) {
    && v != []
    && if Closes(Last(v)) then Streamed(Front(v), id, here) || HalfClosed(Front(v), id, here)
       else here && Fails(Last(v), id) && JustInserted(Front(v), id)
  }

  predicate Living(v: seq<Note>, id: OpenIdentity, here: bool) {
    JustInserted(v, id) || Streamed(v, id, here) || HalfClosed(v, id, here) || Terminated(v, id, here)
  }

  predicate Departed(v: seq<Note>, id: OpenIdentity, here: bool) {
    v != [] && Departs(Last(v), id) && Living(Front(v), id, here)
  }

  /** What a life that is not broken says about the story so far. */
  ghost predicate Tells(l: Life, v: seq<Note>, here: bool) {
    match l
    case Unborn => v == []
    case Born(id) => JustInserted(v, id)
    case Flowing(id) => Streamed(v, id, here)
    case Half(id) => HalfClosed(v, id, here)
    case Silent(id) => Terminated(v, id, here)
    case Gone => exists id :: Departed(v, id, here)
    case Broken => true
  }

  lemma TellsNext(l: Life, v: seq<Note>, n: Note, here: bool)
    requires Tells(l, v, here)
    ensures Tells(LifeAfter(l, n, here), if Visible(n) then v + [n] else v, here)
  {
    if Visible(n) {
      assert Front(v + [n]) == v && Last(v + [n]) == n;
      if l.Alive() && Departs(n, l.owner) { assert Departed(v + [n], l.owner, here); }
    }
  }

  lemma {:induction false} StoryTold(h: seq<Record>, s: StreamId, local: Endpoint)
    ensures Tells(Summarize(h, s, local).life, Story(h, s), Initiator(s) == local)
  {
    if h != [] {
      var init, last := h[..|h| - 1], h[|h| - 1];
      StoryTold(init, s, local);
      assert init + [last] == h;
      SummarizeAppend(init, last, s, local);
      if last.On? && last.s == s {
        TellsNext(Summarize(init, s, local).life, Story(init, s), last.note, Initiator(s) == local);
      }
      assert Story(init, s) + [] == Story(init, s);
    }
  }

  /**
   Whatever frames arrive and whatever the Gateway does, each stream's story
   follows the grammar, and it ends in a departure exactly when the stream was
   inserted and is no longer in the stream map.
   */
  lemma EventsFollowTheGrammar(config: Config, peer: Uuid, local: Endpoint, active: set<OpenIdentity>,
                               run: seq<Action>, s: StreamId)
    requires Possible(NewActor(config, peer, local, active), run)
    ensures var a := After(NewActor(config, peer, local, active), run);
            var v := Story(a.history, s);
            var here := Initiator(s) == local;
            if s in a.streams then Living(v, a.streams[s].relay.owner, here)
            else v == [] || exists id :: Departed(v, id, here)
  {
    var start := NewActor(config, peer, local, active);
    StartInv(config, peer, local, active);
    RunInv(start, run);
    RunKeepsEndpoint(start, run);
    var a := After(start, run);
    assert LifeOk(a, s);
    StoryTold(a.history, s, a.local);
  }

  lemma StartInv(config: Config, peer: Uuid, local: Endpoint, active: set<OpenIdentity>)
    ensures Inv(NewActor(config, peer, local, active))
  {
  }

  lemma NextKeepsEndpoint(a: Actor, x: Action)
    requires Enabled(a, x)
    ensures Next(a, x).local == a.local && Next(a, x).config == a.config
  {
    if x.DoReceive? {
      assert HandleFrame(a, x.frame).local == a.local && HandleFrame(a, x.frame).config == a.config;
    }
  }

  lemma {:induction false} RunKeepsEndpoint(a: Actor, run: seq<Action>)
    requires Possible(a, run)
    ensures After(a, run).local == a.local && After(a, run).config == a.config
    decreases |run|
  {
    if run != [] {
      NextKeepsEndpoint(a, run[0]);
      RunKeepsEndpoint(Next(a, run[0]), run[1..]);
    }
  }

  /** What the grammar rules out while a stream lives. */
  lemma LivingForbids(v: seq<Note>, id: OpenIdentity, here: bool, i: nat, j: nat)
    requires Living(v, id, here) && i <= j < |v|
    ensures v[0] == Inserted(id) && (v[j].Inserted? ==> j == 0)
    ensures i < j && IsFin(v[i]) ==> !IsData(v[j]) && !IsFin(v[j])
    ensures i < j ==> !Closes(v[i]) && !Fails(v[i], id)
    ensures !v[i].StreamEnded? && !v[i].StreamLost?
    ensures j >= 2 && v[j].Emitted? ==>
              !v[j].event.IncomingOpen? && !v[j].event.OpenedEvent? && !v[j].event.FailedEvent?
  {
    var front := Front(v);
    assert forall k :: 0 <= k < |front| ==> front[k] == v[k];
    if Terminated(v, id, here) && HalfClosed(front, id, here) {
      assert forall k :: 0 <= k < |front| - 1 ==> Front(front)[k] == v[k];
    }
  }

  /** ... and until it has left: no second FIN, no DATA after FIN, nothing but the
      departure after a terminal event, one departure, one opening event. */
  lemma GrammarForbids(v: seq<Note>, id: OpenIdentity, here: bool, i: nat, j: nat)
    requires Living(v, id, here) || Departed(v, id, here)
    requires i < j < |v|
    ensures v[0] == Inserted(id) && !v[j].Inserted?
    ensures IsFin(v[i]) ==> !IsData(v[j]) && !IsFin(v[j])
    ensures Closes(v[i]) || Fails(v[i], id) ==> v[j].StreamEnded? || v[j].StreamLost?
    ensures !v[i].StreamEnded? && !v[i].StreamLost?
    ensures j >= 2 && v[j].Emitted? ==>
              !v[j].event.IncomingOpen? && !v[j].event.OpenedEvent? && !v[j].event.FailedEvent?
  {
    if Living(v, id, here) {
      LivingForbids(v, id, here, i, j);
    } else if j < |v| - 1 {
      LivingForbids(Front(v), id, here, i, j);
    } else {
      LivingForbids(Front(v), id, here, i, i);
    }
  }
}

/** The pool of slices under the protocol: run side by side with any run of the
    protocol, it always agrees with the protocol's abstract pool, and every call it
    receives meets the call's precondition. */
module Refinement {
  import opened Collections
  import opened Players
  import opened Ordered
  import opened PoolIndex
  import opened MatchPool
  import opened ReadyCheck
  import opened ReadyCheckInvariant
  import opened ReadyCheckSteps
  import opened ReadyCheckPool
  import opened ReadyCheckRuns
  import opened ReadyCheckGuarantees
  import Extraction
  import Coordination
  import Sessions
  import StatusStream

  /** The pool, the channel of every player object made so far, and the objects. */
  datatype World = World(st: PoolState, channels: map<nat, MatchCh>, made: map<nat, QueuedPlayer>)

  const EMPTY := World(PoolState(map[], map[]), map[], map[])

  /** What of the protocol state concerns the pool: who is queued, and the id and the
      channel of every object. */
  datatype PoolView = PoolView(pool: map<string, nat>, channels: map<nat, MatchCh>, ids: map<nat, string>)

  function ViewOf(s: State): PoolView {
    PoolView(s.pool, map h | h in s.gw :: s.gw[h].matchCh, map h | h in s.gw :: s.gw[h].id)
  }

  ghost predicate Matches(w: World, v: PoolView) {
    && IndexOk(w.st)
    && w.channels == v.channels
    && w.made.Keys == v.ids.Keys
    && (forall h | h in w.made :: w.made[h].handle == h && w.made[h].id == v.ids[h])
    && w.st.players.Keys == v.pool.Keys
    && (forall id | id in v.pool :: v.pool[id] in w.made && w.st.players[id] == w.made[v.pool[id]])
  }

  ghost predicate Coupled(w: World, s: State) {
    Matches(w, ViewOf(s))
  }

  // ------------------------------------------------------------------
  // What the pool and the channels do in each action
  // ------------------------------------------------------------------

  function Entered(w: World, q: QueuedPlayer): World {
    World(Insert(w.st, q), w.channels[q.handle := READY], w.made[q.handle := q])
  }

  function DequeuedFrom(w: World, id: string): World {
    if id !in w.st.players || w.st.players[id].handle !in w.channels then w
    else
      var h := w.st.players[id].handle;
      w.(st := Delete(w.st, id), channels := w.channels[h := w.channels[h].(closed := true)])
  }

  function Restored(w: World, q: QueuedPlayer): World {
    if q.id in w.st.players then w else w.(st := Insert(w.st, q))
  }

  /** The object a room's current step is about. */
  predicate Current(w: World, s: State, r: nat, k: nat) {
    r in s.rooms && k < |s.rooms[r].seats| && s.rooms[r].seats[k].player in w.made && s.rooms[r].seats[k].player in w.channels
  }

  ghost predicate Takes(w: World, ids: seq<string>, w': World) {
    && w' == w.(st := w'.st)
    && exists now, sel :: Extraction.Extracted(w.st, now, sel, w'.st) && ids == Coordination.PlayerIds(sel)
  }

  ghost predicate PoolStep(w: World, s: State, a: Action, w': World)
    requires Enabled(s, a)
  {
    match a
    case Join(id, p) =>
      if id in w.st.players then w' == w
      else p in w'.made && w'.made[p].handle == p && w'.made[p].id == id && w' == Entered(w, w'.made[p])
    case TakeEvent(p, _) => p in w.channels && w' == w.(channels := w.channels[p := w.channels[p].(buf := None)])
    case TakeCancel(p) => w' == DequeuedFrom(w, s.gw[p].id)
    case Cleanup(p) => w' == DequeuedFrom(w, s.gw[p].id)
    case Extract(r, ids) => Takes(w, ids, w')
    case Deliver(r) =>
      var k := s.rooms[r].phase.k;
      && Current(w, s, r, k)
      && var h := s.rooms[r].seats[k].player;
        w' == w.(channels := w.channels[h := Buffered(w.channels[h], Event(r, k))])
    case Requeue(r) =>
      var k := s.rooms[r].phase.k;
      && Current(w, s, r, k)
      && var seat := s.rooms[r].seats[k];
        w' == if seat.accepted then Restored(w, w.made[seat.player]) else w
    case _ => w' == w
  }

  // ------------------------------------------------------------------
  // Preconditions
  // ------------------------------------------------------------------

  /** Pooled players have channels of their own, open and empty, whatever the interleaving. */
  lemma PoolStaysReady(w: World, s: State)
    requires Reachable(s) && Coupled(w, s)
    ensures Ready(w.st.players, w.channels)
  {
    hide Matches, Reachable;
    OfView(w, s);
    ChannelsSafe(s);
    ExclusiveOwnership(s);
    forall id | id in s.pool ensures w.st.players[id].handle in w.channels && w.channels[w.st.players[id].handle] == READY {
      assert s.gw[s.pool[id]].matchCh == READY;
    }
    forall i, j | i in w.st.players && j in w.st.players && i != j ensures w.st.players[i].handle != w.st.players[j].handle {
      assert s.pool[i] != s.pool[j];
    }
    hide Holds;
  }

  /** When the re-enqueue loop puts a player back, the object is fit to go back. */
  lemma ReEnqueueAllowed(w: World, s: State, r: nat)
    requires Reachable(s) && Coupled(w, s) && Enabled(s, Requeue(r))
    requires s.rooms[r].seats[s.rooms[r].phase.k].accepted
    ensures Current(w, s, r, s.rooms[r].phase.k)
    ensures CanGoBack(w.st.players, w.channels, w.made[s.rooms[r].seats[s.rooms[r].phase.k].player])
  {
    hide Reachable, Matches;
    var k := s.rooms[r].phase.k;
    var h := s.rooms[r].seats[k].player;
    OfView(w, s);
    ReachableOk(s);
    RequeueSeat(s, Event(r, k));
    ItsPool(s);
    hide Inv, Core;
    forall id | id in w.st.players ensures w.st.players[id].handle != h {
      assert s.gw[s.pool[id]].place == Pooled;
    }
  }

  // ------------------------------------------------------------------
  // What the protocol does to its view
  // ------------------------------------------------------------------

  predicate SparesPool(a: Action) {
    !a.Join? && !a.TakeEvent? && !Dequeues(a) && !a.Extract? && !a.Deliver? && !a.Requeue?
  }

  /** No object enters, leaves, or sees its channel touched. */
  ghost predicate SameObjects(s: State, s': State) {
    && s'.pool == s.pool && s'.gw.Keys == s.gw.Keys
    && forall h | h in s.gw :: s'.gw[h].id == s.gw[h].id && s'.gw[h].matchCh == s.gw[h].matchCh
  }

  lemma SameView(s: State, s': State)
    requires SameObjects(s, s')
    ensures ViewOf(s') == ViewOf(s)
  {
    ViewIs(s', ViewOf(s));
  }

  lemma ViewIs(s: State, v: PoolView)
    requires s.pool == v.pool && s.gw.Keys == v.channels.Keys && s.gw.Keys == v.ids.Keys
    requires forall h | h in s.gw :: s.gw[h].id == v.ids[h] && s.gw[h].matchCh == v.channels[h]
    ensures ViewOf(s) == v
  {
    assert ViewOf(s).channels == v.channels;
    assert ViewOf(s).ids == v.ids;
  }

  lemma QuietPlain(s: State, a: Action)
    requires Enabled(s, a) && SparesPool(a) && GatewayAction(a) && !Reads(a)
    ensures SameObjects(s, Apply(s, a))
  {
  }

  lemma QuietAnswers(s: State, a: Action)
    requires Enabled(s, a) && AnswersOrHears(a)
    ensures SameObjects(s, Apply(s, a))
  {
    hide SetSeat;
  }

  lemma QuietReads(s: State, a: Action)
    requires Enabled(s, a) && SparesPool(a) && Reads(a)
    ensures SameObjects(s, Apply(s, a))
  {
    if AnswersOrHears(a) {
      hide Enabled, Apply, SameObjects;
      QuietAnswers(s, a);
    }
  }

  lemma QuietRooms(s: State, a: Action)
    requires Enabled(s, a) && SparesPool(a) && !GatewayAction(a)
    ensures SameObjects(s, Apply(s, a))
  {
    hide Gathered, GivenUp, Notified, RequeuedPast, Responded;
  }

  lemma JoinView(s: State, id: string, p: nat)
    requires p !in s.gw && id !in s.pool
    ensures ViewOf(Joined(s, id, p)) == PoolView(s.pool[id := p], ViewOf(s).channels[p := READY], ViewOf(s).ids[p := id])
  {
    ViewIs(Joined(s, id, p), PoolView(s.pool[id := p], ViewOf(s).channels[p := READY], ViewOf(s).ids[p := id]));
  }

  lemma ReceiveView(s: State, p: nat, ok: bool)
    requires p in s.gw && s.gw[p].matchCh.buf.Some?
    ensures ViewOf(EventTaken(s, p, ok)) == ViewOf(s).(channels := ViewOf(s).channels[p := s.gw[p].matchCh.(buf := None)])
  {
    ViewIs(EventTaken(s, p, ok), ViewOf(s).(channels := ViewOf(s).channels[p := s.gw[p].matchCh.(buf := None)]));
  }

  lemma SendView(s: State, r: nat, k: nat, h: nat)
    requires r in s.rooms && s.rooms[r].phase == Sending(k) && k < |s.rooms[r].seats|
    requires h == s.rooms[r].seats[k].player && h in s.gw
    ensures ViewOf(Delivered(s, r)) == ViewOf(s).(channels := ViewOf(s).channels[h := Buffered(s.gw[h].matchCh, Event(r, k))])
  {
    ViewIs(Delivered(s, r), ViewOf(s).(channels := ViewOf(s).channels[h := Buffered(s.gw[h].matchCh, Event(r, k))]));
  }

  function ViewDequeued(v: PoolView, id: string): PoolView {
    if id !in v.pool || v.pool[id] !in v.channels then v
    else v.(pool := v.pool - {id}, channels := v.channels[v.pool[id] := v.channels[v.pool[id]].(closed := true)])
  }

  lemma DequeueView(s: State, id: string)
    ensures ViewOf(Dequeued(s, id)) == ViewDequeued(ViewOf(s), id)
  {
    ViewIs(Dequeued(s, id), ViewDequeued(ViewOf(s), id));
  }

  lemma RecordView(s: State, p: nat, g: Gateway)
    requires p in s.gw && g.matchCh == s.gw[p].matchCh && g.id == s.gw[p].id
    ensures ViewOf(PutGateway(s, p, g)) == ViewOf(s)
  {
    ViewIs(PutGateway(s, p, g), ViewOf(s));
  }

  lemma DequeuesView(s: State, a: Action)
    requires Dequeues(a) && a.p in s.gw
    ensures ViewOf(if a.TakeCancel? then CancelTaken(s, a.p) else CleanedUp(s, a.p)) == ViewDequeued(ViewOf(s), s.gw[a.p].id)
  {
    var s' := Dequeued(s, s.gw[a.p].id);
    DequeueView(s, s.gw[a.p].id);
    var g := s'.gw[a.p];
    RecordView(s', a.p, if a.TakeCancel? then Send(g.(cancelReq := false), StatusStream.CANCELLED, true, Leaving) else g.(pc := Gone));
    hide Dequeued, ViewDequeued, ViewOf;
  }

  lemma ReEnqueueView(s: State, r: nat, seat: Seat, id: string)
    requires r in s.rooms && s.rooms[r].phase.Requeuing? && s.rooms[r].phase.k < |s.rooms[r].seats|
    requires seat == s.rooms[r].seats[s.rooms[r].phase.k] && seat.player in s.gw && id == s.gw[seat.player].id
    ensures ViewOf(ReEnqueued(s, r)) ==
            if seat.accepted && id !in s.pool then ViewOf(s).(pool := s.pool[id := seat.player]) else ViewOf(s)
  {
    hide RequeuedPast;
    ViewIs(ReEnqueued(s, r), if seat.accepted && id !in s.pool then ViewOf(s).(pool := s.pool[id := seat.player]) else ViewOf(s));
  }

  lemma ExtractView(s: State, r: nat, ids: seq<string>)
    requires forall i | 0 <= i < |ids| :: ids[i] in s.pool
    ensures ViewOf(RoomOpened(s, r, ids)) == ViewOf(s).(pool := s.pool - set id | id in ids)
  {
    hide Position;
    ViewIs(RoomOpened(s, r, ids), ViewOf(s).(pool := s.pool - set id | id in ids));
  }

  // ------------------------------------------------------------------
  // What the pool does to match it
  // ------------------------------------------------------------------

  lemma EnqueueMatches(w: World, v: PoolView, q: QueuedPlayer)
    requires Matches(w, v) && q.id !in v.pool && q.handle !in v.ids
    ensures Matches(Entered(w, q), PoolView(v.pool[q.id := q.handle], v.channels[q.handle := READY], v.ids[q.handle := q.id]))
  {
    hide IndexOk, Insert;
    InsertKeepsIndex(w.st, q);
    InsertPlayers(w.st, q);
  }

  lemma ChannelMatches(w: World, v: PoolView, h: nat, ch: MatchCh)
    requires Matches(w, v)
    ensures Matches(w.(channels := w.channels[h := ch]), v.(channels := v.channels[h := ch]))
  {
    hide IndexOk;
  }

  lemma DequeueMatches(w: World, v: PoolView, id: string)
    requires Matches(w, v)
    ensures Matches(DequeuedFrom(w, id), ViewDequeued(v, id))
  {
    hide IndexOk, Delete;
    if id in w.st.players {
      DeleteKeepsIndex(w.st, id);
      DeletePlayers(w.st, id);
    }
  }

  lemma ReEnqueueMatches(w: World, v: PoolView, h: nat)
    requires Matches(w, v) && h in w.made
    ensures Matches(Restored(w, w.made[h]), if w.made[h].id !in v.pool then v.(pool := v.pool[w.made[h].id := h]) else v)
  {
    hide IndexOk, Insert;
    if w.made[h].id !in v.pool {
      InsertKeepsIndex(w.st, w.made[h]);
      InsertPlayers(w.st, w.made[h]);
    }
  }

  lemma ExtractMatches(w: World, v: PoolView, ids: seq<string>, w': World)
    requires Matches(w, v) && Takes(w, ids, w')
    ensures Matches(w', v.(pool := v.pool - set id | id in ids))
  {
    TakesFacts(w, ids, w');
    hide IndexOk, Takes;
  }

  lemma TakesFacts(w: World, ids: seq<string>, w': World)
    requires IndexOk(w.st) && Takes(w, ids, w')
    ensures IndexOk(w'.st) && w' == w.(st := w'.st) && w'.st.players == w.st.players - set id | id in ids
  {
    hide IndexOk, DistinctIds, Distinct, Extraction.CanSelect, Ids, Coordination.PlayerIds;
    var now, sel :| Extraction.Extracted(w.st, now, sel, w'.st) && ids == Coordination.PlayerIds(sel);
    Extraction.ExtractionFrame(w.st, now, sel);
    IdsAgree(sel, ids);
  }

  lemma IdsAgree(sel: seq<QueuedPlayer>, ids: seq<string>)
    requires ids == Coordination.PlayerIds(sel)
    ensures Ids(sel) == set id | id in ids
    ensures DistinctIds(sel) <==> Distinct(ids)
  {
    assert |ids| == |sel| && forall i | 0 <= i < |sel| :: ids[i] == sel[i].id;
    forall id ensures id in Ids(sel) <==> id in ids {
      if id in ids {
        var i :| 0 <= i < |ids| && ids[i] == id;
        assert sel[i] in sel;
      }
    }
  }

  lemma JoinRefines(w: World, s: State, id: string, p: nat, w': World)
    requires Coupled(w, s) && Enabled(s, Join(id, p)) && PoolStep(w, s, Join(id, p), w')
    ensures Coupled(w', Apply(s, Join(id, p)))
  {
    hide Matches, Entered, Joined;
    OfView(w, s);
    if id in s.pool {
      JoinRefused(s, id, p);
    } else {
      JoinView(s, id, p);
      EnqueueMatches(w, ViewOf(s), w'.made[p]);
    }
  }

  lemma JoinRefused(s: State, id: string, p: nat)
    requires id in s.pool
    ensures Joined(s, id, p) == s
  {
  }

  lemma OfView(w: World, s: State)
    requires Coupled(w, s)
    ensures w.st.players.Keys == s.pool.Keys && w.made.Keys == s.gw.Keys && w.channels.Keys == s.gw.Keys
    ensures forall h | h in s.gw :: w.made[h].handle == h && w.made[h].id == s.gw[h].id && w.channels[h] == s.gw[h].matchCh
    ensures forall id | id in s.pool :: s.pool[id] in w.made && w.st.players[id] == w.made[s.pool[id]]
  {
    hide IndexOk;
  }

  lemma DequeuesRefine(w: World, s: State, a: Action, w': World)
    requires Coupled(w, s) && Dequeues(a) && Enabled(s, a) && PoolStep(w, s, a, w')
    ensures Coupled(w', Apply(s, a))
  {
    hide Matches, DequeuedFrom, CancelTaken, CleanedUp, ViewOf;
    DequeuesView(s, a);
    DequeueMatches(w, ViewOf(s), s.gw[a.p].id);
  }

  lemma TakeEventRefines(w: World, s: State, p: nat, ok: bool, w': World)
    requires Coupled(w, s) && Enabled(s, TakeEvent(p, ok)) && PoolStep(w, s, TakeEvent(p, ok), w')
    ensures Coupled(w', Apply(s, TakeEvent(p, ok)))
  {
    hide Matches, EventTaken;
    OfView(w, s);
    ReceiveView(s, p, ok);
    ChannelMatches(w, ViewOf(s), p, s.gw[p].matchCh.(buf := None));
  }

  lemma DeliverRefines(w: World, s: State, r: nat, w': World)
    requires Coupled(w, s) && Enabled(s, Deliver(r)) && PoolStep(w, s, Deliver(r), w')
    ensures Coupled(w', Apply(s, Deliver(r)))
  {
    hide Matches, Delivered, Buffered;
    OfView(w, s);
    var k := s.rooms[r].phase.k;
    var h := s.rooms[r].seats[k].player;
    SendView(s, r, k, h);
    ChannelMatches(w, ViewOf(s), h, Buffered(s.gw[h].matchCh, Event(r, k)));
  }

  lemma RequeueDoes(w: World, s: State, r: nat, w': World) returns (seat: Seat)
    requires Enabled(s, Requeue(r)) && PoolStep(w, s, Requeue(r), w')
    ensures r in s.rooms && s.rooms[r].phase.Requeuing? && s.rooms[r].phase.k < |s.rooms[r].seats|
    ensures seat == s.rooms[r].seats[s.rooms[r].phase.k] && seat.player in s.gw && seat.player in w.made
    ensures w' == if seat.accepted then Restored(w, w.made[seat.player]) else w
    ensures Apply(s, Requeue(r)) == ReEnqueued(s, r)
  {
    hide Restored, ReEnqueued;
    seat := s.rooms[r].seats[s.rooms[r].phase.k];
  }

  lemma RequeueRefines(w: World, s: State, r: nat, w': World)
    requires Coupled(w, s) && Enabled(s, Requeue(r)) && PoolStep(w, s, Requeue(r), w')
    ensures Coupled(w', Apply(s, Requeue(r)))
  {
    hide Matches, Restored, ReEnqueued, ViewOf, Enabled, PoolStep, Apply;
    OfView(w, s);
    var seat := RequeueDoes(w, s, r, w');
    ReEnqueueView(s, r, seat, s.gw[seat.player].id);
    ReEnqueueMatches(w, ViewOf(s), seat.player);
    PoolOfView(s);
  }

  lemma ExtractRefines(w: World, s: State, r: nat, ids: seq<string>, w': World)
    requires Coupled(w, s) && Enabled(s, Extract(r, ids)) && PoolStep(w, s, Extract(r, ids), w')
    ensures Coupled(w', Apply(s, Extract(r, ids)))
  {
    hide Matches, Takes, RoomOpened, ViewOf;
    ExtractView(s, r, ids);
    ExtractMatches(w, ViewOf(s), ids, w');
    assert ViewOf(s).pool == s.pool by { PoolOfView(s); }
  }

  lemma PoolOfView(s: State)
    ensures ViewOf(s).pool == s.pool
  {
  }

  lemma QuietRefines(s: State, a: Action)
    requires Enabled(s, a) && SparesPool(a)
    ensures ViewOf(Apply(s, a)) == ViewOf(s)
  {
    hide Enabled, Apply, ViewOf;
    if !GatewayAction(a) {
      QuietRooms(s, a);
    } else if Reads(a) {
      QuietReads(s, a);
    } else {
      QuietPlain(s, a);
    }
    hide SameObjects;
    SameView(s, Apply(s, a));
  }

  lemma QuietPool(w: World, s: State, a: Action, w': World)
    requires Enabled(s, a) && SparesPool(a) && PoolStep(w, s, a, w')
    ensures w' == w
  {
  }

  /** Refinement: whatever the pool does in an action, the protocol does the same. */
  lemma StepRefines(w: World, s: State, a: Action, w': World)
    requires Coupled(w, s) && Enabled(s, a) && PoolStep(w, s, a, w')
    ensures Coupled(w', Apply(s, a))
  {
    hide Matches, Enabled, Apply, PoolStep, ViewOf;
    if a.Join? {
      JoinRefines(w, s, a.id, a.p, w');
    } else if a.TakeEvent? {
      TakeEventRefines(w, s, a.p, a.ok, w');
    } else if Dequeues(a) {
      DequeuesRefine(w, s, a, w');
    } else if a.Extract? {
      ExtractRefines(w, s, a.r, a.ids, w');
    } else if a.Deliver? {
      DeliverRefines(w, s, a.r, w');
    } else if a.Requeue? {
      RequeueRefines(w, s, a.r, w');
    } else {
      QuietRefines(s, a);
      QuietPool(w, s, a, w');
    }
  }

  /** The protocol allows every extraction the pool can make, and takes the objects
      selected. */
  lemma ExtractionAllowed(w: World, s: State, now: real, sel: seq<QueuedPlayer>, ids: seq<string>, rest: PoolState, r: nat)
    requires Coupled(w, s) && Extraction.Extracted(w.st, now, sel, rest) && r !in s.rooms && ids == Coordination.PlayerIds(sel)
    ensures Takes(w, ids, w.(st := rest)) && Enabled(s, Extract(r, ids))
    ensures forall i | 0 <= i < |ids| :: ids[i] in s.pool && s.pool[ids[i]] == sel[i].handle
  {
    IndexOfView(w, s);
    OfView(w, s);
    SelectedTen(w, now, sel, rest);
    SelectedIds(sel);
    QueuedObjects(w, s, sel, ids);
    hide *;
    CanExtract(s, r, ids);
  }

  lemma QueuedObjects(w: World, s: State, sel: seq<QueuedPlayer>, ids: seq<string>)
    requires Coupled(w, s) && |ids| == |sel| && forall i | 0 <= i < |sel| :: ids[i] == sel[i].id
    requires forall q | q in sel :: q.id in w.st.players && w.st.players[q.id] == q
    ensures forall i | 0 <= i < |ids| :: ids[i] in s.pool && s.pool[ids[i]] == sel[i].handle
  {
    OfView(w, s);
    hide *;
    forall i | 0 <= i < |ids| ensures ids[i] in s.pool && s.pool[ids[i]] == sel[i].handle {
      assert sel[i] in sel;
    }
  }

  lemma SelectedIds(sel: seq<QueuedPlayer>)
    ensures |Coordination.PlayerIds(sel)| == |sel|
    ensures forall i | 0 <= i < |sel| :: Coordination.PlayerIds(sel)[i] == sel[i].id
  {
  }

  lemma SelectedTen(w: World, now: real, sel: seq<QueuedPlayer>, rest: PoolState)
    requires IndexOk(w.st) && Extraction.Extracted(w.st, now, sel, rest)
    ensures Takes(w, Coordination.PlayerIds(sel), w.(st := rest))
    ensures |sel| == PLAYERS_PER_MATCH && Distinct(Coordination.PlayerIds(sel))
    ensures forall q | q in sel :: q.id in w.st.players && w.st.players[q.id] == q
  {
    Extraction.SelectionFacts(w.st, now, sel);
    IdsAgree(sel, Coordination.PlayerIds(sel));
    hide IndexOk, DistinctIds, Distinct, Extraction.CanSelect, Coordination.PlayerIds;
    assert Extraction.Extracted(w.st, now, sel, w.(st := rest).st);
  }

  lemma CanExtract(s: State, r: nat, ids: seq<string>)
    requires r !in s.rooms && |ids| == PLAYERS_PER_MATCH && Distinct(ids) && forall i | 0 <= i < |ids| :: ids[i] in s.pool
    ensures Enabled(s, Extract(r, ids))
  {
  }

  lemma IndexOfView(w: World, s: State)
    requires Coupled(w, s)
    ensures IndexOk(w.st)
  {
  }

  // ------------------------------------------------------------------
  // Whole runs
  // ------------------------------------------------------------------

  ghost predicate BothStep(w: World, s: State, w': World, s': State) {
    exists a :: Enabled(s, a) && PoolStep(w, s, a, w') && s' == Apply(s, a)
  }

  /** A run of the protocol over the real pool. */
  ghost predicate IsJointRun(run: seq<State>, worlds: seq<World>) {
    && run != [] && |worlds| == |run| && run[0] == INIT && worlds[0] == EMPTY
    && forall i | 0 <= i < |run| - 1 :: BothStep(worlds[i], run[i], worlds[i + 1], run[i + 1])
  }

  lemma JointRunsAreRuns(run: seq<State>, worlds: seq<World>)
    requires IsJointRun(run, worlds)
    ensures IsRun(run)
  {
    forall i | 0 <= i < |run| - 1 ensures Next(run[i], run[i + 1]) {
      assert BothStep(worlds[i], run[i], worlds[i + 1], run[i + 1]);
    }
    hide Enabled, Apply, PoolStep;
  }

  /** In every joint run the pool of slices agrees with the protocol, its index agrees
      with its map, and the channels of its players are open and empty. */
  lemma {:induction false} JointRunsStayCoupled(run: seq<State>, worlds: seq<World>, i: nat)
    requires IsJointRun(run, worlds) && i < |run|
    ensures Coupled(worlds[i], run[i]) && Ready(worlds[i].st.players, worlds[i].channels)
  {
    hide Enabled, Apply, PoolStep, Coupled, Ready;
    JointRunsAreRuns(run, worlds);
    if i == 0 {
      EmptyCoupled();
    } else {
      JointRunsStayCoupled(run, worlds, i - 1);
      assert BothStep(worlds[i - 1], run[i - 1], worlds[i - 1 + 1], run[i - 1 + 1]);
      var a :| Enabled(run[i - 1], a) && PoolStep(worlds[i - 1], run[i - 1], a, worlds[i]) && run[i] == Apply(run[i - 1], a);
      StepRefines(worlds[i - 1], run[i - 1], a, worlds[i]);
    }
    assert Reachable(run[i]);
    PoolStaysReady(worlds[i], run[i]);
  }

  lemma EmptyCoupled()
    ensures Coupled(EMPTY, INIT)
  {
  }

  /** No extraction fails on more than 171 players in any joint run over valid ratings. */
  lemma JointRunsStrandFew(run: seq<State>, worlds: seq<World>, i: nat)
    requires IsJointRun(run, worlds) && i < |run|
    requires forall h | h in worlds[i].made :: Rated(worlds[i].made[h])
    requires Extraction.CanFail(worlds[i].st)
    ensures |run[i].pool| <= Extraction.MAX_STRANDED
  {
    JointRunsStayCoupled(run, worlds, i);
    hide IsJointRun, Ready, IndexOk;
    Extraction.FailureStrandsFew(worlds[i].st);
    assert |run[i].pool.Keys| == |worlds[i].st.players.Keys|;
  }

  // ------------------------------------------------------------------
  // From the protocol to the session store
  // ------------------------------------------------------------------

  /** A session the coordinator stored has ten distinct ids, so after any submissions
      it is final exactly when all ten players have made a valid one. */
  lemma StoredSessionsFinalize(s: State, r: nat, subs: seq<Sessions.Submission>)
    requires Reachable(s) && r in s.sessions
    ensures |s.sessions[r]| == PLAYERS_PER_MATCH && Distinct(s.sessions[r])
    ensures Sessions.AfterAll(Sessions.NewSession(s.sessions[r]), subs).finalized <==>
            forall id | id in s.sessions[r] :: Sessions.SubmittedBy(subs, id)
  {
    ReachableOk(s);
    ItsSession(s, r);
    OfRoom(s, r);
    TenSeats(s.rooms[r]);
    Sessions.FinalExactlyWhenAllSubmitted(s.sessions[r], subs);
    hide Inv, Core, RoomOk, Distinct, Sessions.AfterAll;
  }
}

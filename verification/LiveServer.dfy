/** The pool object at work in the protocol: whatever arrives and however the goroutines
    interleave, its calls are legal and do what the protocol says. */
module LiveServer {
  import opened Players
  import opened StatusStream
  import opened PoolIndex
  import opened MatchPool
  import opened ReadyCheck
  import opened ReadyCheckInvariant
  import opened ReadyCheckGateways
  import opened ReadyCheckGuarantees
  import opened Refinement
  import ReadyCheckRuns
  import Extraction
  import Coordination

  /** One action, by the pool and by the protocol. */
  ghost predicate Moved(w: World, s: State, a: Action, w': World, s': State) {
    Enabled(s, a) && PoolStep(w, s, a, w') && s' == Apply(s, a)
  }

  predicate AllRated(made: map<nat, QueuedPlayer>) {
    forall h | h in made :: Rated(made[h])
  }

  /** All that a step must keep. */
  ghost predicate InStep(w: World, s: State) {
    Reachable(s) && Coupled(w, s) && IndexOk(w.st) && Ready(w.st.players, w.channels)
  }

  lemma MovedInStep(w: World, s: State, a: Action, w': World)
    requires InStep(w, s) && Enabled(s, a) && PoolStep(w, s, a, w')
    ensures InStep(w', Apply(s, a))
  {
    hide Enabled, Apply, PoolStep, Coupled, IndexOk, Ready, Reachable;
    StepRefines(w, s, a, w');
    ReachableNext(s, a);
    PoolStaysReady(w', Apply(s, a));
    IndexOfView(w', Apply(s, a));
  }

  lemma StartInStep()
    ensures InStep(EMPTY, INIT)
  {
    StartIsReachable();
    EmptyCoupled();
    hide Reachable, Coupled;
  }

  // ------------------------------------------------------------------
  // What a step is about
  // ------------------------------------------------------------------

  function IdOf(s: State, a: Action): string
    requires Enabled(s, a) && ReadyCheckRuns.Dequeues(a)
  {
    s.gw[a.p].id
  }

  lemma LeavesQueue(s: State, a: Action)
    requires Enabled(s, a) && ReadyCheckRuns.Dequeues(a)
    ensures a.p in s.gw && a.p in Apply(s, a).gw && Apply(s, a).gw[a.p].id == s.gw[a.p].id == IdOf(s, a)
    ensures a.TakeCancel? ==>
              Apply(s, a).gw[a.p].pc == Leaving && Apply(s, a).gw[a.p].sent == s.gw[a.p].sent + [CANCELLED]
  {
    DequeueRecord(s, s.gw[a.p].id, a.p);
    hide Dequeued;
  }

  lemma ToldOfEvent(s: State, p: nat, ok: bool)
    requires Enabled(s, TakeEvent(p, ok))
    ensures p in s.gw && s.gw[p].matchCh.buf.Some? && p in Apply(s, TakeEvent(p, ok)).gw
    ensures Apply(s, TakeEvent(p, ok)).gw[p].sent == s.gw[p].sent + [READY_CHECK(s.gw[p].matchCh.buf.value.room)]
  {
  }

  function NextSeat(s: State, r: nat): nat
    requires Enabled(s, Deliver(r))
  {
    s.rooms[r].phase.k
  }

  function NextPlayer(s: State, r: nat): nat
    requires Enabled(s, Deliver(r))
  {
    s.rooms[r].seats[NextSeat(s, r)].player
  }

  function CurrentSeat(s: State, r: nat): Seat
    requires Enabled(s, Requeue(r))
  {
    s.rooms[r].seats[s.rooms[r].phase.k]
  }

  // ------------------------------------------------------------------
  // Each call is legal, and is the protocol's step
  // ------------------------------------------------------------------

  lemma CanJoin(w: World, s: State, q: QueuedPlayer, w': World)
    requires InStep(w, s) && q.id !in w.st.players && q.handle !in w.channels && w' == Entered(w, q)
    ensures Enabled(s, Join(q.id, q.handle)) && PoolStep(w, s, Join(q.id, q.handle), w')
  {
    hide Coupled, IndexOk, Ready, Reachable;
    OfView(w, s);
  }

  lemma CanReceive(w: World, s: State, p: nat, ok: bool)
    requires InStep(w, s) && Enabled(s, TakeEvent(p, ok))
    ensures p in w.channels && w.channels[p].buf == s.gw[p].matchCh.buf && w.channels[p].buf.Some?
    ensures Enabled(s, TakeEvent(p, ok)) && PoolStep(w, s, TakeEvent(p, ok), w.(channels := w.channels[p := w.channels[p].(buf := None)]))
  {
    hide Coupled, IndexOk, Ready, Reachable;
    OfView(w, s);
  }

  lemma CanLeave(w: World, s: State, a: Action, id: string)
    requires InStep(w, s) && Enabled(s, a) && ReadyCheckRuns.Dequeues(a) && id == IdOf(s, a)
    ensures Enabled(s, a) && PoolStep(w, s, a, DequeuedFrom(w, id))
  {
    hide InStep;
  }

  lemma InStepReady(w: World, s: State)
    requires InStep(w, s)
    ensures IndexOk(w.st) && Ready(w.st.players, w.channels)
  {
  }

  /** The channel of a queued player was open and empty. */
  lemma Dequeuing(w: World, id: string)
    requires Ready(w.st.players, w.channels)
    ensures DequeuedFrom(w, id) ==
            if id in w.st.players
            then w.(st := Delete(w.st, id), channels := w.channels[w.st.players[id].handle := MatchCh(true, None)])
            else w
  {
  }

  lemma CanSend(w: World, s: State, r: nat, k: nat, h: nat)
    requires InStep(w, s) && Enabled(s, Deliver(r)) && k == NextSeat(s, r) && h == NextPlayer(s, r)
    ensures h in w.channels && w.channels[h] == READY && h in w.made
    ensures Enabled(s, Deliver(r)) && PoolStep(w, s, Deliver(r), w.(channels := w.channels[h := Buffered(w.channels[h], Event(r, k))]))
  {
    hide Coupled, IndexOk, Ready, Reachable, Core;
    OfView(w, s);
    ReachableOk(s);
    ItsCore(s);
    DeliverIsFree(s, r);
  }

  lemma ItsCore(s: State)
    requires Inv(s)
    ensures Core(s)
  {
  }

  lemma CanRequeue(w: World, s: State, r: nat, seat: Seat)
    requires InStep(w, s) && Enabled(s, Requeue(r)) && seat == CurrentSeat(s, r)
    ensures seat.player in w.made
    ensures seat.accepted ==> CanGoBack(w.st.players, w.channels, w.made[seat.player])
    ensures Enabled(s, Requeue(r)) && PoolStep(w, s, Requeue(r), if seat.accepted then Restored(w, w.made[seat.player]) else w)
  {
    hide Coupled, IndexOk, Ready, Reachable, CanGoBack;
    OfView(w, s);
    if seat.accepted {
      ReEnqueueAllowed(w, s, r);
    }
  }

  lemma CanMatch(w: World, s: State, now: real, sel: seq<QueuedPlayer>, ids: seq<string>, rest: PoolState, r: nat)
    requires InStep(w, s) && Extraction.Extracted(w.st, now, sel, rest) && r !in s.rooms && ids == Coordination.PlayerIds(sel)
    ensures Enabled(s, Extract(r, ids)) && PoolStep(w, s, Extract(r, ids), w.(st := rest))
  {
    hide Coupled, IndexOk, Ready, Reachable, Takes, Extraction.Extracted;
    ExtractionAllowed(w, s, now, sel, ids, rest, r);
  }

  lemma FewStranded(w: World, s: State, made: map<nat, QueuedPlayer>)
    requires InStep(w, s) && w.made == made && AllRated(made) && Extraction.CanFail(w.st)
    ensures |w.st.players| <= Extraction.MAX_STRANDED
  {
    hide Coupled, IndexOk, Ready, Reachable, Extraction.CanFail;
    OfView(w, s);
    assert forall id | id in w.st.players :: id in s.pool;
    Extraction.FailureStrandsFew(w.st);
  }

  // ------------------------------------------------------------------
  // The server
  // ------------------------------------------------------------------

  /** What can be asked of it. The pool picks the handle of an arrival and the ten of a
      match; every other action is given. A request that cannot be met is ignored. */
  datatype Request =
    | Arrive(id: string, name: string, mmr: int32, now: real)
    | MatchTen(r: nat, now: real)
    | Act(a: Action)

  /** The object a join makes. */
  predicate Arrived(id: string, name: string, mmr: int32, now: real, q: QueuedPlayer) {
    q.id == id && q.name == name && q.mmr == mmr && q.enqueuedAt == now
  }

  /** How a request is answered, `met` or not, and what it does. */
  ghost predicate RequestServed(w: World, s: State, q: Request, met: bool, w': World, s': State) {
    && (if met then BothStep(w, s, w', s') else w' == w && s' == s)
    && match q
       case Arrive(id, name, mmr, now) =>
         && (met <==> id != "" && 0 <= mmr <= 10000 && id !in w.st.players)
         && (met ==> && id in w'.st.players && Arrived(id, name, mmr, now, w'.st.players[id])
                     && Moved(w, s, Action.Join(id, w'.st.players[id].handle), w', s'))
       case MatchTen(r, now) =>
         && (met ==> r !in s.rooms && exists sel :: TakesTen(w, s, r, now, sel, w', s'))
         && (!met ==> r in s.rooms || Extraction.CanFail(w.st))
       case Act(a) =>
         && (met <==> Enabled(s, a) && !a.Join? && !a.Extract?)
         && (met ==> Moved(w, s, a, w', s'))
  }

  ghost predicate TakesTen(w: World, s: State, r: nat, now: real, sel: seq<QueuedPlayer>, w': World, s': State) {
    Extraction.Extracted(w.st, now, sel, w'.st) && Moved(w, s, Extract(r, Coordination.PlayerIds(sel)), w', s')
  }

  /** The pool of slices, the objects it made, and the rest of the system as a value. */
  class Server {
    const pool: Pool
    var made: map<nat, QueuedPlayer>
    var s: State

    ghost function World(): World
      reads this, pool
    {
      Refinement.World(pool.State(), pool.channels, made)
    }

    ghost predicate Valid()
      reads this, pool, pool.Repr
    {
      pool.Shaped() && InStep(World(), s) && AllRated(made)
    }

    constructor ()
      ensures Valid() && fresh(pool) && fresh(pool.Repr) && World() == EMPTY && s == INIT
    {
      pool := new Pool();
      made, s := map[], INIT;
      new;
      StartInStep();
      hide InStep;
    }

    method Join(id: string, name: string, mmr: int32, now: real) returns (r: Option<QueuedPlayer>)
      requires Valid() && 0 <= mmr <= MAX_MMR
      modifies this, pool, pool.Repr
      ensures Valid() && fresh(pool.Repr - old(pool.Repr))
      ensures r.None? <==> id in old(pool.players)
      ensures r.None? ==> World() == old(World()) && s == old(s)
      ensures r.Some? ==>
                && Moved(old(World()), old(s), Action.Join(id, r.value.handle), World(), s)
                && Arrived(id, name, mmr, now, r.value) && World() == Entered(old(World()), r.value)
    {
      hide Enabled, Apply, PoolStep, InStep, IndexOk, Ready, Insert;
      ghost var w := World();
      PoolIsValid();
      r := pool.Enqueue(id, name, mmr, now);
      if r.Some? {
        made := made[r.value.handle := r.value];
        CanJoin(w, s, r.value, World());
        MovedInStep(w, s, Action.Join(id, r.value.handle), World());
        s := Apply(s, Action.Join(id, r.value.handle));
      }
    }

    lemma PoolIsValid()
      requires Valid()
      ensures pool.Valid()
    {
      hide InStep, IndexOk, Ready;
      InStepReady(World(), s);
    }

    method Match(r: nat, now: real) returns (sel: seq<QueuedPlayer>, ok: bool)
      requires Valid() && r !in s.rooms
      modifies this, pool, pool.Repr
      ensures Valid() && fresh(pool.Repr - old(pool.Repr))
      ensures !ok ==> World() == old(World()) && s == old(s)
      ensures !ok ==> Extraction.CanFail(World().st) && |pool.players| <= Extraction.MAX_STRANDED
      ensures ok ==>
                && Moved(old(World()), old(s), Extract(r, Coordination.PlayerIds(sel)), World(), s)
                && Extraction.Extracted(old(World()).st, now, sel, World().st)
    {
      hide Enabled, Apply, PoolStep, InStep, Extraction.Extracted, Extraction.CanFail;
      ghost var w := World();
      PoolIsValid();
      sel, ok := pool.ExtractMatch(now);
      if ok {
        var ids := Coordination.PlayerIds(sel);
        CanMatch(w, s, now, sel, ids, pool.State(), r);
        MovedInStep(w, s, Extract(r, ids), World());
        s := Apply(s, Extract(r, ids));
      } else {
        FewStranded(w, s, made);
      }
    }

    /** The deferred Dequeue, or that of a cancel. */
    method Leave(a: Action)
      requires Valid() && Enabled(s, a) && ReadyCheckRuns.Dequeues(a)
      modifies this, pool, pool.Repr
      ensures Valid() && fresh(pool.Repr - old(pool.Repr))
      ensures Moved(old(World()), old(s), a, World(), s)
      ensures a.p in s.gw && pool.players == old(pool.players) - {s.gw[a.p].id}
      ensures a.TakeCancel? ==> s.gw[a.p].pc == Leaving && s.gw[a.p].sent == old(s).gw[a.p].sent + [CANCELLED]
    {
      hide Enabled, Apply, PoolStep, InStep, IdOf, DequeuedFrom;
      ghost var w := World();
      var id := IdOf(s, a);
      PoolIsValid();
      CanLeave(w, s, a, id);
      LeavesQueue(s, a);
      TakeOut(id);
      MovedInStep(w, s, a, World());
      s := Apply(s, a);
    }

    method TakeOut(id: string)
      requires pool.Valid()
      modifies pool, pool.Repr
      ensures pool.Shaped() && fresh(pool.Repr - old(pool.Repr)) && World() == DequeuedFrom(old(World()), id)
      ensures pool.players == old(pool.players) - {id}
    {
      hide IndexOk, Ready, Delete, DequeuedFrom;
      Dequeuing(World(), id);
      var found := pool.Dequeue(id);
    }

    /** The tick's send of one event. */
    method Deliver(r: nat)
      requires Valid() && Enabled(s, Action.Deliver(r))
      modifies this, pool, pool.Repr
      ensures Valid() && fresh(pool.Repr - old(pool.Repr))
      ensures Moved(old(World()), old(s), Action.Deliver(r), World(), s)
      ensures var k, h := NextSeat(old(s), r), NextPlayer(old(s), r);
              && h in old(pool.channels) && old(pool.channels)[h] == READY
              && pool.channels == old(pool.channels)[h := MatchCh(false, Some(Event(r, k)))]
    {
      hide Enabled, Apply, PoolStep, InStep, NextSeat, NextPlayer;
      var k, h := NextSeat(s, r), NextPlayer(s, r);
      ghost var w := World();
      CanSend(w, s, r, k, h);
      pool.Send(h, Event(r, k));
      MovedInStep(w, s, Action.Deliver(r), World());
      s := Apply(s, Action.Deliver(r));
    }

    /** A gateway's receive of its event. */
    method Receive(p: nat, ok: bool) returns (e: Event)
      requires Valid() && Enabled(s, TakeEvent(p, ok))
      modifies this, pool, pool.Repr
      ensures Valid() && fresh(pool.Repr - old(pool.Repr))
      ensures Moved(old(World()), old(s), TakeEvent(p, ok), World(), s)
      ensures p in old(pool.channels) && old(pool.channels)[p].buf == Some(e)
      ensures pool.channels == old(pool.channels)[p := old(pool.channels)[p].(buf := None)]
      ensures p in s.gw && s.gw[p].sent == old(s).gw[p].sent + [READY_CHECK(e.room)]
    {
      hide Enabled, Apply, PoolStep, InStep, IndexOk, Ready, Insert;
      ghost var w := World();
      CanReceive(w, s, p, ok);
      ToldOfEvent(s, p, ok);
      e := pool.Receive(p);
      MovedInStep(w, s, TakeEvent(p, ok), World());
      s := Apply(s, TakeEvent(p, ok));
    }

    /** One turn of a re-enqueue loop. */
    method Requeue(r: nat)
      requires Valid() && Enabled(s, Action.Requeue(r))
      modifies this, pool, pool.Repr
      ensures Valid() && fresh(pool.Repr - old(pool.Repr))
      ensures Moved(old(World()), old(s), Action.Requeue(r), World(), s)
    {
      hide Enabled, Apply, PoolStep, InStep, CurrentSeat, IndexOk, Ready, Insert;
      var seat := CurrentSeat(s, r);
      ghost var w := World();
      PoolIsValid();
      CanRequeue(w, s, r, seat);
      if seat.accepted {
        var ok := pool.ReEnqueue(made[seat.player]);
      }
      MovedInStep(w, s, Action.Requeue(r), World());
      s := Apply(s, Action.Requeue(r));
    }

    /** Any step the pool has no part in. */
    method Other(a: Action)
      requires Valid() && Enabled(s, a) && SparesPool(a)
      modifies this
      ensures Valid() && Moved(old(World()), old(s), a, World(), s)
    {
      hide Enabled, Apply, PoolStep, InStep, IndexOk, Ready, Insert;
      CanSpare(World(), s, a);
      MovedInStep(World(), s, a, World());
      s := Apply(s, a);
    }

    /** Arrivals are refused without an id or with a rating out of range. */
    method Handle(q: Request) returns (moved: bool)
      requires Valid()
      modifies this, pool, pool.Repr
      ensures Valid() && fresh(pool.Repr - old(pool.Repr))
      ensures RequestServed(old(World()), old(s), q, moved, World(), s)
      ensures q.MatchTen? && q.r !in old(s).rooms && !moved ==> |pool.players| <= Extraction.MAX_STRANDED
    {
      hide Enabled, Apply, PoolStep, InStep, Extraction.CanFail, Extraction.Extracted, Insert;
      ghost var w, s0 := World(), s;
      moved := false;
      match q
      case Arrive(id, name, mmr, now) =>
        if id != "" && 0 <= mmr <= MAX_MMR {
          var r := Join(id, name, mmr, now);
          moved := r.Some?;
          if moved {
            InsertPlayers(w.st, r.value);
          }
        }
      case MatchTen(r, now) =>
        if r !in s.rooms {
          var sel;
          sel, moved := Match(r, now);
          assert moved ==> TakesTen(w, s0, r, now, sel, World(), s);
        }
      case Act(a) =>
        if Enabled(s, a) && !a.Join? && !a.Extract? {
          Perform(a);
          moved := true;
        }
    }

    method Perform(a: Action)
      requires Valid() && Enabled(s, a) && !a.Join? && !a.Extract?
      modifies this, pool, pool.Repr
      ensures Valid() && fresh(pool.Repr - old(pool.Repr))
      ensures Moved(old(World()), old(s), a, World(), s)
    {
      hide Enabled, Apply, PoolStep, InStep, Moved;
      if a.TakeEvent? {
        var e := Receive(a.p, a.ok);
      } else if ReadyCheckRuns.Dequeues(a) {
        Leave(a);
      } else if a.Deliver? {
        Deliver(a.r);
      } else if a.Requeue? {
        Requeue(a.r);
      } else {
        Other(a);
      }
    }
  }

  lemma OneMoreStep(run: seq<State>, worlds: seq<World>, s: State, w: World)
    requires IsJointRun(run, worlds) && BothStep(worlds[|run| - 1], run[|run| - 1], w, s)
    ensures IsJointRun(run + [s], worlds + [w])
  {
    hide BothStep;
    var longer, beside := run + [s], worlds + [w];
    forall i | 0 <= i < |longer| - 1 ensures BothStep(beside[i], longer[i], beside[i + 1], longer[i + 1]) {
      if i < |run| - 1 {
        assert BothStep(worlds[i], run[i], worlds[i + 1], run[i + 1]);
      }
    }
  }

  /** How many of the first `n` requests were met. */
  function MetCount(met: seq<bool>, n: nat): nat
    requires n <= |met|
  {
    if n == 0 then 0 else MetCount(met, n - 1) + if met[n - 1] then 1 else 0
  }

  lemma {:induction false} CountPrefix(met: seq<bool>, more: seq<bool>, n: nat)
    requires n <= |met|
    ensures MetCount(met + more, n) == MetCount(met, n)
  {
    if n > 0 {
      CountPrefix(met, more, n - 1);
    }
  }

  /** The run has a step for each request met and no other: request `i` was answered in
      the state its predecessors led to, and led to the next. */
  ghost predicate AllMet(script: seq<Request>, met: seq<bool>, run: seq<State>, worlds: seq<World>) {
    && |met| <= |script| && |run| == |worlds| == MetCount(met, |met|) + 1
    && forall i | 0 <= i < |met| :: MetAt(script, met, run, worlds, i)
  }

  ghost predicate MetAt(script: seq<Request>, met: seq<bool>, run: seq<State>, worlds: seq<World>, i: nat)
    requires i < |met| <= |script|
  {
    var k, l := MetCount(met, i), MetCount(met, i + 1);
    k < |run| == |worlds| && l < |run| && RequestServed(worlds[k], run[k], script[i], met[i], worlds[l], run[l])
  }

  lemma MetMore(
    script: seq<Request>, met: seq<bool>, run: seq<State>, worlds: seq<World>, moved: bool, run': seq<State>, worlds': seq<World>)
    requires AllMet(script, met, run, worlds) && |met| < |script|
    requires if moved then |run'| == |run| + 1 && |worlds'| == |worlds| + 1 && run <= run' && worlds <= worlds'
             else run' == run && worlds' == worlds
    requires RequestServed(worlds[|run| - 1], run[|run| - 1], script[|met|], moved, worlds'[|run'| - 1], run'[|run'| - 1])
    ensures AllMet(script, met + [moved], run', worlds')
  {
    hide RequestServed;
    var n, all := |met|, met + [moved];
    CountPrefix(met, [moved], n);
    forall i | 0 <= i < |all| ensures MetAt(script, all, run', worlds', i) {
      CountPrefix(met, [moved], i);
      if i < n {
        assert MetAt(script, met, run, worlds, i);
        CountPrefix(met, [moved], i + 1);
      }
    }
  }

  /** A server put through any script of requests takes a run of the protocol with its
      real pool beside it: each request in turn is met when it can be and ignored when
      not, and the last world of the run is what the pool object holds. */
  method Execute(script: seq<Request>) returns (server: Server, met: seq<bool>, ghost run: seq<State>, ghost worlds: seq<World>)
    ensures fresh(server) && server.Valid()
    ensures IsJointRun(run, worlds)
    ensures |met| == |script| && AllMet(script, met, run, worlds)
    ensures run[|run| - 1] == server.s && worlds[|run| - 1] == server.World()
  {
    hide BothStep, InStep, RequestServed, IsJointRun;
    server := new Server();
    met, run, worlds := [], [INIT], [EMPTY];
    AloneIsJoint();
    while |met| < |script|
      invariant fresh(server) && fresh(server.pool) && fresh(server.pool.Repr) && server.Valid()
      invariant AllMet(script, met, run, worlds) && IsJointRun(run, worlds)
      invariant run[|run| - 1] == server.s && worlds[|run| - 1] == server.World()
      decreases |script| - |met|
    {
      ghost var s0, w0 := server.s, server.World();
      var moved := server.Handle(script[|met|]);
      ghost var run', worlds' := run, worlds;
      if moved {
        ServedStep(w0, s0, script[|met|], server.World(), server.s);
        OneMoreStep(run, worlds, server.s, server.World());
        run', worlds' := run + [server.s], worlds + [server.World()];
      } else {
        IgnoredStays(w0, s0, script[|met|], server.World(), server.s);
      }
      MetMore(script, met, run, worlds, moved, run', worlds');
      met, run, worlds := met + [moved], run', worlds';
    }
  }

  lemma AloneIsJoint()
    ensures IsJointRun([INIT], [EMPTY])
  {
  }

  lemma ServedStep(w: World, s: State, q: Request, w': World, s': State)
    requires RequestServed(w, s, q, true, w', s')
    ensures BothStep(w, s, w', s')
  {
  }

  lemma IgnoredStays(w: World, s: State, q: Request, w': World, s': State)
    requires RequestServed(w, s, q, false, w', s')
    ensures w' == w && s' == s
  {
  }

  lemma CanSpare(w: World, s: State, a: Action)
    requires Enabled(s, a) && SparesPool(a)
    ensures PoolStep(w, s, a, w)
  {
  }
}

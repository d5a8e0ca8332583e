/** What the ready-check protocol guarantees in every reachable state, and over
    whole runs. */
module ReadyCheckGuarantees {
  import opened Collections
  import opened Players
  import opened StatusStream
  import opened ReadyCheck
  import opened ReadyCheckInvariant
  import opened ReadyCheckRooms
  import opened ReadyCheckSteps
  import opened ReadyCheckPool
  import opened ReadyCheckRuns

  ghost predicate Reachable(s: State) {
    exists run, i :: IsRun(run) && 0 <= i < |run| && run[i] == s
  }

  lemma ReachableNext(s: State, a: Action)
    requires Reachable(s) && Enabled(s, a)
    ensures Reachable(Apply(s, a))
  {
    var run, i :| IsRun(run) && 0 <= i < |run| && run[i] == s;
    var longer := run[..i + 1] + [Apply(s, a)];
    hide Enabled, Apply;
    forall j | 0 <= j < |longer| - 1 ensures Next(longer[j], longer[j + 1]) {
      if j < i {
        assert Next(run[j], run[j + 1]);
      } else {
        assert longer[j] == s && longer[j + 1] == Apply(s, a);
      }
    }
    assert IsRun(longer) && longer[i + 1] == Apply(s, a);
  }

  lemma StartIsReachable()
    ensures Reachable(INIT)
  {
    assert IsRun([INIT]) && [INIT][0] == INIT;
  }

  lemma ReachableOk(s: State)
    requires Reachable(s)
    ensures Inv(s)
  {
    var run, i :| IsRun(run) && 0 <= i < |run| && run[i] == s;
    RunsOk(run, i);
  }

  // ------------------------------------------------------------------
  // Ownership
  // ------------------------------------------------------------------

  /** The room of the seat has not let it go yet; a confirmed room never does. */
  predicate Holds(s: State, e: Event) {
    HasSeat(s, e) && !Released(s.rooms[e.room], e.idx)
  }

  predicate Queued(s: State, p: nat) {
    p in s.gw && s.gw[p].id in s.pool && s.pool[s.gw[p].id] == p
  }

  /** No two seats hold the same object, no held object is in the pool, no object is
      in the pool twice, and the ten ids of a room are distinct. */
  lemma ExclusiveOwnership(s: State)
    requires Reachable(s)
    ensures forall d, e | Holds(s, d) && Holds(s, e) && d != e :: SeatOf(s, d).player != SeatOf(s, e).player
    ensures forall e, id | Holds(s, e) && id in s.pool :: s.pool[id] != SeatOf(s, e).player
    ensures forall i, j | i in s.pool && j in s.pool && i != j :: s.pool[i] != s.pool[j]
    ensures forall r | r in s.rooms :: SeatsManned(s, r) && |s.rooms[r].seats| == PLAYERS_PER_MATCH && Distinct(SessionIds(s, s.rooms[r]))
  {
    ReachableOk(s);
    hide Core, CountersOk, RoomOk, SeatOk, SessionIds;
    ItsPool(s);
    forall d, e | Holds(s, d) && Holds(s, e) && d != e ensures SeatOf(s, d).player != SeatOf(s, e).player {
      OfSeat(s, d);
      OfSeat(s, e);
    }
    forall e, id | Holds(s, e) && id in s.pool ensures s.pool[id] != SeatOf(s, e).player {
      OfSeat(s, e);
    }
    forall r | r in s.rooms
      ensures SeatsManned(s, r) && |s.rooms[r].seats| == PLAYERS_PER_MATCH && Distinct(SessionIds(s, s.rooms[r]))
    {
      OfRoom(s, r);
      TenSeats(s.rooms[r]);
    }
  }

  lemma TenSeats(room: Room)
    requires RoomOk(room)
    ensures |room.seats| == PLAYERS_PER_MATCH
  {
  }

  // ------------------------------------------------------------------
  // Agreement
  // ------------------------------------------------------------------

  function Indices(log: seq<FanIn>): set<nat> {
    set m | m in log :: m.idx
  }

  lemma {:induction false} IndicesCount(log: seq<FanIn>)
    requires DistinctIdx(log)
    ensures |Indices(log)| == |log|
  {
    if log == [] {
      assert Indices(log) == {};
    } else {
      var n := |log| - 1;
      IndicesCount(log[..n]);
      assert log == log[..n] + [log[n]];
      assert Indices(log) == Indices(log[..n]) + {log[n].idx};
    }
  }

  function Below(n: nat): (r: set<nat>)
    ensures forall i: nat :: i in r <==> i < n
    ensures |r| == n
  {
    if n == 0 then {} else Below(n - 1) + {n - 1}
  }

  /** Ten fan-in messages of distinct indices come from all ten players. */
  lemma AllTenSpoke(taken: seq<FanIn>, i: nat, n: nat)
    requires DistinctIdx(taken) && |taken| == n && i < n
    requires forall m | m in taken :: m.idx < n && m.accepted
    ensures FanIn(i, true) in taken
  {
    IndicesCount(taken);
    SubsetSize(Indices(taken), Below(n));
    assert i in Below(n);
    assert i in Indices(taken);
    var m :| m in taken && m.idx == i;
    assert m == FanIn(i, true);
  }

  /** And ten accepts of different players leave room for nothing else. */
  lemma AcceptsFill(taken: seq<FanIn>, n: nat)
    requires DistinctIdx(taken) && forall m | m in taken :: m.idx < n
    requires forall i | 0 <= i < n :: FanIn(i, true) in taken
    ensures |taken| == n && forall m | m in taken :: m.accepted
  {
    IndicesCount(taken);
    forall i | i in Below(n) ensures i in Indices(taken) {
      assert FanIn(i, true) in taken;
    }
    assert Indices(taken) == Below(n);
    forall m | m in taken ensures m.accepted {
      assert FanIn(m.idx, true) in taken;
      var a, b :| 0 <= a < |taken| && 0 <= b < |taken| && taken[a] == m && taken[b] == FanIn(m.idx, true);
    }
  }

  ghost predicate AllGathered(room: Room) {
    forall i | 0 <= i < PLAYERS_PER_MATCH :: FanIn(i, true) in room.log[..TakenOf(room)]
  }

  lemma VerdictOfRoom(room: Room)
    requires RoomOk(room) && Verdict(room).Some?
    ensures Verdict(room) == Some(true) <==> AllGathered(room)
  {
    var taken := room.log[..room.received];
    assert forall m | m in taken :: m in room.log;
    hide SeatOk;
    if AllAccepted(room) {
      forall i | 0 <= i < PLAYERS_PER_MATCH ensures FanIn(i, true) in taken {
        AllTenSpoke(taken, i, PLAYERS_PER_MATCH);
      }
    } else if AllGathered(room) {
      AcceptsFill(taken, PLAYERS_PER_MATCH);
      assert false;
    }
  }

  /** The verdict is true exactly when an accept of each of the ten was gathered. */
  lemma VerdictMeansAllAccepted(s: State, r: nat)
    requires Reachable(s) && r in s.rooms && Verdict(s.rooms[r]).Some?
    ensures Verdict(s.rooms[r]) == Some(true) <==> AllGathered(s.rooms[r])
  {
    hide Reachable, RoomOk, AllGathered;
    ReachableOk(s);
    ItsRoom(s, r);
    VerdictOfRoom(s.rooms[r]);
  }

  /** In a room with verdict true all ten said so, and none is re-enqueued. */
  lemma TrueVerdictSeats(room: Room, i: nat)
    requires RoomOk(room) && Verdict(room) == Some(true) && i < PLAYERS_PER_MATCH
    ensures room.seats[i].said == Some(true) && room.seats[i].fate == Undecided
  {
    VerdictOfRoom(room);
    assert FanIn(i, true) in room.log[..TakenOf(room)];
    assert FanIn(i, true) in room.log;
    assert SeatOk(room, i);
  }

  /** Gateways of one room never read different verdicts. */
  lemma Agreement(s: State, d: Event, e: Event)
    requires Reachable(s) && HasSeat(s, d) && HasSeat(s, e) && d.room == e.room
    requires SeatOf(s, d).heard.Some? && SeatOf(s, e).heard.Some?
    ensures SeatOf(s, d).heard == SeatOf(s, e).heard == Verdict(s.rooms[d.room])
  {
    ReachableOk(s);
    OfSeat(s, d);
    OfSeat(s, e);
    hide Core, RoomOk, Manned;
  }

  lemma HeardTrue(s: State, e: Event)
    requires Inv(s) && HasSeat(s, e) && SeatOf(s, e).heard == Some(true)
    ensures Verdict(s.rooms[e.room]) == Some(true) && s.rooms[e.room].phase != Creating
  {
    hide Core, CountersOk, RoomOk, Manned;
    OfSeat(s, e);
  }

  /** IN_GAME is sent only for a stored session of the ten ids of its room, all of
      whom accepted and none of whom was or will be re-enqueued from it. */
  lemma InGameIsCommitted(s: State, p: nat, r: nat)
    requires Reachable(s) && p in s.gw && IN_GAME(r) in s.gw[p].sent
    ensures r in s.rooms && r in s.sessions && Verdict(s.rooms[r]) == Some(true)
    ensures SeatsManned(s, r) && s.sessions[r] == SessionIds(s, s.rooms[r]) && s.gw[p].id in s.sessions[r]
    ensures |s.sessions[r]| == PLAYERS_PER_MATCH && Distinct(s.sessions[r])
    ensures forall i | 0 <= i < PLAYERS_PER_MATCH :: s.rooms[r].seats[i].said == Some(true) && s.rooms[r].seats[i].fate == Undecided
  {
    hide Reachable, Core, CountersOk, RoomOk, AcceptsOk, SeatOk, Distinct;
    ReachableOk(s);
    OfGateway(s, p);
    var e := s.gw[p].confirmed.value;
    assert OwnSeat(s, p, e) && SeatOf(s, e).heard == Some(true) && e.room == r;
    HeardTrue(s, e);
    OfRoom(s, r);
    forall i | 0 <= i < PLAYERS_PER_MATCH
      ensures s.rooms[r].seats[i].said == Some(true) && s.rooms[r].seats[i].fate == Undecided
    {
      TrueVerdictSeats(s.rooms[r], i);
    }
    TenSeats(s.rooms[r]);
    assert SessionIds(s, s.rooms[r])[e.idx] == s.gw[p].id;
  }

  // ------------------------------------------------------------------
  // Channels
  // ------------------------------------------------------------------

  /** No send hits a closed channel, no channel is closed twice, and neither
      non-blocking send ever takes its default branch; queued players have open,
      empty channels. */
  lemma ChannelsSafe(s: State)
    requires Reachable(s)
    ensures !s.panicked && s.dropped == 0
    ensures forall id | id in s.pool :: s.pool[id] in s.gw && s.gw[s.pool[id]].matchCh == READY
  {
    ReachableOk(s);
    ItsPool(s);
    hide Core;
    forall id | id in s.pool ensures s.pool[id] in s.gw && s.gw[s.pool[id]].matchCh == READY {
      OfGateway(s, s.pool[id]);
    }
  }

  /** No send on fanInCh, on a result channel or on cancelReq ever blocks. */
  lemma SendsNeverBlock(s: State)
    requires Reachable(s)
    ensures forall r, i, byCtx | r in s.rooms && CanRespond(s.rooms[r], i, byCtx) :: FanInHasRoom(s.rooms[r])
    ensures forall r | r in s.rooms && s.rooms[r].phase.Notifying? ::
              s.rooms[r].phase.k < |s.rooms[r].seats| && ResultHasRoom(s.rooms[r].seats[s.rooms[r].phase.k])
    ensures forall p | p in s.gw && s.gw[p].reader == Reading :: !s.gw[p].cancelReq
  {
    ReachableOk(s);
    forall r, i, byCtx | r in s.rooms && CanRespond(s.rooms[r], i, byCtx) ensures FanInHasRoom(s.rooms[r]) {
      ItsRoom(s, r);
      SomeoneUnheard(s.rooms[r], i);
    }
    forall r | r in s.rooms && s.rooms[r].phase.Notifying?
      ensures s.rooms[r].phase.k < |s.rooms[r].seats| && ResultHasRoom(s.rooms[r].seats[s.rooms[r].phase.k])
    {
      ItsRoom(s, r);
      assert SeatOk(s.rooms[r], s.rooms[r].phase.k);
    }
    forall p | p in s.gw && s.gw[p].reader == Reading ensures !s.gw[p].cancelReq {
      OfRecord(s, p);
    }
  }

  lemma SomeoneUnheard(room: Room, i: nat)
    requires RoomOk(room) && i < |room.seats| && room.seats[i].listening
    ensures |room.log| < PLAYERS_PER_MATCH
  {
    assert SeatOk(room, i);
    NotYetFull(room.log, i, PLAYERS_PER_MATCH);
  }

  lemma NotYetFull(log: seq<FanIn>, i: nat, n: nat)
    requires DistinctIdx(log) && i < n && forall m | m in log :: m.idx < n && m.idx != i
    ensures |log| < n
  {
    IndicesCount(log);
    assert Indices(log) <= Below(n);
    SubsetSize(Indices(log), Below(n));
    assert i in Below(n) && i !in Indices(log);
  }

  // ------------------------------------------------------------------
  // The fate of a waiting player
  // ------------------------------------------------------------------

  /** Left behind: the room failed, and either the accept had not been gathered by
      the verdict or the id was queued again when its turn to go back came. */
  ghost predicate LeftBehind(s: State, p: nat, e: Event) {
    && OwnSeat(s, p, e) && Released(s.rooms[e.room], e.idx) && Verdict(s.rooms[e.room]) == Some(false)
    && (FanIn(e.idx, true) !in s.rooms[e.room].log[..TakenOf(s.rooms[e.room])] || SeatOf(s, e).fate == Refused)
  }

  lemma WaitingSeat(s: State, p: nat, e: Event)
    requires Inv(s) && p in s.gw && s.gw[p].pc == Idle && OwnSeat(s, p, e) && !Released(s.rooms[e.room], e.idx)
    ensures Verdict(s.rooms[e.room]) != Some(true)
  {
    hide Core, CountersOk, RoomOk;
    OfSeat(s, e);
    ItsRoom(s, e.room);
    if Verdict(s.rooms[e.room]) == Some(true) {
      TrueVerdictSeats(s.rooms[e.room], e.idx);
      assert false;
    }
  }

  lemma LeftSeat(s: State, p: nat, e: Event)
    requires Inv(s) && OwnSeat(s, p, e) && Released(s.rooms[e.room], e.idx)
    requires SeatOf(s, e).fate == Skipped || SeatOf(s, e).fate == Refused
    ensures LeftBehind(s, p, e)
  {
    hide Core, CountersOk, RoomOk, Manned;
    OfSeat(s, e);
  }

  /** A gateway in its select loop has its object in the pool, in a room that has
      not confirmed and has not let it go, with a closed channel, or left behind. */
  lemma FateOfWaiting(s: State, p: nat)
    requires Reachable(s) && p in s.gw && s.gw[p].pc == Idle
    ensures || Queued(s, p)
            || (exists e :: OwnSeat(s, p, e) && Holds(s, e) && Verdict(s.rooms[e.room]) != Some(true))
            || s.gw[p].matchCh.closed
            || (exists e :: LeftBehind(s, p, e))
  {
    hide Reachable, Core, CountersOk, RoomOk, AcceptsOk, GatewayOk;
    ReachableOk(s);
    OfGateway(s, p);
    var g := s.gw[p];
    if g.place.Seated? {
      var e := g.place.e;
      WaitingSeat(s, p, e);
      assert OwnSeat(s, p, e) && Holds(s, e);
    } else if g.place.Left? {
      var e := g.place.e;
      LeftSeat(s, p, e);
      assert LeftBehind(s, p, e);
    }
  }

  // ------------------------------------------------------------------
  // Progress
  // ------------------------------------------------------------------

  lemma DrivesOwn(r: nat)
    ensures Drives(Deliver(r), r) && Drives(Launch(r), r) && Drives(GiveUp(r), r) && Drives(Timeout(r), r)
    ensures Drives(Create(r), r) && Drives(Notify(r), r) && Drives(Requeue(r), r)
  {
  }

  lemma ItsSeats(s: State, r: nat)
    requires Inv(s) && r in s.rooms
    ensures RoomOk(s.rooms[r]) && SeatsManned(s, r) && |s.rooms[r].seats| == PLAYERS_PER_MATCH
  {
    hide Core, CountersOk, SessionOk, SeatOk;
    OfRoom(s, r);
  }

  lemma SendingSteps(s: State, r: nat, k: nat)
    requires Inv(s) && r in s.rooms && s.rooms[r].phase == Sending(k)
    ensures if k < PLAYERS_PER_MATCH then Enabled(s, Deliver(r)) else Enabled(s, Launch(r))
  {
    hide Inv, SeatOk;
    ItsSeats(s, r);
  }

  lemma GatheringSteps(s: State, r: nat)
    requires r in s.rooms && s.rooms[r].phase == Gathering
    ensures if s.rooms[r].ctxDone then Enabled(s, GiveUp(r)) else Enabled(s, Timeout(r))
  {
  }

  lemma CreatingSteps(s: State, r: nat)
    requires Inv(s) && r in s.rooms && s.rooms[r].phase == Creating
    ensures Enabled(s, Create(r))
  {
    hide Inv, RoomOk;
    ItsSeats(s, r);
  }

  lemma NotifyingSteps(s: State, r: nat, k: nat)
    requires Inv(s) && r in s.rooms && s.rooms[r].phase.Notifying? && s.rooms[r].phase.k == k
    ensures Enabled(s, Notify(r))
  {
    hide Inv;
    ItsSeats(s, r);
    assert SeatOk(s.rooms[r], k);
  }

  lemma RequeuingSteps(s: State, r: nat, k: nat)
    requires Inv(s) && r in s.rooms && s.rooms[r].phase == Requeuing(k)
    ensures Enabled(s, Requeue(r))
  {
    hide Inv, SeatOk;
    ItsSeats(s, r);
  }

  /** Until it is done, a room has a step of its own that can be taken. */
  lemma RoomCanStep(s: State, r: nat)
    requires Reachable(s) && r in s.rooms && !s.rooms[r].phase.Done?
    ensures exists a :: Drives(a, r) && Enabled(s, a)
  {
    hide Enabled, Drives;
    var a := match s.rooms[r].phase
      case Sending(k) => if k < PLAYERS_PER_MATCH then Deliver(r) else Launch(r)
      case Gathering => if s.rooms[r].ctxDone then GiveUp(r) else Timeout(r)
      case Creating => Create(r)
      case Notifying(_, _) => Notify(r)
      case Requeuing(_) => Requeue(r);
    ReachableOk(s);
    hide Reachable, Inv;
    match s.rooms[r].phase {
      case Sending(k) => SendingSteps(s, r, k);
      case Gathering => GatheringSteps(s, r);
      case Creating => CreatingSteps(s, r);
      case Notifying(_, k) => NotifyingSteps(s, r, k);
      case Requeuing(k) => RequeuingSteps(s, r, k);
    }
    assert Drives(a, r) by { DrivesOwn(r); }
  }

  /** Rooms run down: every step of its own brings a room nearer the end, no action
      takes it further away, and at most 200 are ever left. */
  lemma RoomsRunDown(s: State, a: Action, r: nat)
    requires Reachable(s) && Enabled(s, a) && r in s.rooms
    ensures r in Apply(s, a).rooms
    ensures Remaining(Apply(s, a).rooms[r]) <= Remaining(s.rooms[r]) <= 200
    ensures Drives(a, r) ==> Remaining(Apply(s, a).rooms[r]) < Remaining(s.rooms[r])
    ensures 0 <= Remaining(s.rooms[r]) && (Remaining(s.rooms[r]) == 0 <==> s.rooms[r].phase.Done?)
  {
    hide Inv, Enabled, Apply;
    ReachableOk(s);
    RoomLater(s, a, r);
    ItsRoom(s, r);
  }

  /** A gateway waiting for a verdict can read one, or its room can still step. */
  lemma AwaitingIsServed(s: State, p: nat)
    requires Reachable(s) && p in s.gw && s.gw[p].pc.Awaiting?
    ensures HasSeat(s, s.gw[p].pc.e)
    ensures Enabled(s, Hear(p)) || exists a :: Drives(a, s.gw[p].pc.e.room) && Enabled(s, a)
  {
    hide Reachable, Core, CountersOk, Drives, RoomOk, AcceptsOk, GatewayOk;
    ReachableOk(s);
    OfGateway(s, p);
    var e := s.gw[p].pc.e;
    if s.rooms[e.room].phase.Done? {
      ItsRoom(s, e.room);
      DoneCanHear(s.rooms[e.room], e.idx);
    } else {
      RoomCanStep(s, e.room);
    }
  }

  lemma DoneCanHear(room: Room, i: nat)
    requires RoomOk(room) && room.phase.Done? && i < |room.seats| && room.seats[i].heard == None
    ensures CanHear(room.seats[i])
  {
    assert SeatOk(room, i);
  }

  // ------------------------------------------------------------------
  // Streams, tokens, counters
  // ------------------------------------------------------------------

  /** Every stream is a prefix of WAITING (WAITING | READY_CHECK WAITING)* and one
      of READY_CHECK IN_GAME (of the same session), READY_CHECK CANCELLED, CANCELLED. */
  lemma StreamLanguage(s: State, p: nat)
    requires Reachable(s) && p in s.gw
    ensures PrefixOfComplete(s.gw[p].sent)
  {
    ReachableOk(s);
    OfRecord(s, p);
    hide Inv;
    UnbrokenIsPrefix(s.gw[p].sent);
  }

  lemma OfAccepts(s: State, p: nat)
    requires Inv(s) && p in s.gw
    ensures AcceptsOk(s, p) && |s.gw[p].accepts| <= s.gw[p].acceptMsgs
  {
    OfGateway(s, p);
    hide Core;
  }

  lemma AcceptsHold(s: State, p: nat, es: set<Event>)
    requires p in s.gw && AcceptsOk(s, p)
    requires forall e | e in es :: OwnSeat(s, p, e) && SeatOf(s, e).said == Some(true)
    ensures es <= s.gw[p].accepts
  {
  }

  /** A stream accepts at most as many ready-checks as it received AcceptMatch messages. */
  lemma AcceptTokens(s: State, p: nat, es: set<Event>)
    requires Reachable(s) && p in s.gw
    requires forall e | e in es :: OwnSeat(s, p, e) && SeatOf(s, e).said == Some(true)
    ensures |es| <= s.gw[p].acceptMsgs
  {
    hide Reachable, Inv, AcceptsOk;
    ReachableOk(s);
    OfAccepts(s, p);
    AcceptsHold(s, p, es);
    SubsetSize(es, s.gw[p].accepts);
  }

  /** A session exists only if each of its ten streams received an AcceptMatch. */
  lemma SessionNeedsTenAccepts(s: State, r: nat, i: nat)
    requires Reachable(s) && r in s.sessions && i < PLAYERS_PER_MATCH
    ensures r in s.rooms && SeatsManned(s, r) && |s.rooms[r].seats| == PLAYERS_PER_MATCH
    ensures s.gw[s.rooms[r].seats[i].player].acceptMsgs >= 1
  {
    hide Reachable, Core, CountersOk, RoomOk, Distinct;
    ReachableOk(s);
    ItsSession(s, r);
    OfRoom(s, r);
    TrueVerdictSeats(s.rooms[r], i);
    TenSeats(s.rooms[r]);
    hide Inv;
    AcceptTokens(s, s.rooms[r].seats[i].player, {Event(r, i)});
  }

  lemma ItsSession(s: State, r: nat)
    requires Inv(s) && r in s.sessions
    ensures r in s.rooms && SeatsManned(s, r) && SessionOk(s, r)
  {
  }

  /** Enqueues and re-enqueues against what is queued, dequeued and extracted; the
      matches counter against the extractions whose tick has counted them. */
  lemma Conservation(s: State)
    requires Reachable(s)
    ensures s.tally.enqueued + s.tally.requeued == |s.pool| + s.tally.dequeued + PLAYERS_PER_MATCH * s.tally.extracted
    ensures s.matches == |CountedRooms(s)|
  {
    ReachableOk(s);
  }

  // ------------------------------------------------------------------
  // Whole runs
  // ------------------------------------------------------------------

  lemma NextAction(run: seq<State>, i: nat) returns (a: Action)
    requires IsRun(run) && i + 1 < |run|
    ensures Inv(run[i]) && Enabled(run[i], a) && run[i + 1] == Apply(run[i], a)
  {
    RunsOk(run, i);
    assert Next(run[i], run[i + 1]);
    a :| Enabled(run[i], a) && run[i + 1] == Apply(run[i], a);
  }

  /** A verdict, once reached, never changes, and neither does what was said or heard. */
  lemma {:induction false} VerdictsAreFinal(run: seq<State>, i: nat, j: nat, r: nat)
    requires IsRun(run) && i <= j < |run| && r in run[i].rooms
    ensures r in run[j].rooms && SamePlayers(run[i].rooms[r], run[j].rooms[r])
    ensures Verdict(run[i].rooms[r]).Some? ==> Verdict(run[j].rooms[r]) == Verdict(run[i].rooms[r])
    ensures forall k | 0 <= k < |run[i].rooms[r].seats| :: LaterSeat(run[i].rooms[r].seats[k], run[j].rooms[r].seats[k])
  {
    hide Enabled, Apply, Inv, Remaining;
    if i < j {
      VerdictsAreFinal(run, i, j - 1, r);
      var a := NextAction(run, j - 1);
      RoomLater(run[j - 1], a, r);
    }
  }

  /** A seated object whose gateway is returning, or has, without having accepted. */
  ghost predicate Spent(s: State, p: nat, e: Event) {
    && p in s.gw && Returning(s.gw[p]) && OwnSeat(s, p, e) && SeatOf(s, e).said != Some(true)
    && (s.gw[p].place == Seated(e) || s.gw[p].place == Left(e))
  }

  lemma SpentIsLost(s: State, p: nat, e: Event)
    requires Inv(s) && Spent(s, p, e)
    ensures !Queued(s, p) && Verdict(s.rooms[e.room]) != Some(true) && SeatOf(s, e).fate != Requeued && !SeatOf(s, e).accepted
  {
    OfSeat(s, e);
    ItsRoom(s, e.room);
    ItsPool(s);
    var room := s.rooms[e.room];
    AcceptedSaid(room, e.idx);
    if Verdict(room) == Some(true) {
      TrueVerdictSeats(room, e.idx);
    }
    hide Inv, RoomOk;
  }

  lemma SpentStays(s: State, a: Action, p: nat, e: Event)
    requires Inv(s) && Enabled(s, a) && Spent(s, p, e)
    ensures Spent(Apply(s, a), p, e)
  {
    hide Inv, Enabled, Apply;
    ObjectMoves(s, a, p);
    SaidStays(s, a, p, e);
    SpentIsLost(s, p, e);
  }

  lemma TakenIsSpent(s: State, a: Action, p: nat, e: Event)
    requires Inv(s) && Enabled(s, a) && p in s.gw && Returning(s.gw[p]) && Queued(s, p)
    requires p in Apply(s, a).gw && Apply(s, a).gw[p].place == Seated(e)
    ensures Spent(Apply(s, a), p, e)
  {
    hide Inv, Enabled, Apply;
    QueuedIsPooled(s, p);
    ObjectMoves(s, a, p);
    ActionKeeps(s, a);
    ItsGateway(Apply(s, a), p);
    NewSeatsSilent(s, a.r, a.ids, e);
  }

  lemma QueuedIsPooled(s: State, p: nat)
    requires Inv(s) && Queued(s, p)
    ensures s.gw[p].place == Pooled
  {
    ItsPool(s);
  }

  lemma NewSeatsSilent(s: State, r: nat, ids: seq<string>, e: Event)
    requires Enabled(s, Extract(r, ids)) && e.room == r
    ensures HasSeat(Apply(s, Extract(r, ids)), e) ==> SeatOf(Apply(s, Extract(r, ids)), e).said == None
  {
    ExtractFrame(s, r, ids, e);
  }

  /** A spent object stays spent: it fails the room it is in, is not put back, and so
      is never queued or extracted again. */
  lemma {:induction false} SpentForGood(run: seq<State>, j: nat, k: nat, p: nat, e: Event)
    requires IsRun(run) && j <= k < |run| && Spent(run[j], p, e)
    ensures Spent(run[k], p, e) && !Queued(run[k], p)
    ensures Verdict(run[k].rooms[e.room]) != Some(true) && SeatOf(run[k], e).fate != Requeued
  {
    hide Inv, Apply, Enabled, IsRun;
    if j < k {
      SpentForGood(run, j, k - 1, p, e);
      var a := NextAction(run, k - 1);
      SpentStays(run[k - 1], a, p, e);
    }
    RunsOk(run, k);
    SpentIsLost(run[k], p, e);
  }

  /** Self-healing: an object extracted once its gateway has begun to return, whether or
      not the deferred Dequeue has run, is extracted never again, fails the room it is
      in, and is never re-enqueued. */
  lemma SelfHealing(run: seq<State>, j: nat, k: nat, p: nat, e: Event)
    requires IsRun(run) && j + 1 <= k < |run|
    requires p in run[j].gw && Returning(run[j].gw[p]) && Queued(run[j], p)
    requires p in run[j + 1].gw && run[j + 1].gw[p].place == Seated(e)
    ensures Spent(run[k], p, e) && !Queued(run[k], p)
    ensures Verdict(run[k].rooms[e.room]) != Some(true) && SeatOf(run[k], e).fate != Requeued
  {
    hide Inv, Apply, Enabled, IsRun;
    var a := NextAction(run, j);
    TakenIsSpent(run[j], a, p, e);
    SpentForGood(run, j + 1, k, p, e);
  }
}

/** "Players who did accept are re-enqueued": exactly when that is so, and a run in
    which it is not. */
module AcceptersFate {
  import opened Collections
  import opened Players
  import opened StatusStream
  import opened ReadyCheck
  import opened ReadyCheckInvariant
  import opened ReadyCheckSteps
  import opened ReadyCheckPool
  import opened ReadyCheckRuns
  import opened ReadyCheckGuarantees

  // ------------------------------------------------------------------
  // The exact condition
  // ------------------------------------------------------------------

  /** What the coordinator took off the fan-in channel before it decided. */
  function GatheredBy(room: Room): seq<FanIn> {
    room.log[..TakenOf(room)]
  }

  /** The re-enqueue loop puts a player back exactly when its accept was gathered
      before the verdict and its id is not queued again. */
  lemma PutBackExactlyWhen(s: State, r: nat, k: nat, p: nat)
    requires Reachable(s) && Enabled(s, Requeue(r)) && s.rooms[r].phase == Requeuing(k) && s.rooms[r].seats[k].player == p
    ensures p in Apply(s, Requeue(r)).gw
    ensures Queued(Apply(s, Requeue(r)), p) <==> FanIn(k, true) in GatheredBy(s.rooms[r]) && s.gw[p].id !in s.pool
  {
    hide Reachable, Core, CountersOk, RoomOk, Queued, Apply, GatheredBy;
    ReachableOk(s);
    RequeueSeat(s, Event(r, k));
    ItsRoom(s, r);
    AcceptedMeansGathered(s.rooms[r], k);
    NotQueuedYet(s, p);
    hide Inv;
    QueuedAfter(s, r, s.rooms[r].seats[k], p);
  }

  lemma AcceptedMeansGathered(room: Room, k: nat)
    requires RoomOk(room) && k < |room.seats|
    ensures room.seats[k].accepted <==> FanIn(k, true) in GatheredBy(room)
  {
    assert SeatOk(room, k);
  }

  lemma NotQueuedYet(s: State, p: nat)
    requires Inv(s) && p in s.gw && s.gw[p].place != Pooled
    ensures !Queued(s, p)
  {
    ItsPool(s);
    hide Core;
  }

  lemma QueuedAfter(s: State, r: nat, seat: Seat, p: nat)
    requires Enabled(s, Requeue(r)) && seat == s.rooms[r].seats[s.rooms[r].phase.k] && seat.player == p && !Queued(s, p)
    ensures p in Apply(s, Requeue(r)).gw
    ensures Queued(Apply(s, Requeue(r)), p) <==> seat.accepted && s.gw[p].id !in s.pool
  {
    hide RequeuedPast;
  }

  // ------------------------------------------------------------------
  // A run that leaves an accepter behind
  // ------------------------------------------------------------------

  /** The first `n` players are queued, and nothing else has happened. */
  ghost predicate AllJoined(s: State, n: nat) {
    && (forall p: nat :: p in s.gw <==> p < n)
    && (forall p: nat | p < n :: s.gw[p] == NewGateway(Name(p)) && Name(p) in s.pool && s.pool[Name(p)] == p)
    && (forall id | id in s.pool :: |id| < n && id == Name(|id|))
    && s.rooms == map[]
  }

  lemma {:induction false} JoinAll(n: nat) returns (s: State)
    ensures Reachable(s) && AllJoined(s, n)
  {
    hide Reachable, AllJoined, Joined, Name;
    if n == 0 {
      StartIsReachable();
      NoneJoined();
      s := INIT;
    } else {
      var t := JoinAll(n - 1);
      OneMoreJoined(t, n - 1);
      ReachableNext(t, Join(Name(n - 1), n - 1));
      s := Apply(t, Join(Name(n - 1), n - 1));
    }
  }

  lemma NoneJoined()
    ensures AllJoined(INIT, 0)
  {
  }

  lemma OneMoreJoined(t: State, p: nat)
    requires AllJoined(t, p)
    ensures p !in t.gw && AllJoined(Joined(t, Name(p), p), p + 1)
  {
    assert |Name(p)| == p;
    forall q: nat | q != p ensures Name(q) != Name(p) { NamesDiffer(q, p); }
    hide Name;
  }

  const FIRST := Event(0, 0)
  const SECOND := Event(0, 1)

  /** What the first client has been told, up to its verdict. */
  const ASKED := [WAITING, READY_CHECK(0)]
  const REFUSAL := [FanIn(1, false)]

  /** The first gateway and room 0, with nobody queued. */
  ghost predicate At(s: State, phase: Phase, pc: Pc, sent: seq<Status>, said: Option<bool>, log: seq<FanIn>, n: nat) {
    && 0 in s.gw && s.gw[0].pc == pc && s.gw[0].sent == sent && !s.gw[0].matchCh.closed
    && s.pool == map[] && s.rooms.Keys == {0}
    && HasSeat(s, FIRST) && SeatOf(s, FIRST).player == 0 && SeatOf(s, FIRST).said == said
    && s.rooms[0].phase == phase && s.rooms[0].log == log && s.rooms[0].received == n
  }

  /** The second gateway, greeted and told or not of its event; its seat is unanswered. */
  ghost predicate SecondAt(s: State, buf: Option<Event>) {
    && 1 in s.gw && s.gw[1].pc == Idle && s.gw[1].matchCh == MatchCh(false, buf)
    && HasSeat(s, SECOND) && SeatOf(s, SECOND) == NewSeat(1)
  }

  /** The second player's refusal is in its response channel. */
  ghost predicate RefusalSent(s: State) {
    HasSeat(s, SECOND) && SeatOf(s, SECOND).resp == Some(false) && SeatOf(s, SECOND).listening
  }

  function TenNames(n: nat): seq<string> {
    seq(n, i requires 0 <= i < n => Name(i))
  }

  lemma TenNamesDistinct(n: nat)
    ensures Distinct(TenNames(n)) && |TenNames(n)| == n
  {
    forall i, j | 0 <= i < j < n ensures TenNames(n)[i] != TenNames(n)[j] { NamesDiffer(i, j); }
  }

  /** The ten have joined, the first two were greeted, the first sent an accept ahead. */
  ghost predicate Queueing(s: State, ids: seq<string>) {
    && s.rooms == map[] && |ids| == PLAYERS_PER_MATCH && Distinct(ids) && s.pool.Keys == (set id | id in ids)
    && ids[0] == Name(0) && s.pool[ids[0]] == 0 && ids[1] == Name(1) && s.pool[ids[1]] == 1
    && 0 in s.gw && s.gw[0].id == ids[0] && s.gw[0].matchCh == READY
    && s.gw[0].pc == Idle && s.gw[0].sent == [WAITING] && s.gw[0].acceptReq
    && 1 in s.gw && s.gw[1].id == ids[1] && s.gw[1].matchCh == READY && s.gw[1].pc == Idle
  }

  lemma Queue(n: nat) returns (s: State)
    requires n == PLAYERS_PER_MATCH
    ensures Reachable(s) && Queueing(s, TenNames(n))
  {
    hide Reachable, Queueing;
    var s0 := JoinAll(n);
    ReachableNext(s0, Greet(0, true));
    var s1 := Apply(s0, Greet(0, true));
    ReachableNext(s1, Greet(1, true));
    var s2 := Apply(s1, Greet(1, true));
    ReachableNext(s2, ClientAccept(0));
    s := Apply(s2, ClientAccept(0));
    QueuedNames(s0, n);
    TenNamesDistinct(n);
    QueueingNow(s0, s, n);
  }

  lemma QueueingNow(s0: State, s: State, n: nat)
    requires n == PLAYERS_PER_MATCH && AllJoined(s0, n) && s0.pool.Keys == (set id | id in TenNames(n)) && Distinct(TenNames(n))
    requires s.pool == s0.pool && s.rooms == s0.rooms && 0 in s.gw && 1 in s.gw
    requires s.gw[0] == s0.gw[0].(pc := Idle, sent := [WAITING], reader := Reading, acceptMsgs := 1, acceptReq := true)
    requires s.gw[1] == s0.gw[1].(pc := Idle, sent := [WAITING], reader := Reading)
    ensures Queueing(s, TenNames(n))
  {
  }

  lemma QueuedNames(s: State, n: nat)
    requires AllJoined(s, n)
    ensures s.pool.Keys == (set id | id in TenNames(n))
  {
    forall i | 0 <= i < n ensures TenNames(n)[i] == Name(i) && Name(i) in s.pool {}
    forall id | id in s.pool ensures id in TenNames(n) {
      assert TenNames(n)[|id|] == id;
    }
  }

  /** The ten are extracted. */
  lemma Extracting(s: State, ids: seq<string>) returns (s': State)
    requires Reachable(s) && Queueing(s, ids)
    ensures Reachable(s') && At(s', Sending(0), Idle, [WAITING], None, [], 0) && SecondAt(s', None)
    ensures s'.gw[0].acceptReq && s'.gw[0].matchCh == READY && SeatOf(s', FIRST).resp == None
  {
    hide Reachable, Enabled, Apply;
    CanTakeTen(s, ids);
    ReachableNext(s, Extract(0, ids));
    s' := Apply(s, Extract(0, ids));
    TenExtracted(s, ids, s');
    hide Queueing, At, SecondAt;
  }

  lemma CanTakeTen(s: State, ids: seq<string>)
    requires Queueing(s, ids)
    ensures Enabled(s, Extract(0, ids))
  {
  }

  lemma TenExtracted(s: State, ids: seq<string>, s': State)
    requires Queueing(s, ids) && Enabled(s, Extract(0, ids)) && s' == Apply(s, Extract(0, ids))
    ensures At(s', Sending(0), Idle, [WAITING], None, [], 0) && SecondAt(s', None)
    ensures s'.gw[0].acceptReq && s'.gw[0].matchCh == READY && SeatOf(s', FIRST).resp == None
  {
    ExtractGateway(s, 0, ids, 0);
    ExtractGateway(s, 0, ids, 1);
    hide Position;
  }

  /** The first is told, asks its client, and answers true. */
  lemma FirstAnswers(s: State) returns (s': State)
    requires Reachable(s) && At(s, Sending(0), Idle, [WAITING], None, [], 0) && SecondAt(s, None)
    requires s.gw[0].acceptReq && s.gw[0].matchCh == READY && SeatOf(s, FIRST).resp == None
    ensures Reachable(s') && At(s', Sending(1), Awaiting(FIRST), ASKED, Some(true), [], 0) && SecondAt(s', None)
  {
    hide Reachable;
    ReachableNext(s, Deliver(0));
    s' := FirstAccepts(Apply(s, Deliver(0)));
  }

  lemma FirstAccepts(s: State) returns (s': State)
    requires Reachable(s) && At(s, Sending(1), Idle, [WAITING], None, [], 0) && SecondAt(s, None)
    requires s.gw[0].acceptReq && s.gw[0].matchCh.buf == Some(FIRST) && SeatOf(s, FIRST).resp == None
    ensures Reachable(s') && At(s', Sending(1), Awaiting(FIRST), ASKED, Some(true), [], 0) && SecondAt(s', None)
  {
    hide Reachable;
    ReachableNext(s, TakeEvent(0, true));
    s' := FirstSaysYes(Apply(s, TakeEvent(0, true)));
  }

  lemma FirstSaysYes(s: State) returns (s': State)
    requires Reachable(s) && At(s, Sending(1), Checking(FIRST), ASKED, None, [], 0) && SecondAt(s, None)
    requires s.gw[0].acceptReq && SeatOf(s, FIRST).resp == None
    ensures Reachable(s') && At(s', Sending(1), Awaiting(FIRST), ASKED, Some(true), [], 0) && SecondAt(s', None)
  {
    hide Reachable;
    ReachableNext(s, Accept(0));
    s' := Apply(s, Accept(0));
  }

  /** The second is told, and declines. */
  lemma SecondAnswers(s: State) returns (s': State)
    requires Reachable(s) && At(s, Sending(1), Awaiting(FIRST), ASKED, Some(true), [], 0) && SecondAt(s, None)
    ensures Reachable(s') && At(s', Sending(2), Awaiting(FIRST), ASKED, Some(true), [], 0) && RefusalSent(s')
  {
    hide Reachable;
    ReachableNext(s, Deliver(0));
    s' := SecondDeclines(Apply(s, Deliver(0)));
  }

  lemma SecondDeclines(s: State) returns (s': State)
    requires Reachable(s) && At(s, Sending(2), Awaiting(FIRST), ASKED, Some(true), [], 0) && SecondAt(s, Some(SECOND))
    ensures Reachable(s') && At(s', Sending(2), Awaiting(FIRST), ASKED, Some(true), [], 0) && RefusalSent(s')
  {
    hide Reachable;
    ReachableNext(s, TakeEvent(1, true));
    var s1 := Apply(s, TakeEvent(1, true));
    ReachableNext(s1, Decline(1));
    s' := Apply(s1, Decline(1));
  }

  /** The other eight are told. */
  lemma {:induction false} Delivering(s: State, k: nat, n: nat) returns (s': State)
    requires n == PLAYERS_PER_MATCH && k <= n && RefusalSent(s)
    requires Reachable(s) && At(s, Sending(k), Awaiting(FIRST), ASKED, Some(true), [], 0)
    ensures Reachable(s') && At(s', Sending(n), Awaiting(FIRST), ASKED, Some(true), [], 0) && RefusalSent(s')
    decreases n - k
  {
    hide Reachable;
    if k == n {
      s' := s;
    } else {
      RoomReady(s, k);
      ReachableNext(s, Deliver(0));
      var t := Apply(s, Deliver(0));
      DeliverStays(s, k, t);
      hide At, RefusalSent;
      s' := Delivering(t, k + 1, n);
    }
  }

  lemma RoomReady(s: State, k: nat)
    requires Reachable(s) && 0 in s.rooms && k < PLAYERS_PER_MATCH
    ensures k < |s.rooms[0].seats| && s.rooms[0].seats[k].player in s.gw
  {
    hide Reachable;
    ReachableOk(s);
    OfRoom(s, 0);
    hide Inv, Core;
    TenSeats(s.rooms[0]);
  }

  lemma DeliverStays(s: State, k: nat, t: State)
    requires At(s, Sending(k), Awaiting(FIRST), ASKED, Some(true), [], 0) && RefusalSent(s)
    requires Enabled(s, Deliver(0)) && t == Delivered(s, 0)
    ensures At(t, Sending(k + 1), Awaiting(FIRST), ASKED, Some(true), [], 0) && RefusalSent(t)
  {
  }

  /** The coordinator starts, and the refusal reaches it first: a fast fail, while the
      first player's accept is still on its way. */
  lemma Deciding(s: State) returns (s': State)
    requires Reachable(s) && At(s, Sending(PLAYERS_PER_MATCH), Awaiting(FIRST), ASKED, Some(true), [], 0) && RefusalSent(s)
    ensures Reachable(s') && At(s', Notifying(false, 0), Awaiting(FIRST), ASKED, Some(true), REFUSAL, 1)
  {
    hide Reachable;
    ReachableNext(s, Launch(0));
    s' := Hastening(Apply(s, Launch(0)));
  }

  lemma Hastening(s: State) returns (s': State)
    requires Reachable(s) && At(s, Gathering, Awaiting(FIRST), ASKED, Some(true), [], 0) && RefusalSent(s)
    ensures Reachable(s') && At(s', Notifying(false, 0), Awaiting(FIRST), ASKED, Some(true), REFUSAL, 1)
  {
    hide Reachable;
    ReachableNext(s, Respond(0, 1, false));
    s' := FastFailing(Apply(s, Respond(0, 1, false)));
  }

  lemma FastFailing(s: State) returns (s': State)
    requires Reachable(s) && At(s, Gathering, Awaiting(FIRST), ASKED, Some(true), REFUSAL, 0) && HasSeat(s, SECOND)
    ensures Reachable(s') && At(s', Notifying(false, 0), Awaiting(FIRST), ASKED, Some(true), REFUSAL, 1)
  {
    hide Reachable;
    ReachableNext(s, Gather(0));
    s' := Apply(s, Gather(0));
  }

  /** All ten get the verdict false. */
  lemma {:induction false} NotifyingAll(s: State, k: nat, n: nat) returns (s': State)
    requires n == PLAYERS_PER_MATCH && k < n
    requires Reachable(s) && At(s, Notifying(false, k), Awaiting(FIRST), ASKED, Some(true), REFUSAL, 1)
    ensures Reachable(s') && At(s', Requeuing(0), Awaiting(FIRST), ASKED, Some(true), REFUSAL, 1)
    decreases n - k
  {
    hide Reachable, At, Enabled, Apply;
    CanNotify(s, k);
    ReachableNext(s, Notify(0));
    var t := Apply(s, Notify(0));
    NotifyStays(s, k, t);
    if k + 1 == n {
      s' := t;
    } else {
      s' := NotifyingAll(t, k + 1, n);
    }
  }

  lemma CanNotify(s: State, k: nat)
    requires Reachable(s) && At(s, Notifying(false, k), Awaiting(FIRST), ASKED, Some(true), REFUSAL, 1)
    ensures Enabled(s, Notify(0))
  {
    hide Reachable;
    SendsNeverBlock(s);
  }

  lemma NotifyStays(s: State, k: nat, t: State)
    requires At(s, Notifying(false, k), Awaiting(FIRST), ASKED, Some(true), REFUSAL, 1) && k < PLAYERS_PER_MATCH
    requires Enabled(s, Notify(0)) && t == Apply(s, Notify(0))
    ensures At(t, if k + 1 < PLAYERS_PER_MATCH then Notifying(false, k + 1) else Requeuing(0),
               Awaiting(FIRST), ASKED, Some(true), REFUSAL, 1)
  {
  }

  /** The first gateway reads it and tells its client it is queued again. */
  lemma Hearing(s: State) returns (s': State)
    requires Reachable(s) && At(s, Requeuing(0), Awaiting(FIRST), ASKED, Some(true), REFUSAL, 1)
    ensures Reachable(s') && At(s', Requeuing(0), Idle, ASKED + [WAITING], Some(true), REFUSAL, 1)
    ensures SeatOf(s', FIRST).heard == Some(false)
  {
    hide Reachable, Inv;
    ReachableOk(s);
    FalseVerdictWaits(s);
    ReachableNext(s, Hear(0));
    s' := Apply(s, Hear(0));
    FalseHeard(s, s');
  }

  lemma FalseHeard(s: State, s': State)
    requires At(s, Requeuing(0), Awaiting(FIRST), ASKED, Some(true), REFUSAL, 1)
    requires SeatOf(s, FIRST).result == Some(false) && s' == Heard(s, 0)
    ensures At(s', Requeuing(0), Idle, ASKED + [WAITING], Some(true), REFUSAL, 1) && SeatOf(s', FIRST).heard == Some(false)
  {
  }

  lemma FalseVerdictWaits(s: State)
    requires Inv(s) && At(s, Requeuing(0), Awaiting(FIRST), ASKED, Some(true), REFUSAL, 1)
    ensures SeatOf(s, FIRST).result == Some(false)
  {
    OfGateway(s, 0);
    OfRoom(s, 0);
    hide Inv, Core;
    assert SeatOk(s.rooms[0], 0);
  }

  /** Nobody is put back, for nothing but the refusal was gathered. */
  lemma {:induction false} Dropping(s: State, k: nat, n: nat) returns (s': State)
    requires n == PLAYERS_PER_MATCH && k < n
    requires Reachable(s) && At(s, Requeuing(k), Idle, ASKED + [WAITING], Some(true), REFUSAL, 1)
    requires SeatOf(s, FIRST).heard == Some(false)
    ensures Reachable(s') && At(s', Done(false), Idle, ASKED + [WAITING], Some(true), REFUSAL, 1)
    ensures SeatOf(s', FIRST).heard == Some(false)
    decreases n - k
  {
    hide Reachable;
    RoomReady(s, k);
    NothingGathered(s, k);
    ReachableNext(s, Requeue(0));
    var t := Apply(s, Requeue(0));
    SkipStays(s, k, t);
    if k + 1 == n {
      s' := t;
    } else {
      s' := Dropping(t, k + 1, n);
    }
  }

  lemma NothingGathered(s: State, k: nat)
    requires Reachable(s) && 0 in s.rooms && s.rooms[0].log == REFUSAL && k < |s.rooms[0].seats|
    ensures !s.rooms[0].seats[k].accepted
  {
    hide Reachable;
    ReachableOk(s);
    OfRoom(s, 0);
    hide Inv, Core;
    assert SeatOk(s.rooms[0], k);
  }

  lemma SkipStays(s: State, k: nat, t: State)
    requires At(s, Requeuing(k), Idle, ASKED + [WAITING], Some(true), REFUSAL, 1) && k < PLAYERS_PER_MATCH
    requires Enabled(s, Requeue(0)) && t == ReEnqueued(s, 0) && !s.rooms[0].seats[k].accepted
    ensures At(t, if k + 1 < PLAYERS_PER_MATCH then Requeuing(k + 1) else Done(false),
               Idle, ASKED + [WAITING], Some(true), REFUSAL, 1)
    ensures SeatOf(t, FIRST).heard == SeatOf(s, FIRST).heard
  {
  }

  /** A player who answered its ready-check with true, was told it is queued again, and
      is not: its room is over and its channel is open and empty. */
  lemma StrandedAccepter() returns (s: State)
    ensures Reachable(s) && 0 in s.gw && s.gw[0].pc == Idle && s.gw[0].sent == [WAITING, READY_CHECK(0), WAITING]
    ensures HasSeat(s, FIRST) && SeatOf(s, FIRST).player == 0 && SeatOf(s, FIRST).said == Some(true)
    ensures s.rooms[0].phase == Done(false) && SeatOf(s, FIRST).heard == Some(false) && SeatOf(s, FIRST).fate == Skipped
    ensures !Queued(s, 0) && s.gw[0].matchCh == READY && s.gw[0].place.Left?
  {
    hide Reachable, At, Queueing, SecondAt, RefusalSent;
    s := Queue(PLAYERS_PER_MATCH);
    s := Extracting(s, TenNames(PLAYERS_PER_MATCH));
    s := FirstAnswers(s);
    s := SecondAnswers(s);
    s := Delivering(s, 2, PLAYERS_PER_MATCH);
    s := Deciding(s);
    s := NotifyingAll(s, 0, PLAYERS_PER_MATCH);
    s := Hearing(s);
    s := Dropping(s, 0, PLAYERS_PER_MATCH);
    Stranded(s);
  }

  lemma Stranded(s: State)
    requires Reachable(s) && At(s, Done(false), Idle, ASKED + [WAITING], Some(true), REFUSAL, 1)
    requires SeatOf(s, FIRST).heard == Some(false)
    ensures 0 in s.gw && s.gw[0].pc == Idle && s.gw[0].sent == [WAITING, READY_CHECK(0), WAITING]
    ensures HasSeat(s, FIRST) && SeatOf(s, FIRST).player == 0 && SeatOf(s, FIRST).said == Some(true)
    ensures s.rooms[0].phase == Done(false) && SeatOf(s, FIRST).heard == Some(false) && SeatOf(s, FIRST).fate == Skipped
    ensures !Queued(s, 0) && s.gw[0].matchCh == READY && s.gw[0].place.Left?
  {
    hide Reachable, Inv;
    ReachableOk(s);
    NothingGathered(s, 0);
    FirstSkipped(s);
    LetGoByAll(s, 0);
    if s.gw[0].matchCh.buf.Some? {
      BufferedIsUnanswered(s, 0);
      OneSeatEach(s, 0, FIRST, s.gw[0].matchCh.buf.value);
      assert false;
    }
  }

  lemma LetGoByAll(s: State, p: nat)
    requires Inv(s) && p in s.gw && s.rooms.Keys == {0} && s.rooms[0].phase == Done(false)
    requires s.pool == map[] && !s.gw[p].matchCh.closed
    ensures s.gw[p].place.Left?
  {
    OfGateway(s, p);
    hide Inv;
  }

  lemma FirstSkipped(s: State)
    requires Inv(s) && 0 in s.rooms && s.rooms[0].phase == Done(false) && HasSeat(s, FIRST) && !SeatOf(s, FIRST).accepted
    ensures SeatOf(s, FIRST).fate == Skipped
  {
    OfRoom(s, 0);
    hide Inv;
    assert SeatOk(s.rooms[0], 0);
  }

  lemma BufferedIsUnanswered(s: State, p: nat)
    requires Inv(s) && p in s.gw && s.gw[p].matchCh.buf.Some?
    ensures OwnSeat(s, p, s.gw[p].matchCh.buf.value) && SeatOf(s, s.gw[p].matchCh.buf.value).said == None
  {
    OfGateway(s, p);
    hide Core;
  }

  /** An object has one seat in a room. */
  lemma OneSeatEach(s: State, p: nat, d: Event, e: Event)
    requires Inv(s) && OwnSeat(s, p, d) && OwnSeat(s, p, e) && d.room == e.room
    ensures d == e
  {
    hide Inv, RoomOk, Distinct;
    ItsIds(s, d.room);
    SamePosition(SessionIds(s, s.rooms[d.room]), d.idx, e.idx);
  }

  lemma ItsIds(s: State, r: nat)
    requires Inv(s) && r in s.rooms
    ensures SeatsManned(s, r) && Distinct(SessionIds(s, s.rooms[r]))
  {
    OfRoom(s, r);
    hide Core, RoomOk;
  }

  lemma SamePosition(ids: seq<string>, i: nat, j: nat)
    requires Distinct(ids) && i < |ids| && j < |ids| && ids[i] == ids[j]
    ensures i == j
  {
  }

  /** Nor will it be: an object that was let go stays out of the pool and of every
      room in all that follows. */
  lemma {:induction false} LeftForGood(run: seq<State>, i: nat, j: nat, p: nat)
    requires IsRun(run) && i <= j < |run| && p in run[i].gw && run[i].gw[p].place.Left?
    ensures p in run[j].gw && run[j].gw[p].place == run[i].gw[p].place && !Queued(run[j], p)
    ensures forall e | Holds(run[j], e) :: SeatOf(run[j], e).player != p
  {
    hide Inv, Enabled, Apply, IsRun;
    if i < j {
      LeftForGood(run, i, j - 1, p);
      var a := NextAction(run, j - 1);
      ObjectMoves(run[j - 1], a, p);
    }
    RunsOk(run, j);
    LeftIsOut(run[j], p);
  }

  lemma LeftIsOut(s: State, p: nat)
    requires Inv(s) && p in s.gw && s.gw[p].place.Left?
    ensures !Queued(s, p)
    ensures forall e | Holds(s, e) :: SeatOf(s, e).player != p
  {
    NotQueuedYet(s, p);
    forall e | Holds(s, e) ensures SeatOf(s, e).player != p {
      OfSeat(s, e);
    }
    hide Inv;
  }
}

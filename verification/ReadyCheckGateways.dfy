/** The actions of gateways, of the pool and of the ticks keep the invariant. */
module ReadyCheckGateways {
  import opened Players
  import opened StatusStream
  import opened ReadyCheck
  import opened ReadyCheckInvariant
  import opened ReadyCheckRooms
  import opened ReadyCheckSteps

  lemma Snoc(sent: seq<Status>, m: Status)
    ensures Read(sent + [m]) == Advance(Read(sent), m)
    ensures forall x :: x in sent + [m] <==> x in sent || x == m
  {
    assert (sent + [m])[..|sent|] == sent;
  }

  // ------------------------------------------------------------------
  // Steps of a gateway alone
  // ------------------------------------------------------------------

  lemma SendLocal(g: Gateway, m: Status, ok: bool, next: Pc, g': Gateway)
    requires GatewayOk(g) && (g.pc == Greeting || g.pc == Idle)
    requires (m == WAITING && next == Idle) || (g.pc == Idle && m == CANCELLED && next == Leaving)
    requires g' == Send(g, m, ok, next).(reader := g'.reader, cancelReq := g'.cancelReq)
    requires g'.reader != Stopped ==> !g'.cancelReq && !g'.clientDone
    ensures GatewayOk(g') && Local(g, g')
  {
    Snoc(g.sent, m);
  }

  lemma StartReader(g: Gateway)
    requires GatewayOk(g) && g.pc == Greeting
    ensures g.reader == Unstarted && !g.cancelReq && !g.clientDone
  {
  }

  lemma GreetKeeps(s: State, p: nat, ok: bool)
    requires Inv(s) && Enabled(s, Greet(p, ok))
    ensures Inv(Apply(s, Greet(p, ok)))
  {
    hide Core, CountersOk, GatewayOk, Local;
    OfRecord(s, p);
    StartReader(s.gw[p]);
    SendLocal(s.gw[p], WAITING, ok, Idle, Greeted(s, p, ok).gw[p]);
    LocalStep(s, p, Greeted(s, p, ok).gw[p]);
  }

  lemma PushKeeps(s: State, p: nat, ok: bool)
    requires Inv(s) && Enabled(s, Push(p, ok))
    ensures Inv(Apply(s, Push(p, ok)))
  {
    OfRecord(s, p);
    hide Core, CountersOk, Local;
    SendLocal(s.gw[p], WAITING, ok, Idle, Pushed(s, p, ok).gw[p]);
    LocalStep(s, p, Pushed(s, p, ok).gw[p]);
  }

  lemma TakeClosedKeeps(s: State, p: nat)
    requires Inv(s) && Enabled(s, TakeClosed(p))
    ensures Inv(Apply(s, TakeClosed(p)))
  {
    hide Core, CountersOk, Local;
    OfRecord(s, p);
    SendLocal(s.gw[p], CANCELLED, true, Leaving, ClosedTaken(s, p).gw[p]);
    LocalStep(s, p, ClosedTaken(s, p).gw[p]);
  }

  lemma QuitKeeps(s: State, p: nat)
    requires Inv(s) && Enabled(s, Quit(p))
    ensures Inv(Apply(s, Quit(p)))
  {
    hide Core, CountersOk;
    OfRecord(s, p);
    LocalStep(s, p, s.gw[p].(pc := Leaving));
  }

  lemma ClientAcceptKeeps(s: State, p: nat)
    requires Inv(s) && Enabled(s, ClientAccept(p))
    ensures Inv(Apply(s, ClientAccept(p)))
  {
    hide Core, CountersOk;
    OfRecord(s, p);
    LocalStep(s, p, s.gw[p].(acceptMsgs := s.gw[p].acceptMsgs + 1, acceptReq := true));
  }

  /** The reader closes `clientDone` once. */
  lemma ReaderStopKeeps(s: State, p: nat, cancel: bool)
    requires Inv(s) && p in s.gw && s.gw[p].reader == Reading
    ensures Inv(ReaderStopped(s, p, cancel))
  {
    hide Core, CountersOk;
    OfRecord(s, p);
    var g' := s.gw[p].(cancelReq := cancel, clientDone := true, reader := Stopped);
    LocalStep(s, p, g');
    assert ReaderStopped(s, p, cancel) == PutGateway(s, p, g');
  }

  lemma ClientCancelKeeps(s: State, p: nat)
    requires Inv(s) && Enabled(s, ClientCancel(p))
    ensures Inv(Apply(s, ClientCancel(p)))
  {
    hide Inv;
    ReaderStopKeeps(s, p, true);
  }

  lemma ClientGoneKeeps(s: State, p: nat)
    requires Inv(s) && Enabled(s, ClientGone(p))
    ensures Inv(Apply(s, ClientGone(p)))
  {
    hide Inv;
    ReaderStopKeeps(s, p, s.gw[p].cancelReq);
  }

  // ------------------------------------------------------------------
  // Dequeue
  // ------------------------------------------------------------------

  lemma DequeuePlaces(s: State, id: string)
    requires PlacesOk(s) && AllAcceptsOk(s) && PoolOk(s)
    ensures PlacesOk(Dequeued(s, id)) && AllAcceptsOk(Dequeued(s, id))
  {
    var s' := Dequeued(s, id);
    forall q | q in s'.gw ensures Placed(s', q) && AcceptsOk(s', q) {
      assert Placed(s, q) && AcceptsOk(s, q);
      forall e ensures OwnSeat(s', q, e) == OwnSeat(s, q, e) {}
    }
  }

  lemma DequeueManned(s: State, id: string)
    requires AllManned(s) && PoolOk(s)
    ensures AllManned(Dequeued(s, id))
  {
    var s' := Dequeued(s, id);
    forall e | HasSeat(s', e) ensures Manned(s', e) {
      assert HasSeat(s, e) && Manned(s, e);
    }
  }

  lemma ClosingIsOk(g: Gateway)
    requires GatewayOk(g)
    ensures GatewayOk(g.(matchCh := g.matchCh.(closed := true), place := Closed))
  {
    hide Read;
  }

  lemma DequeueCounters(s: State, id: string)
    requires CountersOk(s) && GatewaysOk(s) && PoolOk(s)
    ensures CountersOk(Dequeued(s, id))
  {
    var s' := Dequeued(s, id);
    if id in s.pool {
      assert !s.gw[s.pool[id]].matchCh.closed by { assert GatewayOk(s.gw[s.pool[id]]); }
      hide GatewaysOk, GatewayOk, PoolOk;
      assert |s'.pool| == |s.pool| - 1 by {
        assert s'.pool.Keys == s.pool.Keys - {id};
        assert |s.pool.Keys - {id}| == |s.pool.Keys| - 1;
      }
      assert CountedRooms(s') == CountedRooms(s);
    }
  }

  lemma DequeuePool(s: State, id: string)
    requires GatewaysOk(s) && PoolOk(s) && CountersOk(s)
    ensures GatewaysOk(Dequeued(s, id)) && PoolOk(Dequeued(s, id)) && CountersOk(Dequeued(s, id))
  {
    var s' := Dequeued(s, id);
    DequeueCounters(s, id);
    if id in s.pool {
      ClosingIsOk(s.gw[s.pool[id]]);
    }
    hide CountersOk, GatewayOk;
  }

  lemma DequeueRecord(s: State, id: string, p: nat)
    requires p in s.gw
    ensures p in Dequeued(s, id).gw
    ensures var g, g' := s.gw[p], Dequeued(s, id).gw[p];
            g' == g.(matchCh := g'.matchCh, place := g'.place)
  {
  }

  /** Dequeue never closes a MatchCh twice. */
  lemma DequeueStep(s: State, id: string)
    requires Inv(s)
    ensures Inv(Dequeued(s, id))
  {
    hide PlacesOk, AllAcceptsOk, AllManned, SessionsOk, RoomOk, CountersOk, GatewaysOk;
    DequeuePlaces(s, id);
    DequeueManned(s, id);
    DequeuePool(s, id);
    SameRoomsSessions(s, Dequeued(s, id));
  }

  lemma TakeCancelKeeps(s: State, p: nat)
    requires Inv(s) && Enabled(s, TakeCancel(p))
    ensures Inv(Apply(s, TakeCancel(p)))
  {
    hide Core, CountersOk, Local, Dequeued;
    var s' := Dequeued(s, s.gw[p].id);
    DequeueStep(s, s.gw[p].id);
    DequeueRecord(s, s.gw[p].id, p);
    OfRecord(s', p);
    SendLocal(s'.gw[p], CANCELLED, true, Leaving, CancelTaken(s, p).gw[p]);
    LocalStep(s', p, CancelTaken(s, p).gw[p]);
  }

  lemma CleanupKeeps(s: State, p: nat)
    requires Inv(s) && Enabled(s, Cleanup(p))
    ensures Inv(Apply(s, Cleanup(p)))
  {
    hide Core, CountersOk, Dequeued;
    var s' := Dequeued(s, s.gw[p].id);
    DequeueStep(s, s.gw[p].id);
    DequeueRecord(s, s.gw[p].id, p);
    OfRecord(s', p);
    LocalStep(s', p, CleanedUp(s, p).gw[p]);
  }

  // ------------------------------------------------------------------
  // Events
  // ------------------------------------------------------------------

  /** An event moves into a gateway's channel, or from there to the accept wait. */
  ghost predicate Handled(s: State, p: nat, g': Gateway)
    requires p in s.gw
  {
    var g := s.gw[p];
    && g' == g.(matchCh := g'.matchCh, sent := g'.sent, pc := g'.pc)
    && (g'.matchCh.buf.Some? ==> Unanswered(s, p, g'.matchCh.buf.value) && !g'.pc.Checking?)
    && (g'.pc.Checking? ==> Unanswered(s, p, g'.pc.e))
    && (g'.pc == g.pc || (g.pc == Idle && !g'.pc.Awaiting?))
  }

  lemma HandledPlaces(s: State, p: nat, g': Gateway)
    requires PlacesOk(s) && AllAcceptsOk(s) && p in s.gw && Handled(s, p, g')
    ensures PlacesOk(PutGateway(s, p, g')) && AllAcceptsOk(PutGateway(s, p, g'))
  {
    var s' := PutGateway(s, p, g');
    forall q | q in s'.gw ensures Placed(s', q) && AcceptsOk(s', q) {
      assert Placed(s, q) && AcceptsOk(s, q);
      forall e ensures OwnSeat(s', q, e) == OwnSeat(s, q, e) {}
    }
  }

  lemma HandledManned(s: State, p: nat, g': Gateway)
    requires AllManned(s) && p in s.gw && Handled(s, p, g')
    ensures AllManned(PutGateway(s, p, g'))
  {
    var s' := PutGateway(s, p, g');
    forall e | HasSeat(s', e) ensures Manned(s', e) {
      assert HasSeat(s, e) && Manned(s, e);
    }
  }

  lemma HandledStep(s: State, p: nat, g': Gateway)
    requires Inv(s) && p in s.gw && GatewayOk(g') && Handled(s, p, g')
    ensures Inv(PutGateway(s, p, g'))
  {
    hide RoomOk, GatewayOk, PlacesOk, AllAcceptsOk, AllManned, SessionsOk;
    HandledPlaces(s, p, g');
    HandledManned(s, p, g');
    SameRoomsSessions(s, PutGateway(s, p, g'));
    assert CountedRooms(PutGateway(s, p, g')) == CountedRooms(s);
  }

  lemma AskedRecord(s: State, p: nat, ok: bool)
    requires p in s.gw && GatewayOk(s.gw[p]) && Placed(s, p) && s.gw[p].pc == Idle && s.gw[p].matchCh.buf.Some?
    ensures GatewayOk(AskedAbout(s.gw[p], ok)) && Handled(s, p, AskedAbout(s.gw[p], ok))
  {
    hide Unanswered;
    Snoc(s.gw[p].sent, READY_CHECK(s.gw[p].matchCh.buf.value.room));
  }

  lemma TakeEventKeeps(s: State, p: nat, ok: bool)
    requires Inv(s) && Enabled(s, TakeEvent(p, ok))
    ensures Inv(Apply(s, TakeEvent(p, ok)))
  {
    hide Core, CountersOk, GatewayOk, Placed, AcceptsOk, Handled;
    OfGateway(s, p);
    AskedRecord(s, p, ok);
    HandledStep(s, p, AskedAbout(s.gw[p], ok));
  }

  /** A pooled or just extracted player's channel is open and empty, so the tick's
      send is delivered. */
  lemma DeliverIsFree(s: State, r: nat)
    requires Core(s) && Enabled(s, Deliver(r))
    ensures var e := Event(r, s.rooms[r].phase.k);
            var g := s.gw[SeatOf(s, e).player];
            g.place == Seated(e) && g.matchCh == READY && !g.pc.Checking? && SeatOf(s, e).said == None
  {
    hide GatewayOk, AcceptsOk, RoomOk;
    var e := Event(r, s.rooms[r].phase.k);
    OfSeat(s, e);
    OfGateway(s, SeatOf(s, e).player);
    hide Core, Enabled;
  }

  lemma DeliverKeeps(s: State, r: nat)
    requires Inv(s) && Enabled(s, Deliver(r))
    ensures Inv(Apply(s, Deliver(r)))
  {
    hide Core, CountersOk, Quiet, RoomOk, AcceptsOk;
    var k := s.rooms[r].phase.k;
    var p := s.rooms[r].seats[k].player;
    DeliverIsFree(s, r);
    OfRoom(s, r);
    OfRecord(s, p);
    var room' := s.rooms[r].(phase := Sending(k + 1));
    SentOk(s.rooms[r]);
    RoomStep(s, r, room');
    var s1 := PutRoom(s, r, room');
    var g' := s.gw[p].(matchCh := MatchCh(false, Some(Event(r, k))));
    assert Unanswered(s1, p, Event(r, k));
    HandledStep(s1, p, g');
    assert Apply(s, Deliver(r)) == PutGateway(s1, p, g');
  }

  // ------------------------------------------------------------------
  // Answers and verdicts: a gateway and its seat move together
  // ------------------------------------------------------------------

  ghost function SeatMove(s: State, p: nat, e: Event, seat': Seat, g': Gateway): State
    requires HasSeat(s, e)
  {
    PutGateway(PutSeat(s, e, seat'), p, g')
  }

  lemma SeatMoveFrame(s: State, p: nat, e: Event, seat': Seat, g': Gateway, x: Event)
    requires HasSeat(s, e)
    ensures HasSeat(SeatMove(s, p, e, seat', g'), x) == HasSeat(s, x)
    ensures HasSeat(s, x) ==>
              && SeatOf(SeatMove(s, p, e, seat', g'), x) == (if x == e then seat' else SeatOf(s, x))
              && Sent(SeatMove(s, p, e, seat', g').rooms[x.room], x.idx) == Sent(s.rooms[x.room], x.idx)
              && Released(SeatMove(s, p, e, seat', g').rooms[x.room], x.idx) == Released(s.rooms[x.room], x.idx)
  {
  }

  lemma SeatMoveOther(s: State, p: nat, e: Event, seat': Seat, g': Gateway, q: nat)
    requires OwnSeat(s, p, e) && seat'.player == p && q != p && q in s.gw
    requires Placed(s, q) && AcceptsOk(s, q)
    ensures Placed(SeatMove(s, p, e, seat', g'), q) && AcceptsOk(SeatMove(s, p, e, seat', g'), q)
  {
    var s' := SeatMove(s, p, e, seat', g');
    forall x
      ensures OwnSeat(s', q, x) == OwnSeat(s, q, x)
      ensures OwnSeat(s, q, x) ==>
                && SeatOf(s', x) == SeatOf(s, x)
                && Sent(s'.rooms[x.room], x.idx) == Sent(s.rooms[x.room], x.idx)
                && Released(s'.rooms[x.room], x.idx) == Released(s.rooms[x.room], x.idx)
    {
      SeatMoveFrame(s, p, e, seat', g', x);
    }
    hide SeatMove;
  }

  lemma SeatMovePlaces(s: State, p: nat, e: Event, seat': Seat, g': Gateway)
    requires PlacesOk(s) && AllAcceptsOk(s) && p in s.gw && OwnSeat(s, p, e) && seat'.player == p
    requires Placed(SeatMove(s, p, e, seat', g'), p) && AcceptsOk(SeatMove(s, p, e, seat', g'), p)
    ensures PlacesOk(SeatMove(s, p, e, seat', g')) && AllAcceptsOk(SeatMove(s, p, e, seat', g'))
  {
    hide Placed, AcceptsOk;
    forall q | q in s.gw && q != p
      ensures Placed(SeatMove(s, p, e, seat', g'), q) && AcceptsOk(SeatMove(s, p, e, seat', g'), q)
    {
      SeatMoveOther(s, p, e, seat', g', q);
    }
  }

  lemma SeatMoveSessions(s: State, p: nat, e: Event, seat': Seat, g': Gateway)
    requires SessionsOk(s) && HasSeat(s, e) && seat'.player == SeatOf(s, e).player && p in s.gw && g'.id == s.gw[p].id
    ensures SessionsOk(SeatMove(s, p, e, seat', g'))
  {
    var s' := SeatMove(s, p, e, seat', g');
    forall x | x in s.rooms ensures SamePlayers(s.rooms[x], s'.rooms[x]) {}
    SessionsFrame(s, s');
  }

  /** The rest of the invariant, once the seat's room and the two movers are well formed. */
  lemma SeatMoveStep(s: State, p: nat, e: Event, seat': Seat, g': Gateway)
    requires Inv(s) && p in s.gw && OwnSeat(s, p, e) && seat'.player == p
    requires GatewayOk(g') && g'.id == s.gw[p].id && g'.place == s.gw[p].place
    requires RoomOk(SetSeat(s.rooms[e.room], e.idx, seat'))
    requires Placed(SeatMove(s, p, e, seat', g'), p) && AcceptsOk(SeatMove(s, p, e, seat', g'), p)
    requires AllManned(SeatMove(s, p, e, seat', g'))
    ensures Inv(SeatMove(s, p, e, seat', g'))
  {
    hide RoomOk, GatewayOk, PlacesOk, AllAcceptsOk, AllManned, SessionsOk, AcceptsOk, Placed;
    SeatMovePlaces(s, p, e, seat', g');
    SeatMoveSessions(s, p, e, seat', g');
    assert CountedRooms(SeatMove(s, p, e, seat', g')) == CountedRooms(s);
  }

  /** The gateway's part of an answer. */
  ghost predicate AnswerMove(g: Gateway, g': Gateway, e: Event, answer: bool) {
    && g.pc == Checking(e)
    && g' == g.(pc := g'.pc, sent := g'.sent, acceptReq := g'.acceptReq, accepts := g'.accepts)
    && g'.pc == (if answer then Awaiting(e) else Leaving)
    && g'.accepts == (if answer then g.accepts + {e} else g.accepts)
  }

  function AnswerSeat(seat: Seat, answer: bool): Seat {
    seat.(resp := Some(answer), said := Some(answer))
  }

  lemma AnswerPlaced(s: State, p: nat, e: Event, answer: bool, g': Gateway)
    requires p in s.gw && Placed(s, p) && AcceptsOk(s, p) && AnswerMove(s.gw[p], g', e, answer)
    requires HasSeat(s, e) && SeatOf(s, e).heard == None && s.gw[p].confirmed == None
    ensures Placed(SeatMove(s, p, e, AnswerSeat(SeatOf(s, e), answer), g'), p)
    ensures AcceptsOk(SeatMove(s, p, e, AnswerSeat(SeatOf(s, e), answer), g'), p)
  {
    var seat' := AnswerSeat(SeatOf(s, e), answer);
    var s' := SeatMove(s, p, e, seat', g');
    forall x ensures HasSeat(s', x) == HasSeat(s, x)
      ensures HasSeat(s, x) ==>
                && SeatOf(s', x) == (if x == e then seat' else SeatOf(s, x))
                && Sent(s'.rooms[x.room], x.idx) == Sent(s.rooms[x.room], x.idx)
                && Released(s'.rooms[x.room], x.idx) == Released(s.rooms[x.room], x.idx)
    {
      SeatMoveFrame(s, p, e, seat', g', x);
    }
    assert s'.gw[p] == g' && s'.pool == s.pool;
    hide SeatMove;
  }

  lemma AnswerManned(s: State, p: nat, e: Event, answer: bool, g': Gateway)
    requires AllManned(s) && p in s.gw && AnswerMove(s.gw[p], g', e, answer)
    requires OwnSeat(s, p, e) && SeatOf(s, e).heard == None
    ensures AllManned(SeatMove(s, p, e, AnswerSeat(SeatOf(s, e), answer), g'))
  {
    var seat' := AnswerSeat(SeatOf(s, e), answer);
    var s' := SeatMove(s, p, e, seat', g');
    forall x | HasSeat(s', x) ensures Manned(s', x) {
      SeatMoveFrame(s, p, e, seat', g', x);
      assert Manned(s, x);
    }
  }

  /** No response is ever dropped: the buffer is empty when the gateway answers. */
  lemma AnswerStep(s: State, p: nat, e: Event, answer: bool, g': Gateway)
    requires Inv(s) && p in s.gw && GatewayOk(g') && AnswerMove(s.gw[p], g', e, answer)
    ensures HasSeat(s, e) && SeatOf(s, e).resp == None
    ensures Inv(SeatMove(s, p, e, AnswerSeat(SeatOf(s, e), answer), g'))
  {
    hide Core, CountersOk, RoomOk, AcceptsOk, AllManned, SeatMove;
    OfGateway(s, p);
    OfSeat(s, e);
    OfRoom(s, e.room);
    AnsweredOk(s.rooms[e.room], e.idx, answer);
    AnswerPlaced(s, p, e, answer, g');
    OfManned(s);
    AnswerManned(s, p, e, answer, g');
    SeatMoveStep(s, p, e, AnswerSeat(SeatOf(s, e), answer), g');
  }

  lemma OfManned(s: State)
    requires Core(s)
    ensures AllManned(s)
  {
  }

  lemma AcceptKeeps(s: State, p: nat)
    requires Inv(s) && Enabled(s, Accept(p))
    ensures Inv(Apply(s, Accept(p)))
  {
    hide Core, CountersOk, SeatMove;
    OfRecord(s, p);
    var g, e := s.gw[p], s.gw[p].pc.e;
    var g' := g.(acceptReq := false, accepts := g.accepts + {e}, pc := Awaiting(e));
    AnswerStep(s, p, e, true, g');
    SeatMoveIs(s, p, e, AnswerSeat(SeatOf(s, e), true), g', Apply(s, Accept(p)));
  }

  lemma DeclinedRecord(g: Gateway, e: Event)
    requires GatewayOk(g) && g.pc == Checking(e)
    ensures GatewayOk(Send(g, CANCELLED, true, Leaving)) && AnswerMove(g, Send(g, CANCELLED, true, Leaving), e, false)
  {
    Snoc(g.sent, CANCELLED);
  }

  lemma DeclineKeeps(s: State, p: nat)
    requires Inv(s) && Enabled(s, Decline(p))
    ensures Inv(Apply(s, Decline(p)))
  {
    hide Core, CountersOk, SeatMove, GatewayOk, AnswerMove;
    OfRecord(s, p);
    var g, e := s.gw[p], s.gw[p].pc.e;
    DeclinedRecord(g, e);
    AnswerStep(s, p, e, false, Send(g, CANCELLED, true, Leaving));
    SeatMoveIs(s, p, e, AnswerSeat(SeatOf(s, e), false), Send(g, CANCELLED, true, Leaving), Apply(s, Decline(p)));
  }

  lemma SeatMoveIs(s: State, p: nat, e: Event, seat': Seat, g': Gateway, s': State)
    requires HasSeat(s, e) && s' == PutGateway(PutSeat(s, e, seat'), p, g')
    ensures s' == SeatMove(s, p, e, seat', g')
  {
  }

  /** The gateway's part of reading a verdict. */
  ghost predicate HearMove(g: Gateway, g': Gateway, e: Event, v: bool) {
    && g.pc == Awaiting(e)
    && g' == g.(pc := g'.pc, sent := g'.sent, confirmed := g'.confirmed)
    && g'.pc == (if v then Leaving else Idle)
    && g'.confirmed == (if v then Some(e) else g.confirmed)
  }

  function HearSeat(seat: Seat, v: bool): Seat {
    seat.(result := None, heard := Some(v))
  }

  lemma HearPlaced(s: State, p: nat, e: Event, v: bool, g': Gateway)
    requires p in s.gw && Placed(s, p) && AcceptsOk(s, p) && HearMove(s.gw[p], g', e, v)
    requires HasSeat(s, e) && s.gw[p].confirmed == None
    ensures Placed(SeatMove(s, p, e, HearSeat(SeatOf(s, e), v), g'), p)
    ensures AcceptsOk(SeatMove(s, p, e, HearSeat(SeatOf(s, e), v), g'), p)
  {
    var seat' := HearSeat(SeatOf(s, e), v);
    var s' := SeatMove(s, p, e, seat', g');
    forall x ensures HasSeat(s', x) == HasSeat(s, x)
      ensures HasSeat(s, x) ==>
                && SeatOf(s', x) == (if x == e then seat' else SeatOf(s, x))
                && Sent(s'.rooms[x.room], x.idx) == Sent(s.rooms[x.room], x.idx)
                && Released(s'.rooms[x.room], x.idx) == Released(s.rooms[x.room], x.idx)
    {
      SeatMoveFrame(s, p, e, seat', g', x);
    }
    assert s'.gw[p] == g' && s'.pool == s.pool;
    hide SeatMove;
  }

  lemma HearManned(s: State, p: nat, e: Event, v: bool, g': Gateway)
    requires AllManned(s) && p in s.gw && HearMove(s.gw[p], g', e, v)
    requires OwnSeat(s, p, e)
    ensures AllManned(SeatMove(s, p, e, HearSeat(SeatOf(s, e), v), g'))
  {
    var seat' := HearSeat(SeatOf(s, e), v);
    var s' := SeatMove(s, p, e, seat', g');
    forall x | HasSeat(s', x) ensures Manned(s', x) {
      SeatMoveFrame(s, p, e, seat', g', x);
      assert Manned(s, x);
    }
  }

  lemma HearStep(s: State, p: nat, e: Event, g': Gateway)
    requires Inv(s) && p in s.gw && s.gw[p].pc == Awaiting(e) && HasSeat(s, e) && CanHear(SeatOf(s, e))
    requires GatewayOk(g') && HearMove(s.gw[p], g', e, SeatOf(s, e).result == Some(true))
    ensures Inv(SeatMove(s, p, e, HearSeat(SeatOf(s, e), SeatOf(s, e).result == Some(true)), g'))
  {
    hide Core, CountersOk, RoomOk, AcceptsOk, AllManned, SeatMove;
    OfGateway(s, p);
    OfRoom(s, e.room);
    var v := SeatOf(s, e).result == Some(true);
    HeardOk(s.rooms[e.room], e.idx);
    HearPlaced(s, p, e, v, g');
    OfManned(s);
    HearManned(s, p, e, v, g');
    SeatMoveStep(s, p, e, HearSeat(SeatOf(s, e), v), g');
  }

  lemma HeardRecord(g: Gateway, e: Event, v: bool)
    requires GatewayOk(g) && g.pc == Awaiting(e)
    ensures GatewayOk(VerdictRead(g, e, v)) && HearMove(g, VerdictRead(g, e, v), e, v)
  {
    Snoc(g.sent, if v then IN_GAME(e.room) else WAITING);
  }

  lemma HearKeeps(s: State, p: nat)
    requires Inv(s) && Enabled(s, Hear(p))
    ensures Inv(Apply(s, Hear(p)))
  {
    hide Core, CountersOk, SeatMove, GatewayOk, HearMove;
    OfRecord(s, p);
    var g, e := s.gw[p], s.gw[p].pc.e;
    var v := SeatOf(s, e).result == Some(true);
    HeardRecord(g, e, v);
    HearStep(s, p, e, VerdictRead(g, e, v));
    SeatMoveIs(s, p, e, HearSeat(SeatOf(s, e), v), VerdictRead(g, e, v), Apply(s, Hear(p)));
  }
}

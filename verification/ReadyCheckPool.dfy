/** The actions that put players in the pool or take them out for a room keep the
    invariant, and with them so does every action. */
module ReadyCheckPool {
  import opened Collections
  import opened Players
  import opened StatusStream
  import opened ReadyCheck
  import opened ReadyCheckInvariant
  import opened ReadyCheckRooms
  import opened ReadyCheckSteps
  import opened ReadyCheckGateways

  // ------------------------------------------------------------------
  // Join
  // ------------------------------------------------------------------

  lemma JoinPlaces(s: State, id: string, p: nat)
    requires PlacesOk(s) && AllAcceptsOk(s) && SessionsOk(s) && p !in s.gw && id !in s.pool
    ensures PlacesOk(Joined(s, id, p)) && AllAcceptsOk(Joined(s, id, p))
  {
    var s' := Joined(s, id, p);
    forall q | q in s'.gw ensures Placed(s', q) && AcceptsOk(s', q) {
      forall e ensures OwnSeat(s', q, e) == OwnSeat(s, q, e) {}
      if q == p {
        forall e ensures !OwnSeat(s, p, e) {
          assert HasSeat(s, e) ==> SeatsManned(s, e.room);
        }
      } else {
        assert Placed(s, q) && AcceptsOk(s, q);
      }
    }
  }

  lemma JoinManned(s: State, id: string, p: nat)
    requires AllManned(s) && p !in s.gw && id !in s.pool
    ensures AllManned(Joined(s, id, p))
  {
    forall e | HasSeat(s, e) ensures Manned(Joined(s, id, p), e) {
      assert Manned(s, e);
    }
  }

  lemma JoinPool(s: State, id: string, p: nat)
    requires GatewaysOk(s) && PoolOk(s) && p !in s.gw && id !in s.pool
    ensures GatewaysOk(Joined(s, id, p)) && PoolOk(Joined(s, id, p))
  {
    assert Read([]) == Silent;
  }

  lemma AddedSize<K, V>(m: map<K, V>, k: K, v: V)
    requires k !in m
    ensures |m[k := v]| == |m| + 1
  {
    assert m[k := v].Keys == m.Keys + {k};
  }

  lemma JoinCounters(s: State, id: string, p: nat)
    requires CountersOk(s) && p !in s.gw && id !in s.pool
    ensures CountersOk(Joined(s, id, p))
  {
    AddedSize(s.pool, id, p);
    assert CountedRooms(Joined(s, id, p)) == CountedRooms(s);
  }

  lemma JoinKeeps(s: State, id: string, p: nat)
    requires Inv(s) && Enabled(s, Join(id, p))
    ensures Inv(Apply(s, Join(id, p)))
  {
    hide GatewaysOk, PlacesOk, AllAcceptsOk, AllManned, SessionsOk, PoolOk, CountersOk;
    if id !in s.pool {
      JoinPlaces(s, id, p);
      JoinManned(s, id, p);
      JoinPool(s, id, p);
      JoinCounters(s, id, p);
      SameRoomsSessions(s, Joined(s, id, p));
    }
  }

  // ------------------------------------------------------------------
  // Extract
  // ------------------------------------------------------------------

  lemma {:induction false} PositionIs(ids: seq<string>, i: nat)
    requires Distinct(ids) && i < |ids|
    ensures Position(ids, ids[i]) == i
  {
    var k := Position(ids, ids[i]);
    assert ids[i] in ids;
    assert k < |ids| && ids[k] == ids[i];
  }

  /** Old seats are as they were; the new ones are the chosen players'. */
  lemma ExtractFrame(s: State, r: nat, ids: seq<string>, x: Event)
    requires Enabled(s, Extract(r, ids))
    ensures x.room != r ==>
              && HasSeat(RoomOpened(s, r, ids), x) == HasSeat(s, x)
              && (HasSeat(s, x) ==> RoomOpened(s, r, ids).rooms[x.room] == s.rooms[x.room])
    ensures x.room == r ==>
              && HasSeat(RoomOpened(s, r, ids), x) == (x.idx < PLAYERS_PER_MATCH) && !HasSeat(s, x)
              && (x.idx < PLAYERS_PER_MATCH ==> SeatOf(RoomOpened(s, r, ids), x) == NewSeat(s.pool[ids[x.idx]]))
    ensures !Released(RoomOpened(s, r, ids).rooms[r], x.idx) && RoomOpened(s, r, ids).rooms[r].phase == Sending(0)
  {
  }

  predicate Chosen(s: State, ids: seq<string>, p: nat)
    requires (forall i | 0 <= i < |ids| :: ids[i] in s.pool) && p in s.gw
  {
    s.gw[p].id in ids && s.pool[s.gw[p].id] == p
  }

  lemma ExtractGateway(s: State, r: nat, ids: seq<string>, p: nat)
    requires Enabled(s, Extract(r, ids)) && p in s.gw
    ensures p in RoomOpened(s, r, ids).gw
    ensures RoomOpened(s, r, ids).gw[p] ==
            if Chosen(s, ids, p) then s.gw[p].(place := Seated(Event(r, Position(ids, s.gw[p].id)))) else s.gw[p]
  {
  }

  /** `t` is `s` with a new room of the given players. */
  ghost predicate OpensRoom(s: State, t: State, r: nat, players: seq<nat>) {
    && r !in s.rooms && r in t.rooms && t.rooms[r] == NewRoom(players)
    && forall x | x != r :: (x in t.rooms <==> x in s.rooms) && (x in s.rooms ==> t.rooms[x] == s.rooms[x])
  }

  function TheirObjects(s: State, ids: seq<string>): seq<nat>
    requires forall i | 0 <= i < |ids| :: ids[i] in s.pool
  {
    seq(|ids|, i requires 0 <= i < |ids| => s.pool[ids[i]])
  }

  lemma ExtractOpens(s: State, r: nat, ids: seq<string>)
    requires Enabled(s, Extract(r, ids))
    ensures OpensRoom(s, RoomOpened(s, r, ids), r, TheirObjects(s, ids))
    ensures RoomOpened(s, r, ids).pool == s.pool - (set id | id in ids)
  {
    hide Position, NewRoom;
  }

  lemma OpenedPlaced(s: State, t: State, r: nat, players: seq<nat>, p: nat)
    requires OpensRoom(s, t, r, players) && p in s.gw && p in t.gw && Placed(s, p)
    requires || (t.gw[p] == s.gw[p] && (s.gw[p].place == Pooled ==> s.gw[p].id in t.pool && t.pool[s.gw[p].id] == p))
             || (s.gw[p].place == Pooled && t.gw[p] == s.gw[p].(place := t.gw[p].place) && NewlySeated(t, r, p))
    ensures Placed(t, p)
  {
  }

  ghost predicate NewlySeated(t: State, r: nat, p: nat)
    requires p in t.gw
  {
    t.gw[p].place.Seated? && t.gw[p].place.e.room == r && OwnSeat(t, p, t.gw[p].place.e)
  }

  lemma OpenedAccepts(s: State, t: State, r: nat, players: seq<nat>, p: nat)
    requires OpensRoom(s, t, r, players) && p in s.gw && p in t.gw && AcceptsOk(s, p)
    requires t.gw[p].accepts == s.gw[p].accepts
    ensures AcceptsOk(t, p)
  {
  }

  lemma ExtractPlaced(s: State, r: nat, ids: seq<string>, p: nat)
    requires Enabled(s, Extract(r, ids)) && p in s.gw && Placed(s, p) && AcceptsOk(s, p)
    requires Chosen(s, ids, p) ==> s.gw[p].place == Pooled
    ensures Placed(RoomOpened(s, r, ids), p) && AcceptsOk(RoomOpened(s, r, ids), p)
  {
    hide RoomOpened, OpensRoom, AcceptsOk;
    var t := RoomOpened(s, r, ids);
    ExtractOpens(s, r, ids);
    ExtractGateway(s, r, ids, p);
    if Chosen(s, ids, p) {
      ChosenIsSeated(s, t, r, ids, p);
    } else {
      assert s.gw[p].place == Pooled ==> s.gw[p].id !in ids;
    }
    OpenedPlaced(s, t, r, TheirObjects(s, ids), p);
    OpenedAccepts(s, t, r, TheirObjects(s, ids), p);
    hide Placed, Enabled;
  }

  lemma ChosenIsSeated(s: State, t: State, r: nat, ids: seq<string>, p: nat)
    requires Enabled(s, Extract(r, ids)) && p in s.gw && Chosen(s, ids, p) && p in t.gw
    requires OpensRoom(s, t, r, TheirObjects(s, ids)) && t.gw[p].place == Seated(Event(r, Position(ids, s.gw[p].id)))
    ensures NewlySeated(t, r, p)
  {
  }

  lemma ExtractPlaces(s: State, r: nat, ids: seq<string>)
    requires PlacesOk(s) && AllAcceptsOk(s) && PoolOk(s) && Enabled(s, Extract(r, ids))
    ensures PlacesOk(RoomOpened(s, r, ids)) && AllAcceptsOk(RoomOpened(s, r, ids))
  {
    hide Placed, AcceptsOk;
    forall p | p in s.gw ensures Placed(RoomOpened(s, r, ids), p) && AcceptsOk(RoomOpened(s, r, ids), p) {
      ExtractPlaced(s, r, ids, p);
    }
  }

  lemma ExtractMannedAt(s: State, r: nat, ids: seq<string>, e: Event)
    requires AllManned(s) && PoolOk(s) && Enabled(s, Extract(r, ids)) && HasSeat(RoomOpened(s, r, ids), e)
    ensures Manned(RoomOpened(s, r, ids), e)
  {
    ExtractFrame(s, r, ids, e);
    if e.room == r {
      var id := ids[e.idx];
      assert id in s.pool;
      PositionIs(ids, e.idx);
      ExtractGateway(s, r, ids, s.pool[id]);
    } else {
      assert Manned(s, e);
      ExtractGateway(s, r, ids, SeatOf(s, e).player);
    }
    hide RoomOpened;
  }

  lemma ExtractSessions(s: State, r: nat, ids: seq<string>)
    requires SessionsOk(s) && PoolOk(s) && Enabled(s, Extract(r, ids))
    ensures SessionsOk(RoomOpened(s, r, ids))
  {
    var s' := RoomOpened(s, r, ids);
    forall x | x in s'.rooms ensures SeatsManned(s', x) && SessionOk(s', x) {
      if x == r {
        forall i | 0 <= i < PLAYERS_PER_MATCH
          ensures s'.rooms[r].seats[i].player in s'.gw && s'.gw[s'.rooms[r].seats[i].player].id == ids[i]
        {
          assert ids[i] in s.pool;
        }
        assert SessionIds(s', s'.rooms[r]) == ids;
      } else {
        assert SeatsManned(s, x) && SessionOk(s, x);
        assert SessionIds(s', s'.rooms[x]) == SessionIds(s, s.rooms[x]);
      }
    }
  }

  lemma ExtractPool(s: State, r: nat, ids: seq<string>)
    requires GatewaysOk(s) && PoolOk(s) && Enabled(s, Extract(r, ids))
    ensures GatewaysOk(RoomOpened(s, r, ids)) && PoolOk(RoomOpened(s, r, ids))
  {
    var s' := RoomOpened(s, r, ids);
    forall p | p in s'.gw ensures GatewayOk(s'.gw[p]) {
      assert GatewayOk(s.gw[p]);
      ExtractGateway(s, r, ids, p);
      assert Chosen(s, ids, p) ==> s.gw[p].id in s.pool;
    }
    forall id | id in s'.pool
      ensures s'.pool[id] in s'.gw && s'.gw[s'.pool[id]].id == id && s'.gw[s'.pool[id]].place == Pooled
    {
      assert id in s.pool && id !in ids;
      ExtractGateway(s, r, ids, s.pool[id]);
    }
  }

  lemma ExtractCounters(s: State, r: nat, ids: seq<string>)
    requires CountersOk(s) && Enabled(s, Extract(r, ids))
    ensures CountersOk(RoomOpened(s, r, ids))
  {
    ElementsCount(ids);
    assert Elements(ids) == set id | id in ids;
    MapMinusSize(s.pool, Elements(ids));
    assert CountedRooms(RoomOpened(s, r, ids)) == CountedRooms(s);
  }

  lemma ExtractRooms(s: State, r: nat, ids: seq<string>)
    requires RoomsOk(s) && Enabled(s, Extract(r, ids))
    ensures RoomsOk(RoomOpened(s, r, ids))
  {
    NewRoomOk(seq(|ids|, i requires 0 <= i < |ids| => s.pool[ids[i]]));
  }

  lemma ExtractKeeps(s: State, r: nat, ids: seq<string>)
    requires Inv(s) && Enabled(s, Extract(r, ids))
    ensures Inv(Apply(s, Extract(r, ids)))
  {
    hide GatewaysOk, PlacesOk, AllAcceptsOk, RoomsOk, SessionsOk, PoolOk, CountersOk, RoomOpened;
    ExtractPlaces(s, r, ids);
    forall e | HasSeat(RoomOpened(s, r, ids), e) ensures Manned(RoomOpened(s, r, ids), e) {
      ExtractMannedAt(s, r, ids, e);
    }
    ExtractSessions(s, r, ids);
    ExtractPool(s, r, ids);
    ExtractCounters(s, r, ids);
    ExtractRooms(s, r, ids);
  }

  // ------------------------------------------------------------------
  // Requeue
  // ------------------------------------------------------------------

  /** The seat being let go: if it was accepted, its player has nothing unanswered. */
  lemma RequeueSeat(s: State, e: Event)
    requires Core(s) && e.room in s.rooms && s.rooms[e.room].phase == Requeuing(e.idx)
    ensures |s.rooms[e.room].seats| == PLAYERS_PER_MATCH && e.idx < PLAYERS_PER_MATCH
    ensures var seat := SeatOf(s, e);
            && seat.player in s.gw && s.gw[seat.player].place == Seated(e) && !s.gw[seat.player].matchCh.closed
            && (seat.accepted ==> s.gw[seat.player].matchCh == READY && !s.gw[seat.player].pc.Checking?)
  {
    OfRoom(s, e.room);
    OfSeat(s, e);
    OfGateway(s, SeatOf(s, e).player);
    hide Core;
    var room := s.rooms[e.room];
    AcceptedSaid(room, e.idx);
  }

  lemma AcceptedSaid(room: Room, i: nat)
    requires i < |room.seats| && SeatOk(room, i)
    ensures room.seats[i].accepted ==> room.seats[i].said == Some(true)
  {
    assert FanIn(i, true) in room.log[..TakenOf(room)] ==> FanIn(i, true) in room.log;
  }

  lemma RequeueFrame(s: State, r: nat, x: Event)
    requires Enabled(s, Requeue(r)) && |s.rooms[r].seats| == PLAYERS_PER_MATCH && s.rooms[r].phase.k < PLAYERS_PER_MATCH
    ensures var s', e := ReEnqueued(s, r), Event(r, s.rooms[r].phase.k);
            && HasSeat(s', x) == HasSeat(s, x)
            && (HasSeat(s, x) ==>
                  && SeatOf(s', x) == (if x == e then SeatOf(s, x).(fate := RequeueFate(s, SeatOf(s, x))) else SeatOf(s, x))
                  && Sent(s'.rooms[x.room], x.idx) == Sent(s.rooms[x.room], x.idx)
                  && Released(s'.rooms[x.room], x.idx) == (x == e || Released(s.rooms[x.room], x.idx)))
  {
    var room := s.rooms[r];
    var fate := RequeueFate(s, room.seats[room.phase.k]);
    RequeuedPastFrame(room, fate);
    hide RequeuedPast;
  }

  lemma RequeueRecords(s: State, r: nat)
    requires Enabled(s, Requeue(r))
    ensures var s', e := ReEnqueued(s, r), Event(r, s.rooms[r].phase.k);
            var p := SeatOf(s, e).player;
            var back := RequeueFate(s, SeatOf(s, e)) == Requeued;
            && s'.gw == s.gw[p := s.gw[p].(place := if back then Pooled else Left(e))]
            && s'.pool == (if back then s.pool[s.gw[p].id := p] else s.pool)
  {
    hide RequeuedPast;
  }

  /** The seats of `s'` are those of `s`, but for `e`, released with `fate`. */
  ghost predicate LetGo(s: State, s': State, e: Event, fate: Fate) {
    forall x ::
      && HasSeat(s', x) == HasSeat(s, x)
      && (HasSeat(s, x) ==>
            && SeatOf(s', x) == (if x == e then SeatOf(s, x).(fate := fate) else SeatOf(s, x))
            && Sent(s'.rooms[x.room], x.idx) == Sent(s.rooms[x.room], x.idx)
            && Released(s'.rooms[x.room], x.idx) == (x == e || Released(s.rooms[x.room], x.idx)))
  }

  /** The gateway of the seat goes to the pool, or is left out. */
  ghost predicate SentBack(s: State, s': State, e: Event, fate: Fate)
    requires HasSeat(s, e)
  {
    var p := SeatOf(s, e).player;
    && p in s.gw && s.gw[p].place == Seated(e) && fate != Undecided
    && (fate == Requeued ==> s.gw[p].id !in s.pool && s.gw[p].matchCh == READY && !s.gw[p].pc.Checking?)
    && s'.gw == s.gw[p := s.gw[p].(place := if fate == Requeued then Pooled else Left(e))]
    && s'.pool == (if fate == Requeued then s.pool[s.gw[p].id := p] else s.pool)
  }

  lemma SentBackPlaced(s: State, s': State, e: Event, fate: Fate, q: nat)
    requires HasSeat(s, e) && LetGo(s, s', e, fate) && SentBack(s, s', e, fate)
    requires q in s.gw && Placed(s, q)
    ensures q in s'.gw && Placed(s', q)
  {
  }

  lemma SentBackAccepts(s: State, s': State, e: Event, fate: Fate, q: nat)
    requires HasSeat(s, e) && LetGo(s, s', e, fate) && SentBack(s, s', e, fate)
    requires q in s.gw && AcceptsOk(s, q)
    ensures q in s'.gw && AcceptsOk(s', q)
  {
    forall x ensures OwnSeat(s', q, x) == OwnSeat(s, q, x) {}
  }

  lemma RequeuePlaces(s: State, r: nat, s': State)
    requires Enabled(s, Requeue(r)) && s' == ReEnqueued(s, r) && Core(s)
    ensures PlacesOk(s') && AllAcceptsOk(s')
  {
    hide Core, ReEnqueued, Placed, AcceptsOk;
    var e := Event(r, s.rooms[r].phase.k);
    RequeueSeat(s, e);
    RequeueRecords(s, r);
    var fate := RequeueFate(s, SeatOf(s, e));
    forall x: Event {
      RequeueFrame(s, r, x);
    }
    assert LetGo(s, s', e, fate) && SentBack(s, s', e, fate);
    hide LetGo, SentBack, Enabled, RequeueFate;
    forall q | q in s'.gw ensures Placed(s', q) && AcceptsOk(s', q) {
      OfGateway(s, q);
      SentBackPlaced(s, s', e, fate, q);
      SentBackAccepts(s, s', e, fate, q);
    }
  }

  lemma RequeueManned(s: State, r: nat, s': State, x: Event)
    requires Enabled(s, Requeue(r)) && s' == ReEnqueued(s, r) && HasSeat(s', x) && Core(s)
    ensures Manned(s', x)
  {
    hide Core, ReEnqueued;
    RequeueSeat(s, Event(r, s.rooms[r].phase.k));
    RequeueFrame(s, r, x);
    RequeueRecords(s, r);
    OfSeat(s, x);
    hide Enabled, SeatOk;
  }

  lemma PlaceIsHistory(g: Gateway, place: Place)
    requires GatewayOk(g) && place != Closed && g.place != Closed
    ensures GatewayOk(g.(place := place))
  {
    hide Read;
  }

  lemma RequeueGateways(s: State, r: nat)
    requires GatewaysOk(s) && PoolOk(s) && Enabled(s, Requeue(r))
    requires !s.gw[s.rooms[r].seats[s.rooms[r].phase.k].player].matchCh.closed
    requires s.gw[s.rooms[r].seats[s.rooms[r].phase.k].player].place == Seated(Event(r, s.rooms[r].phase.k))
    ensures GatewaysOk(ReEnqueued(s, r)) && PoolOk(ReEnqueued(s, r))
  {
    hide ReEnqueued, GatewayOk;
    RequeueRecords(s, r);
    var p := s.rooms[r].seats[s.rooms[r].phase.k].player;
    var place := ReEnqueued(s, r).gw[p].place;
    hide Enabled, RequeueFate;
    PlaceIsHistory(s.gw[p], place);
  }

  lemma RequeueCounters(s: State, r: nat)
    requires CountersOk(s) && Enabled(s, Requeue(r))
    ensures CountersOk(ReEnqueued(s, r))
  {
    var seat := s.rooms[r].seats[s.rooms[r].phase.k];
    if RequeueFate(s, seat) == Requeued {
      AddedSize(s.pool, s.gw[seat.player].id, seat.player);
    }
    assert CountedRooms(ReEnqueued(s, r)) == CountedRooms(s);
  }

  lemma RequeueRooms(s: State, r: nat)
    requires RoomsOk(s) && Enabled(s, Requeue(r))
    ensures RoomsOk(ReEnqueued(s, r))
  {
    hide RoomOk, RequeuedPast;
    RequeuedPastOk(s.rooms[r], RequeueFate(s, s.rooms[r].seats[s.rooms[r].phase.k]));
  }

  lemma RequeueSessions(s: State, r: nat)
    requires SessionsOk(s) && Enabled(s, Requeue(r)) && RoomOk(s.rooms[r])
    ensures SessionsOk(ReEnqueued(s, r))
  {
    var s' := ReEnqueued(s, r);
    RequeuedPastFrame(s.rooms[r], RequeueFate(s, s.rooms[r].seats[s.rooms[r].phase.k]));
    hide RequeuedPast, RoomOk, Enabled;
    forall x | x in s.rooms ensures SamePlayers(s.rooms[x], s'.rooms[x]) && Confirmed(s'.rooms[x]) == Confirmed(s.rooms[x]) {}
    SessionsFrame(s, s');
  }

  lemma RequeueKeeps(s: State, r: nat)
    requires Inv(s) && Enabled(s, Requeue(r))
    ensures Inv(Apply(s, Requeue(r)))
  {
    hide GatewaysOk, PlacesOk, AllAcceptsOk, RoomsOk, SessionsOk, PoolOk, CountersOk, ReEnqueued, Manned;
    var s' := ReEnqueued(s, r);
    RequeueSeat(s, Event(r, s.rooms[r].phase.k));
    OfRoom(s, r);
    RequeuePlaces(s, r, s');
    forall x | HasSeat(s', x) ensures Manned(s', x) { RequeueManned(s, r, s', x); }
    RequeueGateways(s, r);
    RequeueCounters(s, r);
    RequeueRooms(s, r);
    RequeueSessions(s, r);
  }

  // ------------------------------------------------------------------
  // Every action
  // ------------------------------------------------------------------

  /** Actions of streams and their clients; the others are those of rooms. */
  predicate GatewayAction(a: Action) {
    a.Join? || a.Greet? || a.Push? || a.TakeEvent? || a.TakeClosed? || a.TakeCancel? || a.Quit? || a.Accept? || a.Decline?
    || a.Hear? || a.Cleanup? || a.ClientAccept? || a.ClientCancel? || a.ClientGone?
  }

  lemma GatewayActionKeeps(s: State, a: Action)
    requires Inv(s) && Enabled(s, a) && GatewayAction(a)
    ensures Inv(Apply(s, a))
  {
    hide Inv, Enabled, Apply;
    match a
    case Join(id, p) => JoinKeeps(s, id, p);
    case Greet(p, ok) => GreetKeeps(s, p, ok);
    case Push(p, ok) => PushKeeps(s, p, ok);
    case TakeEvent(p, ok) => TakeEventKeeps(s, p, ok);
    case TakeClosed(p) => TakeClosedKeeps(s, p);
    case TakeCancel(p) => TakeCancelKeeps(s, p);
    case Quit(p) => QuitKeeps(s, p);
    case Accept(p) => AcceptKeeps(s, p);
    case Decline(p) => DeclineKeeps(s, p);
    case Hear(p) => HearKeeps(s, p);
    case Cleanup(p) => CleanupKeeps(s, p);
    case ClientAccept(p) => ClientAcceptKeeps(s, p);
    case ClientCancel(p) => ClientCancelKeeps(s, p);
    case ClientGone(p) => ClientGoneKeeps(s, p);
  }

  lemma RoomActionKeeps(s: State, a: Action)
    requires Inv(s) && Enabled(s, a) && !GatewayAction(a)
    ensures Inv(Apply(s, a))
  {
    hide Inv, Enabled, Apply;
    match a
    case Extract(r, ids) => ExtractKeeps(s, r, ids);
    case Deliver(r) => DeliverKeeps(s, r);
    case Launch(r) => LaunchKeeps(s, r);
    case Count(r) => CountKeeps(s, r);
    case Timeout(r) => TimeoutKeeps(s, r);
    case Respond(r, i, byCtx) => RespondKeeps(s, r, i, byCtx);
    case Gather(r) => GatherKeeps(s, r);
    case GiveUp(r) => GiveUpKeeps(s, r);
    case Create(r) => CreateKeeps(s, r);
    case Notify(r) => NotifyKeeps(s, r);
    case Requeue(r) => RequeueKeeps(s, r);
  }

  /** The invariant is inductive. */
  lemma ActionKeeps(s: State, a: Action)
    requires Inv(s) && Enabled(s, a)
    ensures Inv(Apply(s, a))
  {
    if GatewayAction(a) {
      GatewayActionKeeps(s, a);
    } else {
      RoomActionKeeps(s, a);
    }
  }

  lemma InitOk()
    ensures Inv(INIT)
  {
    assert CountedRooms(INIT) == {};
  }

  /** The invariant holds in every state of every run. */
  lemma {:induction false} RunsOk(run: seq<State>, i: nat)
    requires IsRun(run) && i < |run|
    ensures Inv(run[i])
  {
    if i == 0 {
      InitOk();
    } else {
      RunsOk(run, i - 1);
      assert Next(run[i - 1], run[i - 1 + 1]);
      var a :| Enabled(run[i - 1], a) && run[i] == Apply(run[i - 1], a);
      ActionKeeps(run[i - 1], a);
    }
  }
}

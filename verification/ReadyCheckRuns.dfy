/** How one action, and so a whole run, moves a player object and a room. */
module ReadyCheckRuns {
  import opened Players
  import opened ReadyCheck
  import opened ReadyCheckInvariant
  import opened ReadyCheckRooms
  import opened ReadyCheckPool

  // ------------------------------------------------------------------
  // Rooms
  // ------------------------------------------------------------------

  /** An upper bound on the steps a tick and a coordinator still take for a room. */
  function Remaining(room: Room): int {
    match room.phase
    case Sending(k) => 200 - k
    case Gathering => 100 + 2 * (PLAYERS_PER_MATCH - room.received) + if room.ctxDone then 0 else 1
    case Creating => 50
    case Notifying(_, k) => 40 - k
    case Requeuing(k) => 20 - k
    case Done(_) => 0
  }

  /** What a room never takes back. */
  ghost predicate Later(room: Room, room': Room) {
    && SamePlayers(room, room')
    && (Verdict(room).Some? ==> Verdict(room') == Verdict(room))
    && Remaining(room') <= Remaining(room)
    && (!room.phase.Sending? ==> !room'.phase.Sending?)
    && forall i | 0 <= i < |room.seats| :: LaterSeat(room.seats[i], room'.seats[i])
  }

  predicate LaterSeat(seat: Seat, seat': Seat) {
    && (seat.said.Some? ==> seat'.said == seat.said)
    && (seat.heard.Some? ==> seat'.heard == seat.heard)
    && (seat.fate != Undecided ==> seat'.fate == seat.fate)
  }

  /** The steps a tick or a coordinator takes for the room. */
  predicate Drives(a: Action, r: nat) {
    a == Deliver(r) || a == Launch(r) || a == Timeout(r) || a == Gather(r) || a == GiveUp(r) || a == Create(r) || a == Notify(r)
    || a == Requeue(r)
  }

  /** Later, with nothing said or let go; strictly nearer the end if `own`. */
  ghost predicate Moves(room: Room, room': Room, own: bool) {
    && Later(room, room')
    && (own ==> Remaining(room') < Remaining(room))
    && (forall i | 0 <= i < |room.seats| :: room'.seats[i].said == room.seats[i].said && room'.seats[i].heard == room.seats[i].heard)
    && (!room.phase.Requeuing? ==> forall i | 0 <= i < |room.seats| :: room'.seats[i].fate == room.seats[i].fate)
  }

  lemma GatheredMoves(room: Room)
    requires RoomOk(room) && room.phase == Gathering && room.received < |room.log|
    ensures room.log[room.received].idx < |room.seats| && Moves(room, Gathered(room), true)
  {
    assert room.log[room.received] in room.log;
  }

  lemma NotifiedMoves(room: Room)
    requires RoomOk(room) && room.phase.Notifying?
    ensures Moves(room, Notified(room), true)
  {
  }

  lemma RequeuedPastMoves(room: Room, fate: Fate)
    requires RoomOk(room) && room.phase.Requeuing?
    ensures Moves(room, RequeuedPast(room, fate), true)
  {
    assert SeatOk(room, room.phase.k);
  }

  lemma RespondedMoves(room: Room, i: nat, byCtx: bool)
    requires RoomOk(room) && CanRespond(room, i, byCtx)
    ensures Moves(room, Responded(room, i, byCtx), false)
  {
  }

  /** What an action makes of its room. */
  function RoomAfter(s: State, a: Action): Room
    requires Enabled(s, a) && !GatewayAction(a) && !a.Extract?
  {
    var room := s.rooms[a.r];
    match a
    case Deliver(r) => room.(phase := Sending(room.phase.k + 1))
    case Launch(r) => room.(phase := Gathering)
    case Count(r) => room.(counted := true)
    case Timeout(r) => room.(ctxDone := true)
    case Respond(r, i, byCtx) => Responded(room, i, byCtx)
    case Gather(r) => Gathered(room)
    case GiveUp(r) => GivenUp(room)
    case Create(r) => room.(phase := Notifying(true, 0))
    case Notify(r) => Notified(room)
    case Requeue(r) => RequeuedPast(room, RequeueFate(s, room.seats[room.phase.k]))
  }

  lemma RoomTouched(s: State, a: Action)
    requires Enabled(s, a) && !GatewayAction(a) && !a.Extract?
    ensures a.r in s.rooms && Apply(s, a).rooms == s.rooms[a.r := RoomAfter(s, a)]
  {
    hide Gathered, GivenUp, Notified, RequeuedPast, Responded;
  }

  lemma RoomMoves(s: State, a: Action)
    requires Enabled(s, a) && !GatewayAction(a) && !a.Extract? && RoomOk(s.rooms[a.r])
    ensures Moves(s.rooms[a.r], RoomAfter(s, a), !a.Count? && !a.Respond?)
  {
    var room := s.rooms[a.r];
    match a {
      case Gather(r) => GatheredMoves(room); hide Moves, RoomOk;
      case Notify(r) => NotifiedMoves(room); hide Moves, RoomOk;
      case Requeue(r) => RequeuedPastMoves(room, RequeueFate(s, room.seats[room.phase.k])); hide Moves, RoomOk;
      case Respond(r, i, byCtx) => RespondedMoves(room, i, byCtx); hide Moves, RoomOk;
      case _ =>
    }
  }

  lemma SeatLater(room: Room, i: nat, seat': Seat)
    requires i < |room.seats| && seat'.player == room.seats[i].player && LaterSeat(room.seats[i], seat')
    ensures Later(room, SetSeat(room, i, seat'))
  {
  }

  predicate AnswersOrHears(a: Action) {
    a.Accept? || a.Decline? || a.Hear?
  }

  /** Most actions of streams touch no room. */
  lemma RoomsUntouched(s: State, a: Action)
    requires Enabled(s, a) && GatewayAction(a) && !AnswersOrHears(a)
    ensures Apply(s, a).rooms == s.rooms
  {
    hide Dequeued;
    if a.TakeCancel? || a.Cleanup? {
      DequeueLeavesRooms(s, s.gw[a.p].id);
    }
  }

  lemma DequeueLeavesRooms(s: State, id: string)
    ensures Dequeued(s, id).rooms == s.rooms && Dequeued(s, id).gw.Keys == s.gw.Keys
  {
  }

  /** The others move the gateway's seat, which was not answered or heard before. */
  ghost predicate MovesSeat(s: State, p: nat, e: Event, seat': Seat, s': State) {
    && OwnSeat(s, p, e) && s'.rooms == PutSeat(s, e, seat').rooms
    && seat'.player == p && LaterSeat(SeatOf(s, e), seat') && seat'.fate == SeatOf(s, e).fate
  }

  /** The gateway's seat after the action. */
  function SeatAfter(s: State, a: Action): Seat
    requires Enabled(s, a) && AnswersOrHears(a)
  {
    var seat := SeatOf(s, s.gw[a.p].pc.e);
    if a.Hear? then seat.(result := None, heard := Some(seat.result == Some(true)))
    else seat.(resp := if seat.resp.None? then Some(a.Accept?) else seat.resp, said := Some(a.Accept?))
  }

  lemma SeatAfterIs(s: State, a: Action)
    requires Enabled(s, a) && AnswersOrHears(a)
    ensures a.p in s.gw && (s.gw[a.p].pc.Checking? || s.gw[a.p].pc.Awaiting?) && HasSeat(s, s.gw[a.p].pc.e)
    ensures Apply(s, a).rooms == PutSeat(s, s.gw[a.p].pc.e, SeatAfter(s, a)).rooms
  {
  }

  lemma SeatAfterLater(s: State, a: Action)
    requires Enabled(s, a) && AnswersOrHears(a) && Placed(s, a.p)
    ensures OwnSeat(s, a.p, s.gw[a.p].pc.e) && SeatAfter(s, a).player == a.p
    ensures LaterSeat(SeatOf(s, s.gw[a.p].pc.e), SeatAfter(s, a)) && SeatAfter(s, a).fate == SeatOf(s, s.gw[a.p].pc.e).fate
  {
  }

  lemma SeatTouched(s: State, a: Action) returns (e: Event, seat': Seat)
    requires Inv(s) && Enabled(s, a) && AnswersOrHears(a)
    ensures a.p in s.gw && (s.gw[a.p].pc == Awaiting(e) || s.gw[a.p].pc == Checking(e))
    ensures MovesSeat(s, a.p, e, seat', Apply(s, a))
  {
    hide Inv, Enabled, Apply, Placed, SeatAfter;
    SeatAfterIs(s, a);
    ItsGateway(s, a.p);
    SeatAfterLater(s, a);
    e, seat' := s.gw[a.p].pc.e, SeatAfter(s, a);
  }

  lemma ItsGateway(s: State, p: nat)
    requires Inv(s) && p in s.gw
    ensures Placed(s, p)
  {
  }

  lemma LaterSame(room: Room)
    ensures Later(room, room)
  {
  }

  lemma SeatLaterRoom(s: State, a: Action, r: nat)
    requires Inv(s) && Enabled(s, a) && AnswersOrHears(a) && r in s.rooms
    ensures r in Apply(s, a).rooms && Later(s.rooms[r], Apply(s, a).rooms[r])
  {
    hide Inv, Enabled, Apply, Later;
    var e, seat' := SeatTouched(s, a);
    SeatLater(s.rooms[e.room], e.idx, seat');
    LaterSame(s.rooms[r]);
  }

  lemma RoomActionLater(s: State, a: Action, r: nat)
    requires Inv(s) && Enabled(s, a) && !GatewayAction(a) && !a.Extract? && r in s.rooms
    ensures r in Apply(s, a).rooms && Later(s.rooms[r], Apply(s, a).rooms[r])
    ensures Drives(a, r) ==> Remaining(Apply(s, a).rooms[r]) < Remaining(s.rooms[r])
  {
    hide Inv, Enabled, Apply, Later, Remaining, RoomAfter;
    RoomTouched(s, a);
    ItsRoom(s, a.r);
    RoomMoves(s, a);
    LaterSame(s.rooms[r]);
  }

  lemma DrivesAlone(a: Action, r: nat)
    ensures Drives(a, r) ==> !GatewayAction(a) && !AnswersOrHears(a) && !a.Extract?
  {
  }

  /** No action moves a room backwards, and its own steps move it on. */
  lemma RoomLater(s: State, a: Action, r: nat)
    requires Inv(s) && Enabled(s, a) && r in s.rooms
    ensures r in Apply(s, a).rooms && Later(s.rooms[r], Apply(s, a).rooms[r])
    ensures Drives(a, r) ==> Remaining(Apply(s, a).rooms[r]) < Remaining(s.rooms[r])
  {
    hide Inv, Enabled, Apply, Remaining, Later, Drives, GatewayAction, AnswersOrHears;
    LaterSame(s.rooms[r]);
    DrivesAlone(a, r);
    if AnswersOrHears(a) {
      SeatLaterRoom(s, a, r);
    } else if GatewayAction(a) {
      RoomsUntouched(s, a);
    } else if a.Extract? {
      ExtractLeaves(s, a.r, a.ids, r);
    } else {
      RoomActionLater(s, a, r);
    }
  }

  lemma ExtractLeaves(s: State, r: nat, ids: seq<string>, x: nat)
    requires Enabled(s, Extract(r, ids)) && x in s.rooms
    ensures x in Apply(s, Extract(r, ids)).rooms && Apply(s, Extract(r, ids)).rooms[x] == s.rooms[x]
  {
  }

  lemma ItsRoom(s: State, r: nat)
    requires Inv(s) && r in s.rooms
    ensures RoomOk(s.rooms[r])
  {
  }

  // ------------------------------------------------------------------
  // Player objects
  // ------------------------------------------------------------------

  /** How one action may move a player object. */
  ghost predicate PlaceMoves(s: State, a: Action, p: nat, g': Gateway)
    requires p in s.gw
  {
    var g := s.gw[p];
    && g'.id == g.id && (Returning(g) ==> Returning(g'))
    && (|| g'.place == g.place
        || (g.place == Pooled && g'.place == Closed)
        || (g.place == Pooled && g'.place.Seated? && a.Extract? && g'.place.e.room == a.r)
        || (g.place.Seated? && a == Requeue(g.place.e.room) && HasSeat(s, g.place.e)
            && (g'.place == Left(g.place.e) || (g'.place == Pooled && SeatOf(s, g.place.e).accepted))))
  }

  predicate Dequeues(a: Action) {
    a.TakeCancel? || a.Cleanup?
  }

  predicate Reads(a: Action) {
    a.TakeEvent? || a.TakeClosed? || a.Accept? || a.Decline? || a.Hear?
  }

  predicate FromClient(a: Action) {
    a.ClientAccept? || a.ClientCancel? || a.ClientGone?
  }

  lemma ClientPlaces(s: State, a: Action, p: nat)
    requires Enabled(s, a) && FromClient(a) && p in s.gw
    ensures p in Apply(s, a).gw && PlaceMoves(s, a, p, Apply(s, a).gw[p])
  {
  }

  lemma LoopPlaces(s: State, a: Action, p: nat)
    requires Enabled(s, a) && (a.Join? || a.Greet? || a.Push? || a.Quit?) && p in s.gw
    ensures p in Apply(s, a).gw && PlaceMoves(s, a, p, Apply(s, a).gw[p])
  {
  }

  lemma PlainPlaces(s: State, a: Action, p: nat)
    requires Enabled(s, a) && GatewayAction(a) && !Dequeues(a) && !Reads(a) && p in s.gw
    ensures p in Apply(s, a).gw && PlaceMoves(s, a, p, Apply(s, a).gw[p])
  {
    hide Enabled, Apply, PlaceMoves;
    if FromClient(a) {
      ClientPlaces(s, a, p);
    } else {
      LoopPlaces(s, a, p);
    }
  }

  lemma TakePlaces(s: State, a: Action, p: nat)
    requires Enabled(s, a) && (a.TakeEvent? || a.TakeClosed?) && p in s.gw
    ensures p in Apply(s, a).gw && PlaceMoves(s, a, p, Apply(s, a).gw[p])
  {
  }

  lemma AnswerPlaces(s: State, a: Action, p: nat)
    requires Enabled(s, a) && AnswersOrHears(a) && p in s.gw
    ensures p in Apply(s, a).gw && PlaceMoves(s, a, p, Apply(s, a).gw[p])
  {
    hide SetSeat;
  }

  lemma ReadPlaces(s: State, a: Action, p: nat)
    requires Enabled(s, a) && Reads(a) && p in s.gw
    ensures p in Apply(s, a).gw && PlaceMoves(s, a, p, Apply(s, a).gw[p])
  {
    hide Enabled, Apply, PlaceMoves;
    if AnswersOrHears(a) {
      AnswerPlaces(s, a, p);
    } else {
      TakePlaces(s, a, p);
    }
  }

  lemma RoomPlaces(s: State, a: Action, p: nat)
    requires Enabled(s, a) && !GatewayAction(a) && !a.Extract? && !a.Requeue? && p in s.gw
    ensures p in Apply(s, a).gw && PlaceMoves(s, a, p, Apply(s, a).gw[p])
  {
    hide Gathered, GivenUp, Notified, RequeuedPast, Responded;
  }

  lemma DequeuePlace(s: State, id: string, p: nat)
    requires PoolOk(s) && p in s.gw
    ensures p in Dequeued(s, id).gw
    ensures var g, g' := s.gw[p], Dequeued(s, id).gw[p];
            g'.id == g.id && g'.pc == g.pc && (g'.place == g.place || (g.place == Pooled && g'.place == Closed))
  {
  }

  lemma DequeueMoves(s: State, a: Action, p: nat)
    requires PoolOk(s) && Enabled(s, a) && Dequeues(a) && p in s.gw
    ensures p in Apply(s, a).gw && PlaceMoves(s, a, p, Apply(s, a).gw[p])
  {
    DequeuePlace(s, s.gw[a.p].id, p);
    DequeuePlace(s, s.gw[a.p].id, a.p);
    hide Dequeued, PoolOk;
  }

  lemma ExtractPlace(s: State, r: nat, ids: seq<string>, p: nat)
    requires PoolOk(s) && Enabled(s, Extract(r, ids)) && p in s.gw
    ensures p in Apply(s, Extract(r, ids)).gw && PlaceMoves(s, Extract(r, ids), p, Apply(s, Extract(r, ids)).gw[p])
  {
    ExtractGateway(s, r, ids, p);
    assert Chosen(s, ids, p) ==> s.gw[p].id in s.pool;
    hide RoomOpened;
  }

  lemma RequeuePlace(s: State, r: nat, p: nat)
    requires Inv(s) && Enabled(s, Requeue(r)) && p in s.gw
    ensures p in Apply(s, Requeue(r)).gw && PlaceMoves(s, Requeue(r), p, Apply(s, Requeue(r)).gw[p])
  {
    hide Core, ReEnqueued;
    RequeueSeat(s, Event(r, s.rooms[r].phase.k));
    RequeueRecords(s, r);
  }

  lemma HandlerMoves(s: State, a: Action, p: nat)
    requires PoolOk(s) && Enabled(s, a) && GatewayAction(a) && p in s.gw
    ensures p in Apply(s, a).gw && PlaceMoves(s, a, p, Apply(s, a).gw[p])
  {
    hide Enabled, Apply, PlaceMoves, PoolOk, Dequeues, Reads;
    if Dequeues(a) {
      DequeueMoves(s, a, p);
    } else if Reads(a) {
      ReadPlaces(s, a, p);
    } else {
      PlainPlaces(s, a, p);
    }
  }

  lemma RoomObjectMoves(s: State, a: Action, p: nat)
    requires Inv(s) && Enabled(s, a) && !GatewayAction(a) && p in s.gw
    ensures p in Apply(s, a).gw && PlaceMoves(s, a, p, Apply(s, a).gw[p])
  {
    hide Inv, Enabled, Apply, PlaceMoves, PoolOk;
    if a.Extract? {
      ItsPool(s);
      ExtractPlace(s, a.r, a.ids, p);
    } else if a.Requeue? {
      RequeuePlace(s, a.r, p);
    } else {
      RoomPlaces(s, a, p);
    }
  }

  lemma ObjectMoves(s: State, a: Action, p: nat)
    requires Inv(s) && Enabled(s, a) && p in s.gw
    ensures p in Apply(s, a).gw && PlaceMoves(s, a, p, Apply(s, a).gw[p])
  {
    hide Inv, Enabled, Apply, PlaceMoves, PoolOk, GatewayAction;
    ItsPool(s);
    if GatewayAction(a) {
      HandlerMoves(s, a, p);
    } else {
      RoomObjectMoves(s, a, p);
    }
  }

  lemma ItsPool(s: State)
    requires Inv(s)
    ensures PoolOk(s)
  {
  }

  /** A gateway that is returning says nothing more. */
  lemma SaidStays(s: State, a: Action, p: nat, e: Event)
    requires Inv(s) && Enabled(s, a) && p in s.gw && Returning(s.gw[p]) && OwnSeat(s, p, e)
    ensures OwnSeat(Apply(s, a), p, e) && SeatOf(Apply(s, a), e).said == SeatOf(s, e).said
  {
    hide Inv, Enabled, Apply, RoomAfter, Later, Remaining;
    if AnswersOrHears(a) {
      var x, seat' := SeatTouched(s, a);
      assert x != e;
    } else if GatewayAction(a) {
      RoomsUntouched(s, a);
    } else if a.Extract? {
      ExtractLeaves(s, a.r, a.ids, e.room);
    } else {
      SaidInRoom(s, a, p, e);
    }
  }

  lemma SaidInRoom(s: State, a: Action, p: nat, e: Event)
    requires Inv(s) && Enabled(s, a) && !GatewayAction(a) && !a.Extract? && OwnSeat(s, p, e)
    ensures OwnSeat(Apply(s, a), p, e) && SeatOf(Apply(s, a), e).said == SeatOf(s, e).said
  {
    hide Inv, Enabled, Apply, RoomAfter, Remaining;
    RoomTouched(s, a);
    ItsRoom(s, a.r);
    RoomMoves(s, a);
  }
}

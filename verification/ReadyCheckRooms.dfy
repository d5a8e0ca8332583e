/** Every step of a room keeps the room well formed. */
module ReadyCheckRooms {
  import opened Players
  import opened ReadyCheck
  import opened ReadyCheckInvariant

  ghost predicate SamePlayers(room: Room, room': Room) {
    |room'.seats| == |room.seats| && forall i | 0 <= i < |room.seats| :: room'.seats[i].player == room.seats[i].player
  }

  ghost predicate Settled(room: Room, room': Room) {
    SamePlayers(room, room') && forall i | 0 <= i < |room.seats| :: QuietSeat(room, room', i)
  }

  /** A step of a room that changes no answer, hearing or fate and lets go of no seat. */
  ghost predicate Quiet(room: Room, room': Room) {
    Settled(room, room') && Confirmed(room') == Confirmed(room)
  }

  ghost predicate QuietSeat(room: Room, room': Room, i: nat)
    requires i < |room.seats| && i < |room'.seats|
  {
    && room'.seats[i].said == room.seats[i].said && room'.seats[i].heard == room.seats[i].heard
    && room'.seats[i].fate == room.seats[i].fate
    && (Sent(room, i) ==> Sent(room', i)) && Released(room', i) == Released(room, i)
  }

  lemma NewRoomOk(players: seq<nat>)
    requires |players| == PLAYERS_PER_MATCH
    ensures RoomOk(NewRoom(players))
  {
    var room := NewRoom(players);
    forall i | 0 <= i < |room.seats| ensures SeatOk(room, i) {}
  }

  lemma SentOk(room: Room)
    requires RoomOk(room) && room.phase.Sending? && room.phase.k < PLAYERS_PER_MATCH
    ensures RoomOk(room.(phase := Sending(room.phase.k + 1))) && Quiet(room, room.(phase := Sending(room.phase.k + 1)))
  {
    var room' := room.(phase := Sending(room.phase.k + 1));
    forall i | 0 <= i < |room'.seats| ensures SeatOk(room', i) { assert SeatOk(room, i); }
  }

  lemma LaunchedOk(room: Room)
    requires RoomOk(room) && room.phase == Sending(PLAYERS_PER_MATCH)
    ensures RoomOk(room.(phase := Gathering)) && Quiet(room, room.(phase := Gathering))
  {
    var room' := room.(phase := Gathering);
    forall i | 0 <= i < |room'.seats| ensures SeatOk(room', i) { assert SeatOk(room, i); }
  }

  lemma CountedOk(room: Room)
    requires RoomOk(room) && !room.phase.Sending?
    ensures RoomOk(room.(counted := true)) && Quiet(room, room.(counted := true))
  {
    var room' := room.(counted := true);
    forall i | 0 <= i < |room'.seats| ensures SeatOk(room', i) { assert SeatOk(room, i); }
  }

  lemma TimedOutOk(room: Room)
    requires RoomOk(room)
    ensures RoomOk(room.(ctxDone := true)) && Quiet(room, room.(ctxDone := true))
  {
    var room' := room.(ctxDone := true);
    forall i | 0 <= i < |room'.seats| ensures SeatOk(room', i) { assert SeatOk(room, i); }
  }

  lemma GivenUpOk(room: Room)
    requires RoomOk(room) && room.phase == Gathering
    ensures RoomOk(GivenUp(room)) && Quiet(room, GivenUp(room))
  {
    var room' := GivenUp(room);
    forall i | 0 <= i < |room'.seats| ensures SeatOk(room', i) { assert SeatOk(room, i); }
  }

  lemma SessionCreatedOk(room: Room)
    requires RoomOk(room) && room.phase == Creating
    ensures RoomOk(room.(phase := Notifying(true, 0)))
    ensures SamePlayers(room, room.(phase := Notifying(true, 0))) && Settled(room, room.(phase := Notifying(true, 0)))
  {
    var room' := room.(phase := Notifying(true, 0));
    forall i | 0 <= i < |room'.seats| ensures SeatOk(room', i) { assert SeatOk(room, i); }
  }

  lemma NotifiedOk(room: Room)
    requires RoomOk(room) && room.phase.Notifying?
    ensures room.phase.k < |room.seats| && !room.seats[room.phase.k].resultClosed
    ensures RoomOk(Notified(room)) && Quiet(room, Notified(room)) && Notified(room).counted == room.counted
  {
    assert SeatOk(room, room.phase.k);
    var room' := Notified(room);
    forall i | 0 <= i < |room'.seats| ensures SeatOk(room', i) { assert SeatOk(room, i); }
  }

  lemma RequeuedPastOk(room: Room, fate: Fate)
    requires RoomOk(room) && room.phase.Requeuing? && fate != Undecided
    requires fate == Skipped <==> !room.seats[room.phase.k].accepted
    ensures RoomOk(RequeuedPast(room, fate))
  {
    var room' := RequeuedPast(room, fate);
    forall i | 0 <= i < |room'.seats| ensures SeatOk(room', i) { assert SeatOk(room, i); }
  }

  /** The room lets go of the seat at the loop's position and of no other. */
  lemma RequeuedPastFrame(room: Room, fate: Fate)
    requires room.phase.Requeuing? && |room.seats| == PLAYERS_PER_MATCH && room.phase.k < PLAYERS_PER_MATCH
    ensures SamePlayers(room, RequeuedPast(room, fate)) && Confirmed(RequeuedPast(room, fate)) == Confirmed(room)
    ensures forall i | 0 <= i < |room.seats| ::
              && Sent(RequeuedPast(room, fate), i) == Sent(room, i)
              && Released(RequeuedPast(room, fate), i) == (i == room.phase.k || Released(room, i))
              && RequeuedPast(room, fate).seats[i] == (if i == room.phase.k then room.seats[i].(fate := fate) else room.seats[i])
  {
  }

  lemma AnsweredOk(room: Room, i: nat, answer: bool)
    requires RoomOk(room) && i < |room.seats| && Sent(room, i) && room.seats[i].said == None
    ensures room.seats[i].resp == None
    ensures RoomOk(SetSeat(room, i, room.seats[i].(resp := Some(answer), said := Some(answer))))
  {
    var room' := SetSeat(room, i, room.seats[i].(resp := Some(answer), said := Some(answer)));
    assert SeatOk(room, i);
    forall j | 0 <= j < |room'.seats| ensures SeatOk(room', j) { assert SeatOk(room, j); }
  }

  lemma HeardOk(room: Room, i: nat)
    requires RoomOk(room) && i < |room.seats| && CanHear(room.seats[i])
    requires room.seats[i].said == Some(true) && room.seats[i].heard == None
    ensures Told(room, i) && room.seats[i].result == Verdict(room) && Verdict(room).Some?
    ensures RoomOk(SetSeat(room, i, room.seats[i].(result := None, heard := Verdict(room))))
  {
    var room' := SetSeat(room, i, room.seats[i].(result := None, heard := Verdict(room)));
    assert SeatOk(room, i);
    forall j | 0 <= j < |room'.seats| ensures SeatOk(room', j) { assert SeatOk(room, j); }
  }

  lemma RespondedOk(room: Room, i: nat, byCtx: bool)
    requires RoomOk(room) && CanRespond(room, i, byCtx)
    ensures RoomOk(Responded(room, i, byCtx)) && Quiet(room, Responded(room, i, byCtx))
  {
    var room' := Responded(room, i, byCtx);
    assert SeatOk(room, i);
    assert room'.log[..room.received] == room.log[..room.received];
    forall m ensures m in room'.log <==> m in room.log || m == room'.log[|room.log|] {}
    forall j | 0 <= j < |room'.seats| ensures SeatOk(room', j) { assert SeatOk(room, j); }
  }

  /** Taking the next message adds it to those taken, and it is the first of its index. */
  lemma TakeNext(log: seq<FanIn>, n: nat, j: nat)
    requires n < |log| && DistinctIdx(log)
    ensures log[n] in log
    ensures FanIn(j, true) in log[..n + 1] <==> FanIn(j, true) in log[..n] || log[n] == FanIn(j, true)
    ensures log[n].idx == j ==> FanIn(j, true) !in log[..n]
  {
    assert log[..n + 1] == log[..n] + [log[n]];
  }

  lemma TakenIs(room: Room)
    requires RoomOk(room) && room.received < |room.log|
    ensures TakenOf(room) == room.received && TakenOf(Gathered(room)) == room.received + 1
  {
    assert room.log[room.received] in room.log;
  }

  lemma GatheredSeat(room: Room, m: FanIn, j: nat)
    requires room.phase == Gathering && room.received < |room.log| && m == room.log[room.received]
    requires j < |room.seats| && m.idx < |room.seats| && SeatOk(room, j)
    requires TakenOf(room) == room.received && TakenOf(Gathered(room)) == room.received + 1
    requires FanIn(j, true) in room.log[..room.received + 1] <==> FanIn(j, true) in room.log[..room.received] || m == FanIn(j, true)
    requires m.idx == j ==> FanIn(j, true) !in room.log[..room.received]
    ensures SeatOk(Gathered(room), j)
  {
    hide TakenOf;
  }

  lemma GatheredSeatOk(room: Room, j: nat)
    requires RoomOk(room) && room.phase == Gathering && room.received < |room.log|
    requires j < |room.seats|
    ensures room.log[room.received].idx < |room.seats| && SeatOk(Gathered(room), j)
  {
    hide DistinctIdx;
    TakeNext(room.log, room.received, j);
    assert SeatOk(room, j);
    var m := room.log[room.received];
    TakenIs(room);
    hide RoomOk;
    GatheredSeat(room, m, j);
  }

  lemma GatheredOk(room: Room)
    requires RoomOk(room) && room.phase == Gathering && room.received < |room.log|
    ensures room.log[room.received].idx < |room.seats| && RoomOk(Gathered(room)) && Quiet(room, Gathered(room))
    ensures Gathered(room).counted == room.counted
  {
    hide SeatOk;
    var n := room.received;
    assert room.log[n] in room.log;
    assert room.log[..n + 1] == room.log[..n] + [room.log[n]];
    var room' := Gathered(room);
    forall j | 0 <= j < |room'.seats| ensures SeatOk(room', j) {
      GatheredSeatOk(room, j);
    }
  }
}

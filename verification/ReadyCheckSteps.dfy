/** Every action keeps the invariant. */
module ReadyCheckSteps {
  import opened Players
  import opened ReadyCheck
  import opened ReadyCheckInvariant
  import opened ReadyCheckRooms

  // ------------------------------------------------------------------
  // What the core says of one gateway, room or seat
  // ------------------------------------------------------------------

  lemma OfGateway(s: State, p: nat)
    requires Core(s) && p in s.gw
    ensures GatewayOk(s.gw[p]) && Placed(s, p) && AcceptsOk(s, p)
  {
  }

  lemma OfRecord(s: State, p: nat)
    requires Core(s) && p in s.gw
    ensures GatewayOk(s.gw[p])
  {
  }

  lemma OfRoom(s: State, r: nat)
    requires Core(s) && r in s.rooms
    ensures RoomOk(s.rooms[r]) && SeatsManned(s, r) && SessionOk(s, r)
  {
  }

  lemma OfSeat(s: State, e: Event)
    requires Core(s) && HasSeat(s, e)
    ensures Manned(s, e) && SeatOk(s.rooms[e.room], e.idx)
  {
  }

  // ------------------------------------------------------------------
  // Frames
  // ------------------------------------------------------------------

  ghost predicate SameIds(s: State, s': State) {
    s.gw.Keys <= s'.gw.Keys && forall p | p in s.gw :: s'.gw[p].id == s.gw[p].id
  }

  /** Ids and seating are unchanged, and so are the confirmed rooms. */
  lemma SessionsFrame(s: State, s': State)
    requires SessionsOk(s) && SameIds(s, s') && s'.sessions == s.sessions && s'.rooms.Keys == s.rooms.Keys
    requires forall r | r in s.rooms :: SamePlayers(s.rooms[r], s'.rooms[r]) && Confirmed(s'.rooms[r]) == Confirmed(s.rooms[r])
    ensures SessionsOk(s')
  {
    forall r | r in s'.rooms ensures SeatsManned(s', r) && SessionOk(s', r) {
      assert SeatsManned(s, r) && SessionOk(s, r) && SamePlayers(s.rooms[r], s'.rooms[r]);
      assert forall i | 0 <= i < |s'.rooms[r].seats| :: s'.rooms[r].seats[i].player == s.rooms[r].seats[i].player;
      assert SessionIds(s', s'.rooms[r]) == SessionIds(s, s.rooms[r]);
    }
  }

  /** A step of a gateway that touches neither its object nor an answer. */
  ghost predicate Local(g: Gateway, g': Gateway) {
    && g'.id == g.id && g'.matchCh == g.matchCh && g'.accepts == g.accepts && g'.confirmed == g.confirmed && g'.place == g.place
    && (|| g'.pc == g.pc
        || (!g.pc.Awaiting? && !Returning(g) && !g'.pc.Checking? && !g'.pc.Awaiting?)
        || (Returning(g) && Returning(g')))
  }

  lemma LocalPlaces(s: State, p: nat, g': Gateway)
    requires PlacesOk(s) && AllAcceptsOk(s) && p in s.gw && Local(s.gw[p], g')
    ensures PlacesOk(PutGateway(s, p, g')) && AllAcceptsOk(PutGateway(s, p, g'))
  {
    var s' := PutGateway(s, p, g');
    forall q | q in s'.gw ensures Placed(s', q) && AcceptsOk(s', q) {
      assert Placed(s, q) && AcceptsOk(s, q);
      forall e ensures OwnSeat(s', q, e) == OwnSeat(s, q, e) {}
    }
  }

  lemma LocalManned(s: State, p: nat, g': Gateway)
    requires AllManned(s) && p in s.gw && Local(s.gw[p], g')
    ensures AllManned(PutGateway(s, p, g'))
  {
    var s' := PutGateway(s, p, g');
    forall e | HasSeat(s', e) ensures Manned(s', e) {
      assert HasSeat(s, e) && Manned(s, e);
    }
  }

  lemma SameRoomsSessions(s: State, s': State)
    requires SessionsOk(s) && SameIds(s, s') && s'.sessions == s.sessions && s'.rooms == s.rooms
    ensures SessionsOk(s')
  {
    forall r | r in s.rooms ensures SamePlayers(s.rooms[r], s'.rooms[r]) {}
    SessionsFrame(s, s');
  }

  lemma LocalStep(s: State, p: nat, g': Gateway)
    requires Inv(s) && p in s.gw && GatewayOk(g') && Local(s.gw[p], g')
    ensures Inv(PutGateway(s, p, g'))
  {
    hide RoomOk, GatewayOk, PlacesOk, AllAcceptsOk, AllManned, SessionsOk;
    LocalPlaces(s, p, g');
    LocalManned(s, p, g');
    SameRoomsSessions(s, PutGateway(s, p, g'));
    assert CountedRooms(PutGateway(s, p, g')) == CountedRooms(s);
  }

  lemma QuietPlaces(s: State, r: nat, room': Room)
    requires PlacesOk(s) && AllAcceptsOk(s) && r in s.rooms && Settled(s.rooms[r], room')
    ensures PlacesOk(PutRoom(s, r, room')) && AllAcceptsOk(PutRoom(s, r, room'))
  {
    var s' := PutRoom(s, r, room');
    forall e | HasSeat(s, e)
      ensures HasSeat(s', e) && SeatOf(s', e).player == SeatOf(s, e).player && SeatOf(s', e).said == SeatOf(s, e).said
      ensures SeatOf(s', e).heard == SeatOf(s, e).heard && SeatOf(s', e).fate == SeatOf(s, e).fate
      ensures Sent(s.rooms[e.room], e.idx) ==> Sent(s'.rooms[e.room], e.idx)
      ensures Released(s'.rooms[e.room], e.idx) == Released(s.rooms[e.room], e.idx)
    {
      assert e.room == r ==> QuietSeat(s.rooms[r], room', e.idx);
    }
    forall q | q in s'.gw ensures Placed(s', q) && AcceptsOk(s', q) {
      assert Placed(s, q) && AcceptsOk(s, q);
      forall e ensures OwnSeat(s', q, e) == OwnSeat(s, q, e) {}
    }
  }

  lemma QuietManned(s: State, r: nat, room': Room)
    requires AllManned(s) && r in s.rooms && Settled(s.rooms[r], room')
    ensures AllManned(PutRoom(s, r, room'))
  {
    var s' := PutRoom(s, r, room');
    forall e | HasSeat(s', e) ensures Manned(s', e) {
      assert HasSeat(s, e) && Manned(s, e);
      assert e.room == r ==> QuietSeat(s.rooms[r], room', e.idx);
    }
  }

  lemma QuietSessions(s: State, r: nat, room': Room)
    requires SessionsOk(s) && r in s.rooms && Quiet(s.rooms[r], room')
    ensures SessionsOk(PutRoom(s, r, room'))
  {
    var s' := PutRoom(s, r, room');
    forall x | x in s.rooms ensures SamePlayers(s.rooms[x], s'.rooms[x]) {}
    SessionsFrame(s, s');
  }

  lemma RoomCore(s: State, r: nat, room': Room)
    requires Core(s) && r in s.rooms && RoomOk(room') && Quiet(s.rooms[r], room')
    ensures Core(PutRoom(s, r, room'))
  {
    hide RoomOk, GatewayOk, PlacesOk, AllAcceptsOk, AllManned, SessionsOk;
    QuietPlaces(s, r, room');
    QuietManned(s, r, room');
    QuietSessions(s, r, room');
  }

  lemma RoomStep(s: State, r: nat, room': Room)
    requires Inv(s) && r in s.rooms && RoomOk(room') && Quiet(s.rooms[r], room') && room'.counted == s.rooms[r].counted
    ensures Inv(PutRoom(s, r, room'))
  {
    hide Core, RoomOk, Quiet;
    RoomCore(s, r, room');
    assert CountedRooms(PutRoom(s, r, room')) == CountedRooms(s);
  }

  // ------------------------------------------------------------------
  // Rooms on their own
  // ------------------------------------------------------------------

  lemma SamePlaces(s: State, s': State)
    requires s'.gw == s.gw && s'.pool == s.pool && s'.rooms == s.rooms
    requires PlacesOk(s) && AllAcceptsOk(s) && AllManned(s)
    ensures PlacesOk(s') && AllAcceptsOk(s') && AllManned(s')
  {
    forall p | p in s.gw ensures Placed(s', p) && AcceptsOk(s', p) {
      assert Placed(s, p) && AcceptsOk(s, p);
      forall e ensures OwnSeat(s', p, e) == OwnSeat(s, p, e) {}
    }
    forall e | HasSeat(s', e) ensures Manned(s', e) { assert HasSeat(s, e) && Manned(s, e); }
  }

  /** The core looks at the gateways, the pool, the rooms and the sessions only. */
  lemma SameCore(s: State, s': State)
    requires s'.gw == s.gw && s'.pool == s.pool && s'.rooms == s.rooms && s'.sessions == s.sessions
    requires Core(s)
    ensures Core(s') && CountedRooms(s') == CountedRooms(s)
  {
    hide RoomOk, GatewayOk, PlacesOk, AllAcceptsOk, AllManned, SessionsOk;
    SamePlaces(s, s');
    SameRoomsSessions(s, s');
  }

  lemma LaunchKeeps(s: State, r: nat)
    requires Inv(s) && Enabled(s, Launch(r))
    ensures Inv(Apply(s, Launch(r)))
  {
    hide Core, RoomOk, Quiet;
    OfRoom(s, r);
    LaunchedOk(s.rooms[r]);
    RoomStep(s, r, s.rooms[r].(phase := Gathering));
  }

  lemma TimeoutKeeps(s: State, r: nat)
    requires Inv(s) && Enabled(s, Timeout(r))
    ensures Inv(Apply(s, Timeout(r)))
  {
    hide Core, RoomOk, Quiet;
    OfRoom(s, r);
    TimedOutOk(s.rooms[r]);
    RoomStep(s, r, s.rooms[r].(ctxDone := true));
  }

  lemma RespondKeeps(s: State, r: nat, i: nat, byCtx: bool)
    requires Inv(s) && Enabled(s, Respond(r, i, byCtx))
    ensures Inv(Apply(s, Respond(r, i, byCtx)))
  {
    hide Core, RoomOk, Quiet;
    OfRoom(s, r);
    RespondedOk(s.rooms[r], i, byCtx);
    RoomStep(s, r, Responded(s.rooms[r], i, byCtx));
  }

  lemma GatherKeeps(s: State, r: nat)
    requires Inv(s) && Enabled(s, Gather(r))
    ensures Inv(Apply(s, Gather(r)))
  {
    hide Core, RoomOk, Quiet;
    OfRoom(s, r);
    GatheredOk(s.rooms[r]);
    RoomStep(s, r, Gathered(s.rooms[r]));
  }

  lemma GiveUpKeeps(s: State, r: nat)
    requires Inv(s) && Enabled(s, GiveUp(r))
    ensures Inv(Apply(s, GiveUp(r)))
  {
    hide Core, RoomOk, Quiet;
    OfRoom(s, r);
    GivenUpOk(s.rooms[r]);
    RoomStep(s, r, GivenUp(s.rooms[r]));
  }

  /** No result channel is closed twice. */
  lemma NotifyKeeps(s: State, r: nat)
    requires Inv(s) && Enabled(s, Notify(r))
    ensures Inv(Apply(s, Notify(r)))
  {
    hide Core, RoomOk, Quiet;
    OfRoom(s, r);
    NotifiedOk(s.rooms[r]);
    RoomStep(s, r, Notified(s.rooms[r]));
    assert Apply(s, Notify(r)) == PutRoom(s, r, Notified(s.rooms[r]));
  }

  lemma OneMoreCounted(s: State, s': State, r: nat)
    requires CountersOk(s) && r in s.rooms && !s.rooms[r].counted
    requires s' == PutRoom(s, r, s.rooms[r].(counted := true)).(matches := s.matches + 1)
    ensures CountersOk(s')
  {
    assert CountedRooms(s') == CountedRooms(s) + {r};
  }

  lemma CountKeeps(s: State, r: nat)
    requires Inv(s) && Enabled(s, Count(r))
    ensures Inv(Apply(s, Count(r)))
  {
    hide Core, RoomOk, Quiet, CountersOk;
    var room' := s.rooms[r].(counted := true);
    OfRoom(s, r);
    CountedOk(s.rooms[r]);
    RoomCore(s, r, room');
    SameCore(PutRoom(s, r, room'), Apply(s, Count(r)));
    OneMoreCounted(s, Apply(s, Count(r)), r);
  }

  lemma SameSession(s: State, r: nat, room': Room)
    requires SessionsOk(s) && r in s.rooms && s.rooms[r].phase == Creating && SamePlayers(s.rooms[r], room') && Confirmed(room')
    ensures SeatsManned(s, r)
    ensures SessionsOk(PutRoom(s, r, room').(sessions := s.sessions[r := SessionIds(s, s.rooms[r])]))
  {
    assert SeatsManned(s, r) && SessionOk(s, r);
    var s' := PutRoom(s, r, room').(sessions := s.sessions[r := SessionIds(s, s.rooms[r])]);
    forall x | x in s'.rooms ensures SeatsManned(s', x) && SessionOk(s', x) {
      assert SeatsManned(s, x) && SessionOk(s, x);
      assert forall i | 0 <= i < |s'.rooms[x].seats| :: s'.rooms[x].seats[i].player == s.rooms[x].seats[i].player;
      assert SessionIds(s', s'.rooms[x]) == SessionIds(s, s.rooms[x]);
    }
  }

  lemma CreateKeeps(s: State, r: nat)
    requires Inv(s) && Enabled(s, Create(r))
    ensures Inv(Apply(s, Create(r)))
  {
    hide RoomOk, GatewayOk, PlacesOk, AllAcceptsOk, AllManned, SessionsOk, Quiet, Settled, SamePlayers;
    var room' := s.rooms[r].(phase := Notifying(true, 0));
    var s' := Apply(s, Create(r));
    SessionCreatedOk(s.rooms[r]);
    SameSession(s, r, room');
    QuietPlaces(s, r, room');
    QuietManned(s, r, room');
    SamePlaces(PutRoom(s, r, room'), s');
    assert CountedRooms(s') == CountedRooms(s);
  }
}

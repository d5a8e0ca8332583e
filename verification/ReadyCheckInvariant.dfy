/** The inductive invariant of the ready-check protocol. */
module ReadyCheckInvariant {
  import opened Collections
  import opened Players
  import opened StatusStream
  import opened ReadyCheck

  // ------------------------------------------------------------------
  // Pieces
  // ------------------------------------------------------------------

  predicate Returning(g: Gateway) {
    g.pc == Leaving || g.pc == Gone
  }

  /** A gateway by itself: its stream so far, its reader, its accept tokens. */
  ghost predicate GatewayOk(g: Gateway) {
    && (match g.pc
        case Greeting => Read(g.sent) == Silent
        case Idle => Read(g.sent) == Searching
        case Checking(e) => Read(g.sent) == Asked(e.room)
        case Awaiting(e) => Read(g.sent) == Asked(e.room)
        case _ => Read(g.sent) != Broken)
    && (g.reader != Stopped ==> !g.cancelReq && !g.clientDone)
    && (g.pc == Greeting ==> g.reader == Unstarted)
    && |g.accepts| + (if g.acceptReq then 1 else 0) <= g.acceptMsgs
    && (g.matchCh.closed <==> g.place == Closed)
    && (forall x | IN_GAME(x) in g.sent :: g.confirmed.Some? && g.confirmed.value.room == x)
    && (g.confirmed.Some? ==> Returning(g))
  }

  ghost predicate OwnSeat(s: State, p: nat, e: Event) {
    HasSeat(s, e) && SeatOf(s, e).player == p
  }

  /** The event `e` is with the gateway, which has not answered it. */
  ghost predicate Unanswered(s: State, p: nat, e: Event)
    requires p in s.gw
  {
    && OwnSeat(s, p, e) && Sent(s.rooms[e.room], e.idx) && SeatOf(s, e).said == None
    && (s.gw[p].place == Seated(e) || s.gw[p].place == Left(e))
  }

  /** A gateway against the rooms and the pool. */
  ghost predicate Placed(s: State, p: nat)
    requires p in s.gw
  {
    var g := s.gw[p];
    && (g.matchCh.buf.Some? ==> Unanswered(s, p, g.matchCh.buf.value) && !g.pc.Checking?)
    && (g.pc.Checking? ==> Unanswered(s, p, g.pc.e))
    && (g.pc.Awaiting? ==> OwnSeat(s, p, g.pc.e) && SeatOf(s, g.pc.e).said == Some(true) && SeatOf(s, g.pc.e).heard == None)
    && (g.place == Pooled ==> g.id in s.pool && s.pool[g.id] == p)
    && (g.place.Seated? ==> OwnSeat(s, p, g.place.e) && !Released(s.rooms[g.place.e.room], g.place.e.idx))
    && (g.place.Left? ==> && OwnSeat(s, p, g.place.e) && Released(s.rooms[g.place.e.room], g.place.e.idx)
                          && (SeatOf(s, g.place.e).fate == Skipped || SeatOf(s, g.place.e).fate == Refused))
    && (g.confirmed.Some? ==> OwnSeat(s, p, g.confirmed.value) && SeatOf(s, g.confirmed.value).heard == Some(true))
  }

  /** The accepts of a gateway are exactly the seats it answered with true. */
  ghost predicate AcceptsOk(s: State, p: nat)
    requires p in s.gw
  {
    forall e :: e in s.gw[p].accepts <==> OwnSeat(s, p, e) && SeatOf(s, e).said == Some(true)
  }

  /** A seat by itself, in its room. */
  ghost predicate SeatOk(room: Room, i: nat)
    requires i < |room.seats|
  {
    var seat := room.seats[i];
    && (!Sent(room, i) ==> seat.said == None)
    && (seat.resp.Some? ==> seat.resp == seat.said)
    && (FanIn(i, true) in room.log ==> seat.said == Some(true))
    && (seat.accepted <==> FanIn(i, true) in room.log[..TakenOf(room)])
    && (seat.heard.Some? ==> seat.said == Some(true))
    && (if Told(room, i)
        then && seat.resultClosed
             && (if seat.heard.None? then seat.result == Verdict(room)
                 else seat.result == None && seat.heard == Verdict(room))
        else !seat.resultClosed && seat.result == None && seat.heard == None)
    && (if Released(room, i) then seat.fate != Undecided && (seat.fate == Skipped <==> !seat.accepted)
        else seat.fate == Undecided)
    && (seat.listening <==> forall m | m in room.log :: m.idx != i)
  }

  function TakenOf(room: Room): (n: nat)
    ensures n <= |room.log|
  {
    if room.received <= |room.log| then room.received else |room.log|
  }

  predicate DistinctIdx(log: seq<FanIn>) {
    forall i, j | 0 <= i < j < |log| :: log[i].idx != log[j].idx
  }

  /** The coordinator has taken ten messages, all true. */
  predicate AllAccepted(room: Room) {
    room.received == PLAYERS_PER_MATCH && room.received <= |room.log| && forall m | m in room.log[..room.received] :: m.accepted
  }

  ghost predicate RoomOk(room: Room) {
    && |room.seats| == PLAYERS_PER_MATCH
    && room.received <= |room.log|
    && DistinctIdx(room.log)
    && (forall m | m in room.log :: m.idx < PLAYERS_PER_MATCH)
    && (match room.phase
        case Sending(k) => k <= PLAYERS_PER_MATCH && room.log == [] && !room.counted
        case Gathering => room.received < PLAYERS_PER_MATCH && forall m | m in room.log[..room.received] :: m.accepted
        case Notifying(_, k) => k < PLAYERS_PER_MATCH
        case Requeuing(k) => k < PLAYERS_PER_MATCH
        case _ => true)
    && (Verdict(room).Some? ==> room.ctxDone && (Verdict(room).value <==> AllAccepted(room)))
    && (forall i | 0 <= i < |room.seats| :: SeatOk(room, i))
  }

  /** A seat against its player's gateway. */
  ghost predicate Manned(s: State, e: Event)
    requires HasSeat(s, e)
  {
    var room, seat := s.rooms[e.room], SeatOf(s, e);
    && seat.player in s.gw
    && var g := s.gw[seat.player];
      && (!Released(room, e.idx) ==> g.place == Seated(e))
      && (seat.said == Some(true) && seat.heard == None ==> g.pc == Awaiting(e))
      && (seat.said == Some(false) || seat.heard == Some(true) ==> Returning(g))
  }

  ghost predicate SeatsManned(s: State, r: nat)
    requires r in s.rooms
  {
    forall i | 0 <= i < |s.rooms[r].seats| :: s.rooms[r].seats[i].player in s.gw
  }

  predicate Confirmed(room: Room) {
    Verdict(room) == Some(true) && room.phase != Creating
  }

  ghost predicate SessionOk(s: State, r: nat)
    requires r in s.rooms && SeatsManned(s, r)
  {
    && Distinct(SessionIds(s, s.rooms[r]))
    && (r in s.sessions <==> Confirmed(s.rooms[r]))
    && (r in s.sessions ==> s.sessions[r] == SessionIds(s, s.rooms[r]))
  }

  // ------------------------------------------------------------------
  // The invariant
  // ------------------------------------------------------------------

  ghost predicate GatewaysOk(s: State) {
    forall p | p in s.gw :: GatewayOk(s.gw[p])
  }

  ghost predicate PlacesOk(s: State) {
    forall p | p in s.gw :: Placed(s, p)
  }

  ghost predicate AllAcceptsOk(s: State) {
    forall p | p in s.gw :: AcceptsOk(s, p)
  }

  ghost predicate RoomsOk(s: State) {
    forall r | r in s.rooms :: RoomOk(s.rooms[r])
  }

  ghost predicate AllManned(s: State) {
    forall e | HasSeat(s, e) :: Manned(s, e)
  }

  ghost predicate SessionsOk(s: State) {
    && (forall r | r in s.rooms :: SeatsManned(s, r) && SessionOk(s, r))
    && s.sessions.Keys <= s.rooms.Keys
  }

  ghost predicate PoolOk(s: State) {
    forall id | id in s.pool :: s.pool[id] in s.gw && s.gw[s.pool[id]].id == id && s.gw[s.pool[id]].place == Pooled
  }

  function CountedRooms(s: State): set<nat> {
    set r | r in s.rooms && s.rooms[r].counted
  }

  /** The counters: matches are the rooms whose tick has passed its increment, and
      every player object that entered the pool is there, was dequeued or extracted.
      No step ever panicked or took a `default` branch. */
  ghost predicate CountersOk(s: State) {
    && s.matches == |CountedRooms(s)|
    && s.tally.enqueued + s.tally.requeued == |s.pool| + s.tally.dequeued + PLAYERS_PER_MATCH * s.tally.extracted
    && !s.panicked && s.dropped == 0
  }

  /** Everything but the counters. */
  ghost predicate Core(s: State) {
    && GatewaysOk(s) && PlacesOk(s) && AllAcceptsOk(s)
    && RoomsOk(s) && AllManned(s) && SessionsOk(s) && PoolOk(s)
  }

  ghost predicate Inv(s: State) {
    Core(s) && CountersOk(s)
  }
}

/** The ready-check protocol as a transition system: gateways, match rooms with
    their coordinators, and the pool between them. Every action is one step of one
    goroutine, and the steps of all of them interleave freely; a `select` is one
    action per ready case, and a timer may fire whenever it is running. */
module ReadyCheck {
  import opened Collections
  import opened Players
  import opened StatusStream

  // ------------------------------------------------------------------
  // Gateways
  // ------------------------------------------------------------------

  /** What a gateway is doing: about to acknowledge the join; in its select loop; in
      the accept wait; blocked on the result channel; returning, with the deferred
      Dequeue still to run; returned. */
  datatype Pc =
    | Greeting
    | Idle
    | Checking(e: Event)
    | Awaiting(e: Event)
    | Leaving
    | Gone

  datatype Reader = Unstarted | Reading | Stopped

  /** History: where the gateway's player object is. */
  datatype Place =
    | Pooled
    | Seated(e: Event)
    | Left(e: Event)
    | Closed

  /** A stream handler and the player object it enqueued, both named by the handle
      of the object. `accepts` and `confirmed` are history: the ready-checks answered
      with true, and the one whose verdict true was read. */
  datatype Gateway = Gateway(
    id: string,
    pc: Pc,
    matchCh: MatchCh,
    sent: seq<Status>,
    reader: Reader,
    acceptReq: bool,
    cancelReq: bool,
    clientDone: bool,
    acceptMsgs: nat,
    accepts: set<Event>,
    confirmed: Option<Event>,
    place: Place)

  function NewGateway(id: string): Gateway {
    Gateway(id, Greeting, READY, [], Unstarted, false, false, false, 0, {}, None, Pooled)
  }

  // ------------------------------------------------------------------
  // Rooms
  // ------------------------------------------------------------------

  /** History: what the re-enqueue loop did with a seat. */
  datatype Fate = Undecided | Skipped | Requeued | Refused

  /** One index of a room: its player object, its response and result channels, its
      fan-in goroutine and its entry of `accepted`. `said` and `heard` are history:
      the response the gateway gave, and the verdict it read. */
  datatype Seat = Seat(
    player: nat,
    resp: Option<bool>,
    listening: bool,
    accepted: bool,
    result: Option<bool>,
    resultClosed: bool,
    said: Option<bool>,
    heard: Option<bool>,
    fate: Fate)

  function NewSeat(player: nat): Seat {
    Seat(player, None, true, false, None, false, None, None, Undecided)
  }

  datatype FanIn = FanIn(idx: nat, accepted: bool)

  /** The tick sends events to seats 0..; the coordinator gathers responses, decides,
      creates the session, notifies seat by seat, and re-enqueues seat by seat. */
  datatype Phase =
    | Sending(k: nat)
    | Gathering
    | Creating
    | Notifying(verdict: bool, k: nat)
    | Requeuing(k: nat)
    | Done(verdict: bool)

  /** `log` is everything ever sent on fanInCh, of which the coordinator has taken
      the first `received`; the rest is in the channel buffer. */
  datatype Room = Room(
    seats: seq<Seat>,
    phase: Phase,
    ctxDone: bool,
    log: seq<FanIn>,
    received: nat,
    counted: bool)

  function NewRoom(players: seq<nat>): Room {
    Room(seq(|players|, i requires 0 <= i < |players| => NewSeat(players[i])), Sending(0), false, [], 0, false)
  }

  function Verdict(room: Room): Option<bool> {
    match room.phase
    case Sending(_) => None
    case Gathering => None
    case Creating => Some(true)
    case Notifying(v, _) => Some(v)
    case Requeuing(_) => Some(false)
    case Done(v) => Some(v)
  }

  /** The event of seat `i` has been put in its player's MatchCh. */
  predicate Sent(room: Room, i: nat) {
    room.phase.Sending? ==> i < room.phase.k
  }

  /** The verdict has been put in seat `i`'s result channel. */
  predicate Told(room: Room, i: nat) {
    match room.phase
    case Notifying(_, k) => i < k
    case Requeuing(_) => true
    case Done(_) => true
    case _ => false
  }

  /** The room has no more use for seat `i`: it failed, and the re-enqueue loop is
      past that seat. */
  predicate Released(room: Room, i: nat) {
    match room.phase
    case Requeuing(k) => i < k
    case Done(v) => !v
    case _ => false
  }

  /** Steps of a coordinator that involve nothing outside its room. */
  function SetSeat(room: Room, i: nat, seat: Seat): Room
    requires i < |room.seats|
  {
    room.(seats := room.seats[i := seat])
  }

  /** Receives the next fan-in message; the first false one decides the room. */
  function Gathered(room: Room): Room
    requires room.received < |room.log| && room.log[room.received].idx < |room.seats|
  {
    var m := room.log[room.received];
    var room' := SetSeat(room, m.idx, room.seats[m.idx].(accepted := m.accepted)).(received := room.received + 1);
    if !m.accepted then room'.(phase := Notifying(false, 0), ctxDone := true)
    else if room'.received == PLAYERS_PER_MATCH then room'.(phase := Creating, ctxDone := true)
    else room'
  }

  function GivenUp(room: Room): Room {
    room.(phase := Notifying(false, 0), ctxDone := true)
  }

  /** Sends the verdict on the next result channel and closes it. */
  function Notified(room: Room): Room
    requires room.phase.Notifying? && room.phase.k < |room.seats|
  {
    var v, k := room.phase.verdict, room.phase.k;
    SetSeat(room, k, room.seats[k].(result := Some(v), resultClosed := true)).(
      phase := if k + 1 < PLAYERS_PER_MATCH then Notifying(v, k + 1) else if v then Done(true) else Requeuing(0))
  }

  function RequeuedPast(room: Room, fate: Fate): Room
    requires room.phase.Requeuing? && room.phase.k < |room.seats|
  {
    var k := room.phase.k;
    SetSeat(room, k, room.seats[k].(fate := fate)).(
      phase := if k + 1 < PLAYERS_PER_MATCH then Requeuing(k + 1) else Done(false))
  }

  // ------------------------------------------------------------------
  // The whole system
  // ------------------------------------------------------------------

  /** History: successful Enqueue, ReEnqueue and Dequeue calls, and extractions. */
  datatype Tally = Tally(enqueued: nat, requeued: nat, dequeued: nat, extracted: nat)

  /** Rooms are named by their session id. `panicked` records a send on, or a second
      close of, a closed channel; `dropped` counts the `default` branches taken by the
      two non-blocking sends (events and responses). */
  datatype State = State(
    gw: map<nat, Gateway>,
    pool: map<string, nat>,
    rooms: map<nat, Room>,
    sessions: map<nat, seq<string>>,
    matches: nat,
    panicked: bool,
    dropped: nat,
    tally: Tally)

  const INIT := State(map[], map[], map[], map[], 0, false, 0, Tally(0, 0, 0, 0))

  predicate HasSeat(s: State, e: Event) {
    e.room in s.rooms && e.idx < |s.rooms[e.room].seats|
  }

  function SeatOf(s: State, e: Event): Seat
    requires HasSeat(s, e)
  {
    s.rooms[e.room].seats[e.idx]
  }

  function PutGateway(s: State, p: nat, g: Gateway): State {
    s.(gw := s.gw[p := g])
  }

  function PutRoom(s: State, r: nat, room: Room): State {
    s.(rooms := s.rooms[r := room])
  }

  function PutSeat(s: State, e: Event, seat: Seat): State
    requires HasSeat(s, e)
  {
    PutRoom(s, e.room, SetSeat(s.rooms[e.room], e.idx, seat))
  }

  /** Pool.Dequeue: drops whichever object has the id and closes its MatchCh. */
  function Dequeued(s: State, id: string): State {
    if id !in s.pool || s.pool[id] !in s.gw then s
    else
      var q := s.pool[id];
      var g := s.gw[q];
      PutGateway(s, q, g.(matchCh := g.matchCh.(closed := true), place := Closed)).(
        pool := s.pool - {id},
        panicked := s.panicked || g.matchCh.closed,
        tally := s.tally.(dequeued := s.tally.dequeued + 1))
  }

  datatype Action =
    | Join(id: string, p: nat)
    | Greet(p: nat, ok: bool)
    | Push(p: nat, ok: bool)
    | TakeEvent(p: nat, ok: bool)
    | TakeClosed(p: nat)
    | TakeCancel(p: nat)
    | Quit(p: nat)
    | Accept(p: nat)
    | Decline(p: nat)
    | Hear(p: nat)
    | Cleanup(p: nat)
    | ClientAccept(p: nat)
    | ClientCancel(p: nat)
    | ClientGone(p: nat)
    | Extract(r: nat, ids: seq<string>)
    | Deliver(r: nat)
    | Launch(r: nat)
    | Count(r: nat)
    | Timeout(r: nat)
    | Respond(r: nat, i: nat, byCtx: bool)
    | Gather(r: nat)
    | GiveUp(r: nat)
    | Create(r: nat)
    | Notify(r: nat)
    | Requeue(r: nat)

  /** When the goroutine concerned is at the step and the step does not block. */
  predicate Enabled(s: State, a: Action) {
    match a
    case Join(id, p) => p !in s.gw
    case Greet(p, _) => p in s.gw && s.gw[p].pc == Greeting
    case Push(p, _) => p in s.gw && s.gw[p].pc == Idle
    case TakeEvent(p, _) => p in s.gw && s.gw[p].pc == Idle && s.gw[p].matchCh.buf.Some?
    case TakeClosed(p) => p in s.gw && s.gw[p].pc == Idle && s.gw[p].matchCh.buf.None? && s.gw[p].matchCh.closed
    case TakeCancel(p) => p in s.gw && s.gw[p].pc == Idle && s.gw[p].cancelReq
    case Quit(p) => p in s.gw && s.gw[p].pc == Idle
    case Accept(p) => p in s.gw && s.gw[p].pc.Checking? && s.gw[p].acceptReq && HasSeat(s, s.gw[p].pc.e)
    case Decline(p) => p in s.gw && s.gw[p].pc.Checking? && HasSeat(s, s.gw[p].pc.e)
    case Hear(p) => p in s.gw && s.gw[p].pc.Awaiting? && HasSeat(s, s.gw[p].pc.e) && CanHear(SeatOf(s, s.gw[p].pc.e))
    case Cleanup(p) => p in s.gw && s.gw[p].pc == Leaving
    case ClientAccept(p) => p in s.gw && s.gw[p].reader == Reading
    case ClientCancel(p) => p in s.gw && s.gw[p].reader == Reading && !s.gw[p].cancelReq
    case ClientGone(p) => p in s.gw && s.gw[p].reader == Reading
    case Extract(r, ids) => r !in s.rooms && |ids| == PLAYERS_PER_MATCH && Distinct(ids)
                            && forall i | 0 <= i < |ids| :: ids[i] in s.pool
    case Deliver(r) => r in s.rooms && s.rooms[r].phase.Sending? && s.rooms[r].phase.k < PLAYERS_PER_MATCH
                       && s.rooms[r].phase.k < |s.rooms[r].seats| && s.rooms[r].seats[s.rooms[r].phase.k].player in s.gw
    case Launch(r) => r in s.rooms && s.rooms[r].phase == Sending(PLAYERS_PER_MATCH)
    case Count(r) => r in s.rooms && !s.rooms[r].phase.Sending? && !s.rooms[r].counted
    case Timeout(r) => r in s.rooms && s.rooms[r].phase == Gathering && !s.rooms[r].ctxDone
    case Respond(r, i, byCtx) => r in s.rooms && CanRespond(s.rooms[r], i, byCtx) && FanInHasRoom(s.rooms[r])
    case Gather(r) => r in s.rooms && s.rooms[r].phase == Gathering && s.rooms[r].received < |s.rooms[r].log|
                      && s.rooms[r].log[s.rooms[r].received].idx < |s.rooms[r].seats|
    case GiveUp(r) => r in s.rooms && s.rooms[r].phase == Gathering && s.rooms[r].ctxDone
    case Create(r) => r in s.rooms && s.rooms[r].phase == Creating
                      && forall i | 0 <= i < |s.rooms[r].seats| :: s.rooms[r].seats[i].player in s.gw
    case Notify(r) => r in s.rooms && s.rooms[r].phase.Notifying? && s.rooms[r].phase.k < |s.rooms[r].seats|
                      && ResultHasRoom(s.rooms[r].seats[s.rooms[r].phase.k])
    case Requeue(r) => r in s.rooms && s.rooms[r].phase.Requeuing? && s.rooms[r].phase.k < |s.rooms[r].seats|
                       && s.rooms[r].seats[s.rooms[r].phase.k].player in s.gw
  }

  predicate CanHear(seat: Seat) {
    seat.result.Some? || seat.resultClosed
  }

  /** A fan-in goroutine has a response, or the context is done. */
  predicate CanRespond(room: Room, i: nat, byCtx: bool) {
    && i < |room.seats| && !room.phase.Sending? && room.seats[i].listening
    && if byCtx then room.ctxDone else room.seats[i].resp.Some?
  }

  /** The buffer of fanInCh holds ten messages, that of a result channel one. */
  predicate FanInHasRoom(room: Room) {
    |room.log| - room.received < PLAYERS_PER_MATCH
  }

  predicate ResultHasRoom(seat: Seat) {
    seat.result.None?
  }

  function Apply(s: State, a: Action): State
    requires Enabled(s, a)
  {
    match a
    case Join(id, p) => Joined(s, id, p)
    case Greet(p, ok) => Greeted(s, p, ok)
    case Push(p, ok) => Pushed(s, p, ok)
    case TakeEvent(p, ok) => EventTaken(s, p, ok)
    case TakeClosed(p) => ClosedTaken(s, p)
    case TakeCancel(p) => CancelTaken(s, p)
    case Quit(p) => PutGateway(s, p, s.gw[p].(pc := Leaving))
    case Accept(p) => Accepted(s, p)
    case Decline(p) => Declined(s, p)
    case Hear(p) => Heard(s, p)
    case Cleanup(p) => CleanedUp(s, p)
    case ClientAccept(p) => PutGateway(s, p, s.gw[p].(acceptMsgs := s.gw[p].acceptMsgs + 1, acceptReq := true))
    case ClientCancel(p) => ReaderStopped(s, p, true)
    case ClientGone(p) => ReaderStopped(s, p, s.gw[p].cancelReq)
    case Extract(r, ids) => RoomOpened(s, r, ids)
    case Deliver(r) => Delivered(s, r)
    case Launch(r) => PutRoom(s, r, s.rooms[r].(phase := Gathering))
    case Count(r) => PutRoom(s, r, s.rooms[r].(counted := true)).(matches := s.matches + 1)
    case Timeout(r) => PutRoom(s, r, s.rooms[r].(ctxDone := true))
    case Respond(r, i, byCtx) => PutRoom(s, r, Responded(s.rooms[r], i, byCtx))
    case Gather(r) => PutRoom(s, r, Gathered(s.rooms[r]))
    case GiveUp(r) => PutRoom(s, r, GivenUp(s.rooms[r]))
    case Create(r) => Created(s, r)
    case Notify(r) => PutRoom(s, r, Notified(s.rooms[r])).(
      panicked := s.panicked || s.rooms[r].seats[s.rooms[r].phase.k].resultClosed)
    case Requeue(r) => ReEnqueued(s, r)
  }

  /** Enqueue refuses an id that is queued; the stream then ends. */
  function Joined(s: State, id: string, p: nat): State {
    if id in s.pool then s
    else PutGateway(s, p, NewGateway(id)).(
      pool := s.pool[id := p],
      tally := s.tally.(enqueued := s.tally.enqueued + 1))
  }

  /** A message is sent; if the send fails the handler returns. */
  function Send(g: Gateway, m: Status, ok: bool, next: Pc): Gateway {
    g.(sent := g.sent + [m], pc := if ok then next else Leaving)
  }

  function Greeted(s: State, p: nat, ok: bool): State
    requires p in s.gw
  {
    var g := Send(s.gw[p], WAITING, ok, Idle);
    PutGateway(s, p, if ok then g.(reader := Reading) else g)
  }

  function Pushed(s: State, p: nat, ok: bool): State
    requires p in s.gw
  {
    PutGateway(s, p, Send(s.gw[p], WAITING, ok, Idle))
  }

  /** The event is received and passed on to the client. */
  function AskedAbout(g: Gateway, ok: bool): Gateway
    requires g.matchCh.buf.Some?
  {
    var e := g.matchCh.buf.value;
    Send(g.(matchCh := g.matchCh.(buf := None)), READY_CHECK(e.room), ok, Checking(e))
  }

  function EventTaken(s: State, p: nat, ok: bool): State
    requires p in s.gw && s.gw[p].matchCh.buf.Some?
  {
    PutGateway(s, p, AskedAbout(s.gw[p], ok))
  }

  function ClosedTaken(s: State, p: nat): State
    requires p in s.gw
  {
    PutGateway(s, p, Send(s.gw[p], CANCELLED, true, Leaving))
  }

  /** An explicit cancel dequeues the id before it is acknowledged. */
  function CancelTaken(s: State, p: nat): State
    requires p in s.gw
  {
    var s' := Dequeued(s, s.gw[p].id);
    PutGateway(s', p, Send(s'.gw[p].(cancelReq := false), CANCELLED, true, Leaving))
  }

  /** The non-blocking send of a response. */
  function Answered(s: State, e: Event, answer: bool): State
    requires HasSeat(s, e)
  {
    var seat := SeatOf(s, e);
    PutSeat(s, e, seat.(resp := if seat.resp.None? then Some(answer) else seat.resp, said := Some(answer))).(
      dropped := s.dropped + if seat.resp.None? then 0 else 1)
  }

  function Accepted(s: State, p: nat): State
    requires p in s.gw && s.gw[p].pc.Checking? && HasSeat(s, s.gw[p].pc.e)
  {
    var g := s.gw[p];
    PutGateway(Answered(s, g.pc.e, true), p,
               g.(acceptReq := false, accepts := g.accepts + {g.pc.e}, pc := Awaiting(g.pc.e)))
  }

  /** Timer, disconnect or context: the response is false and the handler returns. */
  function Declined(s: State, p: nat): State
    requires p in s.gw && s.gw[p].pc.Checking? && HasSeat(s, s.gw[p].pc.e)
  {
    PutGateway(Answered(s, s.gw[p].pc.e, false), p, Send(s.gw[p], CANCELLED, true, Leaving))
  }

  /** Reads the verdict; an empty closed channel reads as false. */
  function Heard(s: State, p: nat): State
    requires p in s.gw && s.gw[p].pc.Awaiting? && HasSeat(s, s.gw[p].pc.e)
  {
    var g, e := s.gw[p], s.gw[p].pc.e;
    var seat := SeatOf(s, e);
    var v := seat.result == Some(true);
    PutGateway(PutSeat(s, e, seat.(result := None, heard := Some(v))), p, VerdictRead(g, e, v))
  }

  /** The client is told the verdict: its game, or that it is searching again. */
  function VerdictRead(g: Gateway, e: Event, v: bool): Gateway {
    if v then Send(g.(confirmed := Some(e)), IN_GAME(e.room), true, Leaving)
    else Send(g, WAITING, true, Idle)
  }

  /** The deferred Dequeue. */
  function CleanedUp(s: State, p: nat): State
    requires p in s.gw
  {
    var s' := Dequeued(s, s.gw[p].id);
    PutGateway(s', p, s'.gw[p].(pc := Gone))
  }

  function ReaderStopped(s: State, p: nat, cancel: bool): State
    requires p in s.gw
  {
    PutGateway(s, p, s.gw[p].(cancelReq := cancel, clientDone := true, reader := Stopped)).(
      panicked := s.panicked || s.gw[p].clientDone)
  }

  /** Position of an id in a selection, or its length. */
  function Position(ids: seq<string>, id: string): (i: nat)
    ensures i <= |ids|
    ensures i < |ids| ==> ids[i] == id
    ensures id in ids ==> i < |ids|
  {
    if ids == [] || ids[0] == id then 0 else 1 + Position(ids[1..], id)
  }

  /** ExtractMatch takes ten ids out of the pool; which ten is the pool's business. */
  function RoomOpened(s: State, r: nat, ids: seq<string>): State
    requires forall i | 0 <= i < |ids| :: ids[i] in s.pool
  {
    s.(gw := map p | p in s.gw ::
               if s.gw[p].id in ids && s.pool[s.gw[p].id] == p
               then s.gw[p].(place := Seated(Event(r, Position(ids, s.gw[p].id))))
               else s.gw[p],
       pool := s.pool - (set id | id in ids),
       rooms := s.rooms[r := NewRoom(seq(|ids|, i requires 0 <= i < |ids| => s.pool[ids[i]]))],
       tally := s.tally.(extracted := s.tally.extracted + 1))
  }

  /** The non-blocking send of the next event. */
  function Delivered(s: State, r: nat): State
    requires r in s.rooms && s.rooms[r].phase.Sending? && s.rooms[r].phase.k < |s.rooms[r].seats|
    requires s.rooms[r].seats[s.rooms[r].phase.k].player in s.gw
  {
    var room := s.rooms[r];
    var k := room.phase.k;
    var p := room.seats[k].player;
    var ch := s.gw[p].matchCh;
    var free := ch.buf.None?;
    PutGateway(PutRoom(s, r, room.(phase := Sending(k + 1))), p,
               s.gw[p].(matchCh := ch.(buf := if free then Some(Event(r, k)) else ch.buf))).(
      panicked := s.panicked || ch.closed,
      dropped := s.dropped + if free then 0 else 1)
  }

  function Responded(room: Room, i: nat, byCtx: bool): Room
    requires CanRespond(room, i, byCtx)
  {
    var seat := room.seats[i];
    var answer := !byCtx && seat.resp.value;
    SetSeat(room, i, seat.(listening := false, resp := if byCtx then seat.resp else None)).(
      log := room.log + [FanIn(i, answer)])
  }

  function SessionIds(s: State, room: Room): seq<string>
    requires forall i | 0 <= i < |room.seats| :: room.seats[i].player in s.gw
  {
    seq(|room.seats|, i requires 0 <= i < |room.seats| => s.gw[room.seats[i].player].id)
  }

  function Created(s: State, r: nat): State
    requires r in s.rooms
    requires forall i | 0 <= i < |s.rooms[r].seats| :: s.rooms[r].seats[i].player in s.gw
  {
    PutRoom(s, r, s.rooms[r].(phase := Notifying(true, 0))).(
      sessions := s.sessions[r := SessionIds(s, s.rooms[r])])
  }

  /** What the re-enqueue loop does with a seat: only those accepted go back, and
      ReEnqueue refuses an id that is queued again. */
  function RequeueFate(s: State, seat: Seat): Fate
    requires seat.player in s.gw
  {
    if !seat.accepted then Skipped else if s.gw[seat.player].id in s.pool then Refused else Requeued
  }

  /** One turn of the re-enqueue loop. */
  function ReEnqueued(s: State, r: nat): State
    requires r in s.rooms && s.rooms[r].phase.Requeuing? && s.rooms[r].phase.k < |s.rooms[r].seats|
    requires s.rooms[r].seats[s.rooms[r].phase.k].player in s.gw
  {
    var seat := s.rooms[r].seats[s.rooms[r].phase.k];
    var fate := RequeueFate(s, seat);
    var g := s.gw[seat.player];
    PutGateway(PutRoom(s, r, RequeuedPast(s.rooms[r], fate)), seat.player,
               g.(place := if fate == Requeued then Pooled else Left(Event(r, s.rooms[r].phase.k)))).(
      pool := if fate == Requeued then s.pool[g.id := seat.player] else s.pool,
      tally := if fate == Requeued then s.tally.(requeued := s.tally.requeued + 1) else s.tally)
  }

  ghost predicate Next(s: State, s': State) {
    exists a :: Enabled(s, a) && s' == Apply(s, a)
  }

  /** A run: states reached one action at a time from the empty system. */
  ghost predicate IsRun(run: seq<State>) {
    && run != [] && run[0] == INIT
    && forall i | 0 <= i < |run| - 1 :: Next(run[i], run[i + 1])
  }
}

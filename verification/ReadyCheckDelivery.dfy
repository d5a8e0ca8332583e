/** The verdict is the players' own: what a gateway answers is what its coordinator
    receives, and ten accepts make a game. */
module ReadyCheckDelivery {
  import opened Players
  import opened StatusStream
  import opened ReadyCheck
  import opened ReadyCheckInvariant
  import opened ReadyCheckRooms
  import opened ReadyCheckSteps
  import opened ReadyCheckPool
  import opened ReadyCheckRuns
  import opened ReadyCheckGuarantees
  import opened ReadyCheckTraces

  // ------------------------------------------------------------------
  // Responses arrive as they were given
  // ------------------------------------------------------------------

  /** An answer is in its channel until it is forwarded; false is forwarded only when it
      was said, or when the context was done. */
  ghost predicate Heeded(room: Room, i: nat)
    requires i < |room.seats|
  {
    var seat := room.seats[i];
    && (seat.listening && seat.said.Some? ==> seat.resp == seat.said)
    && (FanIn(i, false) in room.log ==> room.ctxDone || seat.said == Some(false))
  }

  ghost predicate AllHeeded(room: Room) {
    forall i | 0 <= i < |room.seats| :: Heeded(room, i)
  }

  /** The same answers and messages; the context may only end. */
  ghost predicate SameAnswers(room: Room, room': Room) {
    && |room'.seats| == |room.seats| && room'.log == room.log && (room.ctxDone ==> room'.ctxDone)
    && forall i | 0 <= i < |room.seats| ::
         && room'.seats[i].said == room.seats[i].said && room'.seats[i].resp == room.seats[i].resp
         && room'.seats[i].listening == room.seats[i].listening
  }

  lemma SameAnswersHeeded(room: Room, room': Room)
    requires AllHeeded(room) && SameAnswers(room, room')
    ensures AllHeeded(room')
  {
    forall i | 0 <= i < |room'.seats| ensures Heeded(room', i) {
      assert Heeded(room, i);
    }
  }

  lemma GatheredQuiet(room: Room)
    requires room.received < |room.log| && room.log[room.received].idx < |room.seats|
    ensures SameAnswers(room, Gathered(room))
  {
  }

  lemma NotifiedQuiet(room: Room)
    requires room.phase.Notifying? && room.phase.k < |room.seats|
    ensures SameAnswers(room, Notified(room))
  {
  }

  lemma RequeuedQuiet(room: Room, fate: Fate)
    requires room.phase.Requeuing? && room.phase.k < |room.seats|
    ensures SameAnswers(room, RequeuedPast(room, fate))
  {
  }

  lemma QuietSteps(s: State, a: Action)
    requires Enabled(s, a) && !GatewayAction(a) && !a.Extract? && !a.Respond?
    ensures SameAnswers(s.rooms[a.r], RoomAfter(s, a))
  {
    hide Gathered, Notified, RequeuedPast, RequeueFate;
    if a.Gather? {
      GatheredQuiet(s.rooms[a.r]);
      hide SameAnswers;
    } else if a.Notify? {
      NotifiedQuiet(s.rooms[a.r]);
      hide SameAnswers;
    } else if a.Requeue? {
      RequeuedQuiet(s.rooms[a.r], RequeueFate(s, s.rooms[a.r].seats[s.rooms[a.r].phase.k]));
      hide SameAnswers;
    }
  }

  lemma RespondedHeeded(room: Room, i: nat, byCtx: bool)
    requires AllHeeded(room) && CanRespond(room, i, byCtx) && SeatOk(room, i)
    ensures AllHeeded(Responded(room, i, byCtx))
  {
    var room' := Responded(room, i, byCtx);
    assert forall m :: m in room'.log <==> m in room.log || m == room'.log[|room.log|];
    forall j | 0 <= j < |room'.seats| ensures Heeded(room', j) {
      assert Heeded(room, j);
    }
  }

  lemma RoomStepHeeded(s: State, a: Action)
    requires Enabled(s, a) && !GatewayAction(a) && !a.Extract? && RoomOk(s.rooms[a.r]) && AllHeeded(s.rooms[a.r])
    ensures AllHeeded(RoomAfter(s, a))
  {
    if a.Respond? {
      assert SeatOk(s.rooms[a.r], a.i);
      hide RoomOk, SeatOk, AllHeeded;
      RespondedHeeded(s.rooms[a.r], a.i, a.byCtx);
    } else {
      QuietSteps(s, a);
      hide RoomAfter, AllHeeded, SameAnswers;
      SameAnswersHeeded(s.rooms[a.r], RoomAfter(s, a));
    }
  }

  /** What an answer or a hearing leaves of its seat. */
  ghost predicate KeepsAnswer(before: Seat, seat: Seat, a: Action) {
    && seat.listening == before.listening
    && if a.Hear? then seat.said == before.said && seat.resp == before.resp
       else before.said == None && seat.said == Some(a.Accept?) && seat.resp == seat.said
  }

  lemma AnswerIsKept(s: State, a: Action) returns (e: Event, seat: Seat)
    requires Inv(s) && Enabled(s, a) && AnswersOrHears(a)
    ensures HasSeat(s, e) && Apply(s, a).rooms == PutSeat(s, e, seat).rooms && KeepsAnswer(SeatOf(s, e), seat, a)
  {
    hide Inv, Enabled, Apply, SeatAfter, KeepsAnswer, Placed;
    SeatAfterIs(s, a);
    e, seat := s.gw[a.p].pc.e, SeatAfter(s, a);
    ItsGateway(s, a.p);
    if SeatOf(s, e).said == None {
      UnansweredIsEmpty(s, e);
    }
    SeatAfterKeeps(s, a, e);
  }

  lemma SeatAfterKeeps(s: State, a: Action, e: Event)
    requires Enabled(s, a) && AnswersOrHears(a) && Placed(s, a.p) && e == s.gw[a.p].pc.e
    requires SeatOf(s, e).said == None ==> SeatOf(s, e).resp == None
    ensures KeepsAnswer(SeatOf(s, e), SeatAfter(s, a), a)
  {
  }

  lemma UnansweredIsEmpty(s: State, e: Event)
    requires Inv(s) && HasSeat(s, e) && SeatOf(s, e).said == None
    ensures SeatOf(s, e).resp == None
  {
    OfSeat(s, e);
    hide Core, CountersOk;
  }

  lemma AnsweredHeeded(room: Room, i: nat, seat: Seat)
    requires AllHeeded(room) && i < |room.seats| && seat.listening == room.seats[i].listening
    requires || (seat.said == room.seats[i].said && seat.resp == room.seats[i].resp)
             || (room.seats[i].said == None && seat.said.Some? && seat.resp == seat.said)
    ensures AllHeeded(SetSeat(room, i, seat))
  {
    forall j | 0 <= j < |room.seats| ensures Heeded(SetSeat(room, i, seat), j) {
      assert Heeded(room, j);
    }
  }

  lemma HeededStays(s: State, a: Action, r: nat)
    requires Inv(s) && Enabled(s, a) && r in s.rooms && AllHeeded(s.rooms[r])
    ensures r in Apply(s, a).rooms && AllHeeded(Apply(s, a).rooms[r])
  {
    hide Inv, Enabled, Apply, AllHeeded, RoomAfter, SeatAfter;
    if AnswersOrHears(a) {
      var e, seat := AnswerIsKept(s, a);
      if e.room == r {
        AnsweredHeeded(s.rooms[r], e.idx, seat);
      }
    } else if GatewayAction(a) {
      RoomsUntouched(s, a);
    } else if a.Extract? {
      ExtractLeaves(s, a.r, a.ids, r);
    } else {
      RoomTouched(s, a);
      if a.r == r {
        ItsRoom(s, r);
        RoomStepHeeded(s, a);
      }
    }
  }

  /** Rooms come into being with nothing said. */
  lemma NewRoomHeeded(s: State, a: Action, r: nat)
    requires Inv(s) && Enabled(s, a) && r !in s.rooms && r in Apply(s, a).rooms
    ensures a.Extract? && a.r == r && AllHeeded(Apply(s, a).rooms[r])
    ensures Apply(s, a).rooms[r].phase == Sending(0) && !Apply(s, a).rooms[r].ctxDone && Apply(s, a).rooms[r].log == []
  {
    hide Inv, Enabled, Apply, RoomAfter, SeatAfter;
    if AnswersOrHears(a) {
      var e, seat := AnswerIsKept(s, a);
    } else if GatewayAction(a) {
      RoomsUntouched(s, a);
    } else if a.Extract? {
      OpenedFresh(s, a.r, a.ids, r);
    } else {
      RoomTouched(s, a);
    }
  }

  lemma OpenedFresh(s: State, x: nat, ids: seq<string>, r: nat)
    requires Enabled(s, Extract(x, ids)) && r !in s.rooms && r in Apply(s, Extract(x, ids)).rooms
    ensures x == r && AllHeeded(Apply(s, Extract(x, ids)).rooms[r])
    ensures Apply(s, Extract(x, ids)).rooms[r].phase == Sending(0) && !Apply(s, Extract(x, ids)).rooms[r].ctxDone
    ensures Apply(s, Extract(x, ids)).rooms[r].log == []
  {
  }

  lemma {:induction false} RunsHeed(run: seq<State>, acts: seq<Action>, i: nat, r: nat)
    requires IsTrace(run, acts) && i < |run| && r in run[i].rooms
    ensures AllHeeded(run[i].rooms[r])
  {
    hide Inv, Enabled, Apply, AllHeeded, IsTrace;
    if i > 0 {
      StepBefore(run, acts, i);
      if r in run[i - 1].rooms {
        RunsHeed(run, acts, i - 1, r);
        HeededStays(run[i - 1], acts[i - 1], r);
      } else {
        NewRoomHeeded(run[i - 1], acts[i - 1], r);
      }
    } else {
      NoRoomsYet(run, acts);
    }
  }

  lemma StepBefore(run: seq<State>, acts: seq<Action>, i: nat)
    requires IsTrace(run, acts) && 0 < i < |run|
    ensures i <= |acts| && Inv(run[i - 1]) && Enabled(run[i - 1], acts[i - 1]) && run[i] == Apply(run[i - 1], acts[i - 1])
  {
    hide Inv, Enabled, Apply;
    StepOf(run, acts, i - 1);
  }

  lemma NoRoomsYet(run: seq<State>, acts: seq<Action>)
    requires IsTrace(run, acts)
    ensures run[0].rooms == map[]
  {
  }

  lemma ReachableHeeds(s: State, r: nat)
    requires Reachable(s) && r in s.rooms
    ensures AllHeeded(s.rooms[r]) && RoomOk(s.rooms[r])
  {
    hide AllHeeded, RoomOk, IsTrace;
    ReachableOk(s);
    ItsRoom(s, r);
    var run, i :| IsRun(run) && 0 <= i < |run| && run[i] == s;
    var acts := RunsHaveTraces(run);
    RunsHeed(run, acts, i, r);
  }

  /** In every reachable state, until a room's context is done, the coordinator is sent
      exactly what the gateways answered: an answer is in its response channel, and once
      it is not, its message is on the fan-in channel as it was given. */
  lemma ResponsesArrive(s: State, r: nat, i: nat)
    requires Reachable(s) && r in s.rooms && !s.rooms[r].ctxDone && i < |s.rooms[r].seats|
    ensures forall b :: FanIn(i, b) in s.rooms[r].log ==> s.rooms[r].seats[i].said == Some(b)
    ensures s.rooms[r].seats[i].said.Some? ==>
              || s.rooms[r].seats[i].resp == s.rooms[r].seats[i].said
              || FanIn(i, s.rooms[r].seats[i].said.value) in s.rooms[r].log
  {
    hide Reachable;
    ReachableHeeds(s, r);
    var room := s.rooms[r];
    assert Heeded(room, i) && SeatOk(room, i);
    if !room.seats[i].listening {
      var m :| m in room.log && m.idx == i;
      assert m == FanIn(i, m.accepted);
    }
  }

  // ------------------------------------------------------------------
  // Who decides the verdict
  // ------------------------------------------------------------------

  /** No timeout so far: an undecided room has its context, a failed one its refusal. */
  ghost predicate Untimed(room: Room) {
    match Verdict(room)
    case None => !room.ctxDone
    case Some(v) => v || exists i :: 0 <= i < |room.seats| && room.seats[i].said == Some(false)
  }

  lemma GatherUntimed(room: Room)
    requires RoomOk(room) && AllHeeded(room) && Untimed(room) && room.phase == Gathering && room.received < |room.log|
    ensures room.log[room.received].idx < |room.seats| && Untimed(Gathered(room))
  {
    var m := room.log[room.received];
    assert m in room.log;
    assert Heeded(room, m.idx);
    if !m.accepted {
      assert m == FanIn(m.idx, false);
      assert Gathered(room).seats[m.idx].said == Some(false);
    }
    hide SeatOk;
  }

  lemma RoomStepUntimed(s: State, a: Action)
    requires Enabled(s, a) && !GatewayAction(a) && !a.Extract? && !a.Timeout?
    requires RoomOk(s.rooms[a.r]) && AllHeeded(s.rooms[a.r]) && Untimed(s.rooms[a.r]) && Verdict(s.rooms[a.r]).None?
    ensures Untimed(RoomAfter(s, a))
  {
    if a.Gather? {
      GatherUntimed(s.rooms[a.r]);
      hide RoomOk, Untimed, AllHeeded;
    } else {
      hide RoomOk, AllHeeded;
    }
  }

  /** A decided room stays so, and so does its refusal. */
  lemma DecidedUntimed(room: Room, room': Room)
    requires Later(room, room') && Untimed(room) && Verdict(room).Some?
    ensures Untimed(room')
  {
    if i :| 0 <= i < |room.seats| && room.seats[i].said == Some(false) {
      assert LaterSeat(room.seats[i], room'.seats[i]);
      assert room'.seats[i].said == Some(false);
    }
    hide Remaining;
  }

  lemma UntimedStays(s: State, a: Action, r: nat)
    requires Inv(s) && Enabled(s, a) && a != Timeout(r) && r in s.rooms && AllHeeded(s.rooms[r]) && Untimed(s.rooms[r])
    ensures r in Apply(s, a).rooms && Untimed(Apply(s, a).rooms[r])
  {
    hide Inv, Enabled, Apply, AllHeeded, RoomAfter, SeatAfter, Later, Untimed, Remaining, KeepsAnswer, Drives;
    RoomLater(s, a, r);
    if Verdict(s.rooms[r]).Some? {
      DecidedUntimed(s.rooms[r], Apply(s, a).rooms[r]);
    } else if AnswersOrHears(a) {
      var e, seat := AnswerIsKept(s, a);
      if e.room == r {
        UndecidedAnswered(s.rooms[r], e.idx, seat);
      }
    } else if GatewayAction(a) {
      RoomsUntouched(s, a);
    } else if a.Extract? {
      ExtractLeaves(s, a.r, a.ids, r);
    } else {
      RoomTouched(s, a);
      if a.r == r {
        ItsRoom(s, r);
        RoomStepUntimed(s, a);
      }
    }
  }

  lemma UndecidedAnswered(room: Room, i: nat, seat: Seat)
    requires i < |room.seats| && Untimed(room) && Verdict(room).None?
    ensures Untimed(SetSeat(room, i, seat))
  {
  }

  lemma {:induction false} RunsUntimed(run: seq<State>, acts: seq<Action>, i: nat, r: nat)
    requires IsTrace(run, acts) && i < |run| && r in run[i].rooms && Timeout(r) !in acts[..i]
    ensures Untimed(run[i].rooms[r])
  {
    hide Inv, Enabled, Apply, AllHeeded, Untimed, IsTrace;
    if i > 0 {
      StepBefore(run, acts, i);
      assert acts[..i] == acts[..i - 1] + [acts[i - 1]];
      if r in run[i - 1].rooms {
        RunsUntimed(run, acts, i - 1, r);
        RunsHeed(run, acts, i - 1, r);
        UntimedStays(run[i - 1], acts[i - 1], r);
      } else {
        NewRoomHeeded(run[i - 1], acts[i - 1], r);
        FreshUntimed(run[i].rooms[r]);
      }
    } else {
      NoRoomsYet(run, acts);
    }
  }

  lemma FreshUntimed(room: Room)
    requires room.phase == Sending(0) && !room.ctxDone
    ensures Untimed(room)
  {
  }

  /** The verdict of a room that did not time out is its players': true exactly when all
      ten said so, false exactly when one said no. */
  lemma VerdictIsTheirs(run: seq<State>, acts: seq<Action>, i: nat, r: nat)
    requires IsTrace(run, acts) && i < |run| && r in run[i].rooms && Timeout(r) !in acts[..i]
    requires Verdict(run[i].rooms[r]).Some?
    ensures |run[i].rooms[r].seats| == PLAYERS_PER_MATCH
    ensures Verdict(run[i].rooms[r]) == Some(true) <==>
              forall k | 0 <= k < PLAYERS_PER_MATCH :: run[i].rooms[r].seats[k].said == Some(true)
    ensures Verdict(run[i].rooms[r]) == Some(false) <==>
              exists k :: 0 <= k < PLAYERS_PER_MATCH && run[i].rooms[r].seats[k].said == Some(false)
  {
    hide Inv, Enabled, Apply, IsTrace;
    TracesAreRuns(run, acts);
    RunsOk(run, i);
    ItsRoom(run[i], r);
    RunsUntimed(run, acts, i, r);
    var room := run[i].rooms[r];
    TenSeats(room);
    if Verdict(room) == Some(true) {
      forall k | 0 <= k < PLAYERS_PER_MATCH ensures room.seats[k].said == Some(true) {
        TrueVerdictSeats(room, k);
      }
    }
    hide RoomOk;
  }

  // ------------------------------------------------------------------
  // Ten accepts make a game
  // ------------------------------------------------------------------

  /** On the way from `s0`, with streams as they were there. */
  ghost predicate On(s0: State, s: State, r: nat) {
    && Reachable(s) && Leads(s0, s) && r in s.rooms && |s.rooms[r].seats| == PLAYERS_PER_MATCH && s.gw == s0.gw
  }

  ghost predicate AllSaidYes(room: Room) {
    forall i | 0 <= i < |room.seats| :: room.seats[i].said == Some(true)
  }

  lemma OnNext(s0: State, s: State, r: nat, a: Action)
    requires On(s0, s, r) && Enabled(s, a) && !GatewayAction(a) && !a.Extract? && !a.Requeue? && !a.Deliver? && a.r == r
    ensures On(s0, Apply(s, a), r) && Apply(s, a).rooms[r] == RoomAfter(s, a)
  {
    hide Enabled, Apply, Reachable, Leads, RoomAfter;
    ReachableNext(s, a);
    LeadsOn(s0, s, a);
    RoomTouched(s, a);
    RoomsAlone(s, a);
    ReachableOk(Apply(s, a));
    ItsRoom(Apply(s, a), r);
    TenSeats(Apply(s, a).rooms[r]);
    hide Inv, RoomOk;
  }

  lemma RoomsAlone(s: State, a: Action)
    requires Enabled(s, a) && !GatewayAction(a) && !a.Extract? && !a.Requeue? && !a.Deliver?
    ensures Apply(s, a).gw == s.gw
    ensures !a.Create? ==> Apply(s, a).sessions == s.sessions
  {
    hide Gathered, GivenUp, Notified, Responded;
  }

  /** Everyone from `k` on is forwarded. */
  lemma {:induction false} ForwardAll(s0: State, s: State, r: nat, k: nat, n: nat) returns (t: State)
    requires n == PLAYERS_PER_MATCH && k <= n && On(s0, s, r)
    requires s.rooms[r].phase == Gathering && !s.rooms[r].ctxDone && AllSaidYes(s.rooms[r])
    requires forall i | 0 <= i < k :: !s.rooms[r].seats[i].listening
    ensures On(s0, t, r) && t.sessions == s.sessions
    ensures t.rooms[r].phase == Gathering && !t.rooms[r].ctxDone && AllSaidYes(t.rooms[r])
    ensures forall i | 0 <= i < n :: !t.rooms[r].seats[i].listening
    decreases n - k
  {
    hide On, AllSaidYes;
    if k == n {
      t := s;
    } else {
      t := ForwardOne(s0, s, r, k);
      t := ForwardAll(s0, t, r, k + 1, n);
    }
  }

  lemma ForwardOne(s0: State, s: State, r: nat, k: nat) returns (t: State)
    requires k < PLAYERS_PER_MATCH && On(s0, s, r)
    requires s.rooms[r].phase == Gathering && !s.rooms[r].ctxDone && AllSaidYes(s.rooms[r])
    requires forall i | 0 <= i < k :: !s.rooms[r].seats[i].listening
    ensures On(s0, t, r) && t.sessions == s.sessions
    ensures t.rooms[r].phase == Gathering && !t.rooms[r].ctxDone && AllSaidYes(t.rooms[r])
    ensures forall i | 0 <= i < k + 1 :: !t.rooms[r].seats[i].listening
  {
    if s.rooms[r].seats[k].listening {
      ForwardEnabled(s, r, k);
      OnNext(s0, s, r, Respond(r, k, false));
      RoomsAlone(s, Respond(r, k, false));
      t := Apply(s, Respond(r, k, false));
      Forwarded(s.rooms[r], k, t.rooms[r]);
      hide On, Apply, AllSaidYes;
    } else {
      t := s;
    }
  }

  lemma ForwardEnabled(s: State, r: nat, k: nat)
    requires Reachable(s) && r in s.rooms && k < |s.rooms[r].seats| && s.rooms[r].seats[k].listening
    requires s.rooms[r].phase == Gathering && s.rooms[r].seats[k].said == Some(true)
    ensures Enabled(s, Respond(r, k, false)) && s.rooms[r].seats[k].resp == Some(true)
  {
    hide Reachable;
    ReachableHeeds(s, r);
    assert Heeded(s.rooms[r], k);
    SomeoneUnheard(s.rooms[r], k);
    RoomOkReceived(s.rooms[r]);
    hide RoomOk, AllHeeded;
  }

  lemma RoomOkReceived(room: Room)
    requires RoomOk(room)
    ensures room.received <= |room.log|
  {
  }

  lemma Forwarded(room: Room, k: nat, room': Room)
    requires CanRespond(room, k, false) && room' == Responded(room, k, false)
    ensures room'.phase == room.phase && room'.ctxDone == room.ctxDone && |room'.seats| == |room.seats|
    ensures forall i | 0 <= i < |room.seats| ::
              room'.seats[i].said == room.seats[i].said && room'.seats[i].listening == (i != k && room.seats[i].listening)
  {
  }

  /** Ten messages, all true. */
  ghost predicate TenYes(room: Room) {
    |room.log| == PLAYERS_PER_MATCH && forall m | m in room.log :: m.accepted && m.idx < |room.seats|
  }

  lemma AllForwarded(s: State, r: nat)
    requires Reachable(s) && r in s.rooms && !s.rooms[r].ctxDone && AllSaidYes(s.rooms[r])
    requires forall i | 0 <= i < |s.rooms[r].seats| :: !s.rooms[r].seats[i].listening
    ensures TenYes(s.rooms[r])
  {
    hide Reachable;
    ReachableHeeds(s, r);
    var room := s.rooms[r];
    TenSeats(room);
    forall i | 0 <= i < PLAYERS_PER_MATCH ensures FanIn(i, true) in room.log {
      ResponsesArrive(s, r, i);
      assert SeatOk(room, i);
      var m :| m in room.log && m.idx == i;
      assert m == FanIn(i, m.accepted);
    }
    LogIsOk(room);
    hide RoomOk, AllHeeded;
    AcceptsFill(room.log, PLAYERS_PER_MATCH);
  }

  lemma LogIsOk(room: Room)
    requires RoomOk(room)
    ensures DistinctIdx(room.log) && forall m | m in room.log :: m.idx < PLAYERS_PER_MATCH
  {
  }

  /** The coordinator takes all ten. */
  lemma {:induction false} TakeAll(s0: State, s: State, r: nat) returns (t: State)
    requires On(s0, s, r) && s.rooms[r].phase == Gathering && TenYes(s.rooms[r]) && AllSaidYes(s.rooms[r])
    ensures On(s0, t, r) && t.sessions == s.sessions && t.rooms[r].phase == Creating && AllSaidYes(t.rooms[r])
    decreases PLAYERS_PER_MATCH - s.rooms[r].received
  {
    hide TenYes, AllSaidYes, Reachable, Leads;
    t := TakeOne(s0, s, r);
    if t.rooms[r].phase == Gathering {
      t := TakeAll(s0, t, r);
    }
  }

  lemma TakeOne(s0: State, s: State, r: nat) returns (t: State)
    requires On(s0, s, r) && s.rooms[r].phase == Gathering && TenYes(s.rooms[r]) && AllSaidYes(s.rooms[r])
    ensures s.rooms[r].received < PLAYERS_PER_MATCH && On(s0, t, r) && t.sessions == s.sessions && AllSaidYes(t.rooms[r])
    ensures TenYes(t.rooms[r]) && t.rooms[r].received == s.rooms[r].received + 1
    ensures t.rooms[r].phase == Creating || t.rooms[r].phase == Gathering
  {
    FewTaken(s, r);
    assert s.rooms[r].log[s.rooms[r].received] in s.rooms[r].log;
    OnNext(s0, s, r, Gather(r));
    RoomsAlone(s, Gather(r));
    t := Apply(s, Gather(r));
    hide On, Apply;
  }

  lemma FewTaken(s: State, r: nat)
    requires Reachable(s) && r in s.rooms && s.rooms[r].phase == Gathering
    ensures s.rooms[r].received < PLAYERS_PER_MATCH
  {
    hide Reachable, SeatOk;
    ReachableOk(s);
    ItsRoom(s, r);
  }

  lemma CreateNow(s0: State, s: State, r: nat) returns (t: State)
    requires On(s0, s, r) && s.rooms[r].phase == Creating && AllSaidYes(s.rooms[r])
    ensures On(s0, t, r) && t.rooms[r].phase == Notifying(true, 0) && AllSaidYes(t.rooms[r])
    ensures SeatsManned(s, r) && t.sessions == s.sessions[r := SessionIds(s, s.rooms[r])] && t.rooms[r].seats == s.rooms[r].seats
  {
    TheyAreManned(s, r);
    OnNext(s0, s, r, Create(r));
    t := Apply(s, Create(r));
    hide On, AllSaidYes;
  }

  lemma TheyAreManned(s: State, r: nat)
    requires Reachable(s) && r in s.rooms
    ensures SeatsManned(s, r)
  {
    hide Reachable, Inv;
    ReachableOk(s);
    ItsSeats(s, r);
  }

  /** Everyone from `k` on is told, and those before have been. */
  ghost predicate Given(room: Room, n: nat) {
    forall i | 0 <= i < n && i < |room.seats| :: room.seats[i].result == Some(true)
  }

  lemma {:induction false} TellAll(s0: State, s: State, r: nat, k: nat, n: nat) returns (t: State)
    requires n == PLAYERS_PER_MATCH && k < n && On(s0, s, r)
    requires s.rooms[r].phase == Notifying(true, k) && Given(s.rooms[r], k) && AllSaidYes(s.rooms[r])
    ensures On(s0, t, r) && t.sessions == s.sessions
    ensures t.rooms[r].phase == Done(true) && Given(t.rooms[r], n) && AllSaidYes(t.rooms[r])
    decreases n - k
  {
    hide On, AllSaidYes, Given;
    t := TellOne(s0, s, r, k);
    if k + 1 < n {
      t := TellAll(s0, t, r, k + 1, n);
    }
  }

  lemma TellOne(s0: State, s: State, r: nat, k: nat) returns (t: State)
    requires k < PLAYERS_PER_MATCH && On(s0, s, r)
    requires s.rooms[r].phase == Notifying(true, k) && Given(s.rooms[r], k) && AllSaidYes(s.rooms[r])
    ensures On(s0, t, r) && t.sessions == s.sessions && Given(t.rooms[r], k + 1) && AllSaidYes(t.rooms[r])
    ensures t.rooms[r].phase == if k + 1 < PLAYERS_PER_MATCH then Notifying(true, k + 1) else Done(true)
  {
    TellEnabled(s, r, k);
    OnNext(s0, s, r, Notify(r));
    RoomsAlone(s, Notify(r));
    t := Apply(s, Notify(r));
    hide On, Apply;
  }

  lemma TellEnabled(s: State, r: nat, k: nat)
    requires Reachable(s) && r in s.rooms && s.rooms[r].phase == Notifying(true, k)
    ensures Enabled(s, Notify(r))
  {
    hide Reachable;
    SendsNeverBlock(s);
  }

  // ------------------------------------------------------------------
  // And everyone is told so
  // ------------------------------------------------------------------

  /** Seat `i`'s gateway has told its client of the game, or still waits to. */
  ghost predicate Cheered(s0: State, s: State, r: nat, i: nat, n: nat) {
    && r in s.rooms && i < |s.rooms[r].seats|
    && var p := s.rooms[r].seats[i].player;
      && p in s0.gw && p in s.gw
      && if i < n then s.gw[p].sent == s0.gw[p].sent + [IN_GAME(r)] && s.gw[p].pc == Leaving
         else s.gw[p] == s0.gw[p] && s.gw[p].pc == Awaiting(Event(r, i)) && s.rooms[r].seats[i].result == Some(true)
  }

  /** The room is done, and the first `n` of the ten have heard. */
  ghost predicate Cheering(s0: State, s: State, r: nat, n: nat) {
    && Reachable(s) && Leads(s0, s) && r in s.rooms && |s.rooms[r].seats| == PLAYERS_PER_MATCH
    && s.rooms[r].phase == Done(true)
    && forall i | 0 <= i < PLAYERS_PER_MATCH :: Cheered(s0, s, r, i, n)
  }

  lemma {:induction false} HearAll(s0: State, s: State, r: nat, k: nat, n: nat) returns (t: State)
    requires n == PLAYERS_PER_MATCH && k <= n && Cheering(s0, s, r, k)
    ensures Cheering(s0, t, r, n) && t.sessions == s.sessions
    decreases n - k
  {
    hide Cheering;
    if k == n {
      t := s;
    } else {
      t := HearOne(s0, s, r, k);
      t := HearAll(s0, t, r, k + 1, n);
    }
  }

  lemma HearOne(s0: State, s: State, r: nat, k: nat) returns (t: State)
    requires k < PLAYERS_PER_MATCH && Cheering(s0, s, r, k)
    ensures Cheering(s0, t, r, k + 1) && t.sessions == s.sessions
  {
    hide Reachable, Leads;
    var p := s.rooms[r].seats[k].player;
    assert Cheered(s0, s, r, k, k);
    ReachableNext(s, Hear(p));
    LeadsOn(s0, s, Hear(p));
    t := Apply(s, Hear(p));
    HeardIs(s, p, r, k, t);
    hide Apply, Enabled;
    var n := k + 1;
    forall i | 0 <= i < PLAYERS_PER_MATCH ensures Cheered(s0, t, r, i, n) {
      assert Cheered(s0, s, r, i, k);
      if i != k {
        OtherPlayer(s, r, i, k);
      }
    }
  }

  lemma HeardIs(s: State, p: nat, r: nat, k: nat, t: State)
    requires p in s.gw && s.gw[p].pc == Awaiting(Event(r, k)) && HasSeat(s, Event(r, k))
    requires s.rooms[r].seats[k].result == Some(true) && t == Heard(s, p)
    ensures t.sessions == s.sessions && r in t.rooms && |t.rooms[r].seats| == |s.rooms[r].seats|
    ensures t.rooms[r].phase == s.rooms[r].phase && t.gw.Keys == s.gw.Keys
    ensures forall i | 0 <= i < |s.rooms[r].seats| :: t.rooms[r].seats[i].player == s.rooms[r].seats[i].player
    ensures forall i | 0 <= i < |s.rooms[r].seats| && i != k :: t.rooms[r].seats[i] == s.rooms[r].seats[i]
    ensures t.gw[p].sent == s.gw[p].sent + [IN_GAME(r)] && t.gw[p].pc == Leaving
    ensures forall q | q in s.gw && q != p :: t.gw[q] == s.gw[q]
  {
  }

  lemma OtherPlayer(s: State, r: nat, i: nat, k: nat)
    requires Reachable(s) && r in s.rooms && i < |s.rooms[r].seats| && k < |s.rooms[r].seats| && i != k
    ensures s.rooms[r].seats[i].player != s.rooms[r].seats[k].player
  {
    hide Reachable;
    ExclusiveOwnership(s);
    var ids := SessionIds(s, s.rooms[r]);
    assert ids[i] != ids[k];
  }

  lemma ReadyToCheer(s0: State, s: State, r: nat)
    requires On(s0, s, r) && s.rooms[r].phase == Done(true) && Given(s.rooms[r], PLAYERS_PER_MATCH) && AllSaidYes(s.rooms[r])
    ensures Cheering(s0, s, r, 0)
  {
    hide Reachable, Leads;
    forall i | 0 <= i < PLAYERS_PER_MATCH ensures Cheered(s0, s, r, i, 0) {
      AwaitsVerdict(s, Event(r, i));
    }
  }

  lemma AwaitsVerdict(s: State, e: Event)
    requires Reachable(s) && HasSeat(s, e) && SeatOf(s, e).said == Some(true) && SeatOf(s, e).result == Some(true)
    ensures SeatOf(s, e).player in s.gw && s.gw[SeatOf(s, e).player].pc == Awaiting(e)
  {
    hide Reachable, Core, CountersOk, RoomOk;
    ReachableOk(s);
    OfSeat(s, e);
  }

  /** The coordinator's part: forward, gather, create, notify. */
  lemma AllTheWay(s: State, r: nat) returns (t: State)
    requires Reachable(s) && r in s.rooms && s.rooms[r].phase == Gathering && !s.rooms[r].ctxDone && AllSaidYes(s.rooms[r])
    ensures On(s, t, r) && t.rooms[r].phase == Done(true) && Given(t.rooms[r], PLAYERS_PER_MATCH) && AllSaidYes(t.rooms[r])
    ensures SeatsManned(s, r) && t.sessions == s.sessions[r := SessionIds(s, s.rooms[r])]
  {
    hide Reachable, Leads, Given, AllSaidYes, TenYes;
    OnHere(s, r);
    TheyAreManned(s, r);
    var u := ForwardAll(s, s, r, 0, PLAYERS_PER_MATCH);
    AllForwarded(u, r);
    u := TakeAll(s, u, r);
    SamePlayersLed(s, u, r);
    t := CreateNow(s, u, r);
    assert SessionIds(u, u.rooms[r]) == SessionIds(s, s.rooms[r]);
    NoneGiven(t.rooms[r]);
    t := TellAll(s, t, r, 0, PLAYERS_PER_MATCH);
  }

  lemma NoneGiven(room: Room)
    ensures Given(room, 0)
  {
  }

  lemma OnHere(s: State, r: nat)
    requires Reachable(s) && r in s.rooms
    ensures On(s, s, r)
  {
    hide Reachable, Leads, Inv, RoomOk;
    LeadsNowhere(s);
    ReachableOk(s);
    ItsRoom(s, r);
    TenSeats(s.rooms[r]);
  }

  lemma CheeredAll(s: State, t: State, r: nat)
    requires Reachable(s) && r in s.rooms && Cheering(s, t, r, PLAYERS_PER_MATCH)
    ensures Leads(s, t) && r in t.rooms && t.rooms[r].phase == Done(true)
    ensures |t.rooms[r].seats| == |s.rooms[r].seats| == PLAYERS_PER_MATCH
    ensures forall i | 0 <= i < PLAYERS_PER_MATCH ::
              && t.rooms[r].seats[i].player == s.rooms[r].seats[i].player
              && s.rooms[r].seats[i].player in s.gw && s.rooms[r].seats[i].player in t.gw
              && t.gw[s.rooms[r].seats[i].player].sent == s.gw[s.rooms[r].seats[i].player].sent + [IN_GAME(r)]
  {
    hide Reachable, Leads;
    SamePlayersLed(s, t, r);
    forall i | 0 <= i < PLAYERS_PER_MATCH
      ensures && t.rooms[r].seats[i].player == s.rooms[r].seats[i].player
              && s.rooms[r].seats[i].player in s.gw && s.rooms[r].seats[i].player in t.gw
              && t.gw[s.rooms[r].seats[i].player].sent == s.gw[s.rooms[r].seats[i].player].sent + [IN_GAME(r)]
    {
      assert Cheered(s, t, r, i, PLAYERS_PER_MATCH);
    }
  }

  /** If all ten have accepted before the context is done, the room can go all the way:
      the session is stored with their ten ids and each of the ten is told of its game. */
  lemma TenAcceptsMakeAGame(s: State, r: nat) returns (t: State)
    requires Reachable(s) && r in s.rooms && s.rooms[r].phase == Gathering && !s.rooms[r].ctxDone
    requires AllSaidYes(s.rooms[r])
    ensures Leads(s, t) && r in t.rooms && t.rooms[r].phase == Done(true)
    ensures SeatsManned(s, r) && t.sessions == s.sessions[r := SessionIds(s, s.rooms[r])]
    ensures |t.rooms[r].seats| == |s.rooms[r].seats| == PLAYERS_PER_MATCH
    ensures forall i | 0 <= i < PLAYERS_PER_MATCH ::
              && t.rooms[r].seats[i].player == s.rooms[r].seats[i].player
              && s.rooms[r].seats[i].player in t.gw
              && t.gw[s.rooms[r].seats[i].player].sent == s.gw[s.rooms[r].seats[i].player].sent + [IN_GAME(r)]
  {
    hide Reachable, Leads, On, Given, AllSaidYes, Cheering;
    var v := AllTheWay(s, r);
    ReadyToCheer(s, v, r);
    t := HearAll(s, v, r, 0, PLAYERS_PER_MATCH);
    CheeredAll(s, t, r);
  }

  lemma SamePlayersLed(s: State, t: State, r: nat)
    requires Reachable(s) && Leads(s, t) && r in s.rooms
    ensures r in t.rooms && |t.rooms[r].seats| == |s.rooms[r].seats|
    ensures forall i | 0 <= i < |s.rooms[r].seats| :: t.rooms[r].seats[i].player == s.rooms[r].seats[i].player
  {
    hide Reachable, Next;
    var path :| IsPath(path, s, t);
    PathKeepsPlayers(path, |path| - 1, r);
  }

  lemma {:induction false} PathKeepsPlayers(path: seq<State>, i: nat, r: nat)
    requires path != [] && Reachable(path[0]) && i < |path| && r in path[0].rooms
    requires forall j | 0 <= j < |path| - 1 :: Next(path[j], path[j + 1])
    ensures Reachable(path[i]) && r in path[i].rooms && SamePlayers(path[0].rooms[r], path[i].rooms[r])
  {
    hide Reachable, Enabled, Apply, Inv, Remaining;
    PathReachable(path, i);
    if i > 0 {
      PathKeepsPlayers(path, i - 1, r);
      assert Next(path[i - 1], path[i - 1 + 1]);
      var a :| Enabled(path[i - 1], a) && path[i] == Apply(path[i - 1], a);
      ReachableOk(path[i - 1]);
      RoomLater(path[i - 1], a, r);
    }
  }
}

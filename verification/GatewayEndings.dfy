/** What a stream handler tells its client, word for word, the ways out of it, and what
    becomes of its player object. */
module GatewayEndings {
  import opened Players
  import opened StatusStream
  import opened ReadyCheck
  import opened ReadyCheckInvariant
  import opened ReadyCheckSteps
  import opened ReadyCheckPool
  import opened ReadyCheckRuns
  import opened ReadyCheckGuarantees
  import opened ReadyCheckTraces
  import ReadyCheckGateways
  import GatewayRuns
  import opened GatewayStream

  // ------------------------------------------------------------------
  // Every word of a stream
  // ------------------------------------------------------------------

  /** What gateway `p` says to its client with an action. */
  function Words(s: State, a: Action, p: nat): seq<Status>
    requires Enabled(s, a)
  {
    match a
    case Greet(q, _) => if q == p then [WAITING] else []
    case Push(q, _) => if q == p then [WAITING] else []
    case TakeEvent(q, _) => if q == p then [READY_CHECK(s.gw[q].matchCh.buf.value.room)] else []
    case Hear(q) =>
      var e := s.gw[q].pc.e;
      if q != p then [] else if SeatOf(s, e).result == Some(true) then [IN_GAME(e.room)] else [WAITING]
    case TakeCancel(q) => if q == p then [CANCELLED] else []
    case TakeClosed(q) => if q == p then [CANCELLED] else []
    case Decline(q) => if q == p then [CANCELLED] else []
    case _ => []
  }

  /** Gateway `p` returns after the action: it was cancelled, or refused the ready-check,
      or is in a game, or its client is gone or could not be reached. */
  predicate Exits(s: State, a: Action, p: nat)
    requires Enabled(s, a)
  {
    || a == TakeCancel(p) || a == TakeClosed(p) || a == Decline(p) || a == Quit(p)
    || (a == Hear(p) && SeatOf(s, s.gw[p].pc.e).result == Some(true))
    || a == Greet(p, false) || a == Push(p, false) || a == TakeEvent(p, false)
  }

  /** One action of anyone. */
  ghost predicate Spoke(g: Gateway, g': Gateway, words: seq<Status>, exits: bool) {
    && g'.sent == g.sent + words
    && (exits ==> !Returning(g) && Returning(g'))
    && (!exits ==> Returning(g') == Returning(g))
    && (Returning(g) ==> words == [])
    && (g.pc == Gone ==> g'.pc == Gone)
  }

  /** The same, read off what the action begins and completes. */
  function TurnWords(o: GatewayRuns.Opening, t: seq<Turn>): seq<Status> {
    if o.Greets? then [WAITING]
    else if o.Asks? then [READY_CHECK(o.e.room)]
    else if t == [] then []
    else
      match t[0]
      case StatusTick(_) => [WAITING]
      case ClientLeft => []
      case MatchFound(e, ok, accepted, verdict) =>
        if !ok then [READY_CHECK(e.room)]
        else if !accepted then [CANCELLED]
        else if verdict == Some(true) then [IN_GAME(e.room)]
        else [WAITING]
      case _ => [CANCELLED]
  }

  predicate TurnExits(o: GatewayRuns.Opening, t: seq<Turn>) {
    if o.Greets? then !o.ok
    else if t == [] then false
    else
      match t[0]
      case StatusTick(ok) => !ok
      case MatchFound(_, ok, accepted, verdict) => !ok || !accepted || verdict == Some(true)
      case _ => true
  }

  lemma WordsOfTurn(s: State, a: Action, p: nat)
    requires Enabled(s, a)
    ensures Words(s, a, p) == TurnWords(GatewayRuns.OpeningOf(s, a, p), GatewayRuns.TurnEnded(s, a, p))
  {
  }

  lemma ExitOfTurn(s: State, a: Action, p: nat)
    requires Enabled(s, a)
    ensures Exits(s, a, p) == TurnExits(GatewayRuns.OpeningOf(s, a, p), GatewayRuns.TurnEnded(s, a, p))
  {
    if a.Hear? {
      HearExit(s, a.p, p);
      hide Exits, GatewayRuns.TurnEnded;
    }
  }

  lemma HearExit(s: State, q: nat, p: nat)
    requires Enabled(s, Hear(q))
    ensures Exits(s, Hear(q), p) == TurnExits(GatewayRuns.OpeningOf(s, Hear(q), p), GatewayRuns.TurnEnded(s, Hear(q), p))
  {
  }

  lemma HandlerSpoke(g: Gateway, o: GatewayRuns.Opening, t: seq<Turn>, g': Gateway)
    requires GatewayRuns.TurnMoves(GatewayRuns.HandlerOf(g), o, t, GatewayRuns.HandlerOf(g'))
    ensures Spoke(g, g', TurnWords(o, t), TurnExits(o, t))
  {
  }

  lemma WordsOfAction(s: State, a: Action, p: nat)
    requires Enabled(s, a) && p in s.gw
    ensures p in Apply(s, a).gw
    ensures Spoke(s.gw[p], Apply(s, a).gw[p], Words(s, a, p), Exits(s, a, p))
  {
    hide Enabled, Apply, Spoke, Words, Exits, TurnWords, TurnExits, GatewayRuns.TurnMoves;
    GatewayRuns.ActionMoves(s, a, p);
    WordsOfTurn(s, a, p);
    ExitOfTurn(s, a, p);
    HandlerSpoke(s.gw[p], GatewayRuns.OpeningOf(s, a, p), GatewayRuns.TurnEnded(s, a, p), Apply(s, a).gw[p]);
  }

  /** All that a gateway said in the first `i` steps. */
  ghost function Spoken(run: seq<State>, acts: seq<Action>, i: nat, p: nat): seq<Status>
    requires IsTrace(run, acts) && i <= |acts|
  {
    if i == 0 then []
    else
      assert Took(run, acts, i - 1);
      Spoken(run, acts, i - 1, p) + Words(run[i - 1], acts[i - 1], p)
  }

  /** All that a gateway has sent; nothing before it joins. */
  function SentBy(s: State, p: nat): seq<Status> {
    if p in s.gw then s.gw[p].sent else []
  }

  /** In every run a stream is, word for word, what its gateway's actions say. */
  lemma {:induction false} StreamIsItsWords(run: seq<State>, acts: seq<Action>, i: nat, p: nat)
    requires IsTrace(run, acts) && i <= |acts|
    ensures SentBy(run[i], p) == Spoken(run, acts, i, p)
  {
    hide Enabled, Apply, Words, SentBy;
    if i > 0 {
      StreamIsItsWords(run, acts, i - 1, p);
      assert Took(run, acts, i - 1);
      WordsAdded(run[i - 1], acts[i - 1], p);
    } else {
      assert SentBy(INIT, p) == [] by { NobodyYet(p); }
    }
  }

  lemma NobodyYet(p: nat)
    ensures SentBy(INIT, p) == []
  {
  }

  lemma WordsAdded(s: State, a: Action, p: nat)
    requires Enabled(s, a)
    ensures SentBy(Apply(s, a), p) == SentBy(s, p) + Words(s, a, p)
  {
    hide Enabled, Apply, Words, Exits;
    if p in s.gw {
      WordsOfAction(s, a, p);
    } else {
      NotHereYet(s, a, p);
    }
  }

  lemma NotHereYet(s: State, a: Action, p: nat)
    requires Enabled(s, a) && p !in s.gw
    ensures Words(s, a, p) == [] && (p in Apply(s, a).gw ==> Apply(s, a).gw[p].sent == [])
  {
    hide Apply, GatewayRuns.TurnEnded;
    GatewayRuns.Newcomer(s, a, p);
  }

  // ------------------------------------------------------------------
  // The last one
  // ------------------------------------------------------------------

  /** Once a gateway returns it says nothing more and keeps returning. */
  lemma {:induction false} NothingMore(run: seq<State>, acts: seq<Action>, i: nat, j: nat, p: nat)
    requires IsTrace(run, acts) && i <= j <= |acts| && p in run[i].gw && Returning(run[i].gw[p])
    ensures p in run[j].gw && Returning(run[j].gw[p]) && run[j].gw[p].sent == run[i].gw[p].sent
    ensures run[i].gw[p].pc == Gone ==> run[j].gw[p].pc == Gone
    decreases j
  {
    hide Enabled, Apply, Words, Exits;
    if i < j {
      NothingMore(run, acts, i, j - 1, p);
      assert Took(run, acts, j - 1);
      WordsOfAction(run[j - 1], acts[j - 1], p);
    }
  }

  /** In every run, whenever a cancel, a closed channel or a refused ready-check is taken,
      the client is told CANCELLED; when a verdict true is read, of its game; and that,
      like a message that could not be sent, is the last word of the stream. */
  lemma LastWordsAreLast(run: seq<State>, acts: seq<Action>, i: nat, j: nat, p: nat)
    requires IsTrace(run, acts) && i < j <= |acts| && Took(run, acts, i) && Exits(run[i], acts[i], p)
    ensures p in run[i].gw && !Returning(run[i].gw[p])
    ensures p in run[j].gw && Returning(run[j].gw[p])
    ensures run[j].gw[p].sent == run[i].gw[p].sent + Words(run[i], acts[i], p)
  {
    hide Enabled, Apply, Words;
    WhoExits(run[i], acts[i], p);
    hide Exits;
    WordsOfAction(run[i], acts[i], p);
    NothingMore(run, acts, i + 1, j, p);
  }

  lemma WhoExits(s: State, a: Action, p: nat)
    requires Enabled(s, a) && Exits(s, a, p)
    ensures p in s.gw
  {
  }

  /** And there is no other way out. */
  lemma {:induction false} NoOtherWayOut(run: seq<State>, acts: seq<Action>, i: nat, j: nat, p: nat) returns (k: nat)
    requires IsTrace(run, acts) && i <= j <= |acts| && p in run[i].gw && !Returning(run[i].gw[p])
    requires p in run[j].gw && Returning(run[j].gw[p])
    ensures i <= k < j && Took(run, acts, k) && Exits(run[k], acts[k], p)
    decreases j
  {
    hide Enabled, Apply, Words, Exits;
    assert Took(run, acts, j - 1);
    StaysIn(run, acts, i, j - 1, p);
    WordsOfAction(run[j - 1], acts[j - 1], p);
    if Returning(run[j - 1].gw[p]) {
      k := NoOtherWayOut(run, acts, i, j - 1, p);
    } else {
      k := j - 1;
    }
  }

  /** The deferred Dequeue runs once, at the end. */
  lemma CleanupIsLast(run: seq<State>, acts: seq<Action>, i: nat, j: nat, p: nat)
    requires IsTrace(run, acts) && i < j < |acts| && acts[i] == Cleanup(p)
    ensures p in run[j].gw && run[j].gw[p].pc == Gone && acts[j] != Cleanup(p)
  {
    hide Dequeued;
    assert Took(run, acts, i) && Took(run, acts, j);
    NothingMore(run, acts, i + 1, j, p);
  }

  lemma {:induction false} StaysIn(run: seq<State>, acts: seq<Action>, i: nat, j: nat, p: nat)
    requires IsTrace(run, acts) && i <= j <= |acts| && p in run[i].gw
    ensures p in run[j].gw
    decreases j
  {
    hide Enabled, Apply;
    if i < j {
      StaysIn(run, acts, i, j - 1, p);
      assert Took(run, acts, j - 1);
      GatewayRuns.ActionMoves(run[j - 1], acts[j - 1], p);
    }
  }

  // ------------------------------------------------------------------
  // The queue
  // ------------------------------------------------------------------

  /** Out of the queue, unless the failing room that held it as seat `e` put it back. */
  ghost predicate OutUnlessBack(s: State, p: nat, e: Option<Event>) {
    && p in s.gw
    && (|| s.gw[p].place == Closed || s.gw[p].place.Left?
        || (e.Some? && s.gw[p].place == Seated(e.value))
        || (e.Some? && HasSeat(s, e.value) && SeatOf(s, e.value).fate == Requeued))
  }

  /** The seat that holds the object. */
  function SeatHolding(g: Gateway): Option<Event> {
    if g.place.Seated? then Some(g.place.e) else None
  }

  lemma OutAfterDequeue(s: State, a: Action, p: nat)
    requires Inv(s) && Enabled(s, a) && Dequeues(a) && a.p == p
    ensures p in s.gw && s.gw[p].id !in Apply(s, a).pool
    ensures OutUnlessBack(Apply(s, a), p, SeatHolding(s.gw[p]))
  {
    hide Inv;
    ItsGateway(s, p);
    ItsPool(s);
    PlaceAfterDequeue(s, p);
    hide Placed, PoolOk, Dequeued;
  }

  lemma PlaceAfterDequeue(s: State, p: nat)
    requires PoolOk(s) && p in s.gw && Placed(s, p)
    ensures var t := Dequeued(s, s.gw[p].id);
            && s.gw[p].id !in t.pool && p in t.gw
            && t.gw[p].place == if s.gw[p].place == Pooled then Closed else s.gw[p].place
  {
  }

  lemma OutStays(s: State, a: Action, p: nat, e: Option<Event>)
    requires Inv(s) && Enabled(s, a) && OutUnlessBack(s, p, e)
    ensures OutUnlessBack(Apply(s, a), p, e)
  {
    hide Inv, Enabled, Apply, Remaining;
    ObjectMoves(s, a, p);
    if e.Some? && HasSeat(s, e.value) {
      RoomLater(s, a, e.value.room);
      if SeatOf(s, e.value).fate != Requeued && s.gw[p].place == Seated(e.value) && a == Requeue(e.value.room) {
        RequeueDecides(s, p, e.value);
      }
    }
  }

  lemma RequeueDecides(s: State, p: nat, e: Event)
    requires Inv(s) && Enabled(s, Requeue(e.room)) && p in s.gw && s.gw[p].place == Seated(e)
    ensures OutUnlessBack(Apply(s, Requeue(e.room)), p, Some(e))
  {
    hide Core, CountersOk, ReEnqueued, RequeuedPast, RequeueFate;
    var k := s.rooms[e.room].phase.k;
    RequeueSeat(s, Event(e.room, k));
    RequeueRecords(s, e.room);
    FateIsKept(s, e.room, k);
  }

  lemma FateIsKept(s: State, r: nat, k: nat)
    requires Enabled(s, Requeue(r)) && s.rooms[r].phase == Requeuing(k)
    ensures HasSeat(ReEnqueued(s, r), Event(r, k))
    ensures SeatOf(ReEnqueued(s, r), Event(r, k)).fate == RequeueFate(s, s.rooms[r].seats[k])
  {
  }

  lemma {:induction false} OutOfQueue(run: seq<State>, acts: seq<Action>, i: nat, j: nat, p: nat, e: Option<Event>)
    requires IsTrace(run, acts) && i <= j <= |acts| && Inv(run[i]) && OutUnlessBack(run[i], p, e)
    ensures Inv(run[j]) && OutUnlessBack(run[j], p, e)
    decreases j
  {
    hide Inv, Enabled, Apply, OutUnlessBack;
    if i < j {
      OutOfQueue(run, acts, i, j - 1, p, e);
      StepOf(run, acts, j - 1);
      ActionKeeps(run[j - 1], acts[j - 1]);
      OutStays(run[j - 1], acts[j - 1], p, e);
    }
  }

  /** A cancel, and the deferred removal, take the id out of the queue. The gateway's
      object is never queued again, unless a room held it at the time and put it back
      when it failed. */
  lemma RemovalIsLasting(run: seq<State>, acts: seq<Action>, i: nat, j: nat, p: nat)
    requires IsTrace(run, acts) && i < j <= |acts| && (acts[i] == TakeCancel(p) || acts[i] == Cleanup(p))
    ensures p in run[i].gw && run[i].gw[p].id !in run[i + 1].pool
    ensures Queued(run[j], p) ==>
              exists e :: OwnSeat(run[i], p, e) && Holds(run[i], e) && HasSeat(run[j], e) && SeatOf(run[j], e).fate == Requeued
  {
    hide Inv, Enabled, Apply, OutUnlessBack;
    StepOf(run, acts, i);
    OutAfterDequeue(run[i], acts[i], p);
    ActionKeeps(run[i], acts[i]);
    OutOfQueue(run, acts, i + 1, j, p, SeatHolding(run[i].gw[p]));
    if Queued(run[j], p) {
      QueuedIsPooled(run[j], p);
      PutBackBy(run[i], run[j], p);
    }
  }

  lemma PutBackBy(s: State, t: State, p: nat)
    requires Inv(s) && p in s.gw && OutUnlessBack(t, p, SeatHolding(s.gw[p])) && t.gw[p].place == Pooled
    ensures exists e :: OwnSeat(s, p, e) && Holds(s, e) && HasSeat(t, e) && SeatOf(t, e).fate == Requeued
  {
    hide Inv;
    ItsGateway(s, p);
    var e := s.gw[p].place.e;
    assert OwnSeat(s, p, e) && Holds(s, e);
  }

  /** A gateway finds its channel closed only when its object is gone for good. */
  lemma ClosedIsLasting(run: seq<State>, acts: seq<Action>, i: nat, j: nat, p: nat)
    requires IsTrace(run, acts) && i <= j <= |acts| && i < |acts| && acts[i] == TakeClosed(p)
    ensures p in run[j].gw && !Queued(run[j], p)
    ensures forall e | Holds(run[j], e) :: SeatOf(run[j], e).player != p
  {
    hide Inv, Enabled, Apply, OutUnlessBack;
    StepOf(run, acts, i);
    ClosedIsOut(run[i], p);
    StaysClosed(run, acts, i, j, p);
    ClosedOwnsNothing(run[j], p);
  }

  lemma ClosedIsOut(s: State, p: nat)
    requires Inv(s) && Enabled(s, TakeClosed(p))
    ensures p in s.gw && s.gw[p].place == Closed
  {
    hide Inv, Placed, AcceptsOk;
    CoreOfInv(s);
    OfGateway(s, p);
    hide Core;
  }

  lemma CoreOfInv(s: State)
    requires Inv(s)
    ensures Core(s)
  {
  }

  lemma {:induction false} StaysClosed(run: seq<State>, acts: seq<Action>, i: nat, j: nat, p: nat)
    requires IsTrace(run, acts) && i <= j <= |acts| && Inv(run[i]) && p in run[i].gw && run[i].gw[p].place == Closed
    ensures Inv(run[j]) && p in run[j].gw && run[j].gw[p].place == Closed
    decreases j
  {
    hide Inv, Enabled, Apply;
    if i < j {
      StaysClosed(run, acts, i, j - 1, p);
      StepOf(run, acts, j - 1);
      ObjectMoves(run[j - 1], acts[j - 1], p);
      ActionKeeps(run[j - 1], acts[j - 1]);
    }
  }

  lemma ClosedOwnsNothing(s: State, p: nat)
    requires Inv(s) && p in s.gw && s.gw[p].place == Closed
    ensures !Queued(s, p)
    ensures forall e | Holds(s, e) :: SeatOf(s, e).player != p
  {
    hide Inv, Core, CountersOk;
    if Queued(s, p) {
      QueuedIsPooled(s, p);
      assert false;
    }
    forall e | Holds(s, e) ensures SeatOf(s, e).player != p {
      CoreOfInv(s);
      OfSeat(s, e);
    }
  }

  // ------------------------------------------------------------------
  // What a client asked for
  // ------------------------------------------------------------------

  /** A request stays until it is taken. */
  ghost predicate Keeps(g: Gateway, g': Gateway, a: Action, p: nat) {
    && (g.cancelReq && a != TakeCancel(p) ==> g'.cancelReq)
    && (g.acceptReq && a != Accept(p) ==> g'.acceptReq)
  }

  lemma ClientKeeps(s: State, a: Action, p: nat)
    requires Enabled(s, a) && FromClient(a) && p in s.gw
    ensures p in Apply(s, a).gw && Keeps(s.gw[p], Apply(s, a).gw[p], a, p)
  {
  }

  lemma LoopKeeps(s: State, a: Action, p: nat)
    requires Enabled(s, a) && (a.Join? || a.Greet? || a.Push? || a.Quit? || a.TakeEvent? || a.TakeClosed?) && p in s.gw
    ensures p in Apply(s, a).gw && Keeps(s.gw[p], Apply(s, a).gw[p], a, p)
  {
  }

  lemma AnswerKeeps(s: State, a: Action, p: nat)
    requires Enabled(s, a) && AnswersOrHears(a) && p in s.gw
    ensures p in Apply(s, a).gw && Keeps(s.gw[p], Apply(s, a).gw[p], a, p)
  {
    hide SetSeat;
    if p != a.p {
      GatewayRuns.NotAsked(s, a, p);
      hide Apply;
    }
  }

  lemma RemovalKeeps(s: State, a: Action, p: nat)
    requires Enabled(s, a) && Dequeues(a) && p in s.gw
    ensures p in Apply(s, a).gw && Keeps(s.gw[p], Apply(s, a).gw[p], a, p)
  {
    ReadyCheckGateways.DequeueRecord(s, s.gw[a.p].id, p);
    ReadyCheckGateways.DequeueRecord(s, s.gw[a.p].id, a.p);
    hide Dequeued;
  }

  lemma RoomKeeps(s: State, a: Action, p: nat)
    requires Enabled(s, a) && !GatewayAction(a) && !a.Extract? && p in s.gw
    ensures p in Apply(s, a).gw && Keeps(s.gw[p], Apply(s, a).gw[p], a, p)
  {
    hide Gathered, GivenUp, Notified, RequeuedPast, Responded;
  }

  lemma ExtractKeeps(s: State, r: nat, ids: seq<string>, p: nat)
    requires Enabled(s, Extract(r, ids)) && p in s.gw
    ensures p in Apply(s, Extract(r, ids)).gw && Keeps(s.gw[p], Apply(s, Extract(r, ids)).gw[p], Extract(r, ids), p)
  {
    ExtractGateway(s, r, ids, p);
    hide RoomOpened;
  }

  lemma RequestKept(s: State, a: Action, p: nat)
    requires Enabled(s, a) && p in s.gw
    ensures p in Apply(s, a).gw && Keeps(s.gw[p], Apply(s, a).gw[p], a, p)
  {
    hide Enabled, Apply, Keeps;
    if Dequeues(a) {
      RemovalKeeps(s, a, p);
    } else if AnswersOrHears(a) {
      AnswerKeeps(s, a, p);
    } else if FromClient(a) {
      ClientKeeps(s, a, p);
    } else if a.Extract? {
      ExtractKeeps(s, a.r, a.ids, p);
    } else if GatewayAction(a) {
      LoopKeeps(s, a, p);
    } else {
      RoomKeeps(s, a, p);
    }
  }

  /** A cancel or an accept the client sent is there until the handler takes it, however
      much else happens: a handler in its select loop can take the cancel, one in the
      accept wait the accept. */
  lemma RequestsWait(run: seq<State>, acts: seq<Action>, i: nat, j: nat, p: nat)
    requires IsTrace(run, acts) && i < j <= |acts|
    ensures acts[i] == ClientCancel(p) && TakeCancel(p) !in acts[i..j] ==>
              p in run[j].gw && (run[j].gw[p].pc == Idle ==> Enabled(run[j], TakeCancel(p)))
    ensures acts[i] == ClientAccept(p) && Accept(p) !in acts[i..j] ==>
              p in run[j].gw && (run[j].gw[p].pc.Checking? ==> Enabled(run[j], Accept(p)))
  {
    hide Inv, Enabled, Apply;
    if acts[i] == ClientCancel(p) || acts[i] == ClientAccept(p) {
      assert Took(run, acts, i);
      RequestMade(run[i], acts[i], p);
      assert acts[i..j] == [acts[i]] + acts[i + 1..j];
      RequestThere(run, acts, i + 1, j, p);
      TracesAreRuns(run, acts);
      RunsOk(run, j);
      CanTake(run[j], p);
    }
  }

  lemma CanTake(s: State, p: nat)
    requires Inv(s) && p in s.gw
    ensures s.gw[p].pc == Idle && s.gw[p].cancelReq ==> Enabled(s, TakeCancel(p))
    ensures s.gw[p].pc.Checking? && s.gw[p].acceptReq ==> Enabled(s, Accept(p))
  {
    hide Inv;
    ItsGateway(s, p);
  }

  lemma RequestMade(s: State, a: Action, p: nat)
    requires Enabled(s, a) && (a == ClientCancel(p) || a == ClientAccept(p))
    ensures p in Apply(s, a).gw
    ensures if a.ClientCancel? then Apply(s, a).gw[p].cancelReq else Apply(s, a).gw[p].acceptReq
  {
  }

  lemma {:induction false} RequestThere(run: seq<State>, acts: seq<Action>, i: nat, j: nat, p: nat)
    requires IsTrace(run, acts) && i <= j <= |acts| && p in run[i].gw
    ensures p in run[j].gw
    ensures run[i].gw[p].cancelReq && TakeCancel(p) !in acts[i..j] ==> run[j].gw[p].cancelReq
    ensures run[i].gw[p].acceptReq && Accept(p) !in acts[i..j] ==> run[j].gw[p].acceptReq
    decreases j
  {
    hide Enabled, Apply;
    if i < j {
      RequestThere(run, acts, i, j - 1, p);
      assert Took(run, acts, j - 1);
      RequestKept(run[j - 1], acts[j - 1], p);
      assert acts[i..j] == acts[i..j - 1] + [acts[j - 1]];
    }
  }
}

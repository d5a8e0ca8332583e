/** What a stream handler does over a run of the protocol: every stream is the one its
    turns make. */
module GatewayRuns {
  import opened Players
  import opened StatusStream
  import opened ReadyCheck
  import ReadyCheckGateways
  import opened ReadyCheckPool
  import opened ReadyCheckRuns
  import opened ReadyCheckTraces
  import opened GatewayStream

  // ------------------------------------------------------------------
  // The turns of a gateway
  // ------------------------------------------------------------------

  /** The turn of gateway `p`'s handler that the action completes, if it does. */
  function TurnEnded(s: State, a: Action, p: nat): seq<Turn>
    requires Enabled(s, a)
  {
    match a
    case Push(q, ok) => if q == p then [StatusTick(ok)] else []
    case TakeClosed(q) => if q == p then [ChannelClosed] else []
    case TakeCancel(q) => if q == p then [CancelAsked] else []
    case Quit(q) => if q == p then [ClientLeft] else []
    case TakeEvent(q, ok) => if q == p && !ok then [MatchFound(s.gw[p].matchCh.buf.value, false, false, None)] else []
    case Decline(q) => if q == p then [MatchFound(s.gw[p].pc.e, true, false, None)] else []
    case Hear(q) => if q == p then [MatchFound(s.gw[p].pc.e, true, true, SeatOf(s, s.gw[p].pc.e).result)] else []
    case _ => []
  }

  /** Or what the action begins: the greeting, or the ready-check of a match turn. */
  datatype Opening = Nothing | Greets(ok: bool) | Asks(e: Event)

  function OpeningOf(s: State, a: Action, p: nat): Opening
    requires Enabled(s, a)
  {
    match a
    case Greet(q, ok) => if q == p then Greets(ok) else Nothing
    case TakeEvent(q, ok) => if q == p && ok then Asks(s.gw[p].matchCh.buf.value) else Nothing
    case _ => Nothing
  }

  /** The turns completed in the first `i` steps. */
  ghost function TurnsOf(run: seq<State>, acts: seq<Action>, i: nat, p: nat): seq<Turn>
    requires IsTrace(run, acts) && i <= |acts|
  {
    if i == 0 then []
    else
      assert Took(run, acts, i - 1);
      TurnsOf(run, acts, i - 1, p) + TurnEnded(run[i - 1], acts[i - 1], p)
  }

  // ------------------------------------------------------------------
  // How one action moves a handler
  // ------------------------------------------------------------------

  /** What of a gateway its handler alone decides. */
  datatype Handler = Handler(id: string, pc: Pc, sent: seq<Status>, accepts: set<Event>)

  function HandlerOf(g: Gateway): Handler {
    Handler(g.id, g.pc, g.sent, g.accepts)
  }

  function Says(c: Handler, m: Status, next: Pc): Handler {
    c.(sent := c.sent + [m], pc := next)
  }

  ghost predicate GreetMoves(c: Handler, o: Opening, c': Handler) {
    match o
    case Greets(ok) => c' == Says(c, WAITING, if ok then Idle else Leaving)
    case Nothing => c' == c
    case Asks(_) => false
  }

  ghost predicate SearchMoves(c: Handler, o: Opening, t: seq<Turn>, c': Handler) {
    if o.Asks? then t == [] && c' == Says(c, READY_CHECK(o.e.room), Checking(o.e))
    else if t == [] then c' == c
    else
      && |t| == 1
      && match t[0]
         case StatusTick(ok) => c' == Says(c, WAITING, if ok then Idle else Leaving)
         case ChannelClosed => c' == Says(c, CANCELLED, Leaving)
         case CancelAsked => c' == Says(c, CANCELLED, Leaving)
         case ClientLeft => c' == c.(pc := Leaving)
         case MatchFound(e, ok, _, _) => !ok && c' == Says(c, READY_CHECK(e.room), Leaving)
  }

  ghost predicate CheckMoves(c: Handler, e: Event, t: seq<Turn>, c': Handler) {
    if t == [] then c' == c || c' == c.(pc := Awaiting(e), accepts := c.accepts + {e})
    else t == [MatchFound(e, true, false, None)] && c' == Says(c, CANCELLED, Leaving)
  }

  ghost predicate VerdictMoves(c: Handler, e: Event, t: seq<Turn>, c': Handler) {
    if t == [] then c' == c
    else
      && |t| == 1 && t[0].MatchFound? && t[0] == MatchFound(e, true, true, t[0].verdict)
      && c' == if t[0].verdict == Some(true) then Says(c, IN_GAME(e.room), Leaving) else Says(c, WAITING, Idle)
  }

  /** How one action that begins and completes this much moves a handler. */
  ghost predicate TurnMoves(c: Handler, o: Opening, t: seq<Turn>, c': Handler) {
    match c.pc
    case Greeting => t == [] && GreetMoves(c, o, c')
    case Idle => !o.Greets? && SearchMoves(c, o, t, c')
    case Checking(e) => o == Nothing && CheckMoves(c, e, t, c')
    case Awaiting(e) => o == Nothing && VerdictMoves(c, e, t, c')
    case _ => o == Nothing && t == [] && (c' == c || c' == c.(pc := Gone))
  }

  lemma Rests(c: Handler)
    ensures TurnMoves(c, Nothing, [], c)
  {
  }

  lemma LoopMoves(s: State, a: Action, p: nat)
    requires Enabled(s, a) && (a.Join? || a.Greet? || a.Push? || a.Quit?) && p in s.gw
    ensures p in Apply(s, a).gw
    ensures TurnMoves(HandlerOf(s.gw[p]), OpeningOf(s, a, p), TurnEnded(s, a, p), HandlerOf(Apply(s, a).gw[p]))
  {
  }

  lemma EventMoves(s: State, p: nat, ok: bool, q: nat)
    requires Enabled(s, TakeEvent(p, ok)) && q in s.gw
    ensures q in Apply(s, TakeEvent(p, ok)).gw
    ensures TurnMoves(HandlerOf(s.gw[q]), OpeningOf(s, TakeEvent(p, ok), q), TurnEnded(s, TakeEvent(p, ok), q),
                      HandlerOf(Apply(s, TakeEvent(p, ok)).gw[q]))
  {
  }

  lemma AnswerMoves(s: State, a: Action, p: nat)
    requires Enabled(s, a) && AnswersOrHears(a) && p in s.gw
    ensures p in Apply(s, a).gw
    ensures TurnMoves(HandlerOf(s.gw[p]), OpeningOf(s, a, p), TurnEnded(s, a, p), HandlerOf(Apply(s, a).gw[p]))
  {
    hide Enabled, Apply, TurnMoves, TurnEnded, OpeningOf;
    if p != a.p {
      Rests(HandlerOf(s.gw[p]));
      NotAsked(s, a, p);
    } else if a.Hear? {
      HearMoves(s, p);
    } else {
      AnswersMove(s, a, p);
    }
  }

  lemma NotAsked(s: State, a: Action, p: nat)
    requires Enabled(s, a) && AnswersOrHears(a) && p in s.gw && p != a.p
    ensures p in Apply(s, a).gw && Apply(s, a).gw[p] == s.gw[p] && TurnEnded(s, a, p) == [] && OpeningOf(s, a, p) == Nothing
  {
    hide SetSeat, Send, VerdictRead;
    NotItsTurn(s, a, p);
    hide TurnEnded, OpeningOf;
  }

  lemma NotItsTurn(s: State, a: Action, p: nat)
    requires Enabled(s, a) && AnswersOrHears(a) && p != a.p
    ensures TurnEnded(s, a, p) == [] && OpeningOf(s, a, p) == Nothing
  {
  }

  lemma AnswersMove(s: State, a: Action, p: nat)
    requires Enabled(s, a) && (a == Accept(p) || a == Decline(p))
    ensures p in s.gw && p in Apply(s, a).gw
    ensures TurnMoves(HandlerOf(s.gw[p]), OpeningOf(s, a, p), TurnEnded(s, a, p), HandlerOf(Apply(s, a).gw[p]))
  {
    hide SearchMoves, SetSeat;
  }

  lemma HearMoves(s: State, p: nat)
    requires Enabled(s, Hear(p))
    ensures p in s.gw && p in Apply(s, Hear(p)).gw
    ensures TurnMoves(HandlerOf(s.gw[p]), OpeningOf(s, Hear(p), p), TurnEnded(s, Hear(p), p), HandlerOf(Apply(s, Hear(p)).gw[p]))
  {
    hide SearchMoves, SetSeat;
  }

  lemma ClosedMoves(s: State, p: nat, q: nat)
    requires Enabled(s, TakeClosed(p)) && q in s.gw
    ensures q in Apply(s, TakeClosed(p)).gw
    ensures TurnMoves(HandlerOf(s.gw[q]), OpeningOf(s, TakeClosed(p), q), TurnEnded(s, TakeClosed(p), q),
                      HandlerOf(Apply(s, TakeClosed(p)).gw[q]))
  {
  }

  lemma RemovalMoves(s: State, a: Action, p: nat)
    requires Enabled(s, a) && Dequeues(a) && p in s.gw
    ensures p in Apply(s, a).gw
    ensures TurnMoves(HandlerOf(s.gw[p]), OpeningOf(s, a, p), TurnEnded(s, a, p), HandlerOf(Apply(s, a).gw[p]))
  {
    ReadyCheckGateways.DequeueRecord(s, s.gw[a.p].id, p);
    ReadyCheckGateways.DequeueRecord(s, s.gw[a.p].id, a.p);
    hide Dequeued;
  }

  /** The client and the rooms write no stream. */
  lemma ClientSilent(s: State, a: Action, p: nat)
    requires Enabled(s, a) && FromClient(a) && p in s.gw
    ensures p in Apply(s, a).gw && HandlerOf(s.gw[p]) == HandlerOf(Apply(s, a).gw[p])
  {
  }

  lemma RoomSilent(s: State, a: Action, p: nat)
    requires Enabled(s, a) && !GatewayAction(a) && !a.Extract? && p in s.gw
    ensures p in Apply(s, a).gw && HandlerOf(s.gw[p]) == HandlerOf(Apply(s, a).gw[p])
  {
    hide Gathered, GivenUp, Notified, RequeuedPast, Responded;
  }

  lemma ExtractSilent(s: State, r: nat, ids: seq<string>, p: nat)
    requires Enabled(s, Extract(r, ids)) && p in s.gw
    ensures p in Apply(s, Extract(r, ids)).gw && HandlerOf(s.gw[p]) == HandlerOf(Apply(s, Extract(r, ids)).gw[p])
  {
    ReadyCheckPool.ExtractGateway(s, r, ids, p);
    hide RoomOpened;
  }

  lemma NoTurn(s: State, a: Action, p: nat)
    requires Enabled(s, a) && (FromClient(a) || !GatewayAction(a))
    ensures TurnEnded(s, a, p) == [] && OpeningOf(s, a, p) == Nothing
  {
  }

  lemma OthersMove(s: State, a: Action, p: nat)
    requires Enabled(s, a) && (FromClient(a) || !GatewayAction(a)) && p in s.gw
    ensures p in Apply(s, a).gw
    ensures TurnMoves(HandlerOf(s.gw[p]), OpeningOf(s, a, p), TurnEnded(s, a, p), HandlerOf(Apply(s, a).gw[p]))
  {
    hide Enabled, Apply, TurnMoves, TurnEnded, OpeningOf;
    NoTurn(s, a, p);
    Rests(HandlerOf(s.gw[p]));
    if FromClient(a) {
      ClientSilent(s, a, p);
    } else if a.Extract? {
      ExtractSilent(s, a.r, a.ids, p);
    } else {
      RoomSilent(s, a, p);
    }
  }

  lemma OwnMoves(s: State, a: Action, p: nat)
    requires Enabled(s, a) && GatewayAction(a) && !FromClient(a) && p in s.gw
    ensures p in Apply(s, a).gw
    ensures TurnMoves(HandlerOf(s.gw[p]), OpeningOf(s, a, p), TurnEnded(s, a, p), HandlerOf(Apply(s, a).gw[p]))
  {
    hide Enabled, Apply, TurnMoves, TurnEnded, OpeningOf;
    if a.TakeEvent? {
      EventMoves(s, a.p, a.ok, p);
    } else if a.TakeClosed? {
      ClosedMoves(s, a.p, p);
    } else if Dequeues(a) {
      RemovalMoves(s, a, p);
    } else if AnswersOrHears(a) {
      AnswerMoves(s, a, p);
    } else {
      LoopMoves(s, a, p);
    }
  }

  lemma ActionMoves(s: State, a: Action, p: nat)
    requires Enabled(s, a) && p in s.gw
    ensures p in Apply(s, a).gw
    ensures TurnMoves(HandlerOf(s.gw[p]), OpeningOf(s, a, p), TurnEnded(s, a, p), HandlerOf(Apply(s, a).gw[p]))
  {
    hide Enabled, Apply, TurnMoves, TurnEnded, OpeningOf;
    if GatewayAction(a) && !FromClient(a) {
      OwnMoves(s, a, p);
    } else {
      OthersMove(s, a, p);
    }
  }

  // ------------------------------------------------------------------
  // Every stream is the one its turns make
  // ------------------------------------------------------------------

  /** Between turns a gateway has sent and accepted what the handler has after those
      turns; within a match turn, that and the turn so far. `ok` is whether the
      greeting was sent. */
  ghost predicate ServedBy(c: Handler, ok: bool, turns: seq<Turn>) {
    var g := Served(Opened(c.id, ok), turns);
    match c.pc
    case Greeting => ok && turns == [] && c.sent == [] && c.accepts == {}
    case Idle => ok && g.pc == Idle && c.sent == g.sent && c.accepts == g.accepts
    case Checking(e) => ok && g.pc == Idle && c.sent == g.sent + [READY_CHECK(e.room)] && c.accepts == g.accepts
    case Awaiting(e) => ok && g.pc == Idle && c.sent == g.sent + [READY_CHECK(e.room)] && c.accepts == g.accepts + {e}
    case _ => g.pc == Leaving && c.sent == g.sent && c.accepts == g.accepts
  }

  lemma OneMore(g: Gateway, turns: seq<Turn>, t: seq<Turn>)
    requires |t| == 1 && Served(g, turns).pc != Leaving
    ensures Served(g, turns + t) == AfterTurn(Served(g, turns), t[0])
  {
    hide AfterTurn;
    assert (turns + t)[..|turns|] == turns;
  }

  lemma SearchServed(c: Handler, o: Opening, turns: seq<Turn>, t: seq<Turn>, c': Handler)
    requires c.pc == Idle && ServedBy(c, true, turns) && SearchMoves(c, o, t, c')
    ensures ServedBy(c', true, turns + t)
  {
    hide Served, Opened;
    if t == [] {
      assert turns + t == turns;
    } else {
      OneMore(Opened(c.id, true), turns, t);
    }
  }

  lemma CheckServed(c: Handler, e: Event, turns: seq<Turn>, t: seq<Turn>, c': Handler)
    requires c.pc == Checking(e) && ServedBy(c, true, turns) && CheckMoves(c, e, t, c')
    ensures ServedBy(c', true, turns + t)
  {
    hide Served, Opened;
    if t == [] {
      assert turns + t == turns;
    } else {
      OneMore(Opened(c.id, true), turns, t);
    }
  }

  lemma VerdictServed(c: Handler, e: Event, turns: seq<Turn>, t: seq<Turn>, c': Handler)
    requires c.pc == Awaiting(e) && ServedBy(c, true, turns) && VerdictMoves(c, e, t, c')
    ensures ServedBy(c', true, turns + t)
  {
    hide Served, Opened;
    if t == [] {
      assert turns + t == turns;
    } else {
      OneMore(Opened(c.id, true), turns, t);
    }
  }

  lemma MoveServed(c: Handler, ok: bool, turns: seq<Turn>, o: Opening, t: seq<Turn>, c': Handler)
    requires ServedBy(c, ok, turns) && TurnMoves(c, o, t, c')
    ensures ServedBy(c', ok && o != Greets(false), turns + t)
  {
    match c.pc
    case Idle => SearchServed(c, o, turns, t, c');
    case Checking(e) => CheckServed(c, e, turns, t, c');
    case Awaiting(e) => VerdictServed(c, e, turns, t, c');
    case _ => assert turns + t == turns;
    hide SearchMoves, CheckMoves, VerdictMoves;
  }

  lemma GreetingFailed(s: State, a: Action, p: nat)
    requires Enabled(s, a)
    ensures OpeningOf(s, a, p) == Greets(false) <==> a == Greet(p, false)
  {
  }

  predicate JustJoined(g: Gateway) {
    g.pc == Greeting && g.sent == [] && g.accepts == {}
  }

  lemma JustJoinedServed(g: Gateway)
    requires JustJoined(g)
    ensures ServedBy(HandlerOf(g), true, [])
  {
  }

  /** Only its join brings a gateway in. */
  lemma Newcomer(s: State, a: Action, p: nat)
    requires Enabled(s, a) && p !in s.gw
    ensures TurnEnded(s, a, p) == [] && a != Greet(p, false)
    ensures p in Apply(s, a).gw ==> JustJoined(Apply(s, a).gw[p])
  {
    hide Apply, TurnEnded;
    NobodysTurn(s, a, p);
    if p in Apply(s, a).gw {
      NewcomerGreets(s, a, p);
    }
  }

  lemma NobodysTurn(s: State, a: Action, p: nat)
    requires Enabled(s, a) && p !in s.gw
    ensures TurnEnded(s, a, p) == [] && a != Greet(p, false)
  {
  }

  lemma NewcomerGreets(s: State, a: Action, p: nat)
    requires Enabled(s, a) && p !in s.gw && p in Apply(s, a).gw
    ensures JustJoined(Apply(s, a).gw[p])
  {
    hide Enabled, Apply;
    if a.Join? {
      JoinerGreets(s, a, p);
    } else if !GatewayAction(a) {
      NobodyNewInRooms(s, a);
    } else if Reads(a) {
      NobodyNewReads(s, a);
    } else {
      NobodyNewActs(s, a);
    }
  }

  lemma JoinerGreets(s: State, a: Action, p: nat)
    requires Enabled(s, a) && a.Join? && p !in s.gw && p in Apply(s, a).gw
    ensures JustJoined(Apply(s, a).gw[p])
  {
  }

  lemma NobodyNewInRooms(s: State, a: Action)
    requires Enabled(s, a) && !GatewayAction(a)
    ensures Apply(s, a).gw.Keys == s.gw.Keys
  {
    hide Gathered, GivenUp, Notified, RequeuedPast, Responded;
  }

  lemma NobodyNewReads(s: State, a: Action)
    requires Enabled(s, a) && Reads(a)
    ensures Apply(s, a).gw.Keys == s.gw.Keys
  {
  }

  lemma NobodyNewActs(s: State, a: Action)
    requires Enabled(s, a) && GatewayAction(a) && !Reads(a) && !a.Join?
    ensures Apply(s, a).gw.Keys == s.gw.Keys
  {
  }

  lemma {:induction false} NotBefore(run: seq<State>, acts: seq<Action>, i: nat, p: nat)
    requires IsTrace(run, acts) && i <= |acts| && p !in run[i].gw
    ensures TurnsOf(run, acts, i, p) == [] && Greet(p, false) !in acts[..i]
  {
    hide Enabled, Apply, TurnEnded;
    if i > 0 {
      assert Took(run, acts, i - 1);
      if p in run[i - 1].gw {
        ActionMoves(run[i - 1], acts[i - 1], p);
        assert false;
      }
      NotBefore(run, acts, i - 1, p);
      Newcomer(run[i - 1], acts[i - 1], p);
      assert acts[..i] == acts[..i - 1] + [acts[i - 1]];
    }
  }

  /** In every run, every stream is the one its handler's turns make: what it has sent and
      accepted is what the handler's loop has after the turns its actions completed, each
      named by its action. */
  lemma {:induction false} StreamsAreServed(run: seq<State>, acts: seq<Action>, i: nat, p: nat)
    requires IsTrace(run, acts) && i <= |acts| && p in run[i].gw
    ensures ServedBy(HandlerOf(run[i].gw[p]), Greet(p, false) !in acts[..i], TurnsOf(run, acts, i, p))
  {
    hide Enabled, Apply, TurnMoves, ServedBy, TurnEnded, OpeningOf;
    if i > 0 {
      assert Took(run, acts, i - 1);
      assert acts[..i] == acts[..i - 1] + [acts[i - 1]];
      var before, a := run[i - 1], acts[i - 1];
      if p in before.gw {
        StreamsAreServed(run, acts, i - 1, p);
        ActionMoves(before, a, p);
        GreetingFailed(before, a, p);
        var ok := Greet(p, false) !in acts[..i - 1];
        assert (Greet(p, false) !in acts[..i]) == (ok && a != Greet(p, false));
        MoveServed(HandlerOf(before.gw[p]), ok, TurnsOf(run, acts, i - 1, p),
                   OpeningOf(before, a, p), TurnEnded(before, a, p), HandlerOf(run[i].gw[p]));
      } else {
        NotBefore(run, acts, i - 1, p);
        Newcomer(before, a, p);
        JustJoinedServed(run[i].gw[p]);
        assert TurnsOf(run, acts, i, p) == [];
        assert (Greet(p, false) !in acts[..i]) == true;
      }
    }
  }
}

/** One stream handler, run against what its select statements picked. */
module GatewayStream {
  import opened Players
  import opened StatusStream
  import opened ReadyCheck
  import ReadyCheckGateways

  /** One turn of the handler's loop. In a match turn the second select took the
      client's accept or one of its other cases, and the result channel gave a verdict
      or was found closed. `ok` is whether the turn's first send succeeded. */
  datatype Turn =
    | MatchFound(e: Event, ok: bool, accepted: bool, verdict: Option<bool>)
    | ChannelClosed
    | StatusTick(ok: bool)
    | CancelAsked
    | ClientLeft

  datatype Response = Response(e: Event, answer: bool)

  // ------------------------------------------------------------------
  // The same turns as the protocol takes them
  // ------------------------------------------------------------------

  function ReadyChecked(g: Gateway, e: Event, ok: bool): Gateway {
    AskedAbout(g.(matchCh := MatchCh(false, Some(e))), ok)
  }

  function AfterTurn(g: Gateway, t: Turn): Gateway {
    match t
    case MatchFound(e, ok, accepted, verdict) =>
      if !ok then ReadyChecked(g, e, ok)
      else if !accepted then Send(ReadyChecked(g, e, ok), CANCELLED, true, Leaving)
      else VerdictRead(ReadyChecked(g, e, ok).(accepts := g.accepts + {e}), e, verdict == Some(true))
    case ChannelClosed => Send(g, CANCELLED, true, Leaving)
    case StatusTick(ok) => Send(g, WAITING, ok, Idle)
    case CancelAsked => Send(g, CANCELLED, true, Leaving)
    case ClientLeft => g.(pc := Leaving)
  }

  function Opened(id: string, ok: bool): Gateway {
    Send(NewGateway(id), WAITING, ok, Idle)
  }

  /** The handler's gateway record after its turns; once it returns, nothing follows. */
  function Served(g: Gateway, turns: seq<Turn>): Gateway
    decreases |turns|
  {
    if turns == [] then g
    else
      var before := Served(g, turns[..|turns| - 1]);
      if before.pc == Leaving then before else AfterTurn(before, turns[|turns| - 1])
  }

  lemma {:induction false} NothingFollows(g: Gateway, turns: seq<Turn>, i: nat)
    requires i <= |turns| && Served(g, turns[..i]).pc == Leaving
    ensures Served(g, turns) == Served(g, turns[..i])
    decreases |turns|
  {
    if i < |turns| {
      assert turns[..|turns| - 1][..i] == turns[..i];
      NothingFollows(g, turns[..|turns| - 1], i);
    } else {
      assert turns[..i] == turns;
    }
  }

  // ------------------------------------------------------------------
  // The stream language, turn by turn
  // ------------------------------------------------------------------

  /** The handler ended by itself, not by a failed send or a client that left. */
  predicate Concludes(t: Turn) {
    match t
    case MatchFound(_, ok, accepted, verdict) => ok && (!accepted || verdict == Some(true))
    case ChannelClosed => true
    case CancelAsked => true
    case _ => false
  }

  lemma SendOne(sent: seq<Status>, m: Status)
    requires Read(sent) == Searching
    ensures Read(sent + [m]) == Advance(Searching, m)
  {
    ReadyCheckGateways.Snoc(sent, m);
  }

  lemma SendTwo(sent: seq<Status>, x: nat, m: Status)
    requires Read(sent) == Searching
    ensures Read(sent + [READY_CHECK(x)]) == Progress.Asked(x)
    ensures Read(sent + [READY_CHECK(x)] + [m]) == Advance(Progress.Asked(x), m)
  {
    ReadyCheckGateways.Snoc(sent, READY_CHECK(x));
    ReadyCheckGateways.Snoc(sent + [READY_CHECK(x)], m);
  }

  lemma TurnReads(g: Gateway, t: Turn)
    requires Read(g.sent) == Searching
    ensures AfterTurn(g, t).pc == Idle || AfterTurn(g, t).pc == Leaving
    ensures AfterTurn(g, t).pc == Idle ==> Read(AfterTurn(g, t).sent) == Searching
    ensures Read(AfterTurn(g, t).sent) != Broken
    ensures Concludes(t) ==> AfterTurn(g, t).pc == Leaving && Read(AfterTurn(g, t).sent) == Over
  {
    hide Read;
    match t
    case MatchFound(e, ok, accepted, verdict) =>
      SendTwo(g.sent, e.room, if !accepted then CANCELLED else if verdict == Some(true) then IN_GAME(e.room) else WAITING);
    case ChannelClosed => SendOne(g.sent, CANCELLED);
    case StatusTick(_) => SendOne(g.sent, WAITING);
    case CancelAsked => SendOne(g.sent, CANCELLED);
    case ClientLeft =>
  }

  lemma OverIsComplete(sent: seq<Status>)
    requires Read(sent) == Over
    ensures Complete(sent)
  {
    var rounds, ending := OverEnds(sent);
  }

  // ------------------------------------------------------------------
  // The handler
  // ------------------------------------------------------------------

  /** The responses with true are to the events accepted, and whoever is in a game
      gave one to its room. */
  ghost predicate Vouched(g: Gateway, responses: seq<Response>) {
    && (forall e :: Response(e, true) in responses <==> e in g.accepts)
    && (forall x | IN_GAME(x) in g.sent :: exists e :: e in g.accepts && e.room == x)
  }

  /** Passes a match on to the client, answers the coordinator, and on an accept waits
      for the verdict. */
  method AnswerMatch(ghost g: Gateway, e: Event, ok: bool, reply: bool, verdict: Option<bool>)
    returns (sends: seq<Status>, responses: seq<Response>, returned: bool)
    ensures AfterTurn(g, MatchFound(e, ok, reply, verdict)).sent == g.sent + sends
    ensures AfterTurn(g, MatchFound(e, ok, reply, verdict)).pc == if returned then Leaving else Idle
    ensures responses == if ok then [Response(e, reply)] else []
    ensures IN_GAME(e.room) in sends ==> ok && reply && verdict == Some(true)
    ensures forall x | IN_GAME(x) in sends :: x == e.room
  {
    sends, responses, returned := [READY_CHECK(e.room)], [], true;
    if !ok {
      return;
    }
    var accepted := false;
    if reply {
      accepted := true;
    }
    responses := [Response(e, accepted)];
    if !accepted {
      sends := sends + [CANCELLED];
      return;
    }
    if verdict.None? || !verdict.value {
      sends := sends + [WAITING];
      returned := false;
      return;
    }
    sends := sends + [IN_GAME(e.room)];
  }

  method TakeTurn(ghost g: Gateway, t: Turn) returns (sends: seq<Status>, responses: seq<Response>, returned: bool)
    ensures AfterTurn(g, t).sent == g.sent + sends
    ensures AfterTurn(g, t).pc == if returned then Leaving else Idle
    ensures forall before | Vouched(g, before) :: Vouched(AfterTurn(g, t), before + responses)
  {
    sends, responses, returned := [], [], true;
    match t {
      case MatchFound(e, ok, reply, verdict) =>
        sends, responses, returned := AnswerMatch(g, e, ok, reply, verdict);
      case ChannelClosed =>
        sends := [CANCELLED];
      case StatusTick(ok) =>
        sends := [WAITING];
        returned := !ok;
      case CancelAsked =>
        sends := [CANCELLED];
      case ClientLeft =>
    }
    forall before | Vouched(g, before) ensures Vouched(AfterTurn(g, t), before + responses) {
      StillVouched(g, t, sends, before, responses);
    }
  }

  lemma StillVouched(g: Gateway, t: Turn, sends: seq<Status>, before: seq<Response>, responses: seq<Response>)
    requires Vouched(g, before) && AfterTurn(g, t).sent == g.sent + sends
    requires responses == if t.MatchFound? && t.ok then [Response(t.e, t.accepted)] else []
    requires forall x | IN_GAME(x) in sends :: t.MatchFound? && t.ok && t.accepted && x == t.e.room
    ensures Vouched(AfterTurn(g, t), before + responses)
  {
    var g' := AfterTurn(g, t);
    assert g'.accepts == g.accepts + if t.MatchFound? && t.ok && t.accepted then {t.e} else {};
    hide AfterTurn;
    forall x | IN_GAME(x) in g'.sent ensures exists e :: e in g'.accepts && e.room == x {
      if IN_GAME(x) in g.sent {
        var e :| e in g.accepts && e.room == x;
        assert e in g'.accepts;
      } else {
        assert t.e in g'.accepts;
      }
    }
  }

  /** Greets, then takes turns until one returns. `sent` is every message it tried to
      send and `responses` what it answered its coordinators. */
  method Serve(id: string, greetOk: bool, turns: seq<Turn>)
    returns (sent: seq<Status>, responses: seq<Response>, returned: bool, used: nat)
    ensures used <= |turns| && (!returned ==> used == |turns|)
    ensures sent == Served(Opened(id, greetOk), turns).sent
    ensures returned <==> Served(Opened(id, greetOk), turns).pc == Leaving
    ensures PrefixOfComplete(sent)
    ensures returned && used > 0 && Concludes(turns[used - 1]) ==> Complete(sent)
    ensures Vouched(Served(Opened(id, greetOk), turns), responses)
  {
    hide Read, AfterTurn, Vouched, PrefixOfComplete, Complete;
    ghost var g0 := Opened(id, greetOk);
    OpenedFacts(id, greetOk);
    sent, responses, returned, used := [WAITING], [], !greetOk, 0;
    while !returned && used < |turns|
      invariant used <= |turns|
      invariant sent == Served(g0, turns[..used]).sent
      invariant Served(g0, turns[..used]).pc == if returned then Leaving else Idle
      invariant Read(sent) != Broken && (!returned ==> Read(sent) == Searching)
      invariant returned && used > 0 && Concludes(turns[used - 1]) ==> Read(sent) == Over
      invariant Vouched(Served(g0, turns[..used]), responses)
      decreases |turns| - used
    {
      ghost var g := Served(g0, turns[..used]);
      assert turns[..used + 1][..used] == turns[..used];
      TurnReads(g, turns[used]);
      var sends, answers;
      sends, answers, returned := TakeTurn(g, turns[used]);
      sent, responses, used := sent + sends, responses + answers, used + 1;
    }
    if returned {
      NothingFollows(g0, turns, used);
    } else {
      assert turns[..used] == turns;
    }
    UnbrokenIsPrefix(sent);
    if Read(sent) == Over {
      OverIsComplete(sent);
    }
  }

  lemma OpenedFacts(id: string, ok: bool)
    ensures Opened(id, ok).sent == [WAITING] && Read([WAITING]) == Searching
    ensures Opened(id, ok).pc == if ok then Idle else Leaving
    ensures Vouched(Opened(id, ok), [])
  {
    ReadyCheckGateways.Snoc([], WAITING);
  }
}

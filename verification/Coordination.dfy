/** The coordinator of one room: gather responses, decide, store the session or
    cancel, tell the ten gateways, put the gathered accepters back. */
module Coordination {
  import opened Collections
  import opened Players
  import opened Ordered
  import opened PoolIndex
  import opened Extraction
  import opened MatchPool
  import opened Matchmaking
  import opened SessionRegistry
  import opened ReadyCheck
  import opened ReadyCheckInvariant
  import opened ReadyCheckGuarantees

  // ------------------------------------------------------------------
  // Gathering
  // ------------------------------------------------------------------

  /** Ten messages at most, one from an index. */
  ghost predicate FanInOk(log: seq<FanIn>) {
    DistinctIdx(log) && forall m | m in log :: m.idx < PLAYERS_PER_MATCH
  }

  ghost predicate AllTen(log: seq<FanIn>) {
    forall i | 0 <= i < PLAYERS_PER_MATCH :: FanIn(i, true) in log
  }

  /** How many messages the gather loop takes: up to the first false one. */
  function Taken(log: seq<FanIn>): (n: nat)
    ensures n <= |log|
  {
    if log == [] then 0 else if !log[0].accepted then 1 else 1 + Taken(log[1..])
  }

  /** The protocol's coordinator, left to take what arrived and then give up. */
  function Decided(room: Room): Room
    requires forall m | m in room.log :: m.idx < |room.seats|
    decreases |room.log| - room.received
  {
    if room.phase != Gathering then room
    else if room.received < |room.log| then
      assert room.log[room.received] in room.log;
      Decided(Gathered(room))
    else GivenUp(room)
  }

  lemma {:induction false} TakenAll(log: seq<FanIn>, n: nat)
    requires n <= |log| && forall i | 0 <= i < n :: log[i].accepted
    ensures n < |log| && !log[n].accepted ==> Taken(log) == n + 1
    ensures n == |log| ==> Taken(log) == n
  {
    if n > 0 {
      TakenAll(log[1..], n - 1);
    }
  }

  /** All ten accepts in the log, exactly when the loop ends by counting to ten. */
  lemma AllTenMeansCounted(log: seq<FanIn>, n: nat)
    requires FanInOk(log) && n <= |log| && forall i | 0 <= i < n :: log[i].accepted
    requires n == |log| || n == PLAYERS_PER_MATCH || !log[n].accepted
    ensures n == PLAYERS_PER_MATCH <==> AllTen(log)
  {
    if n == PLAYERS_PER_MATCH {
      AllHere(log[..n], n);
    } else if AllTen(log) {
      AcceptsFill(log, PLAYERS_PER_MATCH);
      assert false;
    }
  }

  lemma LogFits(log: seq<FanIn>)
    requires FanInOk(log)
    ensures |log| <= PLAYERS_PER_MATCH
  {
    IndicesCount(log);
    SubsetSize(Indices(log), Below(PLAYERS_PER_MATCH));
  }

  lemma AllHere(taken: seq<FanIn>, n: nat)
    requires n == PLAYERS_PER_MATCH == |taken| && FanInOk(taken) && forall m | m in taken :: m.accepted
    ensures forall i | 0 <= i < n :: FanIn(i, true) in taken
  {
    forall i | 0 <= i < n ensures FanIn(i, true) in taken {
      AllTenSpoke(taken, i, n);
    }
  }

  /** The gather loop. `log` is what the select received, in order, before its context
      case was chosen or the loop ended. */
  method Gather(log: seq<FanIn>) returns (accepted: array<bool>, allAccepted: bool, responsesReceived: nat)
    requires FanInOk(log)
    ensures fresh(accepted) && accepted.Length == PLAYERS_PER_MATCH
    ensures responsesReceived == Taken(log)
    ensures forall i | 0 <= i < PLAYERS_PER_MATCH :: accepted[i] <==> FanIn(i, true) in log[..Taken(log)]
    ensures allAccepted <==> AllTen(log)
  {
    accepted := new bool[PLAYERS_PER_MATCH](_ => false);
    allAccepted := true;
    responsesReceived := 0;
    while responsesReceived < PLAYERS_PER_MATCH
      invariant responsesReceived <= |log| && responsesReceived <= PLAYERS_PER_MATCH
      invariant forall i | 0 <= i < responsesReceived :: log[i].accepted
      invariant forall i | 0 <= i < PLAYERS_PER_MATCH :: accepted[i] <==> FanIn(i, true) in log[..responsesReceived]
      invariant allAccepted
    {
      TakenAll(log, responsesReceived);
      if responsesReceived == |log| {
        AllTenMeansCounted(log, responsesReceived);
        allAccepted := false;
        return;
      }
      var resp := log[responsesReceived];
      assert log[..responsesReceived + 1] == log[..responsesReceived] + [resp];
      responsesReceived := responsesReceived + 1;
      accepted[resp.idx] := resp.accepted;
      if !resp.accepted {
        AllTenMeansCounted(log, responsesReceived - 1);
        allAccepted := false;
        return;
      }
    }
    LogFits(log);
    TakenAll(log, responsesReceived);
    AllTenMeansCounted(log, responsesReceived);
  }

  /** `accepted` of each seat is what the first `n` messages said. */
  ghost predicate SeatsShow(room: Room, n: nat) {
    && |room.seats| == PLAYERS_PER_MATCH && n <= |room.log|
    && forall i | 0 <= i < PLAYERS_PER_MATCH :: room.seats[i].accepted <==> FanIn(i, true) in room.log[..n]
  }

  /** The protocol's own gathering steps end where the loop does. */
  lemma {:induction false} GatherFollowsProtocol(room: Room)
    requires FanInOk(room.log) && room.phase == Gathering && room.received < PLAYERS_PER_MATCH
    requires SeatsShow(room, room.received) && forall i | 0 <= i < room.received :: room.log[i].accepted
    ensures Decided(room).log == room.log && Decided(room).received == Taken(room.log)
    ensures SeatsShow(Decided(room), Taken(room.log))
    ensures Decided(room).phase == if AllTen(room.log) then Creating else Notifying(false, 0)
    decreases |room.log| - room.received
  {
    hide FanInOk, SeatsShow, AllTen, Taken;
    var n := room.received;
    NextFits(room);
    if n == |room.log| {
      TakenAll(room.log, n);
      AllTenMeansCounted(room.log, n);
      GivenUpShows(room, n);
    } else {
      var next := Gathered(room);
      SeatsFollow(room, next);
      if !room.log[n].accepted || n + 1 == PLAYERS_PER_MATCH {
        LastTaken(room.log, n);
      } else {
        GatherFollowsProtocol(next);
      }
    }
  }

  lemma GivenUpShows(room: Room, n: nat)
    requires SeatsShow(room, n)
    ensures SeatsShow(GivenUp(room), n)
  {
  }

  lemma NextFits(room: Room)
    requires FanInOk(room.log) && SeatsShow(room, room.received)
    ensures room.received <= |room.log| && forall m | m in room.log :: m.idx < |room.seats|
    ensures room.received < |room.log| ==> room.log[room.received].idx < |room.seats|
  {
    assert room.received < |room.log| ==> room.log[room.received] in room.log;
  }

  lemma LastTaken(log: seq<FanIn>, n: nat)
    requires FanInOk(log) && n < |log| && n < PLAYERS_PER_MATCH && forall i | 0 <= i < n :: log[i].accepted
    requires !log[n].accepted || n + 1 == PLAYERS_PER_MATCH
    ensures Taken(log) == n + 1 && (AllTen(log) <==> log[n].accepted)
  {
    if log[n].accepted {
      LogFits(log);
      TakenAll(log, n + 1);
      AllTenMeansCounted(log, n + 1);
    } else {
      TakenAll(log, n);
      AllTenMeansCounted(log, n);
    }
  }

  lemma SeatsFollow(room: Room, next: Room)
    requires FanInOk(room.log) && SeatsShow(room, room.received) && room.received < |room.log|
    requires room.log[room.received].idx < |room.seats| && next == Gathered(room)
    ensures SeatsShow(next, room.received + 1)
  {
    var n, m := room.received, room.log[room.received];
    assert room.log[..n + 1] == room.log[..n] + [m];
    assert FanIn(m.idx, true) !in room.log[..n];
  }

  // ------------------------------------------------------------------
  // Telling and putting back
  // ------------------------------------------------------------------

  /** A result channel: buffered for one verdict, closed at most once. */
  datatype ResultCh = ResultCh(buf: Option<bool>, closed: bool)

  function PlayerIds(players: seq<QueuedPlayer>): seq<string> {
    seq(|players|, i requires 0 <= i < |players| => players[i].id)
  }

  /** The pool after the first `n` turns of the re-enqueue loop. */
  function Returned(st: PoolState, players: seq<QueuedPlayer>, accepted: seq<bool>, n: nat): PoolState
    requires n <= |players| == |accepted|
  {
    if n == 0 then st
    else
      var prev := Returned(st, players, accepted, n - 1);
      if accepted[n - 1] && players[n - 1].id !in prev.players then Insert(prev, players[n - 1]) else prev
  }

  /** Of the pool afterwards: who was there, and accepters of the room. */
  lemma {:induction false} ReturnedFrom(st: PoolState, players: seq<QueuedPlayer>, accepted: seq<bool>, n: nat)
    requires n <= |players| == |accepted|
    ensures forall id | id in st.players ::
              id in Returned(st, players, accepted, n).players && Returned(st, players, accepted, n).players[id] == st.players[id]
    ensures forall id | id in Returned(st, players, accepted, n).players && id !in st.players ::
              exists i :: 0 <= i < n && accepted[i] && Returned(st, players, accepted, n).players[id] == players[i]
  {
    if n > 0 {
      ReturnedFrom(st, players, accepted, n - 1);
    }
  }

  lemma {:induction false} ReturnedKeepsIndex(st: PoolState, players: seq<QueuedPlayer>, accepted: seq<bool>, n: nat)
    requires IndexOk(st) && n <= |players| == |accepted|
    ensures IndexOk(Returned(st, players, accepted, n))
  {
    hide IndexOk;
    if n > 0 {
      ReturnedKeepsIndex(st, players, accepted, n - 1);
      var prev := Returned(st, players, accepted, n - 1);
      if players[n - 1].id !in prev.players {
        InsertKeepsIndex(prev, players[n - 1]);
      }
    }
  }

  function GatheredIds(players: seq<QueuedPlayer>, accepted: seq<bool>, n: nat): set<string>
    requires n <= |players| == |accepted|
  {
    set i | 0 <= i < n && accepted[i] :: players[i].id
  }

  lemma {:induction false} ReturnedIds(st: PoolState, players: seq<QueuedPlayer>, accepted: seq<bool>, n: nat)
    requires n <= |players| == |accepted|
    ensures Returned(st, players, accepted, n).players.Keys == st.players.Keys + GatheredIds(players, accepted, n)
  {
    if n > 0 {
      ReturnedIds(st, players, accepted, n - 1);
      assert GatheredIds(players, accepted, n) ==
             GatheredIds(players, accepted, n - 1) + if accepted[n - 1] then {players[n - 1].id} else {};
    }
  }

  /** A failed room: the pool is as it was before the extraction, without the players
      whose accept was not gathered. Enqueue times and the index are kept. */
  lemma FailedRoomReturns(st: PoolState, sel: seq<QueuedPlayer>, accepted: seq<bool>, mid: PoolState, back: PoolState)
    requires IndexOk(st) && DistinctIds(sel) && PoolMembers(st, sel) && Ids(sel) <= st.players.Keys
    requires |sel| == |accepted| && mid == DeleteAll(st, sel) && back == Returned(mid, sel, accepted, |sel|)
    ensures IndexOk(back)
    ensures back.players == st.players - (Ids(sel) - GatheredIds(sel, accepted, |sel|))
  {
    hide IndexOk, DistinctIds, Returned, GatheredIds, DeleteAll;
    DeleteAllFrame(st, sel);
    ReturnedKeepsIndex(mid, sel, accepted, |sel|);
    ReturnedIds(mid, sel, accepted, |sel|);
    GatheredWithin(sel, accepted);
    forall id | id in back.players ensures back.players[id] == st.players[id] {
      ReturnedAsBefore(st, sel, accepted, mid, back, id);
    }
  }

  lemma GatheredWithin(sel: seq<QueuedPlayer>, accepted: seq<bool>)
    requires |sel| == |accepted|
    ensures GatheredIds(sel, accepted, |sel|) <= Ids(sel)
  {
    assert forall i | 0 <= i < |sel| :: sel[i] in sel && sel[i].id in Ids(sel);
  }

  lemma ReturnedAsBefore(st: PoolState, sel: seq<QueuedPlayer>, accepted: seq<bool>, mid: PoolState, back: PoolState, id: string)
    requires PoolMembers(st, sel) && |sel| == |accepted| && mid.players == st.players - Ids(sel)
    requires back == Returned(mid, sel, accepted, |sel|) && IndexOk(back) && id in back.players
    ensures id in st.players && back.players[id] == st.players[id]
  {
    ReturnedFrom(mid, sel, accepted, |sel|);
    hide Returned;
    if id !in mid.players {
      var i :| 0 <= i < |sel| && accepted[i] && back.players[id] == sel[i];
      assert sel[i] in sel;
      assert PlayerOk(back, id);
    }
  }

  // ------------------------------------------------------------------
  // The coordinator
  // ------------------------------------------------------------------

  /** Sends the verdict on each result channel and closes it. */
  method Tell(results: array<ResultCh>, verdict: bool)
    requires forall i | 0 <= i < results.Length :: results[i] == ResultCh(None, false)
    modifies results
    ensures forall i | 0 <= i < results.Length :: results[i] == ResultCh(Some(verdict), true)
  {
    var i := 0;
    while i < results.Length
      invariant 0 <= i <= results.Length
      invariant forall j | 0 <= j < i :: results[j] == ResultCh(Some(verdict), true)
      invariant forall j | i <= j < results.Length :: results[j] == ResultCh(None, false)
    {
      results[i] := results[i].(buf := Some(verdict));
      results[i] := results[i].(closed := true);
      i := i + 1;
    }
  }

  /** The re-enqueue loop. */
  method PutBack(pool: Pool, players: seq<QueuedPlayer>, accepted: array<bool>)
    requires pool.Valid() && |players| == accepted.Length && OwnHandles(players)
    requires forall i | 0 <= i < |players| && accepted[i] :: CanGoBack(pool.players, pool.channels, players[i])
    modifies pool`players, pool`brackets, pool`index, pool`Repr, pool.Repr
    ensures pool.Valid() && fresh(pool.Repr - old(pool.Repr))
    ensures pool.State() == Returned(old(pool.State()), players, old(accepted[..]), |players|)
  {
    hide IndexOk, Ready, Returned;
    ghost var st, acc := pool.State(), accepted[..];
    var i := 0;
    BackNone(st, players, acc);
    while i < |players|
      invariant 0 <= i <= |players| && accepted[..] == acc
      invariant pool.Valid() && fresh(pool.Repr - old(pool.Repr))
      invariant pool.State() == Returned(st, players, acc, i)
    {
      BackStep(st, players, acc, i);
      if accepted[i] {
        BackAlone(st, players, acc, i, pool.channels);
        var ok := pool.ReEnqueue(players[i]);
      }
      i := i + 1;
    }
  }

  lemma BackAlone(st: PoolState, players: seq<QueuedPlayer>, accepted: seq<bool>, i: nat, channels: map<nat, MatchCh>)
    requires i < |players| == |accepted| && OwnHandles(players) && CanGoBack(st.players, channels, players[i])
    ensures CanGoBack(Returned(st, players, accepted, i).players, channels, players[i])
  {
    ReturnedFrom(st, players, accepted, i);
    hide Returned;
  }

  lemma BackNone(st: PoolState, players: seq<QueuedPlayer>, accepted: seq<bool>)
    requires |players| == |accepted|
    ensures Returned(st, players, accepted, 0) == st
  {
  }

  lemma BackStep(st: PoolState, players: seq<QueuedPlayer>, accepted: seq<bool>, i: nat)
    requires i < |players| == |accepted|
    ensures Returned(st, players, accepted, i + 1) ==
            if accepted[i] && players[i].id !in Returned(st, players, accepted, i).players
            then Insert(Returned(st, players, accepted, i), players[i]) else Returned(st, players, accepted, i)
  {
  }

  /** The verdict false: everyone is told, the gathered accepters go back. */
  method Cancel(pool: Pool, players: seq<QueuedPlayer>, accepted: array<bool>, results: array<ResultCh>)
    requires pool.Valid() && |players| == accepted.Length && OwnHandles(players)
    requires forall i | 0 <= i < results.Length :: results[i] == ResultCh(None, false)
    requires forall i | 0 <= i < |players| && accepted[i] :: CanGoBack(pool.players, pool.channels, players[i])
    modifies pool`players, pool`brackets, pool`index, pool`Repr, pool.Repr, results
    ensures pool.Valid()
    ensures forall i | 0 <= i < results.Length :: results[i] == ResultCh(Some(false), true)
    ensures pool.State() == Returned(old(pool.State()), players, old(accepted[..]), |players|)
  {
    hide IndexOk, Ready, Returned, CanGoBack;
    Tell(results, false);
    PutBack(pool, players, accepted);
  }

  lemma GatheredFit(
    queued: map<string, QueuedPlayer>, channels: map<nat, MatchCh>, players: seq<QueuedPlayer>, log: seq<FanIn>, accepted: seq<bool>)
    requires |players| == |accepted| == PLAYERS_PER_MATCH
    requires forall i | 0 <= i < PLAYERS_PER_MATCH && FanIn(i, true) in log :: CanGoBack(queued, channels, players[i])
    requires forall i | 0 <= i < PLAYERS_PER_MATCH :: accepted[i] <==> FanIn(i, true) in log[..Taken(log)]
    ensures forall i | 0 <= i < PLAYERS_PER_MATCH && accepted[i] :: CanGoBack(queued, channels, players[i])
  {
    hide CanGoBack, Taken;
    assert forall m | m in log[..Taken(log)] :: m in log;
  }

  /** The whole of one room, undisturbed. */
  method Coordinate(
    pool: Pool, sessions: SessionStore, sid: string, players: seq<QueuedPlayer>, log: seq<FanIn>, results: array<ResultCh>)
    returns (verdict: bool, accepted: array<bool>)
    requires pool.Valid() && sessions.Valid()
    requires |players| == results.Length == PLAYERS_PER_MATCH && OwnHandles(players) && FanInOk(log)
    requires forall i | 0 <= i < PLAYERS_PER_MATCH :: results[i] == ResultCh(None, false)
    requires forall i | 0 <= i < PLAYERS_PER_MATCH && FanIn(i, true) in log ::
               CanGoBack(pool.players, pool.channels, players[i])
    modifies pool`players, pool`brackets, pool`index, pool`Repr, pool.Repr, sessions, results
    ensures pool.Valid() && sessions.Valid() && accepted.Length == PLAYERS_PER_MATCH
    ensures verdict <==> AllTen(log)
    ensures forall i | 0 <= i < PLAYERS_PER_MATCH :: accepted[i] <==> FanIn(i, true) in log[..Taken(log)]
    ensures forall i | 0 <= i < PLAYERS_PER_MATCH :: results[i] == ResultCh(Some(verdict), true)
    ensures verdict ==>
              && sessions.Contents() == After(old(sessions.Contents()), Op.Create(sid, PlayerIds(players)))
              && pool.State() == old(pool.State())
    ensures !verdict ==>
              && sessions.Contents() == old(sessions.Contents())
              && pool.State() == Returned(old(pool.State()), players, accepted[..], PLAYERS_PER_MATCH)
  {
    hide IndexOk, Ready, Returned, FanInOk, CanGoBack, Taken, AllTen, After;
    var received: nat;
    accepted, verdict, received := Gather(log);
    if verdict {
      sessions.CreateSession(sid, PlayerIds(players));
      Tell(results, true);
      return;
    }
    GatheredFit(pool.players, pool.channels, players, log, accepted[..]);
    Cancel(pool, players, accepted, results);
  }
}

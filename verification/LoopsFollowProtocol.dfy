/** The loops of the tick and of the coordinator, run to the end undisturbed, are runs
    of the protocol, step for step. */
module LoopsFollowProtocol {
  import opened Players
  import opened PoolIndex
  import opened MatchPool
  import opened Matchmaking
  import opened Coordination
  import opened ReadyCheck
  import opened ReadyCheckInvariant
  import opened ReadyCheckGuarantees
  import opened ReadyCheckTraces
  import opened Refinement
  import opened LiveServer
  import Extraction
  import ReadyCheckSteps

  // ------------------------------------------------------------------
  // From one state to another
  // ------------------------------------------------------------------

  /** Where the protocol has come to from `s0`, with the pool beside it. */
  ghost predicate At(s0: State, w: World, s: State) {
    Leads(s0, s) && InStep(w, s)
  }

  lemma Go(s0: State, w: World, s: State, a: Action, w': World)
    requires At(s0, w, s) && Enabled(s, a) && PoolStep(w, s, a, w')
    ensures At(s0, w', Apply(s, a))
  {
    hide Enabled, Apply, PoolStep, InStep, Leads;
    LeadsOn(s0, s, a);
    MovedInStep(w, s, a, w');
  }

  // ------------------------------------------------------------------
  // Telling the ten
  // ------------------------------------------------------------------

  /** The channels after the first `n` sends of a room. */
  function Announced(channels: map<nat, MatchCh>, sel: seq<QueuedPlayer>, room: nat, n: nat): map<nat, MatchCh>
    requires n <= |sel| && forall i | 0 <= i < |sel| :: sel[i].handle in channels
    ensures Announced(channels, sel, room, n).Keys == channels.Keys
  {
    if n == 0 then channels
    else
      var prev := Announced(channels, sel, room, n - 1);
      prev[sel[n - 1].handle := Buffered(prev[sel[n - 1].handle], Event(room, n - 1))]
  }

  lemma {:induction false} AnnouncedFacts(channels: map<nat, MatchCh>, sel: seq<QueuedPlayer>, room: nat, n: nat)
    requires n <= |sel| && OwnHandles(sel)
    requires forall i | 0 <= i < |sel| :: sel[i].handle in channels && channels[sel[i].handle] == READY
    ensures ToldFirst(Announced(channels, sel, room, n), sel, room, n)
    ensures forall i | n <= i < |sel| :: Announced(channels, sel, room, n)[sel[i].handle] == READY
    ensures OnlyRoomTold(channels, Announced(channels, sel, room, n), sel)
  {
    if n > 0 {
      AnnouncedFacts(channels, sel, room, n - 1);
    }
  }

  /** What the announcing loop promises leaves no choice of channels. */
  lemma ToldIsAnnounced(channels: map<nat, MatchCh>, sel: seq<QueuedPlayer>, room: nat, after: map<nat, MatchCh>)
    requires OwnHandles(sel)
    requires forall i | 0 <= i < |sel| :: sel[i].handle in channels && channels[sel[i].handle] == READY
    requires ToldFirst(after, sel, room, |sel|) && OnlyRoomTold(channels, after, sel)
    ensures after == Announced(channels, sel, room, |sel|)
  {
    var told := Announced(channels, sel, room, |sel|);
    AnnouncedFacts(channels, sel, room, |sel|);
    forall h | h in channels ensures after[h] == told[h] {
      if HasHandle(sel, h) {
        var i :| 0 <= i < |sel| && sel[i].handle == h;
      }
    }
  }

  /** Room `r` is at a phase, over the given players, with nothing gathered. */
  ghost predicate RoomAt(s: State, r: nat, phase: Phase, sel: seq<QueuedPlayer>) {
    && r in s.rooms && s.rooms[r].phase == phase && |s.rooms[r].seats| == |sel|
    && !s.rooms[r].counted
    && forall i | 0 <= i < |sel| :: s.rooms[r].seats[i].player == sel[i].handle
  }

  /** Nothing but room `r` and the gateways' records may differ. */
  ghost predicate OnlyRoom(s: State, t: State, r: nat) {
    t.rooms.Keys == s.rooms.Keys + {r} && t.matches == s.matches && t.sessions == s.sessions
  }

  lemma {:induction false} SendAll(s0: State, w: World, s: State, r: nat, sel: seq<QueuedPlayer>, k: nat, ch: map<nat, MatchCh>)
    returns (t: State)
    requires |sel| == PLAYERS_PER_MATCH && k <= |sel|
    requires forall i | 0 <= i < |sel| :: sel[i].handle in ch
    requires At(s0, w, s) && RoomAt(s, r, Sending(k), sel) && w.channels == Announced(ch, sel, r, k)
    ensures At(s0, w.(channels := Announced(ch, sel, r, |sel|)), t)
    ensures RoomAt(t, r, Sending(PLAYERS_PER_MATCH), sel) && OnlyRoom(s, t, r)
    decreases |sel| - k
  {
    hide At, Announced;
    if k == |sel| {
      t := s;
    } else {
      var w', s' := SendOne(s0, w, s, r, sel, k);
      AnnouncedStep(ch, sel, r, k);
      t := SendAll(s0, w', s', r, sel, k + 1, ch);
    }
  }

  lemma AnnouncedStep(ch: map<nat, MatchCh>, sel: seq<QueuedPlayer>, room: nat, k: nat)
    requires k < |sel| && forall i | 0 <= i < |sel| :: sel[i].handle in ch
    ensures Announced(ch, sel, room, k + 1) ==
            Announced(ch, sel, room, k)[sel[k].handle := Buffered(Announced(ch, sel, room, k)[sel[k].handle], Event(room, k))]
  {
  }

  lemma SendOne(s0: State, w: World, s: State, r: nat, sel: seq<QueuedPlayer>, k: nat) returns (w': World, s': State)
    requires At(s0, w, s) && RoomAt(s, r, Sending(k), sel) && k < |sel| == PLAYERS_PER_MATCH
    ensures sel[k].handle in w.channels
    ensures w' == w.(channels := w.channels[sel[k].handle := Buffered(w.channels[sel[k].handle], Event(r, k))])
    ensures At(s0, w', s') && RoomAt(s', r, Sending(k + 1), sel) && OnlyRoom(s, s', r)
  {
    hide InStep, Leads;
    MannedSeat(w, s, Event(r, k));
    var h := sel[k].handle;
    CanSend(w, s, r, k, h);
    w' := w.(channels := w.channels[h := Buffered(w.channels[h], Event(r, k))]);
    Go(s0, w, s, Deliver(r), w');
    s' := Apply(s, Deliver(r));
  }

  lemma MannedSeat(w: World, s: State, e: Event)
    requires InStep(w, s) && HasSeat(s, e)
    ensures SeatOf(s, e).player in s.gw
  {
    ReachableOk(s);
    ReadyCheckSteps.OfSeat(s, e);
    hide Inv, Core, RoomOk;
  }

  // ------------------------------------------------------------------
  // The tick
  // ------------------------------------------------------------------

  lemma OpenRoom(s0: State, w: World, s: State, now: real, sel: seq<QueuedPlayer>, rest: PoolState, r: nat) returns (t: State)
    requires At(s0, w, s) && Extraction.Extracted(w.st, now, sel, rest) && r !in s.rooms
    ensures |sel| == PLAYERS_PER_MATCH && At(s0, w.(st := rest), t) && RoomAt(t, r, Sending(0), sel) && OnlyRoom(s, t, r)
  {
    hide InStep, Leads, Extraction.Extracted;
    var ids := PlayerIds(sel);
    CanMatch(w, s, now, sel, ids, rest, r);
    Opened(w, s, now, sel, ids, rest, r);
    Go(s0, w, s, Extract(r, ids), w.(st := rest));
    t := Apply(s, Extract(r, ids));
  }

  lemma Opened(w: World, s: State, now: real, sel: seq<QueuedPlayer>, ids: seq<string>, rest: PoolState, r: nat)
    requires InStep(w, s) && Extraction.Extracted(w.st, now, sel, rest) && r !in s.rooms && ids == PlayerIds(sel)
    requires Enabled(s, Extract(r, ids))
    ensures |sel| == PLAYERS_PER_MATCH && RoomAt(RoomOpened(s, r, ids), r, Sending(0), sel) && OnlyRoom(s, RoomOpened(s, r, ids), r)
  {
    hide Coupled, IndexOk, Ready, Reachable, Extraction.Extracted, Position;
    SelectedIds(sel);
    ExtractionAllowed(w, s, now, sel, ids, rest, r);
  }

  /** The tick starts the coordinator and counts the match. */
  lemma LaunchAndCount(s0: State, w: World, s: State, r: nat, sel: seq<QueuedPlayer>) returns (t: State)
    requires At(s0, w, s) && RoomAt(s, r, Sending(PLAYERS_PER_MATCH), sel)
    ensures At(s0, w, t) && t.rooms.Keys == s.rooms.Keys && t.sessions == s.sessions && t.matches == s.matches + 1
    ensures r in t.rooms && t.rooms[r].phase == Gathering && t.rooms[r].counted
  {
    hide InStep, Leads;
    Go(s0, w, s, Launch(r), w);
    var mid := Apply(s, Launch(r));
    Go(s0, w, mid, Count(r), w);
    t := Apply(mid, Count(r));
  }

  /** One turn of the tick loop: extraction, ten sends, launch, count. */
  lemma MatchFollowsProtocol(
    s0: State, w: World, s: State, sel: seq<QueuedPlayer>, rest: PoolState, r: nat, after: map<nat, MatchCh>) returns (t: State)
    requires At(s0, w, s) && Matched(w.st, sel, rest) && r !in s.rooms
    requires ToldFirst(after, sel, r, |sel|) && OnlyRoomTold(w.channels, after, sel)
    ensures At(s0, World(rest, after, w.made), t) && t.rooms.Keys == s.rooms.Keys + {r}
    ensures t.matches == s.matches + 1 && t.sessions == s.sessions && t.rooms[r].phase == Gathering
  {
    hide InStep, Leads, Extraction.Extracted, RoomAt, ToldFirst, OnlyRoomTold;
    var now :| Extraction.Extracted(w.st, now, sel, rest);
    SelReady(w, s, now, sel, rest);
    ToldIsAnnounced(w.channels, sel, r, after);
    var begun := OpenRoom(s0, w, s, now, sel, rest, r);
    NoneAnnounced(w.channels, sel, r);
    hide Announced;
    var told := SendAll(s0, w.(st := rest), begun, r, sel, 0, w.channels);
    t := LaunchAndCount(s0, w.(st := rest, channels := after), told, r, sel);
  }

  lemma SelReady(w: World, s: State, now: real, sel: seq<QueuedPlayer>, rest: PoolState)
    requires InStep(w, s) && Extraction.Extracted(w.st, now, sel, rest)
    ensures OwnHandles(sel) && forall i | 0 <= i < |sel| :: sel[i].handle in w.channels && w.channels[sel[i].handle] == READY
  {
    hide Coupled, IndexOk, Ready, Reachable;
    CanAnnounce(w.st, now, w.channels, sel, rest);
  }

  lemma NoneAnnounced(ch: map<nat, MatchCh>, sel: seq<QueuedPlayer>, r: nat)
    requires forall i | 0 <= i < |sel| :: sel[i].handle in ch
    ensures Announced(ch, sel, r, 0) == ch
  {
  }

  // ------------------------------------------------------------------
  // The whole tick
  // ------------------------------------------------------------------

  function Numbers(first: nat, n: nat): set<nat> {
    if n == 0 then {} else Numbers(first, n - 1) + {first + n - 1}
  }

  lemma {:induction false} NumbersAre(first: nat, n: nat, r: nat)
    ensures r in Numbers(first, n) <==> first <= r < first + n
  {
    if n > 0 {
      NumbersAre(first, n - 1, r);
    }
  }

  /** The channels before the last room was told. */
  function Before(start: map<nat, MatchCh>, after: map<nat, MatchCh>, sel: seq<QueuedPlayer>): map<nat, MatchCh>
    requires start.Keys == after.Keys
  {
    map h | h in after :: if HasHandle(sel, h) then start[h] else after[h]
  }

  lemma BeforeFacts(
    st: PoolState, start: map<nat, MatchCh>, after: map<nat, MatchCh>, rooms: seq<seq<QueuedPlayer>>, sel: seq<QueuedPlayer>,
    rest: PoolState, first: nat)
    requires Ready(st.players, start) && Shared(st, rooms + [sel], rest)
    requires AllTold(after, rooms + [sel], first) && OnlyRoomsTold(start, after, rooms + [sel])
    ensures AllTold(Before(start, after, sel), rooms, first) && OnlyRoomsTold(start, Before(start, after, sel), rooms)
    ensures OnlyRoomTold(Before(start, after, sel), after, sel) && ToldFirst(after, sel, first + |rooms|, |sel|)
  {
    EarlierTold(st, start, after, rooms, sel, rest, first);
    OthersUntold(start, after, rooms, sel);
    assert (rooms + [sel])[|rooms|] == sel;
    hide Shared, Ready, HasHandle, OnlyRoomsTold;
  }

  lemma OthersUntold(start: map<nat, MatchCh>, after: map<nat, MatchCh>, rooms: seq<seq<QueuedPlayer>>, sel: seq<QueuedPlayer>)
    requires OnlyRoomsTold(start, after, rooms + [sel])
    ensures OnlyRoomsTold(start, Before(start, after, sel), rooms)
  {
    hide HasHandle;
    var all, before := rooms + [sel], Before(start, after, sel);
    forall h | h in start && start[h] != before[h] ensures exists r :: 0 <= r < |rooms| && HasHandle(rooms[r], h) {
      var r :| 0 <= r < |all| && HasHandle(all[r], h);
      assert HasHandle(rooms[r], h);
    }
  }

  lemma EarlierTold(
    st: PoolState, start: map<nat, MatchCh>, after: map<nat, MatchCh>, rooms: seq<seq<QueuedPlayer>>, sel: seq<QueuedPlayer>,
    rest: PoolState, first: nat)
    requires Ready(st.players, start) && Shared(st, rooms + [sel], rest) && start.Keys == after.Keys
    requires AllTold(after, rooms + [sel], first)
    ensures AllTold(Before(start, after, sel), rooms, first)
  {
    hide Shared, Ready;
    forall r | 0 <= r < |rooms| ensures ToldFirst(Before(start, after, sel), rooms[r], first + r, |rooms[r]|) {
      assert (rooms + [sel])[r] == rooms[r];
      assert ToldFirst(after, rooms[r], first + r, |rooms[r]|);
      forall i | 0 <= i < |rooms[r]| ensures !HasHandle(sel, rooms[r][i].handle) {
        RoomsApart(st, start, rooms, sel, rest, r, i);
      }
      hide HasHandle;
    }
  }

  /** An undisturbed tick, as its loop promises it, is a run of the protocol: an
      extraction, ten sends, a launch and a count for each room in turn. */
  lemma {:induction false} TickFollowsProtocol(
    w: World, s: State, rooms: seq<seq<QueuedPlayer>>, rest: PoolState, first: nat, after: map<nat, MatchCh>) returns (t: State)
    requires InStep(w, s) && forall r: nat | first <= r :: r !in s.rooms
    requires Drained(w.st, rooms, rest)
    requires AllTold(after, rooms, first) && OnlyRoomsTold(w.channels, after, rooms)
    ensures Leads(s, t) && InStep(World(rest, after, w.made), t)
    ensures t.matches == s.matches + |rooms| && t.sessions == s.sessions
    ensures t.rooms.Keys == s.rooms.Keys + Numbers(first, |rooms|)
    decreases |rooms|
  {
    hide *;
    if rooms == [] {
      NoRoomsDrained(w, rest, first, after);
      LeadsNowhere(s);
      t := s;
    } else {
      var before := rooms[..|rooms| - 1];
      var sel, mid, ch := LastMatch(w, s, rooms, before, rest, first, after);
      var u := TickFollowsProtocol(w, s, before, mid, first, ch);
      NumbersAre(first, |before|, first + |before|);
      OneMoreNumber(first, |before|);
      AtIs(s, World(mid, ch, w.made), u);
      t := MatchFollowsProtocol(s, World(mid, ch, w.made), u, sel, rest, first + |before|, after);
      AtIs(s, World(rest, after, w.made), t);
    }
  }

  lemma AtIs(s0: State, w: World, s: State)
    ensures At(s0, w, s) <==> Leads(s0, s) && InStep(w, s)
  {
  }

  lemma OneMoreNumber(first: nat, n: nat)
    ensures Numbers(first, n + 1) == Numbers(first, n) + {first + n}
  {
  }

  lemma NoRoomsDrained(w: World, rest: PoolState, first: nat, after: map<nat, MatchCh>)
    requires Drained(w.st, [], rest) && OnlyRoomsTold(w.channels, after, [])
    ensures World(rest, after, w.made) == w && Numbers(first, 0) == {}
  {
  }

  /** The last room of a tick, and how things stood before it. */
  lemma LastMatch(
    w: World, s: State, rooms: seq<seq<QueuedPlayer>>, before: seq<seq<QueuedPlayer>>, rest: PoolState, first: nat,
    after: map<nat, MatchCh>) returns (sel: seq<QueuedPlayer>, mid: PoolState, ch: map<nat, MatchCh>)
    requires InStep(w, s) && rooms != [] && before == rooms[..|rooms| - 1] && Drained(w.st, rooms, rest)
    requires AllTold(after, rooms, first) && OnlyRoomsTold(w.channels, after, rooms)
    ensures Drained(w.st, before, mid) && Matched(mid, sel, rest)
    ensures AllTold(ch, before, first) && OnlyRoomsTold(w.channels, ch, before)
    ensures ToldFirst(after, sel, first + |before|, |sel|) && OnlyRoomTold(ch, after, sel)
  {
    hide InStep, Matched, Shared, AllTold, OnlyRoomsTold, ToldFirst, OnlyRoomTold, Before, IndexOk, Ready;
    sel := rooms[|rooms| - 1];
    assert rooms == before + [sel];
    assert DrainedThen(w.st, before, sel, rest);
    mid := LastRound(w.st, before, sel, rest);
    InStepReady(w, s);
    DrainedIsShared(w.st, rooms, rest);
    SameKeys(w.channels, after, rooms);
    BeforeFacts(w.st, w.channels, after, before, sel, rest, first);
    ch := Before(w.channels, after, sel);
  }

  lemma SameKeys(start: map<nat, MatchCh>, after: map<nat, MatchCh>, rooms: seq<seq<QueuedPlayer>>)
    requires OnlyRoomsTold(start, after, rooms)
    ensures start.Keys == after.Keys
  {
  }

  // ------------------------------------------------------------------
  // The coordinator
  // ------------------------------------------------------------------

  lemma ItsRoomOk(w: World, s: State, r: nat)
    requires InStep(w, s) && r in s.rooms
    ensures RoomOk(s.rooms[r]) && SeatsManned(s, r) && |s.rooms[r].seats| == PLAYERS_PER_MATCH
    ensures forall m | m in s.rooms[r].log :: m.idx < |s.rooms[r].seats|
  {
    ReachableOk(s);
    ReadyCheckSteps.OfRoom(s, r);
    hide Inv, Core, SeatOk, Coupled, IndexOk, Ready;
  }

  lemma PutTwice(s: State, r: nat, x: Room, y: Room)
    ensures PutRoom(PutRoom(s, r, x), r, y) == PutRoom(s, r, y)
  {
  }

  /** The gather loop, taking what has arrived and then giving up. */
  lemma {:induction false} GatherAll(s0: State, w: World, s: State, r: nat) returns (t: State)
    requires At(s0, w, s) && r in s.rooms && s.rooms[r].phase == Gathering
    ensures forall m | m in s.rooms[r].log :: m.idx < |s.rooms[r].seats|
    ensures At(s0, w, t) && t == PutRoom(s, r, Decided(s.rooms[r]))
    decreases |s.rooms[r].log| - s.rooms[r].received
  {
    hide InStep, Leads, RoomOk, Gathered, GivenUp;
    ItsRoomOk(w, s, r);
    var room := s.rooms[r];
    if room.received < |room.log| {
      var next := TakeOne(s0, w, s, r);
      if Gathered(room).phase == Gathering {
        GatheredFrame(room);
        t := GatherAll(s0, w, next, r);
        PutTwice(s, r, Gathered(room), Decided(Gathered(room)));
      } else {
        t := next;
      }
    } else {
      t := StopGathering(s0, w, s, r);
    }
  }

  lemma GatheredFrame(room: Room)
    requires room.received < |room.log| && room.log[room.received].idx < |room.seats|
    ensures Gathered(room).log == room.log && Gathered(room).received == room.received + 1
  {
  }

  lemma TakeOne(s0: State, w: World, s: State, r: nat) returns (t: State)
    requires At(s0, w, s) && r in s.rooms && s.rooms[r].phase == Gathering && s.rooms[r].received < |s.rooms[r].log|
    ensures s.rooms[r].log[s.rooms[r].received].idx < |s.rooms[r].seats|
    ensures At(s0, w, t) && t == PutRoom(s, r, Gathered(s.rooms[r]))
  {
    hide InStep, Leads, RoomOk, Gathered;
    ItsRoomOk(w, s, r);
    assert s.rooms[r].log[s.rooms[r].received] in s.rooms[r].log;
    Go(s0, w, s, Gather(r), w);
    t := Apply(s, Gather(r));
  }

  lemma StopGathering(s0: State, w: World, s: State, r: nat) returns (t: State)
    requires At(s0, w, s) && r in s.rooms && s.rooms[r].phase == Gathering
    ensures At(s0, w, t) && t == PutRoom(s, r, GivenUp(s.rooms[r]))
  {
    hide InStep, Leads;
    t := s;
    if !s.rooms[r].ctxDone {
      Go(s0, w, s, Timeout(r), w);
      t := Apply(s, Timeout(r));
    }
    Go(s0, w, t, GiveUp(r), w);
    t := Apply(t, GiveUp(r));
  }

  /** Room `r` over its players: what was accepted, and which channels hold the verdict. */
  ghost predicate Telling(s: State, r: nat, players: seq<QueuedPlayer>, accepted: seq<bool>, told: Option<bool>, n: nat) {
    && r in s.rooms && |s.rooms[r].seats| == |players| == |accepted|
    && (forall i | 0 <= i < |players| ::
          s.rooms[r].seats[i].player == players[i].handle && s.rooms[r].seats[i].accepted == accepted[i])
    && (forall i | 0 <= i < n && i < |players| :: s.rooms[r].seats[i].result == told && s.rooms[r].seats[i].resultClosed)
  }

  lemma {:induction false} TellAll(
    s0: State, w: World, s: State, r: nat, players: seq<QueuedPlayer>, accepted: seq<bool>, v: bool, k: nat) returns (t: State)
    requires At(s0, w, s) && Telling(s, r, players, accepted, Some(v), k) && |players| == PLAYERS_PER_MATCH
    requires k < PLAYERS_PER_MATCH && s.rooms[r].phase == Notifying(v, k)
    ensures At(s0, w, t) && Telling(t, r, players, accepted, Some(v), PLAYERS_PER_MATCH) && t.sessions == s.sessions
    ensures t.rooms[r].phase == if v then Done(true) else Requeuing(0)
    decreases PLAYERS_PER_MATCH - k
  {
    hide At;
    t := TellNext(s0, w, s, r, players, accepted, v, k);
    if k + 1 < PLAYERS_PER_MATCH {
      t := TellAll(s0, w, t, r, players, accepted, v, k + 1);
    }
  }

  lemma TellNext(
    s0: State, w: World, s: State, r: nat, players: seq<QueuedPlayer>, accepted: seq<bool>, v: bool, k: nat) returns (t: State)
    requires At(s0, w, s) && Telling(s, r, players, accepted, Some(v), k) && |players| == PLAYERS_PER_MATCH
    requires k < PLAYERS_PER_MATCH && s.rooms[r].phase == Notifying(v, k)
    ensures At(s0, w, t) && Telling(t, r, players, accepted, Some(v), k + 1) && t.sessions == s.sessions
    ensures t.rooms[r].phase == if k + 1 < PLAYERS_PER_MATCH then Notifying(v, k + 1) else if v then Done(true) else Requeuing(0)
  {
    hide InStep, Leads;
    CanNotifyNext(w, s, r);
    Go(s0, w, s, Notify(r), w);
    t := Apply(s, Notify(r));
  }

  lemma CanNotifyNext(w: World, s: State, r: nat)
    requires InStep(w, s) && r in s.rooms && s.rooms[r].phase.Notifying?
    ensures Enabled(s, Notify(r))
  {
    SendsNeverBlock(s);
    hide Reachable, Coupled, IndexOk, Ready;
  }

  lemma {:induction false} ReturnAll(
    s0: State, w: World, s: State, r: nat, players: seq<QueuedPlayer>, accepted: seq<bool>, st: PoolState, k: nat) returns (t: State)
    requires At(s0, w, s) && Telling(s, r, players, accepted, Some(false), PLAYERS_PER_MATCH) && |players| == PLAYERS_PER_MATCH
    requires k < PLAYERS_PER_MATCH && s.rooms[r].phase == Requeuing(k) && w.st == Returned(st, players, accepted, k)
    requires forall i | 0 <= i < |players| :: players[i].handle in w.made && w.made[players[i].handle] == players[i]
    ensures At(s0, w.(st := Returned(st, players, accepted, PLAYERS_PER_MATCH)), t) && t.sessions == s.sessions
    ensures Telling(t, r, players, accepted, Some(false), PLAYERS_PER_MATCH) && t.rooms[r].phase == Done(false)
    decreases PLAYERS_PER_MATCH - k
  {
    hide At, Returned;
    BackStep(st, players, accepted, k);
    var w' := w.(st := Returned(st, players, accepted, k + 1));
    t := ReturnNext(s0, w, s, r, players, accepted, k, w');
    if k + 1 < PLAYERS_PER_MATCH {
      t := ReturnAll(s0, w', t, r, players, accepted, st, k + 1);
    }
  }

  lemma ReturnNext(
    s0: State, w: World, s: State, r: nat, players: seq<QueuedPlayer>, accepted: seq<bool>, k: nat, w': World) returns (t: State)
    requires At(s0, w, s) && Telling(s, r, players, accepted, Some(false), PLAYERS_PER_MATCH) && |players| == PLAYERS_PER_MATCH
    requires k < PLAYERS_PER_MATCH && s.rooms[r].phase == Requeuing(k)
    requires players[k].handle in w.made && w.made[players[k].handle] == players[k]
    requires w' == if accepted[k] && players[k].id !in w.st.players then w.(st := Insert(w.st, players[k])) else w
    ensures At(s0, w', t) && t.sessions == s.sessions && Telling(t, r, players, accepted, Some(false), PLAYERS_PER_MATCH)
    ensures t.rooms[r].phase == if k + 1 < PLAYERS_PER_MATCH then Requeuing(k + 1) else Done(false)
  {
    hide InStep, Leads, Insert;
    ItsRoomOk(w, s, r);
    CanRequeue(w, s, r, s.rooms[r].seats[k]);
    Go(s0, w, s, Requeue(r), w');
    t := Apply(s, Requeue(r));
  }

  lemma CreateNow(s0: State, w: World, s: State, r: nat, players: seq<QueuedPlayer>, accepted: seq<bool>) returns (t: State)
    requires At(s0, w, s) && Telling(s, r, players, accepted, None, 0) && s.rooms[r].phase == Creating
    requires forall i | 0 <= i < |players| :: players[i].handle in w.made && w.made[players[i].handle] == players[i]
    ensures At(s0, w, t) && Telling(t, r, players, accepted, None, 0) && t.rooms[r].phase == Notifying(true, 0)
    ensures t.sessions == s.sessions[r := PlayerIds(players)]
  {
    hide InStep, Leads;
    ItsRoomOk(w, s, r);
    TheirIds(w, s, r, players);
    Go(s0, w, s, Create(r), w);
    t := Apply(s, Create(r));
  }

  lemma TheirIds(w: World, s: State, r: nat, players: seq<QueuedPlayer>)
    requires InStep(w, s) && r in s.rooms && SeatsManned(s, r) && |s.rooms[r].seats| == |players|
    requires forall i | 0 <= i < |players| :: s.rooms[r].seats[i].player == players[i].handle
    requires forall i | 0 <= i < |players| :: players[i].handle in w.made && w.made[players[i].handle] == players[i]
    ensures SessionIds(s, s.rooms[r]) == PlayerIds(players)
  {
    OfView(w, s);
    hide Coupled, IndexOk, Ready, Reachable;
    SelectedIds(players);
  }

  /** A coordinator that takes what has arrived, undisturbed: what its method promises
      is where a run of the protocol leads. */
  lemma CoordinateFollowsProtocol(w: World, s: State, r: nat, players: seq<QueuedPlayer>, accepted: seq<bool>) returns (t: State)
    requires InStep(w, s) && r in s.rooms && s.rooms[r].phase == Gathering && s.rooms[r].received == 0
    requires |players| == |accepted| == PLAYERS_PER_MATCH
    requires forall i | 0 <= i < |players| && i < |s.rooms[r].seats| :: s.rooms[r].seats[i].player == players[i].handle
    requires forall i | 0 <= i < |players| :: players[i].handle in w.made && w.made[players[i].handle] == players[i]
    requires forall i | 0 <= i < |accepted| :: accepted[i] <==> FanIn(i, true) in s.rooms[r].log[..Taken(s.rooms[r].log)]
    ensures Leads(s, t) && r in t.rooms && |t.rooms[r].seats| == PLAYERS_PER_MATCH
    ensures var verdict := AllTen(s.rooms[r].log);
            && t.rooms[r].phase == Done(verdict)
            && (forall i | 0 <= i < PLAYERS_PER_MATCH ::
                  t.rooms[r].seats[i].result == Some(verdict) && t.rooms[r].seats[i].resultClosed)
            && t.sessions == (if verdict then s.sessions[r := PlayerIds(players)] else s.sessions)
            && InStep(if verdict then w else w.(st := Returned(w.st, players, accepted, PLAYERS_PER_MATCH)), t)
  {
    hide InStep, Leads, RoomOk, Returned, AllTen, Taken, Decided;
    LeadsNowhere(s);
    ItsRoomOk(w, s, r);
    var u := GatherAll(s, w, s, r);
    GatheredAsPromised(s.rooms[r], accepted);
    if AllTen(s.rooms[r].log) {
      u := CreateNow(s, w, u, r, players, accepted);
      t := TellAll(s, w, u, r, players, accepted, true, 0);
    } else {
      u := TellAll(s, w, u, r, players, accepted, false, 0);
      NoneBack(w.st, players, accepted);
      t := ReturnAll(s, w, u, r, players, accepted, w.st, 0);
    }
  }

  lemma NoneBack(st: PoolState, players: seq<QueuedPlayer>, accepted: seq<bool>)
    requires |players| == |accepted|
    ensures Returned(st, players, accepted, 0) == st
  {
  }

  lemma GatheredAsPromised(room: Room, accepted: seq<bool>)
    requires RoomOk(room) && room.phase == Gathering && room.received == 0 && |accepted| == PLAYERS_PER_MATCH
    requires forall i | 0 <= i < |accepted| :: accepted[i] <==> FanIn(i, true) in room.log[..Taken(room.log)]
    requires forall m | m in room.log :: m.idx < |room.seats|
    ensures |Decided(room).seats| == PLAYERS_PER_MATCH
    ensures forall i | 0 <= i < PLAYERS_PER_MATCH :: Decided(room).seats[i].accepted == accepted[i]
    ensures forall i | 0 <= i < PLAYERS_PER_MATCH :: Decided(room).seats[i].player == room.seats[i].player
    ensures Decided(room).phase == if AllTen(room.log) then Creating else Notifying(false, 0)
  {
    NothingShown(room);
    GatherFollowsProtocol(room);
    PlayersKept(room);
    hide SeatOk, AllTen, Taken, Decided;
  }

  lemma NothingShown(room: Room)
    requires RoomOk(room) && room.received == 0
    ensures SeatsShow(room, 0)
  {
    forall i | 0 <= i < PLAYERS_PER_MATCH ensures room.seats[i].accepted <==> FanIn(i, true) in room.log[..0] {
      assert SeatOk(room, i);
    }
  }

  lemma {:induction false} PlayersKept(room: Room)
    requires forall m | m in room.log :: m.idx < |room.seats|
    ensures |Decided(room).seats| == |room.seats|
    ensures forall i | 0 <= i < |room.seats| :: Decided(room).seats[i].player == room.seats[i].player
    decreases |room.log| - room.received
  {
    if room.phase == Gathering && room.received < |room.log| {
      assert room.log[room.received] in room.log;
      PlayersKept(Gathered(room));
    }
  }
}

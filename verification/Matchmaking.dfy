/** One cycle of the matchmaker: extract until no match can be made, telling each
    extracted player which room it is in. */
module Matchmaking {
  import opened Players
  import opened Ordered
  import opened PoolIndex
  import opened Extraction
  import opened MatchPool

  /** One round's extraction, whenever it was made. */
  ghost predicate Matched(st: PoolState, sel: seq<QueuedPlayer>, rest: PoolState) {
    exists now :: Extracted(st, now, sel, rest)
  }

  /** A pool emptied match by match: each room holds an extraction from what the
      rooms before it left. */
  ghost predicate Drained(st: PoolState, rooms: seq<seq<QueuedPlayer>>, rest: PoolState)
    decreases |rooms|, 0
  {
    if rooms == [] then rest == st else DrainedThen(st, rooms[..|rooms| - 1], rooms[|rooms| - 1], rest)
  }

  ghost predicate DrainedThen(st: PoolState, rooms: seq<seq<QueuedPlayer>>, sel: seq<QueuedPlayer>, rest: PoolState)
    decreases |rooms|, 1
  {
    exists mid :: Drained(st, rooms, mid) && Matched(mid, sel, rest)
  }

  lemma DrainedMore(st: PoolState, rooms: seq<seq<QueuedPlayer>>, mid: PoolState, sel: seq<QueuedPlayer>, rest: PoolState)
    requires Drained(st, rooms, mid) && Matched(mid, sel, rest)
    ensures Drained(st, rooms + [sel], rest)
  {
    hide Matched;
    assert (rooms + [sel])[..|rooms|] == rooms;
    assert DrainedThen(st, rooms, sel, rest);
  }

  /** What each round takes and leaves. */
  lemma MatchedFacts(st: PoolState, sel: seq<QueuedPlayer>, rest: PoolState)
    requires IndexOk(st) && Matched(st, sel, rest)
    ensures IndexOk(rest) && |sel| == PLAYERS_PER_MATCH && DistinctIds(sel) && PoolMembers(st, sel)
    ensures rest.players == st.players - Ids(sel) && |st.players| == |rest.players| + PLAYERS_PER_MATCH
  {
    var now :| Extracted(st, now, sel, rest);
    SelectionFacts(st, now, sel);
    ExtractionFrame(st, now, sel);
  }

  /** Where a member of the drained pool went. */
  ghost predicate InRoom(rooms: seq<seq<QueuedPlayer>>, r: int, i: int, q: QueuedPlayer) {
    0 <= r < |rooms| && 0 <= i < |rooms[r]| && rooms[r][i] == q
  }

  ghost predicate Covered(st: PoolState, rooms: seq<seq<QueuedPlayer>>, rest: PoolState) {
    forall id | id in st.players && id !in rest.players :: exists r, i :: InRoom(rooms, r, i, st.players[id])
  }

  ghost predicate Tens(st: PoolState, rooms: seq<seq<QueuedPlayer>>) {
    forall r | 0 <= r < |rooms| :: |rooms[r]| == PLAYERS_PER_MATCH && DistinctIds(rooms[r]) && PoolMembers(st, rooms[r])
  }

  ghost predicate Separate(rooms: seq<seq<QueuedPlayer>>) {
    forall q, r | 0 <= q < r < |rooms| :: Ids(rooms[q]) !! Ids(rooms[r])
  }

  ghost predicate NoneLeft(rooms: seq<seq<QueuedPlayer>>, rest: PoolState) {
    forall r | 0 <= r < |rooms| :: Ids(rooms[r]) !! rest.players.Keys
  }

  ghost predicate Kept(st: PoolState, rest: PoolState) {
    forall id | id in rest.players :: id in st.players && rest.players[id] == st.players[id]
  }

  /** Rooms are tens of distinct players of the pool, no id is in two rooms or left
      waiting, no one else is missing, and those left are as they were. */
  ghost predicate Shared(st: PoolState, rooms: seq<seq<QueuedPlayer>>, rest: PoolState) {
    Tens(st, rooms) && Separate(rooms) && NoneLeft(rooms, rest) && Covered(st, rooms, rest) && Kept(st, rest)
  }

  lemma {:induction false} DrainedIsShared(st: PoolState, rooms: seq<seq<QueuedPlayer>>, rest: PoolState)
    requires IndexOk(st) && Drained(st, rooms, rest)
    ensures IndexOk(rest) && Shared(st, rooms, rest)
    ensures |st.players| == |rest.players| + PLAYERS_PER_MATCH * |rooms|
    decreases |rooms|
  {
    hide IndexOk, Matched, Shared;
    if rooms == [] {
      NoRooms(st);
    } else {
      var before, sel := rooms[..|rooms| - 1], rooms[|rooms| - 1];
      assert DrainedThen(st, before, sel, rest);
      assert rooms == before + [sel];
      var mid := LastRound(st, before, sel, rest);
      DrainedIsShared(st, before, mid);
      MatchedFacts(mid, sel, rest);
      OneMoreRoom(st, before, mid, sel, rest);
    }
  }

  lemma LastRound(st: PoolState, rooms: seq<seq<QueuedPlayer>>, sel: seq<QueuedPlayer>, rest: PoolState) returns (mid: PoolState)
    requires DrainedThen(st, rooms, sel, rest)
    ensures Drained(st, rooms, mid) && Matched(mid, sel, rest)
  {
    mid :| Drained(st, rooms, mid) && Matched(mid, sel, rest);
  }

  lemma NoRooms(st: PoolState)
    ensures Shared(st, [], st)
  {
  }

  lemma OneMoreRoom(st: PoolState, rooms: seq<seq<QueuedPlayer>>, mid: PoolState, sel: seq<QueuedPlayer>, rest: PoolState)
    requires Shared(st, rooms, mid)
    requires |sel| == PLAYERS_PER_MATCH && DistinctIds(sel) && PoolMembers(mid, sel) && rest.players == mid.players - Ids(sel)
    ensures Shared(st, rooms + [sel], rest)
  {
    StillCovered(st, rooms, mid, sel, rest);
    assert Tens(st, rooms + [sel]) by {
      assert PoolMembers(st, sel);
    }
    StillSeparate(rooms, mid, sel, rest);
    hide DistinctIds, PoolMembers, Covered, Separate, NoneLeft, Tens;
  }

  lemma StillSeparate(rooms: seq<seq<QueuedPlayer>>, mid: PoolState, sel: seq<QueuedPlayer>, rest: PoolState)
    requires Separate(rooms) && NoneLeft(rooms, mid)
    requires PoolMembers(mid, sel) && rest.players == mid.players - Ids(sel)
    ensures Separate(rooms + [sel]) && NoneLeft(rooms + [sel], rest)
  {
    assert Ids(sel) <= mid.players.Keys;
  }

  lemma StillCovered(st: PoolState, rooms: seq<seq<QueuedPlayer>>, mid: PoolState, sel: seq<QueuedPlayer>, rest: PoolState)
    requires Covered(st, rooms, mid) && PoolMembers(mid, sel) && rest.players == mid.players - Ids(sel)
    requires forall id | id in mid.players :: id in st.players && mid.players[id] == st.players[id]
    ensures Covered(st, rooms + [sel], rest)
  {
    var all := rooms + [sel];
    forall id | id in st.players && id !in rest.players ensures exists r, i :: InRoom(all, r, i, st.players[id]) {
      if id in mid.players {
        assert id in Ids(sel);
        var q :| q in sel && q.id == id;
        var i :| 0 <= i < |sel| && sel[i] == q;
        assert InRoom(all, |rooms|, i, st.players[id]);
      } else {
        var r, i :| InRoom(rooms, r, i, st.players[id]);
        assert InRoom(all, r, i, st.players[id]);
      }
    }
  }

  // ------------------------------------------------------------------
  // Telling the extracted players
  // ------------------------------------------------------------------

  predicate HasHandle(sel: seq<QueuedPlayer>, h: nat) {
    exists i :: 0 <= i < |sel| && sel[i].handle == h
  }

  predicate OwnHandles(sel: seq<QueuedPlayer>) {
    forall i, j | 0 <= i < j < |sel| :: sel[i].handle != sel[j].handle
  }

  /** The first `n` players of a room hold its event, each with its own index. */
  ghost predicate ToldFirst(channels: map<nat, MatchCh>, sel: seq<QueuedPlayer>, room: nat, n: int) {
    forall i | 0 <= i < n && i < |sel| :: sel[i].handle in channels && channels[sel[i].handle] == MatchCh(false, Some(Event(room, i)))
  }

  /** Every player of every room was told its room and index, on its own channel. */
  ghost predicate AllTold(channels: map<nat, MatchCh>, rooms: seq<seq<QueuedPlayer>>, first: nat) {
    forall r | 0 <= r < |rooms| :: ToldFirst(channels, rooms[r], first + r, |rooms[r]|)
  }

  /** No channel changed but those of players in the rooms. */
  ghost predicate OnlyRoomsTold(before: map<nat, MatchCh>, after: map<nat, MatchCh>, rooms: seq<seq<QueuedPlayer>>) {
    && before.Keys == after.Keys
    && forall h | h in before && before[h] != after[h] :: exists r :: 0 <= r < |rooms| && HasHandle(rooms[r], h)
  }

  ghost predicate OnlyRoomTold(before: map<nat, MatchCh>, after: map<nat, MatchCh>, sel: seq<QueuedPlayer>) {
    && before.Keys == after.Keys
    && forall h | h in before && before[h] != after[h] :: HasHandle(sel, h)
  }

  /** Different pool members have different channels. */
  lemma MembersApart(st: PoolState, channels: map<nat, MatchCh>, s: seq<QueuedPlayer>, t: seq<QueuedPlayer>, i: nat, j: nat)
    requires Ready(st.players, channels) && PoolMembers(st, s) && PoolMembers(st, t)
    requires i < |s| && j < |t| && s[i].id != t[j].id
    ensures s[i].handle != t[j].handle
  {
    assert s[i] in s && t[j] in t;
  }

  lemma SelectedReady(st: PoolState, channels: map<nat, MatchCh>, sel: seq<QueuedPlayer>)
    requires Ready(st.players, channels) && PoolMembers(st, sel) && DistinctIds(sel)
    ensures OwnHandles(sel)
    ensures forall i | 0 <= i < |sel| :: sel[i].handle in channels && channels[sel[i].handle] == READY
  {
    forall i, j | 0 <= i < j < |sel| ensures sel[i].handle != sel[j].handle {
      MembersApart(st, channels, sel, sel, i, j);
    }
    assert forall i | 0 <= i < |sel| :: sel[i] in sel;
  }

  /** Telling the extracted leaves the others' channels as they were. */
  lemma RestReady(
    st: PoolState, before: map<nat, MatchCh>, after: map<nat, MatchCh>, sel: seq<QueuedPlayer>, rest: map<string, QueuedPlayer>)
    requires Ready(st.players, before) && PoolMembers(st, sel) && rest == st.players - Ids(sel)
    requires OnlyRoomTold(before, after, sel)
    ensures Ready(rest, after)
  {
    forall id | id in rest ensures !HasHandle(sel, rest[id].handle) {
      forall i | 0 <= i < |sel| ensures sel[i].handle != rest[id].handle {
        assert sel[i] in sel && sel[i].id in Ids(sel);
        MemberApart(st, before, sel, i, id);
      }
    }
  }

  lemma MemberApart(st: PoolState, channels: map<nat, MatchCh>, s: seq<QueuedPlayer>, i: nat, id: string)
    requires Ready(st.players, channels) && PoolMembers(st, s) && i < |s| && id in st.players && s[i].id != id
    ensures s[i].handle != st.players[id].handle
  {
    assert s[i] in s;
  }

  lemma OneMoreTold(
    st: PoolState, start: map<nat, MatchCh>, rooms: seq<seq<QueuedPlayer>>, sel: seq<QueuedPlayer>, rest: PoolState,
    before: map<nat, MatchCh>, after: map<nat, MatchCh>, first: nat)
    requires Ready(st.players, start) && Shared(st, rooms + [sel], rest)
    requires AllTold(before, rooms, first) && OnlyRoomsTold(start, before, rooms)
    requires ToldFirst(after, sel, first + |rooms|, |sel|) && OnlyRoomTold(before, after, sel)
    ensures AllTold(after, rooms + [sel], first) && OnlyRoomsTold(start, after, rooms + [sel])
  {
    hide Shared, Ready, AllTold, ToldFirst, OnlyRoomTold, OnlyRoomsTold;
    EarlierKept(st, start, rooms, sel, rest, before, after, first);
    FrameGrows(start, rooms, sel, before, after);
    ToldToAll(after, rooms, sel, first);
  }

  lemma ToldToAll(channels: map<nat, MatchCh>, rooms: seq<seq<QueuedPlayer>>, sel: seq<QueuedPlayer>, first: nat)
    requires AllTold(channels, rooms, first) && ToldFirst(channels, sel, first + |rooms|, |sel|)
    ensures AllTold(channels, rooms + [sel], first)
  {
    hide ToldFirst;
    var all := rooms + [sel];
    forall r | 0 <= r < |all| ensures ToldFirst(channels, all[r], first + r, |all[r]|) {
      assert r < |rooms| ==> all[r] == rooms[r];
    }
  }

  lemma FrameGrows(
    start: map<nat, MatchCh>, rooms: seq<seq<QueuedPlayer>>, sel: seq<QueuedPlayer>, before: map<nat, MatchCh>, after: map<nat, MatchCh>)
    requires OnlyRoomsTold(start, before, rooms) && OnlyRoomTold(before, after, sel)
    ensures OnlyRoomsTold(start, after, rooms + [sel])
  {
    hide HasHandle;
    var all := rooms + [sel];
    forall h | h in start && start[h] != after[h] ensures exists r :: 0 <= r < |all| && HasHandle(all[r], h) {
      if before[h] != after[h] {
        assert HasHandle(all[|rooms|], h);
      } else {
        var r :| 0 <= r < |rooms| && HasHandle(rooms[r], h);
        assert HasHandle(all[r], h);
      }
    }
  }

  lemma EarlierKept(
    st: PoolState, start: map<nat, MatchCh>, rooms: seq<seq<QueuedPlayer>>, sel: seq<QueuedPlayer>, rest: PoolState,
    before: map<nat, MatchCh>, after: map<nat, MatchCh>, first: nat)
    requires Ready(st.players, start) && Shared(st, rooms + [sel], rest)
    requires AllTold(before, rooms, first) && OnlyRoomTold(before, after, sel)
    ensures AllTold(after, rooms, first)
  {
    forall r | 0 <= r < |rooms| ensures ToldFirst(after, rooms[r], first + r, |rooms[r]|) {
      assert ToldFirst(before, rooms[r], first + r, |rooms[r]|);
      forall i | 0 <= i < |rooms[r]| ensures !HasHandle(sel, rooms[r][i].handle) {
        RoomsApart(st, start, rooms, sel, rest, r, i);
      }
    }
  }

  lemma RoomsApart(
    st: PoolState, start: map<nat, MatchCh>, rooms: seq<seq<QueuedPlayer>>, sel: seq<QueuedPlayer>, rest: PoolState, r: nat, i: nat)
    requires Ready(st.players, start) && Shared(st, rooms + [sel], rest)
    requires r < |rooms| && i < |rooms[r]|
    ensures !HasHandle(sel, rooms[r][i].handle)
  {
    var all := rooms + [sel];
    assert all[r] == rooms[r] && all[|rooms|] == sel;
    assert PoolMembers(st, all[r]) && PoolMembers(st, all[|rooms|]);
    assert Ids(all[r]) !! Ids(all[|rooms|]);
    hide Shared, Ready;
    forall j | 0 <= j < |sel| ensures sel[j].handle != rooms[r][i].handle {
      assert rooms[r][i] in rooms[r] && sel[j] in sel;
      assert rooms[r][i].id in Ids(rooms[r]) && sel[j].id in Ids(sel);
      MembersApart(st, start, rooms[r], sel, i, j);
    }
  }

  lemma RoundDone(
    st: PoolState, start: map<nat, MatchCh>, first: nat, rooms: seq<seq<QueuedPlayer>>,
    mid: PoolState, before: map<nat, MatchCh>, sel: seq<QueuedPlayer>, rest: PoolState, after: map<nat, MatchCh>)
    requires IndexOk(st) && Ready(st.players, start) && IndexOk(mid)
    requires Drained(st, rooms, mid) && AllTold(before, rooms, first) && OnlyRoomsTold(start, before, rooms)
    requires Matched(mid, sel, rest) && ToldFirst(after, sel, first + |rooms|, |sel|) && OnlyRoomTold(before, after, sel)
    ensures Drained(st, rooms + [sel], rest)
    ensures AllTold(after, rooms + [sel], first) && OnlyRoomsTold(start, after, rooms + [sel])
    ensures |mid.players| == |rest.players| + PLAYERS_PER_MATCH
  {
    hide *;
    MatchedFacts(mid, sel, rest);
    DrainedMore(st, rooms, mid, sel, rest);
    DrainedIsShared(st, rooms + [sel], rest);
    OneMoreTold(st, start, rooms, sel, rest, before, after, first);
  }

  lemma CanAnnounce(mid: PoolState, now: real, channels: map<nat, MatchCh>, sel: seq<QueuedPlayer>, rest: PoolState)
    requires IndexOk(mid) && Ready(mid.players, channels) && Extracted(mid, now, sel, rest)
    ensures Matched(mid, sel, rest) && OwnHandles(sel)
    ensures forall i | 0 <= i < |sel| :: sel[i].handle in channels && channels[sel[i].handle] == READY
  {
    hide IndexOk, Ready, Extracted, PoolMembers, DistinctIds;
    assert Matched(mid, sel, rest);
    MatchedFacts(mid, sel, rest);
    SelectedReady(mid, channels, sel);
  }

  lemma HasAnnounced(
    mid: PoolState, before: map<nat, MatchCh>, after: map<nat, MatchCh>, sel: seq<QueuedPlayer>, rest: PoolState)
    requires IndexOk(mid) && Ready(mid.players, before) && Matched(mid, sel, rest) && OnlyRoomTold(before, after, sel)
    ensures IndexOk(rest) && Ready(rest.players, after)
  {
    hide *;
    MatchedFacts(mid, sel, rest);
    RestReady(mid, before, after, sel, rest.players);
  }

  lemma NothingYet(st: PoolState, channels: map<nat, MatchCh>, first: nat)
    ensures Drained(st, [], st) && AllTold(channels, [], first) && OnlyRoomsTold(channels, channels, [])
  {
  }

  class Matchmaker {
    const pool: Pool
    var matchesCreated: nat
    /** Stands in for fresh session ids. */
    var nextRoom: nat

    constructor (p: Pool)
      ensures pool == p && matchesCreated == 0 && nextRoom == 0
    {
      pool, matchesCreated, nextRoom := p, 0, 0;
    }

    /** The non-blocking sends of one room's events. A full channel would lose its
        event, but every event arrives. */
    method Announce(sel: seq<QueuedPlayer>, room: nat)
      requires OwnHandles(sel)
      requires forall i | 0 <= i < |sel| :: sel[i].handle in pool.channels && pool.channels[sel[i].handle] == READY
      modifies pool`channels
      ensures ToldFirst(pool.channels, sel, room, |sel|)
      ensures OnlyRoomTold(old(pool.channels), pool.channels, sel)
    {
      var i := 0;
      while i < |sel|
        invariant 0 <= i <= |sel|
        invariant ToldFirst(pool.channels, sel, room, i)
        invariant forall j | i <= j < |sel| :: sel[j].handle in pool.channels && pool.channels[sel[j].handle] == READY
        invariant OnlyRoomTold(old(pool.channels), pool.channels, sel)
      {
        pool.Send(sel[i].handle, Event(room, i));
        i := i + 1;
      }
    }

    /** One turn of the tick loop. */
    method Match() returns (sel: seq<QueuedPlayer>, ok: bool)
      requires pool.Valid()
      modifies this, pool, pool.Repr
      ensures pool.Valid() && fresh(pool.Repr - old(pool.Repr))
      ensures !ok ==>
                && pool.State() == old(pool.State()) && CanFail(pool.State()) && pool.channels == old(pool.channels)
                && matchesCreated == old(matchesCreated) && nextRoom == old(nextRoom)
      ensures ok ==>
                && Matched(old(pool.State()), sel, pool.State())
                && ToldFirst(pool.channels, sel, old(nextRoom), |sel|) && OnlyRoomTold(old(pool.channels), pool.channels, sel)
                && matchesCreated == old(matchesCreated) + 1 && nextRoom == old(nextRoom) + 1
    {
      hide Matched, Extracted, CanFail, IndexOk, Ready, OnlyRoomTold, ToldFirst, OwnHandles;
      ghost var mid, before := pool.State(), pool.channels;
      var now: real := *;
      sel, ok := pool.ExtractMatch(now);
      if ok {
        ghost var rest := pool.State();
        CanAnnounce(mid, now, before, sel, rest);
        assert pool.Shaped();
        Announce(sel, nextRoom);
        assert pool.Shaped();
        HasAnnounced(mid, before, pool.channels, sel, rest);
        nextRoom := nextRoom + 1;
        matchesCreated := matchesCreated + 1;
      }
    }

    /** Drains the pool match by match. The rooms are the coordinators it launches. */
    method Tick() returns (rooms: seq<seq<QueuedPlayer>>)
      requires pool.Valid()
      modifies this, pool, pool.Repr
      ensures pool.Valid() && fresh(pool.Repr - old(pool.Repr))
      ensures Drained(old(pool.State()), rooms, pool.State())
      ensures CanFail(pool.State())
      ensures AllTold(pool.channels, rooms, old(nextRoom)) && OnlyRoomsTold(old(pool.channels), pool.channels, rooms)
      ensures matchesCreated == old(matchesCreated) + |rooms| && nextRoom == old(nextRoom) + |rooms|
    {
      hide Matched, CanFail, IndexOk, Ready, OnlyRoomTold, OnlyRoomsTold, ToldFirst, AllTold, Shared, Drained, PoolMembers, DistinctIds;
      rooms := [];
      NothingYet(pool.State(), pool.channels, nextRoom);
      ghost var st, start, first := pool.State(), pool.channels, nextRoom;
      while true
        invariant pool.Valid() && fresh(pool.Repr - old(pool.Repr))
        invariant Drained(st, rooms, pool.State())
        invariant AllTold(pool.channels, rooms, first) && OnlyRoomsTold(start, pool.channels, rooms)
        invariant matchesCreated == old(matchesCreated) + |rooms| && nextRoom == first + |rooms|
        decreases |pool.players|
      {
        ghost var mid, before := pool.State(), pool.channels;
        var sel, ok := Match();
        if !ok {
          return;
        }
        RoundDone(st, start, first, rooms, mid, before, sel, pool.State(), pool.channels);
        rooms := rooms + [sel];
      }
    }
  }

  /** A tick shares the whole pool out: tens of distinct players, everyone else left
      in place, and at most 171 of them when the ratings are valid. */
  lemma TickOutcome(st: PoolState, rooms: seq<seq<QueuedPlayer>>, rest: PoolState)
    requires IndexOk(st) && Drained(st, rooms, rest) && CanFail(rest)
    ensures Shared(st, rooms, rest)
    ensures |st.players| == |rest.players| + PLAYERS_PER_MATCH * |rooms|
    ensures (forall id | id in st.players :: Rated(st.players[id])) ==> |rest.players| <= MAX_STRANDED
  {
    DrainedIsShared(st, rooms, rest);
    if forall id | id in st.players :: Rated(st.players[id]) {
      FailureStrandsFew(rest);
    }
  }
}

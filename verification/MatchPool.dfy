/** The matchmaking pool: a player map and an index of bracket slices, both edited
    in place. Each method is one critical section of the pool mutex. */
module MatchPool {
  import opened Collections
  import opened Players
  import opened Ordered
  import opened Slices
  import opened PoolIndex
  import opened MatchWindow
  import opened Extraction

  /** Pooled players have channels of their own, open and empty. */
  ghost predicate Ready(players: map<string, QueuedPlayer>, channels: map<nat, MatchCh>) {
    && (forall id | id in players :: players[id].handle in channels && channels[players[id].handle] == READY)
    && (forall i, j | i in players && j in players && i != j :: players[i].handle != players[j].handle)
  }

  /** An object that can go back: its channel open and empty, and not that of anyone
      queued. */
  ghost predicate CanGoBack(players: map<string, QueuedPlayer>, channels: map<nat, MatchCh>, q: QueuedPlayer) {
    && q.handle in channels && channels[q.handle] == READY
    && forall id | id in players :: players[id].handle != q.handle
  }

  lemma BackReady(players: map<string, QueuedPlayer>, channels: map<nat, MatchCh>, q: QueuedPlayer)
    requires Ready(players, channels) && CanGoBack(players, channels, q)
    ensures Ready(players[q.id := q], channels)
  {
  }

  lemma MadeReady(players: map<string, QueuedPlayer>, channels: map<nat, MatchCh>, q: QueuedPlayer)
    requires Ready(players, channels) && q.handle !in channels
    ensures Ready(players[q.id := q], channels[q.handle := READY])
  {
  }

  /** Without a player, what happens to its channel concerns no one queued. */
  lemma GoneReady(players: map<string, QueuedPlayer>, channels: map<nat, MatchCh>, id: string, ch: MatchCh)
    requires Ready(players, channels) && id in players
    ensures Ready(players - {id}, channels[players[id].handle := ch])
  {
  }

  lemma FewerReady(players: map<string, QueuedPlayer>, channels: map<nat, MatchCh>, ids: set<string>)
    requires Ready(players, channels)
    ensures Ready(players - ids, channels)
  {
  }

  lemma InsertPlayers(st: PoolState, q: QueuedPlayer)
    ensures Insert(st, q).players == st.players[q.id := q]
  {
  }

  lemma DeletePlayers(st: PoolState, id: string)
    requires id in st.players
    ensures Delete(st, id).players == st.players - {id}
  {
  }

  class Pool {
    var players: map<string, QueuedPlayer>
    var brackets: map<int, Slice>
    /** The MatchCh of every player object made so far, by handle. */
    var channels: map<nat, MatchCh>

    /** What the bracket slices hold. */
    ghost var index: Brackets

    /** The backing arrays. */
    ghost var Repr: set<array<QueuedPlayer>>

    /** Slices are well formed, share no backing array, and hold `index`. */
    ghost predicate Shaped()
      reads this`brackets, this`index, this`Repr, Repr
    {
      && brackets.Keys == index.Keys
      && (forall k | k in brackets :: brackets[k].arr in Repr && brackets[k].Valid() && brackets[k].View() == index[k])
      && (forall j, k | j in brackets && k in brackets && j != k :: brackets[j].arr != brackets[k].arr)
    }

    ghost function State(): PoolState
      reads this`players, this`index
    {
      PoolState(players, index)
    }

    ghost predicate ChannelsReady()
      reads this`players, this`channels
    {
      Ready(players, channels)
    }

    /** The index refines the map. */
    ghost predicate Indexed()
      reads this`players, this`brackets, this`index, this`Repr, Repr
    {
      Shaped() && IndexOk(State())
    }

    ghost predicate Valid()
      reads this, Repr
    {
      Indexed() && ChannelsReady()
    }

    /** Shaped, but for bracket `bk`, whose slice is being replaced. */
    ghost predicate ShapedExcept(bk: int)
      reads this`brackets, this`index, this`Repr, Repr
    {
      && brackets.Keys == index.Keys
      && (forall k | k in brackets && k != bk ::
            brackets[k].arr in Repr && brackets[k].Valid() && brackets[k].View() == index[k])
      && (forall j, k | j in brackets && k in brackets && j != k && j != bk && k != bk :: brackets[j].arr != brackets[k].arr)
    }

    constructor ()
      ensures Valid() && State() == PoolState(map[], map[]) && channels == map[] && Repr == {}
    {
      players, brackets, channels, index, Repr := map[], map[], map[], map[], {};
    }

    /** `brackets[bk] = t`. */
    method PutSlice(bk: int, t: Slice)
      requires ShapedExcept(bk) && t.Valid()
      requires forall k | k in brackets && k != bk :: brackets[k].arr != t.arr
      modifies this`brackets, this`index, this`Repr
      ensures Shaped() && Repr == old(Repr) + {t.arr}
      ensures index == old(index)[bk := t.View()] && brackets == old(brackets)[bk := t]
    {
      brackets := brackets[bk := t];
      index := index[bk := t.View()];
      Repr := Repr + {t.arr};
    }

    /** `delete(brackets, bk)`. */
    method DropSlice(bk: int)
      requires Shaped()
      modifies this`brackets, this`index
      ensures Shaped() && index == old(index) - {bk}
    {
      brackets := brackets - {bk};
      index := index - {bk};
    }

    /** `brackets[bk] = insertSorted(brackets[bk], q)`. */
    method PutInBracket(bk: int, q: QueuedPlayer)
      requires Shaped() && Sorted(Bracket(index, bk))
      modifies this`brackets, this`index, this`Repr, Repr
      ensures Shaped() && fresh(Repr - old(Repr))
      ensures index == old(index)[bk := Inserted(Bracket(old(index), bk), q)]
    {
      hide Sorted, Inserted;
      var s: Slice;
      if bk in brackets {
        s := brackets[bk];
      } else {
        var none := new QueuedPlayer[0];
        s := Slice(none, 0);
      }
      assert s.View() == Bracket(index, bk);
      var t := InsertSorted(s, q);
      PutSlice(bk, t);
    }

    /** `brackets[bk] = removeFromSlice(brackets[bk], id)`, dropping an empty bracket. */
    method DropFromBracket(bk: int, id: string)
      requires Shaped() && bk in brackets
      modifies this`brackets, this`index, this`Repr, Repr
      ensures Shaped() && fresh(Repr - old(Repr))
      ensures index == SetBracket(old(index), bk, Without(Bracket(old(index), bk), id))
    {
      hide Without, SetBracket;
      ghost var b, rest := index, Without(Bracket(index, bk), id);
      assert brackets[bk].View() == Bracket(index, bk);
      var t := RemoveFromSlice(brackets[bk], id);
      PutSlice(bk, t);
      SetBracketSteps(b, bk, rest);
      if t.len == 0 {
        DropSlice(bk);
      }
    }

    /** Enters an object in the map and in its bracket. */
    method Store(q: QueuedPlayer)
      requires Indexed() && q.id !in players
      modifies this`players, this`brackets, this`index, this`Repr, Repr
      ensures Indexed() && fresh(Repr - old(Repr))
      ensures State() == Insert(old(State()), q)
    {
      hide IndexOk, Sorted, BracketKey, Inserted;
      var bk := BracketKey(q.mmr);
      InsertKeepsIndex(State(), q);
      BracketSorted(State(), bk);
      PutInBracket(bk, q);
      players := players[q.id := q];
    }

    /** Takes the object queued under an id out of its bracket and the map. */
    method Remove(id: string)
      requires Indexed() && id in players
      modifies this`players, this`brackets, this`index, this`Repr, Repr
      ensures Indexed() && fresh(Repr - old(Repr))
      ensures State() == Delete(old(State()), id)
    {
      hide IndexOk, BracketKey, Without;
      var bk := BracketKey(players[id].mmr);
      DeleteKeepsIndex(State(), id);
      BracketPresent(State(), id, bk);
      DropFromBracket(bk, id);
      players := players - {id};
    }

    /** Adds a new player object, unless the id is queued already. */
    method Enqueue(id: string, name: string, mmr: int32, now: real) returns (r: Option<QueuedPlayer>)
      requires Valid()
      modifies this, Repr
      ensures Valid() && fresh(Repr - old(Repr))
      ensures r.None? <==> id in old(players)
      ensures r.None? ==> State() == old(State()) && channels == old(channels)
      ensures r.Some? ==>
                && r.value.id == id && r.value.name == name && r.value.mmr == mmr && r.value.enqueuedAt == now
                && r.value.handle !in old(channels) && channels == old(channels)[r.value.handle := READY]
                && State() == Insert(old(State()), r.value) && players == old(players)[id := r.value]
    {
      hide IndexOk, Ready, Insert;
      if id in players {
        return None;
      }
      var handle := FreshHandle();
      var q := QueuedPlayer(handle, id, name, mmr, now);
      channels := channels[handle := READY];
      MadeReady(old(players), old(channels), q);
      Store(q);
      InsertPlayers(old(State()), q);
      r := Some(q);
    }

    /** Stands in for the allocation of a new object. */
    method FreshHandle() returns (h: nat)
      ensures h !in channels
    {
      h := 0;
      var rest := channels.Keys;
      while h in channels
        invariant forall i | i in channels && h <= i :: i in rest
        decreases rest
      {
        rest := rest - {h};
        h := h + 1;
      }
    }

    /** Puts a player object back with its enqueue time and channel, unless the id
        is queued again already. Whether channels stay ready is up to the object. */
    method ReEnqueue(q: QueuedPlayer) returns (ok: bool)
      requires Indexed()
      modifies this`players, this`brackets, this`index, this`Repr, Repr
      ensures Indexed() && fresh(Repr - old(Repr))
      ensures ok <==> q.id !in old(players)
      ensures State() == if ok then Insert(old(State()), q) else old(State())
      ensures players == if ok then old(players)[q.id := q] else old(players)
      ensures old(ChannelsReady()) && (ok ==> CanGoBack(old(players), channels, q)) ==> ChannelsReady()
    {
      hide IndexOk, Ready, Insert, CanGoBack;
      if q.id in players {
        return false;
      }
      Store(q);
      InsertPlayers(old(State()), q);
      if old(ChannelsReady()) && CanGoBack(old(players), channels, q) {
        BackReady(old(players), channels, q);
      }
      ok := true;
    }

    /** Removes whichever object is queued under the id and closes its channel. */
    method Dequeue(id: string) returns (found: bool)
      requires Valid()
      modifies this, Repr
      ensures Valid() && fresh(Repr - old(Repr))
      ensures found <==> id in old(players)
      ensures !found ==> State() == old(State()) && channels == old(channels)
      ensures found ==>
                && State() == Delete(old(State()), id) && players == old(players) - {id}
                && old(players)[id].handle in old(channels) && !old(channels)[old(players)[id].handle].closed
                && channels == old(channels)[old(players)[id].handle := MatchCh(true, None)]
    {
      if id !in players {
        return false;
      }
      hide IndexOk, Delete;
      var q := players[id];
      Remove(id);
      DeletePlayers(old(State()), id);
      GoneReady(old(players), channels, id, MatchCh(true, None));
      channels := channels[q.handle := channels[q.handle].(closed := true)];
      found := true;
    }

    /** The non-blocking send on a player's channel, which must not be closed. */
    method Send(h: nat, e: Event)
      requires h in channels && !channels[h].closed
      modifies this`channels
      ensures channels == old(channels)[h := Buffered(old(channels)[h], e)]
    {
      var ch := channels[h];
      if ch.buf.None? {
        channels := channels[h := ch.(buf := Some(e))];
      }
    }

    /** The gateway's receive from its player's channel. */
    method Receive(h: nat) returns (e: Event)
      requires h in channels && channels[h].buf.Some?
      modifies this`channels
      ensures e == old(channels)[h].buf.value
      ensures channels == old(channels)[h := old(channels)[h].(buf := None)]
    {
      e := channels[h].buf.value;
      channels := channels[h := channels[h].(buf := None)];
    }

    /** Some bracket with the most players, or -1; the map is ranged over in any order. */
    method FindFullest() returns (bestBK: int)
      requires Valid()
      ensures bestBK == -1 ==> index == map[]
      ensures bestBK != -1 ==> Fullest(index, bestBK)
    {
      bestBK := -1;
      var bestCount := 0;
      var rest := brackets.Keys;
      KeysNotNegative(State());
      while rest != {}
        invariant rest <= index.Keys
        invariant bestBK == -1 ==> bestCount == 0 && rest == index.Keys
        invariant bestBK != -1 ==> bestBK in index && bestCount == |index[bestBK]|
        invariant forall k | k in index && k !in rest :: |index[k]| <= bestCount
        decreases rest
      {
        var bk := AnyKey(rest);
        rest := rest - {bk};
        assert |index[bk]| == brackets[bk].len && index[bk] != [];
        if brackets[bk].len > bestCount {
          bestCount := brackets[bk].len;
          bestBK := bk;
        }
      }
    }

    method AppendBracket(c: Slice, k: int) returns (r: Slice)
      requires Shaped() && c.Valid() && c.arr !in Repr
      modifies c.arr
      ensures Shaped() && r.Valid() && (r.arr == c.arr || fresh(r.arr)) && r.arr !in Repr
      ensures r.View() == old(c.View()) + Bracket(index, k)
    {
      r := c;
      if k in brackets {
        r := AppendAll(c, brackets[k]);
      }
    }

    /** The players of the bracket and of the two on either side, in a slice of their own. */
    method GatherCandidates(bestBK: int) returns (c: Slice)
      requires Shaped()
      ensures fresh(c.arr) && c.Valid() && c.View() == Neighbourhood(index, bestBK)
    {
      var arr := new QueuedPlayer[2 * PLAYERS_PER_MATCH];
      c := Slice(arr, 0);
      var delta := 0;
      while delta <= MAX_BRACKET_EXPANSION
        invariant 0 <= delta <= MAX_BRACKET_EXPANSION + 1
        invariant fresh(c.arr) && c.Valid() && Shaped() && c.arr !in Repr
        invariant c.View() == Around(index, bestBK, delta)
      {
        c := AppendBracket(c, bestBK + delta);
        if delta > 0 {
          c := AppendBracket(c, bestBK - delta);
        }
        delta := delta + 1;
      }
    }

    /** The removal loop. The selection is read from the candidates' own array while
        the brackets are compacted under it. */
    method RemoveSelected(c: array<QueuedPlayer>, start: nat, ghost sel: seq<QueuedPlayer>)
      requires Indexed() && c !in Repr && start + PLAYERS_PER_MATCH <= c.Length
      requires sel == c[start..start + PLAYERS_PER_MATCH] && DistinctIds(sel) && PoolMembers(State(), sel)
      modifies this`players, this`brackets, this`index, this`Repr, Repr
      ensures Indexed() && fresh(Repr - old(Repr))
      ensures c[start..start + PLAYERS_PER_MATCH] == sel
      ensures State() == AfterRemoving(old(State()), sel, PLAYERS_PER_MATCH)
    {
      hide IndexOk, DistinctIds, AfterRemoving, Delete;
      ghost var st := State();
      var i := 0;
      AfterNone(st, sel);
      while i < PLAYERS_PER_MATCH
        invariant 0 <= i <= PLAYERS_PER_MATCH
        invariant Indexed() && c !in Repr && fresh(Repr - old(Repr))
        invariant c[start..start + PLAYERS_PER_MATCH] == sel
        invariant State() == AfterRemoving(st, sel, i)
      {
        var q := c[start + i];
        assert q == sel[i];
        AfterOneMore(st, sel, i);
        Remove(q.id);
        i := i + 1;
      }
    }

    /** Candidates, sorting and window: which ten to take, without touching the pool. */
    method Select(now: real) returns (c: Slice, bestStart: nat, ok: bool)
      requires Valid()
      ensures c.Valid() && fresh(c.arr)
      ensures ok ==> bestStart + PLAYERS_PER_MATCH <= c.len
                     && CanSelect(State(), now, c.arr[bestStart..bestStart + PLAYERS_PER_MATCH])
      ensures !ok ==> CanFail(State())
    {
      hide IndexOk, Ready, Draws, CanSelect, CanFail, Fullest, IsChoice, Neighbourhood;
      var bestBK := FindFullest();
      if bestBK == -1 {
        NothingToTake(State());
        var none := new QueuedPlayer[0];
        return Slice(none, 0), 0, false;
      }
      c := GatherCandidates(bestBK);
      if c.len < PLAYERS_PER_MATCH {
        TooFewToTake(State(), bestBK);
        return c, 0, false;
      }
      ghost var gathered := c.View();
      SortByMMR(c);
      bestStart := ChooseWindow(c.arr, c.len, now);
      TenToTake(State(), now, bestBK, gathered, c.View(), bestStart);
      WindowInPlace(c.arr, c.len, bestStart);
      ok := true;
    }

    /** Pulls ten players out of the fullest neighbourhood, or none at all. */
    method ExtractMatch(now: real) returns (selected: seq<QueuedPlayer>, ok: bool)
      requires Valid()
      modifies this`players, this`brackets, this`index, this`Repr, Repr
      ensures Valid() && fresh(Repr - old(Repr))
      ensures ok ==> Extracted(old(State()), now, selected, State())
      ensures !ok ==> State() == old(State()) && CanFail(old(State())) && selected == []
    {
      hide IndexOk, Ready, CanSelect, Extracted, CanFail, DistinctIds, PoolMembers, AfterRemoving;
      var c, start;
      c, start, ok := Select(now);
      if !ok {
        return [], false;
      }
      selected := c.arr[start..start + PLAYERS_PER_MATCH];
      ghost var st := State();
      SelectionFacts(st, now, selected);
      RemoveSelected(c.arr, start, selected);
      ExtractedAll(st, now, selected, State());
      FewerReady(st.players, channels, Ids(selected));
    }
  }

  lemma SetBracketSteps(b: Brackets, bk: int, s: seq<QueuedPlayer>)
    ensures SetBracket(b, bk, s) == if |s| == 0 then b[bk := s] - {bk} else b[bk := s]
  {
  }

  lemma WindowInPlace(arr: array<QueuedPlayer>, len: nat, start: nat)
    requires start + PLAYERS_PER_MATCH <= len <= arr.Length
    ensures IsWindow(arr[..len], start) && arr[start..start + PLAYERS_PER_MATCH] == Window(arr[..len], start)
  {
  }

  lemma BracketPresent(st: PoolState, id: string, bk: int)
    requires IndexOk(st) && id in st.players && bk == BracketKey(st.players[id].mmr)
    ensures bk in st.brackets
  {
    assert PlayerOk(st, id);
  }

  lemma NothingToTake(st: PoolState)
    requires st.brackets == map[]
    ensures CanFail(st)
  {
  }

  lemma TooFewToTake(st: PoolState, k: int)
    requires Fullest(st.brackets, k) && |Neighbourhood(st.brackets, k)| < PLAYERS_PER_MATCH
    ensures CanFail(st)
  {
  }

  lemma TenToTake(st: PoolState, now: real, k: int, gathered: seq<QueuedPlayer>, c: seq<QueuedPlayer>, start: int)
    requires Fullest(st.brackets, k) && gathered == Neighbourhood(st.brackets, k)
    requires multiset(c) == multiset(gathered) && Sorted(c) && IsWindow(c, start) && IsChoice(c, now, start)
    ensures CanSelect(st, now, Window(c, start))
  {
    hide Fullest, IsChoice, Neighbourhood, Sorted;
    assert Draws(st, now, k, c, start);
  }

  lemma KeysNotNegative(st: PoolState)
    requires IndexOk(st)
    ensures forall k | k in st.brackets :: 0 <= k
  {
    forall k | k in st.brackets ensures 0 <= k {
      BracketFacts(st, k);
      assert st.brackets[k][0] in Bracket(st.brackets, k);
    }
  }

  lemma BracketSorted(st: PoolState, k: int)
    requires IndexOk(st)
    ensures Sorted(Bracket(st.brackets, k))
  {
    assert k in st.brackets ==> BracketOk(st.players, k, st.brackets[k]);
  }

  /** The pool after the first `i` removals of a selection. */
  ghost function AfterRemoving(st: PoolState, sel: seq<QueuedPlayer>, i: nat): PoolState
    requires i <= |sel| && DistinctIds(sel) && PoolMembers(st, sel)
  {
    DeleteAll(st, sel[..i])
  }

  lemma AfterNone(st: PoolState, sel: seq<QueuedPlayer>)
    requires DistinctIds(sel) && PoolMembers(st, sel)
    ensures AfterRemoving(st, sel, 0) == st
  {
  }

  lemma AfterOneMore(st: PoolState, sel: seq<QueuedPlayer>, i: nat)
    requires i < |sel| && DistinctIds(sel) && PoolMembers(st, sel)
    ensures sel[i].id in AfterRemoving(st, sel, i).players
    ensures AfterRemoving(st, sel, i + 1) == Delete(AfterRemoving(st, sel, i), sel[i].id)
  {
    assert sel[..i + 1][..i] == sel[..i];
    assert sel[i] in sel;
  }

  lemma ExtractedAll(st: PoolState, now: real, sel: seq<QueuedPlayer>, rest: PoolState)
    requires CanSelect(st, now, sel) && DistinctIds(sel) && PoolMembers(st, sel)
    requires rest == AfterRemoving(st, sel, |sel|)
    ensures Extracted(st, now, sel, rest) && rest.players == st.players - Ids(sel)
  {
    assert sel[..|sel|] == sel;
  }
}

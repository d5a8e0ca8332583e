/** What one extraction may take from the pool, and what that guarantees. */
module Extraction {
  import opened Collections
  import opened Players
  import opened Ordered
  import opened PoolIndex
  import opened MatchWindow

  /** A bracket no other is longer than; which of several, the map order decides. */
  ghost predicate Fullest(b: Brackets, k: int) {
    k in b && forall j | j in b :: |b[j]| <= |b[k]|
  }

  /** The candidates gathered by the first `n` rounds of the expansion loop. */
  function Around(b: Brackets, k: int, n: nat): seq<QueuedPlayer> {
    if n == 0 then []
    else Around(b, k, n - 1) + Bracket(b, k + n - 1) + if n > 1 then Bracket(b, k - n + 1) else []
  }

  function Neighbourhood(b: Brackets, k: int): seq<QueuedPlayer> {
    Around(b, k, MAX_BRACKET_EXPANSION + 1)
  }

  ghost predicate IsSortOf(c: seq<QueuedPlayer>, s: seq<QueuedPlayer>) {
    multiset(c) == multiset(s) && Sorted(c)
  }

  ghost predicate Draws(st: PoolState, now: real, k: int, c: seq<QueuedPlayer>, start: int) {
    && Fullest(st.brackets, k)
    && IsSortOf(c, Neighbourhood(st.brackets, k))
    && IsWindow(c, start) && IsChoice(c, now, start)
  }

  /** `sel` is a selection some run of the extraction makes. */
  ghost predicate CanSelect(st: PoolState, now: real, sel: seq<QueuedPlayer>) {
    exists k, c, start :: Draws(st, now, k, c, start) && sel == Window(c, start)
  }

  /** Some run of the extraction finds fewer than ten candidates. */
  ghost predicate CanFail(st: PoolState) {
    st.brackets == map[] || exists k :: Fullest(st.brackets, k) && |Neighbourhood(st.brackets, k)| < PLAYERS_PER_MATCH
  }

  /** A successful extraction: a possible selection, and the pool without it. */
  ghost predicate Extracted(st: PoolState, now: real, sel: seq<QueuedPlayer>, rest: PoolState) {
    CanSelect(st, now, sel) && DistinctIds(sel) && Ids(sel) <= st.players.Keys && rest == DeleteAll(st, sel)
  }

  // ------------------------------------------------------------------
  // The candidates are players of the pool, each once
  // ------------------------------------------------------------------

  ghost predicate PoolMembers(st: PoolState, s: seq<QueuedPlayer>) {
    forall q | q in s :: q.id in st.players && st.players[q.id] == q
  }

  lemma BracketFacts(st: PoolState, k: int)
    requires IndexOk(st)
    ensures PoolMembers(st, Bracket(st.brackets, k)) && DistinctIds(Bracket(st.brackets, k))
    ensures forall q | q in Bracket(st.brackets, k) :: BracketKey(q.mmr) == k
  {
    assert k in st.brackets ==> BracketOk(st.players, k, st.brackets[k]);
  }

  lemma JoinDistinct(s: seq<QueuedPlayer>, t: seq<QueuedPlayer>)
    requires DistinctIds(s) && DistinctIds(t)
    requires forall p, q | p in s && q in t :: p.id != q.id
    ensures DistinctIds(s + t)
  {
  }

  /** Distinct pool members from brackets strictly between `lo` and `hi`. */
  ghost predicate Ring(st: PoolState, s: seq<QueuedPlayer>, lo: int, hi: int) {
    DistinctIds(s) && PoolMembers(st, s) && forall q | q in s :: lo < BracketKey(q.mmr) < hi
  }

  lemma ExtendRing(st: PoolState, s: seq<QueuedPlayer>, lo: int, hi: int, k: int)
    requires IndexOk(st) && Ring(st, s, lo, hi) && lo < hi && (k == lo || k == hi)
    ensures Ring(st, s + Bracket(st.brackets, k), if k == lo then lo - 1 else lo, if k == hi then hi + 1 else hi)
  {
    BracketFacts(st, k);
    JoinDistinct(s, Bracket(st.brackets, k));
  }

  lemma {:induction false} AroundFacts(st: PoolState, k: int, n: nat)
    requires IndexOk(st)
    ensures Ring(st, Around(st.brackets, k, n + 1), k - n - 1, k + n + 1)
  {
    hide *;
    AroundStep(st.brackets, k, n);
    if n == 0 {
      BracketRing(st, k);
    } else {
      var s := Around(st.brackets, k, n);
      AroundFacts(st, k, n - 1);
      ExtendRing(st, s, k - n, k + n, k + n);
      ExtendRing(st, s + Bracket(st.brackets, k + n), k - n, k + n + 1, k - n);
    }
  }

  lemma BracketRing(st: PoolState, k: int)
    requires IndexOk(st)
    ensures Ring(st, Bracket(st.brackets, k), k - 1, k + 1)
  {
    BracketFacts(st, k);
  }

  lemma AroundStep(b: Brackets, k: int, n: nat)
    ensures Around(b, k, n + 1) ==
            if n == 0 then Bracket(b, k) else Around(b, k, n) + Bracket(b, k + n) + Bracket(b, k - n)
  {
    if n == 0 {
      assert Around(b, k, 1) == [] + Bracket(b, k) + [];
    }
  }

  lemma NeighbourhoodFacts(st: PoolState, k: int)
    requires IndexOk(st)
    ensures DistinctIds(Neighbourhood(st.brackets, k)) && PoolMembers(st, Neighbourhood(st.brackets, k))
    ensures forall q | q in Neighbourhood(st.brackets, k) :: k - 2 <= BracketKey(q.mmr) <= k + 2
  {
    AroundFacts(st, k, MAX_BRACKET_EXPANSION);
  }

  lemma NeighbourhoodSize(b: Brackets, k: int)
    ensures |Neighbourhood(b, k)| == |Bracket(b, k - 2)| + |Bracket(b, k - 1)| + |Bracket(b, k)| + |Bracket(b, k + 1)| + |Bracket(b, k + 2)|
  {
    assert |Around(b, k, 1)| == |Bracket(b, k)|;
    assert |Around(b, k, 2)| == |Around(b, k, 1)| + |Bracket(b, k + 1)| + |Bracket(b, k - 1)|;
    assert |Around(b, k, 3)| == |Around(b, k, 2)| + |Bracket(b, k + 2)| + |Bracket(b, k - 2)|;
  }

  /** Sorting keeps the candidates distinct. */
  lemma SortFacts(st: PoolState, s: seq<QueuedPlayer>, c: seq<QueuedPlayer>)
    requires DistinctIds(s) && PoolMembers(st, s) && IsSortOf(c, s)
    ensures DistinctIds(c) && PoolMembers(st, c)
    ensures forall q :: q in c <==> q in s
  {
    forall q ensures q in c <==> q in s {
      assert q in multiset(c) <==> q in multiset(s);
    }
    forall i, j | 0 <= i < j < |c| ensures c[i].id != c[j].id {
      if c[i].id == c[j].id {
        assert c[i] == st.players[c[i].id] == c[j];
        TwiceCounted(c, i, j);
        NoDuplicates(s, c[i]);
        assert false;
      }
    }
  }

  lemma WindowMembers(c: seq<QueuedPlayer>, start: int)
    requires IsWindow(c, start) && DistinctIds(c)
    ensures DistinctIds(Window(c, start))
    ensures forall q | q in Window(c, start) :: q in c
  {
  }

  /** A selection is ten distinct players of the pool. */
  lemma SelectionFacts(st: PoolState, now: real, sel: seq<QueuedPlayer>)
    requires IndexOk(st) && CanSelect(st, now, sel)
    ensures |sel| == PLAYERS_PER_MATCH && DistinctIds(sel) && PoolMembers(st, sel)
    ensures Ids(sel) <= st.players.Keys && |Ids(sel)| == PLAYERS_PER_MATCH
  {
    var k, c, start :| Draws(st, now, k, c, start) && sel == Window(c, start);
    NeighbourhoodFacts(st, k);
    SortFacts(st, Neighbourhood(st.brackets, k), c);
    WindowMembers(c, start);
    DistinctIdsCount(sel);
  }

  /** Extraction frame: exactly the ten selected leave, and every bracket keeps
      the rest in order. */
  lemma ExtractionFrame(st: PoolState, now: real, sel: seq<QueuedPlayer>)
    requires IndexOk(st) && CanSelect(st, now, sel)
    ensures DistinctIds(sel) && Ids(sel) <= st.players.Keys
    ensures IndexOk(DeleteAll(st, sel))
    ensures DeleteAll(st, sel).players == st.players - Ids(sel)
    ensures |DeleteAll(st, sel).players| + PLAYERS_PER_MATCH == |st.players|
    ensures forall k :: Bracket(DeleteAll(st, sel).brackets, k) == Keep(Bracket(st.brackets, k), Ids(sel))
  {
    SelectionFacts(st, now, sel);
    DeleteAllFrame(st, sel);
    MapMinusSize(st.players, Ids(sel));
  }

  // ------------------------------------------------------------------
  // Quality of the chosen ten
  // ------------------------------------------------------------------

  /** Ratings are accepted ones and no one was enqueued after `now`. */
  ghost predicate Live(st: PoolState, now: real) {
    forall id | id in st.players :: Rated(st.players[id]) && st.players[id].enqueuedAt <= now
  }

  lemma CandidatesNear(st: PoolState, now: real, k: int, c: seq<QueuedPlayer>)
    requires IndexOk(st) && Live(st, now) && IsSortOf(c, Neighbourhood(st.brackets, k))
    ensures Near(c, now)
    ensures forall q :: q in c <==> q in Neighbourhood(st.brackets, k)
  {
    NeighbourhoodFacts(st, k);
    SortFacts(st, Neighbourhood(st.brackets, k), c);
    forall p, q | p in c && q in c ensures p.mmr - q.mmr <= MAX_SPREAD {
      assert BracketKey(p.mmr) - BracketKey(q.mmr) <= 4;
    }
  }

  /** The selected ten against any other ten of the same neighbourhood: their score
      is at most the others' spread, and with equal waits so is their spread. */
  lemma SelectionBeatsAnyTen(
    st: PoolState, now: real, k: int, c: seq<QueuedPlayer>, start: int, ten: set<QueuedPlayer>, lo: int, hi: int)
    requires IndexOk(st) && Live(st, now) && Draws(st, now, k, c, start)
    requires |ten| == PLAYERS_PER_MATCH
    requires forall q | q in ten :: q in Neighbourhood(st.brackets, k) && lo <= q.mmr <= hi
    ensures 2.0 * (c[start + 9].mmr - c[start].mmr) as real - (10.0 * now - EnqueuedSum(c[start..start + 10]))
            <= 2.0 * (hi - lo) as real
    ensures (forall p, q | p in Neighbourhood(st.brackets, k) && q in Neighbourhood(st.brackets, k) ::
               p.enqueuedAt == q.enqueuedAt) ==> c[start + 9].mmr - c[start].mmr <= hi - lo
  {
    CandidatesNear(st, now, k, c);
    ChoiceBeatsAnyTen(c, now, start, ten, lo, hi);
  }

  /** Against window `i`, each point of spread given up buys two seconds of waiting. */
  predicate Outweighs(c: seq<QueuedPlayer>, start: int, i: int)
    requires IsWindow(c, start) && IsWindow(c, i)
  {
    2.0 * ((c[start + 9].mmr - c[start].mmr) - (c[i + 9].mmr - c[i].mmr)) as real
    <= EnqueuedSum(c[i..i + 10]) - EnqueuedSum(c[start..start + 10])
  }

  /** The score is least over all windows, below the sentinel, with a spread of at
      most 2499; the average wait is at least a tenth of any candidate's wait, less
      499.8 seconds. */
  lemma SelectionHonoursWaits(
    st: PoolState, now: real, k: int, c: seq<QueuedPlayer>, start: int, q: QueuedPlayer)
    requires IndexOk(st) && Live(st, now) && Draws(st, now, k, c, start)
    requires q in Neighbourhood(st.brackets, k)
    ensures (now - q.enqueuedAt) / 10.0 - 499.8 <= (10.0 * now - EnqueuedSum(c[start..start + 10])) / 10.0
    ensures 0 <= c[start + 9].mmr - c[start].mmr <= 2499 && Score(Window(c, start), now) < SENTINEL
    ensures forall i | IsWindow(c, i) :: Outweighs(c, start, i)
  {
    CandidatesNear(st, now, k, c);
    ChoiceHonoursWaits(c, now, start, q);
    WindowFacts(c, now, start);
    forall i | IsWindow(c, i) ensures Outweighs(c, start, i) {
      ChoiceWeighs(c, now, start, i);
    }
    hide Score, EnqueuedSum, Draws;
  }

  // ------------------------------------------------------------------
  // When extraction must succeed
  // ------------------------------------------------------------------

  /** No run fails with more than this many players waiting. */
  const MAX_STRANDED := 171

  lemma {:induction false} NineEach(b: Brackets, from: nat, to: nat)
    requires from <= to
    requires forall k | from <= k < to :: |Bracket(b, k)| <= 9
    ensures LenBelow(b, to) <= LenBelow(b, from) + 9 * (to - from)
  {
    if from < to {
      NineEach(b, from, to - 1);
    }
  }

  lemma AroundWithin(b: Brackets, k: nat, lo: nat, hi: nat)
    requires lo == (if k < 2 then 0 else k - 2) && lo <= k <= hi <= k + 2
    ensures LenBelow(b, hi + 1) <= LenBelow(b, lo) + |Neighbourhood(b, k)|
  {
    NeighbourhoodSize(b, k);
    assert hi == k + 2 || hi == k + 1 || hi == k;
    assert LenBelow(b, k + 3) == LenBelow(b, k + 2) + |Bracket(b, k + 2)|;
    assert LenBelow(b, k + 2) == LenBelow(b, k + 1) + |Bracket(b, k + 1)|;
    assert LenBelow(b, k + 1) == LenBelow(b, k) + |Bracket(b, k)|;
    assert k >= 1 ==> LenBelow(b, k) == LenBelow(b, k - 1) + |Bracket(b, k - 1)|;
    assert k >= 2 ==> LenBelow(b, k - 1) == LenBelow(b, k - 2) + |Bracket(b, k - 2)|;
  }

  /** Nine in each bracket outside the neighbourhood, nine in the whole of it. */
  lemma CrowdedAtMost(b: Brackets, k: nat, n: nat)
    requires k < n == TOP_BRACKET + 1 && |Neighbourhood(b, k)| <= 9
    requires forall j: nat :: |Bracket(b, j)| <= 9
    ensures LenBelow(b, n) <= MAX_STRANDED
  {
    var lo, hi := if k < 2 then 0 else k - 2, if k + 2 < n then k + 2 else n - 1;
    NineEach(b, 0, lo);
    AroundWithin(b, k, lo, hi);
    NineEach(b, hi + 1, n);
  }

  lemma KeysInRange(st: PoolState)
    requires IndexOk(st) && forall id | id in st.players :: Rated(st.players[id])
    ensures forall k | k in st.brackets :: 0 <= k <= TOP_BRACKET
  {
    forall k | k in st.brackets ensures 0 <= k <= TOP_BRACKET {
      BracketFacts(st, k);
      assert st.brackets[k][0] in Bracket(st.brackets, k);
    }
  }

  lemma FullestBounds(b: Brackets, k: int)
    requires Fullest(b, k) && |Neighbourhood(b, k)| <= 9
    ensures forall j: nat :: |Bracket(b, j)| <= 9
  {
    NeighbourhoodSize(b, k);
  }

  lemma NoBracketsNoPlayers(st: PoolState)
    requires IndexOk(st) && st.brackets == map[]
    ensures st.players == map[]
  {
    assert forall id | id in st.players :: PlayerOk(st, id);
  }

  lemma CrowdedIndex(st: PoolState, k: int, n: nat)
    requires n == TOP_BRACKET + 1 && IndexOk(st) && Fullest(st.brackets, k) && |Neighbourhood(st.brackets, k)| <= 9
    requires forall id | id in st.players :: Rated(st.players[id])
    ensures |st.players| <= MAX_STRANDED
  {
    KeysInRange(st);
    FullestBounds(st.brackets, k);
    LengthsSumToSize(st, n);
    CrowdedAtMost(st.brackets, k, n);
  }

  /** Pigeonhole bound: a pool some run fails on holds at most 171 players. */
  lemma FailureStrandsFew(st: PoolState)
    requires IndexOk(st) && CanFail(st)
    requires forall id | id in st.players :: Rated(st.players[id])
    ensures |st.players| <= MAX_STRANDED
  {
    if st.brackets == map[] {
      NoBracketsNoPlayers(st);
    } else {
      var k :| Fullest(st.brackets, k) && |Neighbourhood(st.brackets, k)| < PLAYERS_PER_MATCH;
      CrowdedIndex(st, k, TOP_BRACKET + 1);
    }
  }

  // ------------------------------------------------------------------
  // Putting the ten back
  // ------------------------------------------------------------------

  function InsertAll(st: PoolState, qs: seq<QueuedPlayer>): PoolState
    decreases |qs|
  {
    if qs == [] then st else Insert(InsertAll(st, qs[..|qs| - 1]), qs[|qs| - 1])
  }

  lemma {:induction false} InsertAllPlayers(st: PoolState, qs: seq<QueuedPlayer>)
    requires DistinctIds(qs)
    ensures InsertAll(st, qs).players.Keys == st.players.Keys + Ids(qs)
    ensures forall id | id in st.players && id !in Ids(qs) :: InsertAll(st, qs).players[id] == st.players[id]
    ensures forall q | q in qs :: InsertAll(st, qs).players[q.id] == q
    decreases |qs|
  {
    if qs == [] {
      assert Ids(qs) == {};
    } else {
      LastApart(qs);
      InsertAllPlayers(st, qs[..|qs| - 1]);
    }
  }

  lemma {:induction false} InsertAllKeepsIndex(st: PoolState, qs: seq<QueuedPlayer>)
    requires IndexOk(st) && DistinctIds(qs) && Ids(qs) !! st.players.Keys
    ensures IndexOk(InsertAll(st, qs))
    decreases |qs|
  {
    if qs != [] {
      var n := |qs| - 1;
      LastApart(qs);
      InsertAllPlayers(st, qs[..n]);
      InsertAllKeepsIndex(st, qs[..n]);
      InsertKeepsIndex(InsertAll(st, qs[..n]), qs[n]);
    }
  }

  lemma LastApart(qs: seq<QueuedPlayer>)
    requires qs != [] && DistinctIds(qs)
    ensures DistinctIds(qs[..|qs| - 1])
    ensures Ids(qs) == Ids(qs[..|qs| - 1]) + {qs[|qs| - 1].id}
    ensures qs[|qs| - 1].id !in Ids(qs[..|qs| - 1])
    ensures forall q | q in qs :: q in qs[..|qs| - 1] || q == qs[|qs| - 1]
  {
    var n := |qs| - 1;
    assert qs == qs[..n] + [qs[n]];
  }

  /** Re-enqueuing removed players, such as an extracted ten, in any order restores the
      player map (with the original enqueue times) and the brackets up to the order of
      equal ratings. */
  lemma ReEnqueueRestores(st: PoolState, sel: seq<QueuedPlayer>, order: seq<QueuedPlayer>, back: PoolState)
    requires IndexOk(st) && DistinctIds(sel) && PoolMembers(st, sel) && Ids(sel) <= st.players.Keys
    requires multiset(order) == multiset(sel) && back == InsertAll(DeleteAll(st, sel), order)
    ensures IndexOk(back) && back.players == st.players
    ensures back.brackets.Keys == st.brackets.Keys
    ensures forall k | k in st.brackets ::
              multiset(back.brackets[k]) == multiset(st.brackets[k]) && Mmrs(back.brackets[k]) == Mmrs(st.brackets[k])
  {
    DeleteAllFrame(st, sel);
    ReorderFacts(st, sel, order);
    InsertAllPlayers(DeleteAll(st, sel), order);
    InsertAllKeepsIndex(DeleteAll(st, sel), order);
    RestoredPlayers(st, order, back);
    MapDeterminesIndex(back, st);
  }

  lemma RestoredPlayers(st: PoolState, order: seq<QueuedPlayer>, back: PoolState)
    requires PoolMembers(st, order)
    requires back.players.Keys == st.players.Keys - Ids(order) + Ids(order)
    requires forall id | id in st.players && id !in Ids(order) :: id in back.players && back.players[id] == st.players[id]
    requires forall q | q in order :: q.id in back.players && back.players[q.id] == q
    ensures back.players == st.players
  {
    assert Ids(order) <= st.players.Keys;
  }

  lemma ReorderFacts(st: PoolState, sel: seq<QueuedPlayer>, order: seq<QueuedPlayer>)
    requires DistinctIds(sel) && PoolMembers(st, sel) && multiset(order) == multiset(sel)
    ensures DistinctIds(order) && PoolMembers(st, order) && Ids(order) == Ids(sel)
  {
    forall q ensures q in order <==> q in sel {
      assert q in multiset(order) <==> q in multiset(sel);
    }
    forall i, j | 0 <= i < j < |order| ensures order[i].id != order[j].id {
      if order[i].id == order[j].id {
        assert order[i] == st.players[order[i].id] == order[j];
        TwiceCounted(order, i, j);
        NoDuplicates(sel, order[i]);
        assert false;
      }
    }
  }
}

/** What an extraction can do, in ratings and enqueue times alone. */
module ExtractionOutcomes {
  import opened Players
  import opened Ordered
  import opened PoolIndex
  import opened MatchWindow
  import opened Extraction

  /** The queued players rated from `lo` up to, not including, `hi`. */
  function RatedWithin(st: PoolState, lo: int, hi: int): set<string> {
    set id | id in st.players && lo <= st.players[id].mmr < hi
  }

  /** The `k`-th range of 500. */
  function Range(st: PoolState, k: int): set<string> {
    RatedWithin(st, 500 * k, 500 * k + 500)
  }

  ghost predicate AllRated(st: PoolState) {
    forall id | id in st.players :: Rated(st.players[id])
  }

  /** No range of 500 holds more players than the `k`-th, and it is not empty. */
  ghost predicate Busiest(st: PoolState, k: int) {
    && Range(st, k) != {}
    && forall j :: |Range(st, j)| <= |Range(st, k)|
  }

  /** Those at most two ranges away. */
  function Reach(st: PoolState, k: int): set<string> {
    RatedWithin(st, 500 * k - 1000, 500 * k + 1500)
  }

  // ------------------------------------------------------------------
  // Brackets and neighbourhoods are ranges of ratings
  // ------------------------------------------------------------------

  lemma BracketHolds(st: PoolState, k: int)
    requires IndexOk(st) && AllRated(st)
    ensures Ids(Bracket(st.brackets, k)) == Range(st, k)
    ensures |Bracket(st.brackets, k)| == |Range(st, k)|
  {
    var b := Bracket(st.brackets, k);
    BracketFacts(st, k);
    DistinctIdsCount(b);
    forall id | id in Ids(b) ensures id in Range(st, k) {
      var q :| q in b && q.id == id;
      BracketIs(q.mmr);
    }
    forall id | id in Range(st, k) ensures id in Ids(b) {
      BracketIs(st.players[id].mmr);
      assert PlayerOk(st, id);
    }
  }

  /** The candidates are exactly the queued players in reach, each once. */
  lemma NeighbourhoodHolds(st: PoolState, k: int)
    requires IndexOk(st) && AllRated(st)
    ensures forall q :: q in Neighbourhood(st.brackets, k) <==>
              q.id in st.players && st.players[q.id] == q && 500 * k - 1000 <= q.mmr < 500 * k + 1500
    ensures Ids(Neighbourhood(st.brackets, k)) == Reach(st, k)
    ensures |Neighbourhood(st.brackets, k)| == |Reach(st, k)|
  {
    var n := Neighbourhood(st.brackets, k);
    NeighbourhoodFacts(st, k);
    DistinctIdsCount(n);
    forall q ensures q in n <==> q.id in st.players && st.players[q.id] == q && 500 * k - 1000 <= q.mmr < 500 * k + 1500 {
      BracketIs(q.mmr);
      if q.id in st.players && st.players[q.id] == q && 500 * k - 1000 <= q.mmr < 500 * k + 1500 {
        assert PlayerOk(st, q.id);
        AroundHolds(st.brackets, k, BracketKey(q.mmr), q);
      }
    }
    hide IndexOk, Neighbourhood;
    ReachIds(st, k, n);
  }

  lemma ReachIds(st: PoolState, k: int, n: seq<QueuedPlayer>)
    requires forall id | id in st.players :: st.players[id].id == id
    requires forall q :: q in n <==> q.id in st.players && st.players[q.id] == q && 500 * k - 1000 <= q.mmr < 500 * k + 1500
    ensures Ids(n) == Reach(st, k)
  {
    forall id | id in Reach(st, k) ensures id in Ids(n) {
      assert st.players[id] in n;
    }
  }

  lemma AroundHolds(b: Brackets, k: int, j: int, q: QueuedPlayer)
    requires q in Bracket(b, j) && k - 2 <= j <= k + 2
    ensures q in Neighbourhood(b, k)
  {
    AroundStep(b, k, 0);
    AroundStep(b, k, 1);
    AroundStep(b, k, 2);
    assert Neighbourhood(b, k) == Around(b, k, 1) + Bracket(b, k + 1) + Bracket(b, k - 1) + Bracket(b, k + 2) + Bracket(b, k - 2);
  }

  lemma FullestByLength(b: Brackets, k: int)
    requires forall j | j in b :: b[j] != []
    ensures Fullest(b, k) <==> |Bracket(b, k)| != 0 && forall j :: |Bracket(b, j)| <= |Bracket(b, k)|
  {
    if |Bracket(b, k)| != 0 && forall j :: |Bracket(b, j)| <= |Bracket(b, k)| {
      forall j | j in b ensures |b[j]| <= |b[k]| {
        assert |Bracket(b, j)| <= |Bracket(b, k)|;
      }
    }
  }

  lemma LengthsCompare(st: PoolState, k: int)
    requires forall j :: |Bracket(st.brackets, j)| == |Range(st, j)|
    ensures Busiest(st, k) <==>
            |Bracket(st.brackets, k)| != 0 && forall j :: |Bracket(st.brackets, j)| <= |Bracket(st.brackets, k)|
  {
    hide Range, Bracket;
    if Busiest(st, k) {
      forall j ensures |Bracket(st.brackets, j)| <= |Bracket(st.brackets, k)| {
        assert |Range(st, j)| <= |Range(st, k)|;
      }
    }
  }

  lemma FullestIsBusiest(st: PoolState, k: int)
    requires IndexOk(st) && AllRated(st)
    ensures Fullest(st.brackets, k) <==> Busiest(st, k)
  {
    FullestByLength(st.brackets, k);
    forall j ensures |Bracket(st.brackets, j)| == |Range(st, j)| { BracketHolds(st, j); }
    LengthsCompare(st, k);
    hide AllRated, IndexOk, Range, Bracket, Fullest, Busiest;
  }

  // ------------------------------------------------------------------
  // When it fails, and when it succeeds
  // ------------------------------------------------------------------

  lemma BracketHasPlayer(st: PoolState, k: int)
    requires IndexOk(st) && k in st.brackets
    ensures st.players != map[]
  {
    BracketFacts(st, k);
    assert st.brackets[k][0] in Bracket(st.brackets, k);
    assert st.brackets[k][0].id in st.players;
  }

  lemma SomeoneHasABracket(st: PoolState)
    requires IndexOk(st)
    ensures st.brackets == map[] <==> st.players == map[]
  {
    if st.brackets == map[] {
      NoBracketsNoPlayers(st);
    }
    if st.players == map[] {
      forall k ensures k !in st.brackets {
        if k in st.brackets {
          BracketHasPlayer(st, k);
          assert false;
        }
      }
      assert st.brackets.Keys == {};
    }
  }

  /** An extraction can fail exactly when nobody waits, or some busiest range has fewer
      than ten players in reach. */
  lemma FailsExactlyWhen(st: PoolState)
    requires IndexOk(st) && AllRated(st)
    ensures CanFail(st) <==> st.players == map[] || exists k :: Busiest(st, k) && |Reach(st, k)| < 10
  {
    SomeoneHasABracket(st);
    forall k ensures Fullest(st.brackets, k) <==> Busiest(st, k) { FullestIsBusiest(st, k); }
    forall k ensures |Neighbourhood(st.brackets, k)| == |Reach(st, k)| { NeighbourhoodHolds(st, k); }
    hide IndexOk, Fullest, Busiest, Neighbourhood, Reach;
    if k :| Fullest(st.brackets, k) && |Neighbourhood(st.brackets, k)| < PLAYERS_PER_MATCH {
      assert Busiest(st, k) && |Reach(st, k)| < 10;
    }
    if k :| Busiest(st, k) && |Reach(st, k)| < 10 {
      assert Fullest(st.brackets, k) && |Neighbourhood(st.brackets, k)| < PLAYERS_PER_MATCH;
    }
  }

  function Arranged(s: seq<QueuedPlayer>): seq<QueuedPlayer> {
    if s == [] then [] else Inserted(Arranged(s[..|s| - 1]), s[|s| - 1])
  }

  lemma {:induction false} ArrangedIsSort(s: seq<QueuedPlayer>)
    ensures IsSortOf(Arranged(s), s) && |Arranged(s)| == |s|
  {
    hide Sorted, Inserted;
    if s == [] {
      assert Sorted([]) by { NothingSorted(); }
    } else {
      var n := |s| - 1;
      assert s == s[..n] + [s[n]];
      ArrangedIsSort(s[..n]);
      InsertedSorted(Arranged(s[..n]), s[n]);
      InsertedMultiset(Arranged(s[..n]), s[n]);
    }
    assert |Arranged(s)| == |multiset(Arranged(s))| == |multiset(s)| == |s|;
  }

  lemma NothingSorted()
    ensures Sorted([])
  {
  }

  /** The first least of the first `n` windows. */
  lemma {:induction false} LeastWindow(c: seq<QueuedPlayer>, now: real, n: nat) returns (start: int)
    requires n > 0 && IsWindow(c, n - 1)
    ensures 0 <= start < n
    ensures forall i | 0 <= i < n :: Score(Window(c, start), now) <= Score(Window(c, i), now)
    ensures forall i | 0 <= i < start :: Score(Window(c, start), now) < Score(Window(c, i), now)
  {
    hide Score;
    if n == 1 {
      start := 0;
    } else {
      start := LeastWindow(c, now, n - 1);
      if Score(Window(c, n - 1), now) < Score(Window(c, start), now) {
        start := n - 1;
      }
    }
  }

  lemma ChoiceExists(c: seq<QueuedPlayer>, now: real) returns (start: int)
    requires PLAYERS_PER_MATCH <= |c|
    ensures IsWindow(c, start) && IsChoice(c, now, start)
  {
    hide Score;
    start := LeastWindow(c, now, |c| - PLAYERS_PER_MATCH + 1);
    if SENTINEL <= Score(Window(c, start), now) {
      start := 0;
    }
  }

  lemma SelectionExists(st: PoolState, now: real, k: int) returns (sel: seq<QueuedPlayer>)
    requires Fullest(st.brackets, k) && PLAYERS_PER_MATCH <= |Neighbourhood(st.brackets, k)|
    ensures CanSelect(st, now, sel)
  {
    hide Fullest, IsChoice, IsSortOf, Neighbourhood;
    var c := Arranged(Neighbourhood(st.brackets, k));
    ArrangedIsSort(Neighbourhood(st.brackets, k));
    var start := ChoiceExists(c, now);
    sel := Window(c, start);
    assert Draws(st, now, k, c, start);
  }

  /** An extraction can succeed exactly when some busiest range has ten in reach. */
  lemma SucceedsExactlyWhen(st: PoolState, now: real)
    requires IndexOk(st) && AllRated(st)
    ensures (exists sel :: CanSelect(st, now, sel)) <==> exists k :: Busiest(st, k) && 10 <= |Reach(st, k)|
  {
    if sel :| CanSelect(st, now, sel) {
      var k := SelectionRange(st, now, sel);
    }
    if k :| Busiest(st, k) && 10 <= |Reach(st, k)| {
      FullestIsBusiest(st, k);
      NeighbourhoodHolds(st, k);
      hide CanSelect, Busiest, Neighbourhood, Fullest;
      var sel := SelectionExists(st, now, k);
    }
    hide CanSelect, Busiest, Reach, IndexOk;
  }

  lemma SortedSize(c: seq<QueuedPlayer>, s: seq<QueuedPlayer>)
    requires IsSortOf(c, s)
    ensures |c| == |s|
  {
    assert |c| == |multiset(c)| && |s| == |multiset(s)|;
  }

  lemma SelectionRange(st: PoolState, now: real, sel: seq<QueuedPlayer>) returns (k: int)
    requires IndexOk(st) && AllRated(st) && CanSelect(st, now, sel)
    ensures Busiest(st, k) && 10 <= |Reach(st, k)|
  {
    var c, start;
    k, c, start :| Draws(st, now, k, c, start) && sel == Window(c, start);
    FullestIsBusiest(st, k);
    NeighbourhoodHolds(st, k);
    SortedSize(c, Neighbourhood(st.brackets, k));
    hide IndexOk, Busiest, Neighbourhood, Fullest, IsChoice, IsSortOf;
  }

  // ------------------------------------------------------------------
  // Who is taken
  // ------------------------------------------------------------------

  /** Any ten in reach rated within [lo, hi]: the selected ten trade no more spread than
      theirs, at half a point per second the ten have waited. */
  ghost predicate BeatsTensWithin(st: PoolState, now: real, k: int, sel: seq<QueuedPlayer>, lo: int, hi: int)
    requires |sel| == PLAYERS_PER_MATCH
  {
    10 <= |Reach(st, k) * RatedWithin(st, lo, hi + 1)| ==>
      2.0 * (sel[9].mmr - sel[0].mmr) as real - (10.0 * now - EnqueuedSum(sel)) <= 2.0 * (hi - lo) as real
  }

  ghost predicate Honours(now: real, sel: seq<QueuedPlayer>, q: QueuedPlayer)
    requires |sel| == PLAYERS_PER_MATCH
  {
    (now - q.enqueuedAt) / 10.0 - 499.8 <= (10.0 * now - EnqueuedSum(sel)) / 10.0
  }

  /** Whoever an extraction takes: ten queued players in reach of a busiest range, in
      order of rating, against any ten in reach and honouring the wait of everyone there. */
  lemma SelectionIs(st: PoolState, now: real, sel: seq<QueuedPlayer>) returns (k: int)
    requires IndexOk(st) && Live(st, now) && CanSelect(st, now, sel)
    ensures Busiest(st, k) && |sel| == PLAYERS_PER_MATCH && Sorted(sel) && DistinctIds(sel)
    ensures forall q | q in sel :: q.id in st.players && st.players[q.id] == q && q.id in Reach(st, k)
    ensures forall lo, hi :: BeatsTensWithin(st, now, k, sel, lo, hi)
    ensures forall id | id in Reach(st, k) :: Honours(now, sel, st.players[id])
  {
    var c, start;
    k, c, start :| Draws(st, now, k, c, start) && sel == Window(c, start);
    FullestIsBusiest(st, k);
    NeighbourhoodHolds(st, k);
    TakenFromReach(st, now, k, c, start);
    forall lo, hi ensures BeatsTensWithin(st, now, k, sel, lo, hi) {
      BeatsTens(st, now, k, c, start, lo, hi);
    }
    forall id | id in Reach(st, k) ensures Honours(now, sel, st.players[id]) {
      assert PlayerOk(st, id);
      SelectionHonoursWaits(st, now, k, c, start, st.players[id]);
    }
    hide IndexOk, Busiest, Draws, Neighbourhood, EnqueuedSum;
  }

  lemma WindowSorted(c: seq<QueuedPlayer>, start: int)
    requires Sorted(c) && IsWindow(c, start)
    ensures Sorted(Window(c, start))
  {
  }

  lemma TakenFromReach(st: PoolState, now: real, k: int, c: seq<QueuedPlayer>, start: int)
    requires IndexOk(st) && AllRated(st) && Draws(st, now, k, c, start)
    ensures Sorted(Window(c, start)) && DistinctIds(Window(c, start))
    ensures forall q | q in Window(c, start) :: q.id in st.players && st.players[q.id] == q && q.id in Reach(st, k)
  {
    hide IndexOk, IsChoice, Fullest, Neighbourhood, DistinctIds;
    NeighbourhoodFacts(st, k);
    NeighbourhoodHolds(st, k);
    SortFacts(st, Neighbourhood(st.brackets, k), c);
    WindowMembers(c, start);
    WindowSorted(c, start);
    hide Sorted;
  }

  lemma IdsMatch(st: PoolState)
    requires IndexOk(st)
    ensures forall id | id in st.players :: st.players[id].id == id
  {
    forall id | id in st.players ensures st.players[id].id == id {
      assert PlayerOk(st, id);
    }
  }

  lemma BeatsTens(st: PoolState, now: real, k: int, c: seq<QueuedPlayer>, start: int, lo: int, hi: int)
    requires IndexOk(st) && Live(st, now) && Draws(st, now, k, c, start)
    ensures BeatsTensWithin(st, now, k, Window(c, start), lo, hi)
  {
    hide IndexOk, EnqueuedSum, Neighbourhood, Fullest, IsChoice, IsSortOf;
    var ids := Reach(st, k) * RatedWithin(st, lo, hi + 1);
    if 10 <= |ids| {
      NeighbourhoodHolds(st, k);
      IdsMatch(st);
      var ten := TenOf(st, ids, 10);
      SelectionBeatsAnyTen(st, now, k, c, start, ten, lo, hi);
    }
  }

  /** Some `n` players of a set of ids. */
  lemma {:induction false} TenOf(st: PoolState, ids: set<string>, n: nat) returns (ten: set<QueuedPlayer>)
    requires ids <= st.players.Keys && n <= |ids| && forall id | id in st.players :: st.players[id].id == id
    ensures |ten| == n && forall q | q in ten :: q.id in ids && st.players[q.id] == q
  {
    if n == 0 {
      ten := {};
    } else {
      var id :| id in ids;
      var rest := TenOf(st, ids - {id}, n - 1);
      ten := rest + {st.players[id]};
    }
  }
}

/** The pool as a value: the player map, and the bracket index that must agree
    with it. */
module PoolIndex {
  import opened Players
  import opened Ordered

  type Brackets = map<int, seq<QueuedPlayer>>

  datatype PoolState = PoolState(players: map<string, QueuedPlayer>, brackets: Brackets)

  /** A missing bracket reads as an empty slice. */
  function Bracket(b: Brackets, k: int): seq<QueuedPlayer> {
    if k in b then b[k] else []
  }

  /** Stores a bracket, dropping it from the map when nothing is left in it. */
  function SetBracket(b: Brackets, k: int, s: seq<QueuedPlayer>): Brackets {
    if s == [] then b - {k} else b[k := s]
  }

  ghost predicate BracketOk(players: map<string, QueuedPlayer>, k: int, s: seq<QueuedPlayer>) {
    && Sorted(s) && DistinctIds(s)
    && forall q | q in s :: BracketKey(q.mmr) == k && q.id in players && players[q.id] == q
  }

  ghost predicate PlayerOk(st: PoolState, id: string)
    requires id in st.players
  {
    st.players[id].id == id && st.players[id] in Bracket(st.brackets, BracketKey(st.players[id].mmr))
  }

  /** The index refines the map: every player sits exactly once, in the bracket of
      its rating, brackets hold nothing else, are sorted and are never empty. */
  ghost predicate IndexOk(st: PoolState) {
    && (forall k | k in st.brackets :: st.brackets[k] != [])
    && (forall k | k in st.brackets :: BracketOk(st.players, k, st.brackets[k]))
    && (forall id | id in st.players :: PlayerOk(st, id))
  }

  function Insert(st: PoolState, q: QueuedPlayer): PoolState {
    var k := BracketKey(q.mmr);
    PoolState(st.players[q.id := q], st.brackets[k := Inserted(Bracket(st.brackets, k), q)])
  }

  function Delete(st: PoolState, id: string): PoolState
    requires id in st.players
  {
    var k := BracketKey(st.players[id].mmr);
    PoolState(st.players - {id}, SetBracket(st.brackets, k, Without(Bracket(st.brackets, k), id)))
  }

  function Ids(s: seq<QueuedPlayer>): set<string> {
    set q | q in s :: q.id
  }

  /** One `Delete` after another, as the removal loop of an extraction does. */
  function DeleteAll(st: PoolState, gone: seq<QueuedPlayer>): (r: PoolState)
    requires DistinctIds(gone) && Ids(gone) <= st.players.Keys
    ensures r.players == st.players - Ids(gone)
    decreases |gone|
  {
    if gone == [] then st
    else
      var n := |gone| - 1;
      var last := gone[n];
      assert gone == gone[..n] + [last];
      assert Ids(gone) == Ids(gone[..n]) + {last.id};
      Delete(DeleteAll(st, gone[..n]), last.id)
  }

  // ------------------------------------------------------------------
  // The index is kept
  // ------------------------------------------------------------------

  lemma InsertIntoBracket(players: map<string, QueuedPlayer>, s: seq<QueuedPlayer>, q: QueuedPlayer)
    requires s == [] || BracketOk(players, BracketKey(q.mmr), s)
    requires q.id !in players
    ensures BracketOk(players[q.id := q], BracketKey(q.mmr), Inserted(s, q))
    ensures q in Inserted(s, q) && Inserted(s, q) != []
    ensures forall x | x in s :: x in Inserted(s, q)
  {
    InsertedMembers(s, q);
    InsertedSorted(s, q);
    InsertedDistinct(s, q);
  }

  lemma InsertKeepsIndex(st: PoolState, q: QueuedPlayer)
    requires IndexOk(st) && q.id !in st.players
    ensures IndexOk(Insert(st, q))
  {
    var k := BracketKey(q.mmr);
    var t := Inserted(Bracket(st.brackets, k), q);
    InsertIntoBracket(st.players, Bracket(st.brackets, k), q);
    InsertKeepsRest(st, q, k, t);
  }

  lemma InsertKeepsRest(st: PoolState, q: QueuedPlayer, k: int, t: seq<QueuedPlayer>)
    requires IndexOk(st) && q.id !in st.players && k == BracketKey(q.mmr)
    requires t != [] && q in t && BracketOk(st.players[q.id := q], k, t)
    requires forall x | x in Bracket(st.brackets, k) :: x in t
    ensures IndexOk(PoolState(st.players[q.id := q], st.brackets[k := t]))
  {
    var st' := PoolState(st.players[q.id := q], st.brackets[k := t]);
    forall j | j in st'.brackets
      ensures st'.brackets[j] != [] && BracketOk(st'.players, j, st'.brackets[j])
    {
      assert j != k ==> BracketOk(st.players, j, st.brackets[j]);
    }
    forall id | id in st'.players ensures PlayerOk(st', id) {
      assert id != q.id ==> PlayerOk(st, id);
    }
  }

  lemma DeleteKeepsIndex(st: PoolState, id: string)
    requires IndexOk(st) && id in st.players
    ensures IndexOk(Delete(st, id))
  {
    var k := BracketKey(st.players[id].mmr);
    assert PlayerOk(st, id);
    assert BracketOk(st.players, k, st.brackets[k]);
    WithoutOrdered(st.brackets[k], id);
    WithoutMembers(st.brackets[k], id);
    DeleteKeepsRest(st, id, k, Without(st.brackets[k], id));
  }

  lemma DeleteKeepsRest(st: PoolState, id: string, k: int, t: seq<QueuedPlayer>)
    requires IndexOk(st) && id in st.players && k == BracketKey(st.players[id].mmr)
    requires Sorted(t) && DistinctIds(t)
    requires forall x :: x in t <==> x in Bracket(st.brackets, k) && x.id != id
    ensures IndexOk(PoolState(st.players - {id}, SetBracket(st.brackets, k, t)))
  {
    var st' := PoolState(st.players - {id}, SetBracket(st.brackets, k, t));
    assert PlayerOk(st, id);
    forall j | j in st'.brackets
      ensures st'.brackets[j] != [] && BracketOk(st'.players, j, st'.brackets[j])
    {
      assert BracketOk(st.players, j, st.brackets[j]);
    }
    forall other | other in st'.players ensures PlayerOk(st', other) {
      assert PlayerOk(st, other);
    }
  }

  lemma SetBracketReads(b: Brackets, k: int, s: seq<QueuedPlayer>, j: int)
    ensures Bracket(SetBracket(b, k, s), j) == if j == k then s else Bracket(b, j)
  {
  }

  lemma ElsewhereAbsent(st: PoolState, id: string, k: int)
    requires IndexOk(st) && id in st.players && k != BracketKey(st.players[id].mmr)
    ensures forall x | x in Bracket(st.brackets, k) :: x.id != id
  {
    assert k in st.brackets ==> BracketOk(st.players, k, st.brackets[k]);
  }

  lemma DeleteFiltersBrackets(st: PoolState, id: string, k: int)
    requires IndexOk(st) && id in st.players
    ensures Bracket(Delete(st, id).brackets, k) == Without(Bracket(st.brackets, k), id)
  {
    var key := BracketKey(st.players[id].mmr);
    SetBracketReads(st.brackets, key, Without(Bracket(st.brackets, key), id), k);
    if k != key {
      ElsewhereAbsent(st, id, k);
      WithoutAbsent(Bracket(st.brackets, k), id);
    }
  }

  /** Enqueue then Dequeue restores the pool. */
  lemma DeleteUndoesInsert(st: PoolState, q: QueuedPlayer)
    requires IndexOk(st) && q.id !in st.players
    ensures Delete(Insert(st, q), q.id) == st
  {
    var k := BracketKey(q.mmr);
    assert k in st.brackets ==> BracketOk(st.players, k, st.brackets[k]);
    var t := Inserted(Bracket(st.brackets, k), q);
    RemoveUndoesInsert(Bracket(st.brackets, k), q);
    UndoBracket(st, k, t);
    assert st.players[q.id := q] - {q.id} == st.players;
  }

  lemma UndoBracket(st: PoolState, k: int, t: seq<QueuedPlayer>)
    requires IndexOk(st)
    ensures SetBracket(st.brackets[k := t], k, Bracket(st.brackets, k)) == st.brackets
  {
  }

  /** Extraction frame: the ten removals keep the index, and every bracket keeps
      everyone else in the order they had. */
  lemma {:induction false} DeleteAllFrame(st: PoolState, gone: seq<QueuedPlayer>)
    requires IndexOk(st) && DistinctIds(gone) && Ids(gone) <= st.players.Keys
    ensures IndexOk(DeleteAll(st, gone))
    ensures forall k :: Bracket(DeleteAll(st, gone).brackets, k) == Keep(Bracket(st.brackets, k), Ids(gone))
    decreases |gone|
  {
    if gone == [] {
      forall k { KeepNone(Bracket(st.brackets, k)); }
      assert Ids(gone) == {};
    } else {
      var n := |gone| - 1;
      var last := gone[n];
      assert gone == gone[..n] + [last];
      assert Ids(gone) == Ids(gone[..n]) + {last.id};
      DeleteAllFrame(st, gone[..n]);
      var mid := DeleteAll(st, gone[..n]);
      DeleteKeepsIndex(mid, last.id);
      forall k ensures Bracket(DeleteAll(st, gone).brackets, k) == Keep(Bracket(st.brackets, k), Ids(gone)) {
        assert k in st.brackets ==> BracketOk(st.players, k, st.brackets[k]);
        KeepThenRemove(Bracket(st.brackets, k), Ids(gone[..n]), last.id);
        DeleteFiltersBrackets(mid, last.id, k);
      }
    }
  }

  // ------------------------------------------------------------------
  // The map determines the index
  // ------------------------------------------------------------------

  function Mmrs(s: seq<QueuedPlayer>): seq<int> {
    seq(|s|, i requires 0 <= i < |s| => s[i].mmr)
  }

  lemma NoDuplicates(s: seq<QueuedPlayer>, x: QueuedPlayer)
    requires DistinctIds(s)
    ensures multiset(s)[x] == if x in s then 1 else 0
  {
    if s != [] {
      assert s == [s[0]] + s[1..];
      assert forall i | 0 <= i < |s| - 1 :: s[1..][i] == s[i + 1];
      NoDuplicates(s[1..], x);
    }
  }

  /** Two sorted arrangements of the same players show the same ratings. */
  lemma {:induction false} SortedAgree(s: seq<QueuedPlayer>, t: seq<QueuedPlayer>)
    requires Sorted(s) && Sorted(t) && multiset(s) == multiset(t)
    ensures |s| == |t| && Mmrs(s) == Mmrs(t)
  {
    assert |s| == |multiset(s)| == |multiset(t)| == |t|;
    forall i | 0 <= i < |s| ensures s[i].mmr == t[i].mmr {
      SortedAtMost(s, t, i);
      SortedAtMost(t, s, i);
    }
  }

  /** At most `i` members are rated below `s[i]`, so `t[i]` is not rated lower. */
  lemma SortedAtMost(s: seq<QueuedPlayer>, t: seq<QueuedPlayer>, i: nat)
    requires Sorted(s) && Sorted(t) && multiset(s) == multiset(t)
    requires i < |s| && i < |t|
    ensures s[i].mmr <= t[i].mmr
  {
    if t[i].mmr < s[i].mmr {
      var low := t[..i + 1];
      assert forall x | x in low :: x.mmr < s[i].mmr;
      assert forall x | x in s[i..] :: s[i].mmr <= x.mmr;
      assert s == s[..i] + s[i..] && t == low + t[i + 1..];
      SeparateParts(multiset(low), multiset(t[i + 1..]), multiset(s[..i]), multiset(s[i..]));
      assert false;
    }
  }

  lemma SeparateParts<T>(low: multiset<T>, rest: multiset<T>, front: multiset<T>, back: multiset<T>)
    requires low + rest == front + back
    requires forall x | x in low :: x !in back
    ensures |low| <= |front|
  {
    forall x ensures low[x] <= front[x] {
      assert (low + rest)[x] == (front + back)[x];
    }
    assert front == low + (front - low);
  }

  /** Whatever sequence of operations led to it, an index over the same players
      has the same brackets up to the order of equal ratings. */
  lemma MapDeterminesIndex(a: PoolState, b: PoolState)
    requires IndexOk(a) && IndexOk(b) && a.players == b.players
    ensures a.brackets.Keys == b.brackets.Keys
    ensures forall k | k in a.brackets ::
              multiset(a.brackets[k]) == multiset(b.brackets[k]) && Mmrs(a.brackets[k]) == Mmrs(b.brackets[k])
  {
    forall k ensures k in a.brackets ==> k in b.brackets { SameMembers(a, b, k); }
    forall k ensures k in b.brackets ==> k in a.brackets { SameMembers(b, a, k); }
    forall k | k in a.brackets
      ensures multiset(a.brackets[k]) == multiset(b.brackets[k]) && Mmrs(a.brackets[k]) == Mmrs(b.brackets[k])
    {
      var s, t := a.brackets[k], b.brackets[k];
      SameMembers(a, b, k);
      SameMembers(b, a, k);
      assert BracketOk(a.players, k, s) && BracketOk(b.players, k, t);
      forall x ensures multiset(s)[x] == multiset(t)[x] {
        NoDuplicates(s, x);
        NoDuplicates(t, x);
      }
      SortedAgree(s, t);
    }
  }

  lemma SameMembers(a: PoolState, b: PoolState, k: int)
    requires IndexOk(a) && IndexOk(b) && a.players == b.players
    ensures forall q | q in Bracket(a.brackets, k) :: q in Bracket(b.brackets, k)
    ensures k in a.brackets ==> k in b.brackets
  {
    forall q | q in Bracket(a.brackets, k) ensures q in Bracket(b.brackets, k) {
      assert BracketOk(a.players, k, a.brackets[k]);
      assert PlayerOk(b, q.id);
    }
    if k in a.brackets {
      assert a.brackets[k][0] in Bracket(a.brackets, k);
    }
  }

  // ------------------------------------------------------------------
  // Bracket lengths sum to the size
  // ------------------------------------------------------------------

  /** Players in brackets 0 .. n-1. */
  function LenBelow(b: Brackets, n: nat): nat {
    if n == 0 then 0 else LenBelow(b, n - 1) + |Bracket(b, n - 1)|
  }

  function PlayersBelow(st: PoolState, n: int): set<string> {
    set id | id in st.players && BracketKey(st.players[id].mmr) < n
  }

  lemma {:induction false} LengthsSumBelow(st: PoolState, n: nat)
    requires IndexOk(st)
    ensures LenBelow(st.brackets, n) == |PlayersBelow(st, n)|
  {
    if n > 0 {
      LengthsSumBelow(st, n - 1);
      OneMoreBracket(st, n - 1);
      DistinctIdsCount(Bracket(st.brackets, n - 1));
    }
  }

  lemma OneMoreBracket(st: PoolState, k: nat)
    requires IndexOk(st)
    ensures PlayersBelow(st, k + 1) == PlayersBelow(st, k) + Ids(Bracket(st.brackets, k))
    ensures PlayersBelow(st, k) !! Ids(Bracket(st.brackets, k))
    ensures DistinctIds(Bracket(st.brackets, k))
  {
    assert k in st.brackets ==> BracketOk(st.players, k, st.brackets[k]);
    forall id | id in st.players && BracketKey(st.players[id].mmr) == k
      ensures id in Ids(Bracket(st.brackets, k))
    {
      assert PlayerOk(st, id);
    }
  }

  lemma {:induction false} DistinctIdsCount(s: seq<QueuedPlayer>)
    requires DistinctIds(s)
    ensures |Ids(s)| == |s|
  {
    if s != [] {
      var n := |s| - 1;
      DistinctIdsCount(s[..n]);
      assert s == s[..n] + [s[n]];
      assert Ids(s) == Ids(s[..n]) + {s[n].id};
    }
  }

  /** Once `n` is above every bracket in use, the lengths sum to the pool size. */
  lemma LengthsSumToSize(st: PoolState, n: nat)
    requires IndexOk(st) && forall k | k in st.brackets :: k < n
    ensures LenBelow(st.brackets, n) == |st.players|
  {
    LengthsSumBelow(st, n);
    forall id | id in st.players ensures BracketKey(st.players[id].mmr) < n {
      assert PlayerOk(st, id);
    }
    assert PlayersBelow(st, n) == st.players.Keys;
  }
}

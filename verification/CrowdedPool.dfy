/** The bound of 171 stranded players is reached: nine players in bracket 0, none in
    brackets 1 and 2, and nine in each of brackets 3 to 20. */
module CrowdedPool {
  import opened Collections
  import opened Players
  import opened Ordered
  import opened PoolIndex
  import opened Extraction

  const PER_BRACKET := 9

  predicate Used(k: int) {
    k == 0 || 3 <= k <= TOP_BRACKET
  }

  /** The `j`-th player of bracket `k`. */
  function Member(k: int, j: int): QueuedPlayer
    requires 0 <= k <= TOP_BRACKET && 0 <= j < PER_BRACKET
  {
    QueuedPlayer(PER_BRACKET * k + j, Name(PER_BRACKET * k + j), "", BRACKET_SIZE * k, 0.0)
  }

  function Nine(k: int): seq<QueuedPlayer>
    requires 0 <= k <= TOP_BRACKET
  {
    seq(PER_BRACKET, j requires 0 <= j < PER_BRACKET => Member(k, j))
  }

  function Everyone(n: int): seq<QueuedPlayer>
    requires 0 <= n <= TOP_BRACKET + 1
  {
    if n == 0 then [] else if Used(n - 1) then Everyone(n - 1) + Nine(n - 1) else Everyone(n - 1)
  }

  lemma NineFacts(k: int)
    requires 0 <= k <= TOP_BRACKET
    ensures DistinctIds(Nine(k)) && |Nine(k)| == PER_BRACKET
    ensures forall q | q in Nine(k) :: BracketKey(q.mmr) == k && Rated(q) && |q.id| < PER_BRACKET * (k + 1) && PER_BRACKET * k <= |q.id|
  {
    forall i, j | 0 <= i < j < PER_BRACKET ensures Nine(k)[i].id != Nine(k)[j].id {
      NamesDiffer(PER_BRACKET * k + i, PER_BRACKET * k + j);
    }
  }

  lemma {:induction false} EveryoneFacts(n: int)
    requires 0 <= n <= TOP_BRACKET + 1
    ensures DistinctIds(Everyone(n))
    ensures forall q | q in Everyone(n) :: 0 <= BracketKey(q.mmr) < n && Used(BracketKey(q.mmr)) && Rated(q) && |q.id| < PER_BRACKET * n
    ensures forall k, q | 0 <= k < n && Used(k) && q in Nine(k) :: q in Everyone(n)
    ensures forall q | q in Everyone(n) :: q in Nine(BracketKey(q.mmr))
    ensures |Everyone(n)| == PER_BRACKET * (if n == 0 then 0 else if n <= 3 then 1 else n - 2)
  {
    if n > 0 {
      EveryoneFacts(n - 1);
      NineFacts(n - 1);
      if Used(n - 1) {
        forall p, q | p in Everyone(n - 1) && q in Nine(n - 1) ensures p.id != q.id {
          assert |p.id| < PER_BRACKET * (n - 1) <= |q.id|;
        }
        JoinDistinct(Everyone(n - 1), Nine(n - 1));
      }
    }
  }

  const NOBODY := PoolState(map[], map[])

  /** The pool they make by joining one after another. */
  function Crowd(n: int): PoolState
    requires 0 <= n <= TOP_BRACKET + 1
  {
    InsertAll(NOBODY, Everyone(n))
  }

  lemma CrowdFacts(n: int)
    requires 0 <= n <= TOP_BRACKET + 1
    ensures IndexOk(Crowd(n)) && Crowd(n).players.Keys == Ids(Everyone(n))
    ensures forall q | q in Everyone(n) :: q.id in Crowd(n).players && Crowd(n).players[q.id] == q
  {
    hide IndexOk, Everyone, InsertAll;
    EmptyOk();
    EveryoneFacts(n);
    InsertAllPlayers(NOBODY, Everyone(n));
    InsertAllKeepsIndex(NOBODY, Everyone(n));
  }

  lemma EmptyOk()
    ensures IndexOk(NOBODY)
  {
  }

  /** Each bracket holds exactly its nine. */
  lemma CrowdBracket(n: int, k: int)
    requires 0 <= n <= TOP_BRACKET + 1
    ensures |Bracket(Crowd(n).brackets, k)| == if 0 <= k < n && Used(k) then PER_BRACKET else 0
  {
    CrowdFacts(n);
    EveryoneFacts(n);
    var b := Bracket(Crowd(n).brackets, k);
    BracketFacts(Crowd(n), k);
    DistinctIdsCount(b);
    CrowdMembers(n, k, b);
    if 0 <= k < n && Used(k) {
      NineFacts(k);
      DistinctIdsCount(Nine(k));
      assert Ids(b) == Ids(Nine(k));
    } else {
      assert b == [];
    }
  }

  lemma CrowdMembers(n: int, k: int, b: seq<QueuedPlayer>)
    requires 0 <= n <= TOP_BRACKET + 1 && b == Bracket(Crowd(n).brackets, k)
    ensures forall q :: q in b <==> q in Everyone(n) && BracketKey(q.mmr) == k
    ensures 0 <= k < n && Used(k) ==> forall q :: q in b <==> q in Nine(k)
    ensures !(0 <= k < n && Used(k)) ==> forall q :: q !in b
  {
    CrowdFacts(n);
    EveryoneFacts(n);
    BracketFacts(Crowd(n), k);
    forall q | q in b ensures q in Everyone(n) && BracketKey(q.mmr) == k {
      var e :| e in Everyone(n) && e.id == q.id;
    }
    forall q | q in Everyone(n) && BracketKey(q.mmr) == k ensures q in b {
      assert PlayerOk(Crowd(n), q.id);
    }
    if 0 <= k <= TOP_BRACKET {
      NineFacts(k);
    }
  }

  /** The bound is tight: on this pool of 171 an extraction finds only nine candidates. */
  lemma BoundIsTight(n: int)
    requires n == TOP_BRACKET + 1
    ensures IndexOk(Crowd(n)) && CanFail(Crowd(n)) && |Crowd(n).players| == MAX_STRANDED
    ensures forall id | id in Crowd(n).players :: Rated(Crowd(n).players[id])
  {
    hide IndexOk, Crowd, Everyone, InsertAll, Rated, DistinctIds;
    CrowdFacts(n);
    EveryoneFacts(n);
    DistinctIdsCount(Everyone(n));
    assert |Crowd(n).players| == |Ids(Everyone(n))|;
    forall k ensures |Bracket(Crowd(n).brackets, k)| == if 0 <= k < n && Used(k) then PER_BRACKET else 0 { CrowdBracket(n, k); }
    FullestIsAlone(Crowd(n).brackets, n);
    forall id | id in Crowd(n).players ensures Rated(Crowd(n).players[id]) {
      var q :| q in Everyone(n) && q.id == id;
    }
  }

  lemma FullestIsAlone(b: Brackets, n: int)
    requires n == TOP_BRACKET + 1
    requires forall k :: |Bracket(b, k)| == if 0 <= k < n && Used(k) then PER_BRACKET else 0
    ensures Fullest(b, 0) && |Neighbourhood(b, 0)| == PER_BRACKET
  {
    NeighbourhoodSize(b, 0);
    forall k | k in b ensures |b[k]| <= PER_BRACKET {
      assert |Bracket(b, k)| <= PER_BRACKET;
    }
    assert |Bracket(b, 0)| == PER_BRACKET;
  }
}

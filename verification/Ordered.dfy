/** Brackets as values: sequences in ascending MMR order, where a player goes in
    and how one comes out. */
module Ordered {
  import opened Players

  predicate Sorted(s: seq<QueuedPlayer>) {
    forall i, j | 0 <= i < j < |s| :: s[i].mmr <= s[j].mmr
  }

  predicate DistinctIds(s: seq<QueuedPlayer>) {
    forall i, j | 0 <= i < j < |s| :: s[i].id != s[j].id
  }

  /** Where `insertSorted` puts a player: before the first rating that is at least its own. */
  function Inserted(s: seq<QueuedPlayer>, q: QueuedPlayer): seq<QueuedPlayer> {
    if s == [] || q.mmr <= s[0].mmr then [q] + s else [s[0]] + Inserted(s[1..], q)
  }

  /** What `removeFromSlice` leaves: the first player with the id is gone. */
  function Without(s: seq<QueuedPlayer>, id: string): seq<QueuedPlayer> {
    if s == [] then [] else if s[0].id == id then s[1..] else [s[0]] + Without(s[1..], id)
  }

  /** Keeps, in order, the players whose id is not in `ids`. */
  function Keep(s: seq<QueuedPlayer>, ids: set<string>): seq<QueuedPlayer> {
    if s == [] then []
    else if s[0].id in ids then Keep(s[1..], ids)
    else [s[0]] + Keep(s[1..], ids)
  }

  lemma {:induction false} InsertedAt(s: seq<QueuedPlayer>, q: QueuedPlayer, k: nat)
    requires k <= |s|
    requires forall i | 0 <= i < k :: s[i].mmr < q.mmr
    requires k < |s| ==> q.mmr <= s[k].mmr
    ensures Inserted(s, q) == s[..k] + [q] + s[k..]
  {
    if k > 0 {
      assert s[0].mmr < q.mmr;
      InsertedAt(s[1..], q, k - 1);
      assert s[..k] == [s[0]] + s[1..][..k - 1];
    }
  }

  lemma {:induction false} WithoutAt(s: seq<QueuedPlayer>, id: string, k: nat)
    requires k < |s| && s[k].id == id
    requires forall i | 0 <= i < k :: s[i].id != id
    ensures Without(s, id) == s[..k] + s[k + 1..]
  {
    if k > 0 {
      assert s[0].id != id;
      WithoutAt(s[1..], id, k - 1);
      assert s[..k] == [s[0]] + s[1..][..k - 1];
      assert s[1..][k..] == s[k + 1..];
    }
  }

  lemma {:induction false} WithoutAbsent(s: seq<QueuedPlayer>, id: string)
    requires forall q | q in s :: q.id != id
    ensures Without(s, id) == s
  {
    if s != [] {
      assert s == [s[0]] + s[1..];
      WithoutAbsent(s[1..], id);
    }
  }

  lemma {:induction false} InsertedMembers(s: seq<QueuedPlayer>, q: QueuedPlayer)
    ensures forall x :: x in Inserted(s, q) <==> x == q || x in s
  {
    if s != [] {
      assert s == [s[0]] + s[1..];
      InsertedMembers(s[1..], q);
    }
  }

  lemma {:induction false} InsertedMultiset(s: seq<QueuedPlayer>, q: QueuedPlayer)
    ensures multiset(Inserted(s, q)) == multiset(s) + multiset{q}
  {
    if s != [] {
      assert s == [s[0]] + s[1..];
      InsertedMultiset(s[1..], q);
    }
  }

  lemma {:induction false} WithoutMembers(s: seq<QueuedPlayer>, id: string)
    requires DistinctIds(s)
    ensures forall x :: x in Without(s, id) <==> x in s && x.id != id
  {
    if s != [] {
      assert s == [s[0]] + s[1..];
      DistinctTail(s);
      WithoutMembers(s[1..], id);
    }
  }

  lemma DistinctTail(s: seq<QueuedPlayer>)
    requires s != [] && DistinctIds(s)
    ensures DistinctIds(s[1..])
    ensures forall x | x in s[1..] :: x.id != s[0].id
  {
  }

  lemma DistinctCons(q: QueuedPlayer, s: seq<QueuedPlayer>)
    requires DistinctIds(s) && forall x | x in s :: x.id != q.id
    ensures DistinctIds([q] + s)
  {
  }

  lemma SortedTail(s: seq<QueuedPlayer>)
    requires s != [] && Sorted(s)
    ensures Sorted(s[1..])
    ensures forall x | x in s :: s[0].mmr <= x.mmr
  {
  }

  lemma SortedCons(q: QueuedPlayer, s: seq<QueuedPlayer>)
    requires Sorted(s) && forall x | x in s :: q.mmr <= x.mmr
    ensures Sorted([q] + s)
  {
  }

  lemma {:induction false} InsertedSorted(s: seq<QueuedPlayer>, q: QueuedPlayer)
    requires Sorted(s)
    ensures Sorted(Inserted(s, q))
  {
    if s != [] {
      SortedTail(s);
      if q.mmr <= s[0].mmr {
        SortedCons(q, s);
      } else {
        InsertedSorted(s[1..], q);
        InsertedMembers(s[1..], q);
        SortedCons(s[0], Inserted(s[1..], q));
      }
    }
  }

  lemma {:induction false} InsertedDistinct(s: seq<QueuedPlayer>, q: QueuedPlayer)
    requires DistinctIds(s) && forall x | x in s :: x.id != q.id
    ensures DistinctIds(Inserted(s, q))
  {
    if s == [] || q.mmr <= s[0].mmr {
      DistinctCons(q, s);
    } else {
      DistinctTail(s);
      InsertedDistinct(s[1..], q);
      InsertedMembers(s[1..], q);
      DistinctCons(s[0], Inserted(s[1..], q));
    }
  }

  lemma {:induction false} WithoutOrdered(s: seq<QueuedPlayer>, id: string)
    requires Sorted(s) && DistinctIds(s)
    ensures Sorted(Without(s, id)) && DistinctIds(Without(s, id))
  {
    if s != [] {
      SortedTail(s);
      DistinctTail(s);
      if s[0].id != id {
        WithoutOrdered(s[1..], id);
        WithoutMembers(s[1..], id);
        SortedCons(s[0], Without(s[1..], id));
        DistinctCons(s[0], Without(s[1..], id));
      }
    }
  }

  /** `removeFromSlice` undoes `insertSorted`. */
  lemma {:induction false} RemoveUndoesInsert(s: seq<QueuedPlayer>, q: QueuedPlayer)
    requires forall x | x in s :: x.id != q.id
    ensures Without(Inserted(s, q), q.id) == s
  {
    if s == [] || q.mmr <= s[0].mmr {
      assert ([q] + s)[1..] == s;
    } else {
      assert s == [s[0]] + s[1..];
      RemoveUndoesInsert(s[1..], q);
      assert Inserted(s, q)[1..] == Inserted(s[1..], q);
    }
  }

  lemma KeepNone(s: seq<QueuedPlayer>)
    ensures Keep(s, {}) == s
  {
  }

  lemma KeepIgnores(s: seq<QueuedPlayer>, ids: set<string>, id: string)
    requires forall x | x in s :: x.id != id
    ensures Keep(s, ids + {id}) == Keep(s, ids)
  {
  }

  /** On a bracket of distinct players, removing ids one after another filters. */
  lemma {:induction false} KeepThenRemove(s: seq<QueuedPlayer>, ids: set<string>, id: string)
    requires DistinctIds(s) && id !in ids
    ensures Without(Keep(s, ids), id) == Keep(s, ids + {id})
  {
    if s != [] {
      DistinctTail(s);
      KeepThenRemove(s[1..], ids, id);
      var t := Keep(s[1..], ids);
      assert ([s[0]] + t)[1..] == t;
      if s[0].id == id {
        KeepIgnores(s[1..], ids, id);
      }
    }
  }
}

/** Go slices of queued players: a backing array and a length, edited in place. */
module Slices {
  import opened Players
  import opened Ordered

  /** `arr.Length` is the capacity. */
  datatype Slice = Slice(arr: array<QueuedPlayer>, len: nat) {
    ghost predicate Valid() {
      len <= arr.Length
    }

    ghost function View(): seq<QueuedPlayer>
      requires Valid()
      reads arr
    {
      arr[..len]
    }
  }

  /** Binary search for the first rating that is at least `mmr`. */
  method Search(s: Slice, mmr: int32) returns (idx: nat)
    requires s.Valid() && Sorted(s.View())
    ensures idx <= s.len
    ensures forall k | 0 <= k < idx :: s.arr[k].mmr < mmr
    ensures idx < s.len ==> mmr <= s.arr[idx].mmr
  {
    var i, j := 0, s.len;
    while i < j
      invariant 0 <= i <= j <= s.len
      invariant forall k | 0 <= k < i :: s.arr[k].mmr < mmr
      invariant forall k | j <= k < s.len :: mmr <= s.arr[k].mmr
    {
      var h := (i + j) / 2;
      if s.arr[h].mmr < mmr {
        assert forall k | 0 <= k < h :: s.View()[k].mmr <= s.View()[h].mmr;
        i := h + 1;
      } else {
        assert forall k | h < k < s.len :: s.View()[h].mmr <= s.View()[k].mmr;
        j := h;
      }
    }
    idx := i;
  }

  /** Room for one more element: the same array when it has spare capacity,
      otherwise a larger copy. */
  method Grow(s: Slice) returns (arr: array<QueuedPlayer>)
    requires s.Valid()
    ensures s.len < arr.Length && arr[..s.len] == s.View()
    ensures if s.len < s.arr.Length then arr == s.arr else fresh(arr)
  {
    if s.len < s.arr.Length {
      arr := s.arr;
    } else {
      arr := new QueuedPlayer[2 * s.len + 1];
      forall i | 0 <= i < s.len {
        arr[i] := s.arr[i];
      }
    }
  }

  /** `copy(s[idx+1:], s[idx:])` and the store at `idx`. */
  method OpenGap(arr: array<QueuedPlayer>, len: nat, idx: nat, q: QueuedPlayer)
    requires idx <= len < arr.Length
    modifies arr
    ensures arr[..len + 1] == old(arr[..idx]) + [q] + old(arr[idx..len])
  {
    forall i | idx <= i < len {
      arr[i + 1] := arr[i];
    }
    arr[idx] := q;
    assert arr[..idx] == old(arr[..idx]);
    assert arr[idx + 1..len + 1] == old(arr[idx..len]);
    assert arr[..len + 1] == arr[..idx] + [arr[idx]] + arr[idx + 1..len + 1];
  }

  method InsertSorted(s: Slice, q: QueuedPlayer) returns (t: Slice)
    requires s.Valid() && Sorted(s.View())
    modifies s.arr
    ensures t.Valid() && (t.arr == s.arr || fresh(t.arr))
    ensures t.View() == Inserted(old(s.View()), q)
  {
    ghost var was := s.View();
    var idx := Search(s, q.mmr);
    var arr := Grow(s);
    InsertedAt(was, q, idx);
    assert arr[..idx] == was[..idx] && arr[idx..s.len] == was[idx..];
    OpenGap(arr, s.len, idx, q);
    t := Slice(arr, s.len + 1);
  }

  /** `copy(s[i:], s[i+1:])`: the elements after position `i` move down by one. */
  method CloseGap(arr: array<QueuedPlayer>, len: nat, i: nat)
    requires i < len <= arr.Length
    modifies arr
    ensures arr[..len - 1] == old(arr[..i]) + old(arr[i + 1..len])
  {
    forall k | i <= k < len - 1 {
      arr[k] := arr[k + 1];
    }
  }

  /** An oversized backing array is replaced by an exact copy. */
  method Shrink(s: Slice) returns (t: Slice)
    requires s.Valid()
    ensures t.Valid() && t.View() == s.View()
    ensures if 0 < s.len < s.arr.Length / 4 then fresh(t.arr) && t.arr.Length == t.len else t == s
  {
    t := s;
    if 0 < s.len < s.arr.Length / 4 {
      var shrunk := new QueuedPlayer[s.len];
      forall k | 0 <= k < s.len {
        shrunk[k] := s.arr[k];
      }
      t := Slice(shrunk, s.len);
    }
  }

  /** Removes the first player with the given id. Of a slice that lost one and is not
      empty, at least a quarter of the capacity is in use. */
  method RemoveFromSlice(s: Slice, id: string) returns (t: Slice)
    requires s.Valid()
    modifies s.arr
    ensures t.Valid() && (t.arr == s.arr || fresh(t.arr))
    ensures t.View() == Without(old(s.View()), id)
    ensures 0 < t.len < s.len ==> t.arr.Length / 4 <= t.len
  {
    ghost var was := s.View();
    var i := 0;
    while i < s.len && s.arr[i].id != id
      invariant i <= s.len
      invariant forall k | 0 <= k < i :: was[k].id != id
    {
      i := i + 1;
    }
    if i < s.len {
      WithoutAt(was, id, i);
      assert s.arr[..i] == was[..i] && s.arr[i + 1..s.len] == was[i + 1..];
      CloseGap(s.arr, s.len, i);
      t := Shrink(Slice(s.arr, s.len - 1));
    } else {
      WithoutAbsent(was, id);
      t := s;
    }
  }

  /** `append(s, t...)`: in place when the capacity allows. */
  method AppendAll(s: Slice, t: Slice) returns (r: Slice)
    requires s.Valid() && t.Valid() && s.arr != t.arr
    modifies s.arr
    ensures r.Valid() && (r.arr == s.arr || fresh(r.arr))
    ensures r.View() == old(s.View()) + t.View()
  {
    ghost var was := s.View();
    var arr := s.arr;
    if s.arr.Length < s.len + t.len {
      arr := new QueuedPlayer[2 * (s.len + t.len)];
      forall i | 0 <= i < s.len {
        arr[i] := s.arr[i];
      }
    }
    assert arr[..s.len] == was;
    CopyInto(arr, s.len, t);
    r := Slice(arr, s.len + t.len);
  }

  method CopyInto(arr: array<QueuedPlayer>, at: nat, t: Slice)
    requires t.Valid() && arr != t.arr && at + t.len <= arr.Length
    modifies arr
    ensures arr[..at + t.len] == old(arr[..at]) + t.View()
  {
    forall i | 0 <= i < t.len {
      arr[at + i] := t.arr[i];
    }
  }

  /** Stands in for `sort.Slice`, which is not stable: callers may rely only on the
      order and on the elements staying the same. */
  method SortByMMR(s: Slice)
    requires s.Valid()
    modifies s.arr
    ensures multiset(s.View()) == multiset(old(s.View())) && Sorted(s.View())
  {
    ghost var was := s.View();
    var sorted := SortedCopy(s);
    SameLength(sorted, was);
    forall k | 0 <= k < s.len {
      s.arr[k] := sorted[k];
    }
    assert s.View() == sorted;
  }

  lemma SameLength(s: seq<QueuedPlayer>, t: seq<QueuedPlayer>)
    requires multiset(s) == multiset(t)
    ensures |s| == |t|
  {
    assert |s| == |multiset(s)| && |t| == |multiset(t)|;
  }

  method SortedCopy(s: Slice) returns (sorted: seq<QueuedPlayer>)
    requires s.Valid()
    ensures multiset(sorted) == multiset(s.View()) && Sorted(sorted)
  {
    hide Inserted;
    ghost var was := s.View();
    sorted := [];
    var i := 0;
    while i < s.len
      invariant 0 <= i <= s.len && s.View() == was
      invariant Sorted(sorted) && multiset(sorted) == multiset(was[..i])
    {
      assert was[..i + 1] == was[..i] + [s.arr[i]];
      InsertedSorted(sorted, s.arr[i]);
      InsertedMultiset(sorted, s.arr[i]);
      hide Sorted;
      sorted := Inserted(sorted, s.arr[i]);
      i := i + 1;
    }
    assert was[..s.len] == was;
  }
}

/** makeShuffledList: a random permutation of 0..listSize-1 by rejection
    sampling. Every slot starts free (-1); each entry number in turn draws
    slot numbers until it hits a free one and takes it. */
module Shuffle {
  import opened Common

  /** The marker of a slot no entry has taken yet. */
  const FREE: int := -1

  /** The number of free slots among s[0..hi). */
  function FreeCount(s: seq<int>, hi: nat): (n: nat)
    requires hi <= |s|
    ensures n <= hi
  {
    if hi == 0 then 0 else FreeCount(s, hi - 1) + (if s[hi - 1] == FREE then 1 else 0)
  }

  /** Taking one free slot lowers the count by one. */
  lemma {:induction false} FreeCountTake(s: seq<int>, hi: nat, r: nat, v: int)
    requires r < hi <= |s| && s[r] == FREE && v != FREE
    ensures FreeCount(s[r := v], hi) == FreeCount(s, hi) - 1
  {
    if r < hi - 1 {
      FreeCountTake(s, hi - 1, r, v);
    } else {
      FreeCountSame(s, s[r := v], hi - 1);
    }
  }

  /** Two sequences that agree on [0, hi) have the same count. */
  lemma {:induction false} FreeCountSame(s: seq<int>, t: seq<int>, hi: nat)
    requires hi <= |s| && hi <= |t|
    requires forall i :: 0 <= i < hi ==> s[i] == t[i]
    ensures FreeCount(s, hi) == FreeCount(t, hi)
  {
    if hi > 0 {
      FreeCountSame(s, t, hi - 1);
    }
  }

  /** No free slot is left exactly when the count is zero. */
  lemma {:induction false} FreeCountZero(s: seq<int>, hi: nat)
    requires hi <= |s|
    ensures FreeCount(s, hi) == 0 <==> forall i :: 0 <= i < hi ==> s[i] != FREE
  {
    if hi > 0 {
      FreeCountZero(s, hi - 1);
    }
  }

  /** v is one of s[0..n). */
  predicate Occurs(s: seq<int>, n: nat, v: int)
    requires n <= |s|
  {
    exists i :: 0 <= i < n && s[i] == v
  }

  /** s[0..n) holds every number 0..n-1 exactly once. */
  predicate IsPermutation(s: seq<int>, n: nat)
    requires n <= |s|
  {
    && (forall i :: 0 <= i < n ==> 0 <= s[i] < n)
    && (forall i, j :: 0 <= i < j < n ==> s[i] != s[j])
    && (forall v :: 0 <= v < n ==> Occurs(s, n, v))
  }

  /** The do/while of makeShuffledList: draws slot numbers until a free
      one comes up. The loop ends only on a lucky draw, so it is given a
      budget of draws; `ok` is false exactly when the budget ran out first,
      every draw having hit a taken slot. */
  method DrawFreeSlot(list: array<int>, listSize: int, rng: Rng, budget: nat) returns (r: int, ok: bool)
    requires 0 < listSize <= list.Length
    modifies rng
    ensures 0 <= r < listSize
    ensures ok ==> list[r] == FREE
    ensures old(rng.pos) <= rng.pos <= old(rng.pos) + budget
    ensures ok ==> rng.pos > old(rng.pos) && r == Draw(rng.stream, rng.pos - 1, listSize)
    ensures !ok ==> rng.pos == old(rng.pos) + budget
    ensures forall k :: old(rng.pos) <= k < rng.pos - 1 ==> list[Draw(rng.stream, k, listSize)] != FREE
    ensures !ok ==> forall k :: old(rng.pos) <= k < rng.pos ==> list[Draw(rng.stream, k, listSize)] != FREE
  {
    if budget == 0 {
      return 0, false;
    }
    r := rng.Next(listSize);
    var used := 1;
    while list[r] != FREE && used < budget
      invariant 0 <= r < listSize
      invariant 1 <= used <= budget
      invariant rng.pos == old(rng.pos) + used
      invariant r == Draw(rng.stream, rng.pos - 1, listSize)
      invariant forall k :: old(rng.pos) <= k < rng.pos - 1 ==> list[Draw(rng.stream, k, listSize)] != FREE
      decreases budget - used
    {
      r := rng.Next(listSize);
      used := used + 1;
    }
    ok := list[r] == FREE;
  }

  /** makeShuffledList. When the draws suffice (`ok`), list[0..listSize)
      is a permutation of 0..listSize-1; the rest of the array is never
      touched. */
  method MakeShuffledList(list: array<int>, listSize: int, rng: Rng, budget: nat) returns (ok: bool)
    requires listSize <= list.Length
    modifies list, rng
    ensures listSize >= 0 ==> list[listSize..] == old(list[listSize..])
    ensures listSize < 0 ==> list[..] == old(list[..])
    ensures ok && listSize >= 0 ==> IsPermutation(list[..], listSize)
    ensures listSize <= 0 ==> ok && rng.pos == old(rng.pos)
    ensures old(rng.pos) <= rng.pos <= old(rng.pos) + budget
    ensures !ok ==> rng.pos == old(rng.pos) + budget
  {
    if listSize <= 0 {
      return true;
    }
    ghost var l0 := list[..];
    ClearSlots(list, listSize);
    ghost var free0 := list[..];
    FreeCountAllFree(free0, listSize);
    ghost var where: seq<int> := [];
    var p0 := rng.pos;
    var entryNum := 0;
    ok := true;
    while entryNum < listSize
      invariant 0 <= entryNum <= listSize
      invariant |where| == entryNum
      invariant forall i :: listSize <= i < list.Length ==> list[i] == l0[i]
      invariant forall i :: 0 <= i < listSize ==> FREE <= list[i] < entryNum
      invariant forall i, j :: 0 <= i < j < listSize && list[i] != FREE ==> list[i] != list[j]
      invariant forall v :: 0 <= v < entryNum ==> 0 <= where[v] < listSize && list[where[v]] == v
      invariant FreeCount(list[..], listSize) == listSize - entryNum
      invariant p0 <= rng.pos <= p0 + budget
      invariant p0 == old(rng.pos)
      invariant !ok ==> rng.pos == p0 + budget
    {
      var r, found := DrawFreeSlot(list, listSize, rng, budget - (rng.pos - p0));
      if !found {
        ok := false;
        break;
      }
      ghost var before := list[..];
      FreeCountTake(before, listSize, r, entryNum);
      list[r] := entryNum;
      assert list[..] == before[r := entryNum];
      where := where + [r];
      entryNum := entryNum + 1;
    }
    assert list[listSize..] == l0[listSize..];
    if ok {
      FreeCountZero(list[..], listSize);
      forall v | 0 <= v < listSize
        ensures Occurs(list[..], listSize, v)
      {
        assert list[..][where[v]] == v;
      }
    }
  }

  /** The first loop of makeShuffledList: every slot below listSize is
      marked free. */
  method ClearSlots(list: array<int>, listSize: int)
    requires 0 <= listSize <= list.Length
    modifies list
    ensures forall i :: 0 <= i < listSize ==> list[i] == FREE
    ensures forall i :: listSize <= i < list.Length ==> list[i] == old(list[i])
  {
    var entryNum := 0;
    while entryNum < listSize
      invariant 0 <= entryNum <= listSize
      invariant forall i :: 0 <= i < entryNum ==> list[i] == FREE
      invariant forall i :: listSize <= i < list.Length ==> list[i] == old(list[i])
    {
      list[entryNum] := FREE;
      entryNum := entryNum + 1;
    }
  }

  /** A freshly cleared list has every slot free. */
  lemma {:induction false} FreeCountAllFree(s: seq<int>, hi: nat)
    requires hi <= |s|
    requires forall i :: 0 <= i < hi ==> s[i] == FREE
    ensures FreeCount(s, hi) == hi
  {
    if hi > 0 {
      FreeCountAllFree(s, hi - 1);
    }
  }
}

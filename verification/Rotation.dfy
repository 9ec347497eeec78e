/**
 Round robin over provider names: one global cursor, a cyclic scan for the first provider that can be
 reserved, and three tiers of providers that a search run draws from one attempt at a time.
 */
module Rotation {
  import opened Common

  type Name = string

  const PAID: Name := "x402exa"

  predicate Distinct(names: seq<Name>) {
    forall i, j | 0 <= i < j < |names| :: names[i] != names[j]
  }

  function Keep(names: seq<Name>, kept: set<Name>): (r: seq<Name>)
    ensures forall n :: n in r <==> n in names && n in kept
    ensures |r| <= |names|
  {
    if names == [] then []
    else if names[0] in kept then [names[0]] + Keep(names[1..], kept)
    else Keep(names[1..], kept)
  }

  /** These are the places of the kept names, in order. */
  predicate Selects(which: seq<nat>, names: seq<Name>, kept: set<Name>) {
    && (forall p | 0 <= p < |which| :: which[p] < |names|)
    && (forall p, q | 0 <= p < q < |which| :: which[p] < which[q])
    && (forall i: nat | i < |names| :: i in which <==> names[i] in kept)
  }

  lemma SelectsLast(which: seq<nat>, names: seq<Name>, last: Name, kept: set<Name>)
    requires Selects(which, names, kept)
    ensures Selects(if last in kept then which + [|names|] else which, names + [last], kept)
  {
    var more := if last in kept then which + [|names|] else which;
    forall i: nat | i < |names| + 1 ensures i in more <==> (names + [last])[i] in kept {
      assert i in more <==> i in which || (last in kept && i == |names|);
    }
  }

  predicate Lists(which: seq<nat>, names: seq<Name>, chosen: seq<Name>) {
    |which| == |chosen| && forall p | 0 <= p < |which| :: which[p] < |names| && chosen[p] == names[which[p]]
  }

  lemma ListsLast(which: seq<nat>, names: seq<Name>, last: Name, chosen: seq<Name>, more: bool)
    requires Lists(which, names, chosen)
    ensures Lists(if more then which + [|names|] else which, names + [last], chosen + (if more then [last] else []))
  {
  }

  /** What is kept stands in the same order as before, each place once. */
  lemma {:induction false} KeepInOrder(names: seq<Name>, kept: set<Name>) returns (which: seq<nat>)
    ensures Selects(which, names, kept) && Lists(which, names, Keep(names, kept))
  {
    which := [];
    if names != [] {
      hide Selects, Lists;
      var n := |names| - 1;
      var init, last := names[..n], names[n];
      which := KeepInOrder(init, kept);
      assert names == init + [last];
      KeepLast(init, last, kept);
      SelectsLast(which, init, last, kept);
      ListsLast(which, init, last, Keep(init, kept), last in kept);
      if last in kept {
        which := which + [n];
      }
    }
  }

  lemma {:induction false} KeepLast(names: seq<Name>, last: Name, kept: set<Name>)
    ensures Keep(names + [last], kept) == Keep(names, kept) + (if last in kept then [last] else [])
  {
    if names == [] {
      assert [] + [last] == [last] && Keep([last][1..], kept) == [];
    } else {
      assert (names + [last])[1..] == names[1..] + [last];
      KeepLast(names[1..], last, kept);
    }
  }

  /** The position reached from cursor after offset steps around the list. */
  function Around(names: seq<Name>, cursor: nat, offset: nat): (index: nat)
    requires names != []
    ensures index < |names|
  {
    (cursor + offset) % |names|
  }

  /** The scan found its provider at this offset: it is free, and no provider nearer the cursor is. */
  predicate FirstFree(names: seq<Name>, cursor: nat, free: set<Name>, offset: nat)
    requires names != []
  {
    && names[Around(names, cursor, offset)] in free
    && forall k: nat | k < offset :: names[Around(names, cursor, k)] !in free
  }

  class Cursor {
    var at: nat

    constructor ()
      ensures at == 0
    {
      at := 0;
    }

    method Reserve(names: seq<Name>, free: set<Name>) returns (chosen: Option<Name>, ghost offset: nat)
      modifies this
      ensures chosen.Some? ==>
              && names != [] && offset < |names| && FirstFree(names, old(at), free, offset)
              && chosen.value == names[Around(names, old(at), offset)] && at == Around(names, old(at), offset) + 1
      ensures chosen.None? <==> forall n | n in names :: n !in free
      ensures chosen.None? ==> at == old(at)
    {
      offset := 0;
      if names == [] {
        return None, 0;
      }
      var k := 0;
      while k < |names|
        invariant 0 <= k <= |names| && at == old(at)
        invariant forall j: nat | j < k :: names[Around(names, at, j)] !in free
      {
        var index := (at + k) % |names|;
        if names[index] in free {
          offset := k;
          assert index == Around(names, at, k);
          at := index + 1;
          return Some(names[index]), offset;
        }
        k := k + 1;
      }
      forall n | n in names ensures n !in free {
        var i :| 0 <= i < |names| && names[i] == n;
        AheadIsReached(names, at, i);
        assert names[Around(names, at, Ahead(names, at, i))] !in free;
      }
      chosen := None;
    }
  }

  lemma {:induction false} ModShift(a: nat, b: nat, n: nat)
    requires 0 < n && b < n
    ensures (a + b) % n == (if a % n + b < n then a % n + b else a % n + b - n)
  {
    var q, r := a / n, a % n;
    assert a + b == q * n + (r + b);
    if r + b < n {
      DivModUnique(a + b, n, q, r + b);
    } else {
      assert (q + 1) * n == q * n + n;
      DivModUnique(a + b, n, q + 1, r + b - n);
    }
  }

  lemma {:induction false} DivModUnique(a: nat, n: nat, q: nat, r: nat)
    requires 0 < n && r < n && a == q * n + r
    ensures a % n == r
  {
    var q2 := a / n;
    DivMod(a, n);
    Differ(q, q2, n);
    if q < q2 {
      AtLeast(q2 - q, n);
    } else if q2 < q {
      AtLeast(q - q2, n);
    }
  }

  lemma DivMod(a: nat, n: nat)
    requires 0 < n
    ensures a == (a / n) * n + a % n && 0 <= a % n < n
  {
  }

  lemma Differ(q: int, p: int, n: int)
    ensures (q - p) * n == q * n - p * n && (p - q) * n == p * n - q * n
  {
  }

  lemma AtLeast(d: int, n: int)
    requires d >= 1 && n >= 0
    ensures d * n >= n
  {
  }

  // ---- Fairness of repeated picks over one list ----

  /** A run of picks: pick i scanned from cursors[i] and found chosen[i] among free[i]. */
  ghost predicate Picks(names: seq<Name>, cursors: seq<nat>, offsets: seq<nat>, free: seq<set<Name>>) {
    && names != []
    && |cursors| == |offsets| + 1 && |free| == |offsets|
    && forall i | 0 <= i < |offsets| ::
         && offsets[i] < |names| && FirstFree(names, cursors[i], free[i], offsets[i])
         && cursors[i + 1] == Around(names, cursors[i], offsets[i]) + 1
  }

  function Picked(names: seq<Name>, cursors: seq<nat>, offsets: seq<nat>, i: nat): Name
    requires names != [] && i < |offsets| < |cursors|
  {
    names[Around(names, cursors[i], offsets[i])]
  }

  /** How far ahead of the cursor an index lies. */
  function Ahead(names: seq<Name>, cursor: nat, index: nat): nat
    requires index < |names|
  {
    if cursor % |names| <= index then index - cursor % |names| else index + |names| - cursor % |names|
  }

  /** Going around from the cursor once meets every index. */
  lemma {:induction false} AheadIsReached(names: seq<Name>, cursor: nat, index: nat)
    requires index < |names|
    ensures Ahead(names, cursor, index) < |names| && Around(names, cursor, Ahead(names, cursor, index)) == index
  {
    ModShift(cursor, Ahead(names, cursor, index), |names|);
  }

  /** A pick that stops short of an index leaves it nearer by the steps it took. */
  lemma {:induction false} PickApproaches(names: seq<Name>, cursor: nat, offset: nat, index: nat)
    requires index < |names| && offset < Ahead(names, cursor, index)
    ensures Ahead(names, Around(names, cursor, offset) + 1, index) == Ahead(names, cursor, index) - offset - 1
  {
    ModShift(cursor, offset, |names|);
    var next := Around(names, cursor, offset);
    if next + 1 < |names| {
      DivModUnique(next + 1, |names|, 0, next + 1);
    } else {
      DivModUnique(next + 1, |names|, 1, 0);
    }
  }

  /** A provider that is free at every pick is picked before the list has been gone around once. */
  lemma {:induction false} NoStarvation(names: seq<Name>, cursors: seq<nat>, offsets: seq<nat>, free: seq<set<Name>>,
                                        index: nat)
    returns (i: nat)
    requires Picks(names, cursors, offsets, free) && index < |names|
    requires forall k | 0 <= k < |free| :: names[index] in free[k]
    requires Ahead(names, cursors[0], index) < |offsets|
    ensures i <= Ahead(names, cursors[0], index) && i < |offsets| && Around(names, cursors[i], offsets[i]) == index
    decreases Ahead(names, cursors[0], index)
  {
    AheadIsReached(names, cursors[0], index);
    var ahead := Ahead(names, cursors[0], index);
    assert FirstFree(names, cursors[0], free[0], offsets[0]);
    assert names[Around(names, cursors[0], ahead)] in free[0];
    if offsets[0] >= ahead {
      i := 0;
    } else {
      PickApproaches(names, cursors[0], offsets[0], index);
      TailPicks(names, cursors, offsets, free);
      var j := NoStarvation(names, cursors[1..], offsets[1..], free[1..], index);
      i := j + 1;
    }
  }

  lemma {:induction false} TailPicks(names: seq<Name>, cursors: seq<nat>, offsets: seq<nat>, free: seq<set<Name>>)
    requires Picks(names, cursors, offsets, free) && offsets != []
    ensures Picks(names, cursors[1..], offsets[1..], free[1..])
  {
    forall i | 0 <= i < |offsets[1..]|
      ensures offsets[1..][i] < |names| && FirstFree(names, cursors[1..][i], free[1..][i], offsets[1..][i])
      ensures cursors[1..][i + 1] == Around(names, cursors[1..][i], offsets[1..][i]) + 1
    {
      assert offsets[1..][i] == offsets[i + 1] && cursors[1..][i] == cursors[i + 1] && free[1..][i] == free[i + 1];
      assert cursors[1..][i + 1] == cursors[i + 2];
    }
  }

  /** While every provider stays free, as many picks as there are providers pick each of them exactly once. */
  lemma {:induction false} FullRoundIsPermutation(names: seq<Name>, cursors: seq<nat>, offsets: seq<nat>,
                                                  free: seq<set<Name>>)
    requires Picks(names, cursors, offsets, free) && |offsets| == |names| && Distinct(names)
    requires forall k, n | 0 <= k < |free| && n in names :: n in free[k]
    ensures forall i, j | 0 <= i < j < |names| ::
              Picked(names, cursors, offsets, i) != Picked(names, cursors, offsets, j)
    ensures forall n | n in names :: exists i :: 0 <= i < |names| && Picked(names, cursors, offsets, i) == n
  {
    forall i, j | 0 <= i < j < |names|
      ensures Picked(names, cursors, offsets, i) != Picked(names, cursors, offsets, j)
    {
      PicksAdvance(names, cursors, offsets, free, i);
      PicksAdvance(names, cursors, offsets, free, j);
      ModShift(cursors[0], i, |names|);
      ModShift(cursors[0], j, |names|);
    }
    forall n | n in names ensures exists i :: 0 <= i < |names| && Picked(names, cursors, offsets, i) == n {
      var index: nat :| index < |names| && names[index] == n;
      AheadIsReached(names, cursors[0], index);
      var i := NoStarvation(names, cursors, offsets, free, index);
      assert Picked(names, cursors, offsets, i) == n;
    }
  }

  /** With everything free, pick i lands i steps from the first cursor. */
  lemma {:induction false} PicksAdvance(names: seq<Name>, cursors: seq<nat>, offsets: seq<nat>, free: seq<set<Name>>,
                                        i: nat)
    requires Picks(names, cursors, offsets, free) && i < |offsets| && i < |names|
    requires forall k, n | 0 <= k < |free| && n in names :: n in free[k]
    ensures offsets[i] == 0 && Around(names, cursors[i], 0) == Around(names, cursors[0], i)
    decreases i
  {
    assert FirstFree(names, cursors[i], free[i], offsets[i]);
    var first := names[Around(names, cursors[i], 0)];
    assert first in names && first in free[i];
    if i > 0 {
      PicksAdvance(names, cursors, offsets, free, i - 1);
      assert cursors[i] == Around(names, cursors[i - 1], offsets[i - 1]) + 1;
      ModShift(cursors[0], i - 1, |names|);
      ModShift(cursors[0], i, |names|);
      var before := Around(names, cursors[0], i - 1);
      if before + 1 < |names| {
        DivModUnique(before + 1, |names|, 0, before + 1);
      } else {
        DivModUnique(before + 1, |names|, 1, 0);
      }
    }
  }
}

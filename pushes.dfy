/** Conditional pushes: the builders that start from an empty array and
    push an entry only when its source list is non-empty. `Kept` is the
    value such a run of pushes produces. */
module Pushes {
  import opened Js
  import opened Collections

  /** `[item]` when the size is positive, else nothing. */
  function PushIf(item: string, size: nat): seq<string> {
    if size > 0 then [item] else []
  }

  /** The items whose size is positive, in order. */
  function Kept(items: seq<string>, sizes: seq<nat>): (r: seq<string>)
    requires |items| == |sizes|
    ensures |r| <= |items|
  {
    if items == [] then []
    else PushIf(items[0], sizes[0]) + Kept(items[1..], sizes[1..])
  }

  lemma {:induction false} KeptSubsequence(items: seq<string>, sizes: seq<nat>)
    requires |items| == |sizes|
    ensures IsSubsequence(Kept(items, sizes), items)
    decreases |items|
  {
    if items != [] {
      KeptSubsequence(items[1..], sizes[1..]);
      var rest := Kept(items[1..], sizes[1..]);
      if sizes[0] > 0 {
        assert ([items[0]] + rest)[1..] == rest;
      } else {
        assert [] + rest == rest;
        SubsequenceSkip(rest, items);
      }
    }
  }

  lemma {:induction false} KeptMembers(items: seq<string>, sizes: seq<nat>)
    requires |items| == |sizes|
    ensures forall x :: x in Kept(items, sizes) ==> x in items
    decreases |items|
  {
    if items != [] {
      KeptMembers(items[1..], sizes[1..]);
    }
  }

  /** With distinct items, an item is kept exactly when its size is
      positive. */
  lemma {:induction false} KeptIff(items: seq<string>, sizes: seq<nat>, i: nat)
    requires |items| == |sizes| && NoDups(items) && i < |items|
    ensures items[i] in Kept(items, sizes) <==> sizes[i] > 0
    decreases |items|
  {
    KeptMembers(items[1..], sizes[1..]);
    if i == 0 {
      assert items[0] !in items[1..] by {
        forall k | 0 <= k < |items[1..]| ensures items[1..][k] != items[0] {
          assert items[1..][k] == items[k + 1];
        }
      }
    } else {
      assert NoDups(items[1..]) by {
        forall a, b | 0 <= a < b < |items[1..]| ensures items[1..][a] != items[1..][b] {
          assert items[1..][a] == items[a + 1] && items[1..][b] == items[b + 1];
        }
      }
      assert items[1..][i - 1] == items[i] && sizes[1..][i - 1] == sizes[i];
      KeptIff(items[1..], sizes[1..], i - 1);
    }
  }

  /** The positions from `from` on whose size is positive, in
      increasing order. */
  function PositionsFrom(sizes: seq<nat>, from: nat): (r: seq<nat>)
    requires from <= |sizes|
    ensures forall j :: 0 <= j < |r| ==> from <= r[j] < |sizes| && sizes[r[j]] > 0
    ensures forall i :: from <= i < |sizes| && sizes[i] > 0 ==> i in r
    ensures forall j, k :: 0 <= j < k < |r| ==> r[j] < r[k]
    decreases |sizes| - from
  {
    if from == |sizes| then []
    else (if sizes[from] > 0 then [from] else []) + PositionsFrom(sizes, from + 1)
  }

  /** The positions whose size is positive, in increasing order. */
  function Positions(sizes: seq<nat>): (r: seq<nat>)
    ensures forall j :: 0 <= j < |r| ==> r[j] < |sizes| && sizes[r[j]] > 0
    ensures forall i :: 0 <= i < |sizes| ==> (i in r <==> sizes[i] > 0)
    ensures forall j, k :: 0 <= j < k < |r| ==> r[j] < r[k]
  {
    PositionsFrom(sizes, 0)
  }

  /** The kept items are the items at those positions: the item at `i`
      is pushed exactly when its size is positive, and the pushed items
      keep their relative order. */
  lemma KeptAt(items: seq<string>, sizes: seq<nat>)
    requires |items| == |sizes|
    ensures |Kept(items, sizes)| == |Positions(sizes)|
    ensures forall j :: 0 <= j < |Positions(sizes)| ==> Kept(items, sizes)[j] == items[Positions(sizes)[j]]
  {
    KeptAtFrom(items, sizes, 0);
    assert items[0..] == items && sizes[0..] == sizes;
  }

  lemma {:induction false} KeptAtFrom(items: seq<string>, sizes: seq<nat>, from: nat)
    requires |items| == |sizes| && from <= |items|
    ensures Matches(Kept(items[from..], sizes[from..]), PositionsFrom(sizes, from), items)
    decreases |items| - from
  {
    if from < |items| {
      KeptAtFrom(items, sizes, from + 1);
      assert items[from..][1..] == items[from + 1..] && sizes[from..][1..] == sizes[from + 1..];
      if sizes[from] > 0 {
        MatchesCons(Kept(items[from + 1..], sizes[from + 1..]), PositionsFrom(sizes, from + 1), items, from);
      }
    }
  }

  /** `k` lists the items at the positions `p`. */
  predicate Matches(k: seq<string>, p: seq<nat>, items: seq<string>) {
    |k| == |p| && forall j :: 0 <= j < |p| ==> p[j] < |items| && k[j] == items[p[j]]
  }

  lemma MatchesCons(k: seq<string>, p: seq<nat>, items: seq<string>, i: nat)
    requires Matches(k, p, items) && i < |items|
    ensures Matches([items[i]] + k, [i] + p, items)
  {
    var k1, p1 := [items[i]] + k, [i] + p;
    forall j | 0 <= j < |p1| ensures p1[j] < |items| && k1[j] == items[p1[j]] {
      if j > 0 { assert k1[j] == k[j - 1] && p1[j] == p[j - 1]; }
    }
  }

  /** Every item whose list is non-empty occurs in the joined kept
      items. */
  lemma KeptJoinContains(items: seq<string>, sizes: seq<nat>, sep: string)
    requires |items| == |sizes|
    ensures forall i :: 0 <= i < |items| && sizes[i] > 0 ==> Contains(Join(Kept(items, sizes), sep), items[i])
  {
    KeptAt(items, sizes);
    var p := Positions(sizes);
    forall i | 0 <= i < |items| && sizes[i] > 0
      ensures Contains(Join(Kept(items, sizes), sep), items[i])
    {
      var j :| 0 <= j < |p| && p[j] == i;
      JoinContains(Kept(items, sizes), sep, j);
    }
  }

  /** When every size is zero nothing is kept. */
  lemma {:induction false} KeptNone(items: seq<string>, sizes: seq<nat>)
    requires |items| == |sizes| && forall i :: 0 <= i < |sizes| ==> sizes[i] == 0
    ensures Kept(items, sizes) == []
    decreases |items|
  {
    if items != [] {
      assert forall i :: 0 <= i < |sizes[1..]| ==> sizes[1..][i] == sizes[i + 1];
      KeptNone(items[1..], sizes[1..]);
    }
  }

  /** When every size is positive everything is kept. */
  lemma {:induction false} KeptAll(items: seq<string>, sizes: seq<nat>)
    requires |items| == |sizes| && forall i :: 0 <= i < |sizes| ==> sizes[i] > 0
    ensures Kept(items, sizes) == items
    decreases |items|
  {
    if items != [] {
      assert forall i :: 0 <= i < |sizes[1..]| ==> sizes[1..][i] == sizes[i + 1];
      KeptAll(items[1..], sizes[1..]);
    }
  }

  /** Keeping over two stretches is keeping over their concatenation. */
  lemma {:induction false} KeptAppend(a: seq<string>, az: seq<nat>, b: seq<string>, bz: seq<nat>)
    requires |a| == |az| && |b| == |bz|
    ensures Kept(a + b, az + bz) == Kept(a, az) + Kept(b, bz)
    decreases |a|
  {
    if a == [] {
      assert a + b == b && az + bz == bz;
    } else {
      assert (a + b)[1..] == a[1..] + b && (az + bz)[1..] == az[1..] + bz;
      KeptAppend(a[1..], az[1..], b, bz);
      Assoc(PushIf(a[0], az[0]), Kept(a[1..], az[1..]), Kept(b, bz));
    }
  }

  /** One more conditional push extends the kept prefix. */
  lemma KeptSnoc(items: seq<string>, sizes: seq<nat>, k: nat)
    requires |items| == |sizes| && k < |items|
    ensures Kept(items[..k + 1], sizes[..k + 1]) == Kept(items[..k], sizes[..k]) + PushIf(items[k], sizes[k])
  {
    assert items[..k + 1] == items[..k] + [items[k]];
    assert sizes[..k + 1] == sizes[..k] + [sizes[k]];
    KeptAppend(items[..k], sizes[..k], [items[k]], [sizes[k]]);
    assert Kept([items[k]], [sizes[k]]) == PushIf(items[k], sizes[k]) + Kept([], []);
    assert PushIf(items[k], sizes[k]) + [] == PushIf(items[k], sizes[k]);
  }

  /** Five conditional pushes in a row, starting from `[]`. */
  lemma KeptFive(items: seq<string>, sizes: seq<nat>)
    requires |items| == |sizes| == 5
    ensures Kept(items, sizes) ==
      [] + PushIf(items[0], sizes[0]) + PushIf(items[1], sizes[1]) + PushIf(items[2], sizes[2])
      + PushIf(items[3], sizes[3]) + PushIf(items[4], sizes[4])
  {
    assert Kept(items[..0], sizes[..0]) == [];
    KeptSnoc(items, sizes, 0);
    KeptSnoc(items, sizes, 1);
    KeptSnoc(items, sizes, 2);
    KeptSnoc(items, sizes, 3);
    KeptSnoc(items, sizes, 4);
    assert items[..5] == items && sizes[..5] == sizes;
  }

  /** Six conditional pushes in a row, starting from `[]`. */
  lemma KeptSix(items: seq<string>, sizes: seq<nat>)
    requires |items| == |sizes| == 6
    ensures Kept(items, sizes) ==
      [] + PushIf(items[0], sizes[0]) + PushIf(items[1], sizes[1]) + PushIf(items[2], sizes[2])
      + PushIf(items[3], sizes[3]) + PushIf(items[4], sizes[4]) + PushIf(items[5], sizes[5])
  {
    KeptFive(items[..5], sizes[..5]);
    KeptSnoc(items, sizes, 5);
    assert items[..6] == items && sizes[..6] == sizes;
  }

  /** `if (size > 0) xs.push(item)` is concatenation with `PushIf`. */
  lemma PushStep(before: seq<string>, size: nat, item: string, after: seq<string>)
    requires after == if size > 0 then before + [item] else before
    ensures after == before + PushIf(item, size)
  {
    assert before + [] == before;
  }
}

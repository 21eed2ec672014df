/** Sequence helpers shared by the stores and the pipeline:
    de-duplication in first-occurrence order (`[...new Set(xs)]`) and
    order-preserving filters. */
module Collections {

  predicate NoDups(xs: seq<string>) {
    forall i, j :: 0 <= i < j < |xs| ==> xs[i] != xs[j]
  }

  /** The index of the first occurrence of `x` in `xs`. */
  function FirstPos(xs: seq<string>, x: string): (k: nat)
    requires x in xs
    ensures k < |xs| && xs[k] == x && x !in xs[..k]
  {
    if xs[0] == x then 0 else 1 + FirstPos(xs[1..], x)
  }

  /** `xs` without the elements of `seen` and without repetitions, each
      element kept at its first occurrence. */
  function DedupFrom(xs: seq<string>, seen: set<string>): (r: seq<string>)
    ensures forall x :: x in r <==> x in xs && x !in seen
    ensures NoDups(r)
    ensures |r| <= |xs|
  {
    if xs == [] then []
    else if xs[0] in seen then DedupFrom(xs[1..], seen)
    else
      var rest := DedupFrom(xs[1..], seen + {xs[0]});
      assert forall x :: x in xs ==> x == xs[0] || x in xs[1..];
      [xs[0]] + rest
  }

  /** `[...new Set(xs)]`. */
  function Dedup(xs: seq<string>): (r: seq<string>)
    ensures forall x :: x in r <==> x in xs
    ensures NoDups(r)
  {
    DedupFrom(xs, {})
  }

  /** De-duplicating one more element appends it exactly when it is new. */
  lemma {:induction false} DedupFromSnoc(xs: seq<string>, x: string, seen: set<string>)
    ensures DedupFrom(xs + [x], seen) == DedupFrom(xs, seen) + (if x in xs || x in seen then [] else [x])
    decreases |xs|
  {
    if xs == [] {
      assert [] + [x] == [x] && [x][1..] == [];
    } else {
      var h, t := xs[0], xs[1..];
      assert (xs + [x])[0] == h && (xs + [x])[1..] == t + [x];
      assert x in xs <==> x == h || x in t;
      var tail := if x in xs || x in seen then [] else [x];
      if h in seen {
        DedupFromSnoc(t, x, seen);
      } else {
        DedupFromSnoc(t, x, seen + {h});
        assert [h] + (DedupFrom(t, seen + {h}) + tail) == [h] + DedupFrom(t, seen + {h}) + tail;
      }
    }
  }

  lemma DedupSnoc(xs: seq<string>, x: string)
    ensures Dedup(xs + [x]) == Dedup(xs) + (if x in xs then [] else [x])
  {
    DedupFromSnoc(xs, x, {});
  }

  /** Whatever is in front is kept in front. */
  lemma DedupHead(x: string, xs: seq<string>)
    ensures Dedup([x] + xs) == [x] + DedupFrom(xs, {x})
  {
    assert ([x] + xs)[1..] == xs;
    assert {} + {x} == {x};
  }

  lemma FirstPosTail(xs: seq<string>, y: string)
    requires y in xs && y != xs[0]
    ensures y in xs[1..] && FirstPos(xs, y) == 1 + FirstPos(xs[1..], y)
  {
  }

  /** Every element of `r` occurs in `xs`, and in `r` the elements appear
      in the order of their first occurrences in `xs`. */
  predicate InFirstOrder(r: seq<string>, xs: seq<string>) {
    (forall y :: y in r ==> y in xs) &&
    forall i, j :: 0 <= i < j < |r| ==> FirstPos(xs, r[i]) < FirstPos(xs, r[j])
  }

  lemma {:induction false} DedupFromOrder(xs: seq<string>, seen: set<string>)
    ensures InFirstOrder(DedupFrom(xs, seen), xs)
    decreases |xs|
  {
    if xs != [] {
      if xs[0] in seen {
        DedupFromOrder(xs[1..], seen);
        OrderSkip(xs, DedupFrom(xs[1..], seen));
      } else {
        DedupFromOrder(xs[1..], seen + {xs[0]});
        OrderKeep(xs, DedupFrom(xs[1..], seen + {xs[0]}));
      }
    }
  }

  /** Dropping the head `xs[0]` when it is not kept. */
  lemma OrderSkip(xs: seq<string>, r: seq<string>)
    requires xs != [] && xs[0] !in r && InFirstOrder(r, xs[1..])
    ensures InFirstOrder(r, xs)
  {
    forall y | y in r ensures y in xs {
      assert y in xs[1..];
    }
    forall i, j | 0 <= i < j < |r| ensures FirstPos(xs, r[i]) < FirstPos(xs, r[j]) {
      assert r[i] in r && r[j] in r;
      FirstPosTail(xs, r[i]);
      FirstPosTail(xs, r[j]);
    }
  }

  /** Keeping the head `xs[0]` in front of a tail that lacks it. */
  lemma OrderKeep(xs: seq<string>, rest: seq<string>)
    requires xs != [] && xs[0] !in rest && InFirstOrder(rest, xs[1..])
    ensures InFirstOrder([xs[0]] + rest, xs)
  {
    var r := [xs[0]] + rest;
    forall y | y in r ensures y in xs {
      if y != xs[0] {
        assert y in rest && y in xs[1..];
      }
    }
    forall i, j | 0 <= i < j < |r| ensures FirstPos(xs, r[i]) < FirstPos(xs, r[j]) {
      assert r[j] == rest[j - 1] && rest[j - 1] in rest;
      FirstPosTail(xs, r[j]);
      if i > 0 {
        assert r[i] == rest[i - 1] && rest[i - 1] in rest;
        FirstPosTail(xs, r[i]);
      }
    }
  }

  /** `Dedup` keeps each element at its first occurrence. */
  lemma DedupOrder(xs: seq<string>)
    ensures InFirstOrder(Dedup(xs), xs)
  {
    DedupFromOrder(xs, {});
  }

  /** A sequence without repetitions is its own de-duplication. */
  lemma {:induction false} DedupFromOfNoDups(xs: seq<string>, seen: set<string>)
    requires NoDups(xs) && forall x :: x in xs ==> x !in seen
    ensures DedupFrom(xs, seen) == xs
    decreases |xs|
  {
    if xs != [] {
      NoDupsTail(xs);
      assert forall x :: x in xs[1..] ==> x in xs;
      DedupFromOfNoDups(xs[1..], seen + {xs[0]});
      assert [xs[0]] + xs[1..] == xs;
    }
  }

  /** The tail of a list without repetitions has none either, and does
      not contain the head. */
  lemma NoDupsTail(xs: seq<string>)
    requires xs != [] && NoDups(xs)
    ensures NoDups(xs[1..]) && xs[0] !in xs[1..]
  {
    forall k | 0 <= k < |xs[1..]| ensures xs[1..][k] != xs[0] {
      assert xs[1..][k] == xs[k + 1];
    }
    forall i, j | 0 <= i < j < |xs[1..]| ensures xs[1..][i] != xs[1..][j] {
      assert xs[1..][i] == xs[i + 1] && xs[1..][j] == xs[j + 1];
    }
  }

  lemma DedupIdempotent(xs: seq<string>)
    ensures Dedup(Dedup(xs)) == Dedup(xs)
  {
    DedupFromOfNoDups(Dedup(xs), {});
  }

  /** `ys` is `xs` with some elements left out, the rest kept in order. */
  predicate IsSubsequence<T(==)>(ys: seq<T>, xs: seq<T>)
    decreases |xs|
  {
    if ys == [] then true
    else if xs == [] then false
    else if ys[0] == xs[0] then IsSubsequence(ys[1..], xs[1..])
    else IsSubsequence(ys, xs[1..])
  }

  lemma {:induction false} SubsequenceOfSelf<T>(xs: seq<T>)
    ensures IsSubsequence(xs, xs)
    decreases |xs|
  {
    if xs != [] {
      SubsequenceOfSelf(xs[1..]);
    }
  }

  /** A subsequence of the tail is a subsequence of the whole. */
  lemma {:induction false} SubsequenceSkip<T>(ys: seq<T>, xs: seq<T>)
    requires xs != [] && IsSubsequence(ys, xs[1..])
    ensures IsSubsequence(ys, xs)
    decreases |xs|, 0
  {
    if ys != [] && ys[0] == xs[0] {
      SubsequenceDropHead(ys, xs[1..]);
    }
  }

  /** Dropping the first element of a subsequence keeps it one. */
  lemma {:induction false} SubsequenceDropHead<T>(ys: seq<T>, xs: seq<T>)
    requires ys != [] && IsSubsequence(ys, xs)
    ensures IsSubsequence(ys[1..], xs)
    decreases |xs|, 1
  {
    if ys[0] != xs[0] {
      SubsequenceDropHead(ys, xs[1..]);
    }
    SubsequenceSkip(ys[1..], xs);
  }

  /** Extending both sides by the same element, or only the longer one,
      keeps a subsequence. */
  lemma {:induction false} SubsequenceSnoc<T>(ys: seq<T>, xs: seq<T>, x: T, keep: bool)
    requires IsSubsequence(ys, xs)
    ensures IsSubsequence(ys + (if keep then [x] else []), xs + [x])
    decreases |xs|
  {
    var ys' := ys + (if keep then [x] else []);
    if xs == [] {
      assert ys == [];
      if keep {
        assert ys' == [x] && [x][1..] == [];
      } else {
        assert ys' == [];
      }
    } else if ys != [] && ys[0] == xs[0] {
      SubsequenceSnoc(ys[1..], xs[1..], x, keep);
      assert ys'[1..] == ys[1..] + (if keep then [x] else []);
      assert (xs + [x])[1..] == xs[1..] + [x];
    } else {
      SubsequenceSnoc(ys, xs[1..], x, keep);
      assert (xs + [x])[1..] == xs[1..] + [x];
      if ys == [] && keep {
        assert ys' == [x];
      }
    }
  }

  /** A prefix one longer is the prefix and the next element. */
  lemma PrefixSnoc<T>(xs: seq<T>, i: nat)
    requires i < |xs|
    ensures xs[..i + 1] == xs[..i] + [xs[i]]
  {
  }
}

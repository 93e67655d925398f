/** Python's `sorted(..., key=score, reverse=True)`: descending by score, ties in input order. */
module StableSort {

  datatype Scored<T> = Scored(item: T, score: real)

  /** Puts an element behind all that score at least as high. */
  function Insert<T>(sorted: seq<Scored<T>>, x: Scored<T>): seq<Scored<T>> {
    if sorted == [] then [x]
    else
      var n := |sorted| - 1;
      if sorted[n].score >= x.score then sorted + [x] else Insert(sorted[..n], x) + [sorted[n]]
  }

  function SortDescending<T>(xs: seq<Scored<T>>): seq<Scored<T>> {
    if xs == [] then [] else Insert(SortDescending(xs[..|xs| - 1]), xs[|xs| - 1])
  }

  ghost predicate Descending<T>(xs: seq<Scored<T>>) {
    forall i, j :: 0 <= i < j < |xs| ==> xs[i].score >= xs[j].score
  }

  /** The elements with a given score, in order. */
  ghost function WithScore<T>(xs: seq<Scored<T>>, score: real): seq<Scored<T>> {
    if xs == [] then []
    else
      var n := |xs| - 1;
      WithScore(xs[..n], score) + (if xs[n].score == score then [xs[n]] else [])
  }

  /** `ys` is a descending rearrangement of `xs` that keeps ties in order. */
  ghost predicate SortsStably<T>(xs: seq<Scored<T>>, ys: seq<Scored<T>>) {
    Descending(ys) && forall score: real :: WithScore(ys, score) == WithScore(xs, score)
  }

  lemma {:induction false} WithScoreAppend<T>(xs: seq<Scored<T>>, x: Scored<T>, score: real)
    ensures WithScore(xs + [x], score) == WithScore(xs, score) + (if x.score == score then [x] else [])
  {
    assert (xs + [x])[..|xs|] == xs;
  }

  lemma {:induction false} WithScoreNone<T>(xs: seq<Scored<T>>, score: real)
    requires forall i :: 0 <= i < |xs| ==> xs[i].score != score
    ensures WithScore(xs, score) == []
  {
    if xs != [] {
      WithScoreNone(xs[..|xs| - 1], score);
    }
  }

  lemma {:induction false} WithScoreMember<T>(xs: seq<Scored<T>>, i: nat)
    requires i < |xs|
    ensures xs[i] in WithScore(xs, xs[i].score)
  {
    if i < |xs| - 1 {
      WithScoreMember(xs[..|xs| - 1], i);
    }
  }

  lemma {:induction false} InsertKeeps<T>(sorted: seq<Scored<T>>, x: Scored<T>)
    requires Descending(sorted)
    ensures Descending(Insert(sorted, x))
  {
    if sorted != [] {
      var n := |sorted| - 1;
      if sorted[n].score < x.score {
        InsertKeeps(sorted[..n], x);
        InsertBelow(sorted[..n], x, sorted[n].score);
      }
    }
  }

  lemma {:induction false} InsertAdds<T>(sorted: seq<Scored<T>>, x: Scored<T>)
    ensures |Insert(sorted, x)| == |sorted| + 1
    ensures multiset(Insert(sorted, x)) == multiset(sorted) + multiset{x}
  {
    if sorted != [] {
      var n := |sorted| - 1;
      assert sorted == sorted[..n] + [sorted[n]];
      if sorted[n].score < x.score {
        InsertAdds(sorted[..n], x);
      }
    }
  }

  lemma {:induction false} InsertBelow<T>(sorted: seq<Scored<T>>, x: Scored<T>, bound: real)
    requires x.score >= bound && forall i :: 0 <= i < |sorted| ==> sorted[i].score >= bound
    ensures forall i :: 0 <= i < |Insert(sorted, x)| ==> Insert(sorted, x)[i].score >= bound
  {
    if sorted != [] && sorted[|sorted| - 1].score < x.score {
      InsertBelow(sorted[..|sorted| - 1], x, bound);
    }
  }

  lemma {:induction false} InsertTies<T>(sorted: seq<Scored<T>>, x: Scored<T>, score: real)
    requires Descending(sorted)
    ensures WithScore(Insert(sorted, x), score) == WithScore(sorted + [x], score)
  {
    WithScoreAppend(sorted, x, score);
    if sorted != [] {
      var n := |sorted| - 1;
      if sorted[n].score < x.score {
        InsertTies(sorted[..n], x, score);
        WithScoreAppend(sorted[..n], x, score);
        WithScoreAppend(Insert(sorted[..n], x), sorted[n], score);
      }
    }
  }

  lemma {:induction false} SortDescends<T>(xs: seq<Scored<T>>)
    ensures Descending(SortDescending(xs))
  {
    if xs != [] {
      SortDescends(xs[..|xs| - 1]);
      InsertKeeps(SortDescending(xs[..|xs| - 1]), xs[|xs| - 1]);
    }
  }

  lemma {:induction false} SortPermutes<T>(xs: seq<Scored<T>>)
    ensures |SortDescending(xs)| == |xs| && multiset(SortDescending(xs)) == multiset(xs)
  {
    if xs != [] {
      var n := |xs| - 1;
      SortPermutes(xs[..n]);
      InsertAdds(SortDescending(xs[..n]), xs[n]);
      assert xs == xs[..n] + [xs[n]];
    }
  }

  lemma {:induction false} SortKeepsTies<T>(xs: seq<Scored<T>>, score: real)
    ensures WithScore(SortDescending(xs), score) == WithScore(xs, score)
  {
    if xs != [] {
      var n := |xs| - 1;
      SortDescends(xs[..n]);
      SortKeepsTies(xs[..n], score);
      InsertTies(SortDescending(xs[..n]), xs[n], score);
      WithScoreAppend(SortDescending(xs[..n]), xs[n], score);
    }
  }

  /** The sort is a stable descending rearrangement. */
  lemma {:induction false} SortIsStable<T>(xs: seq<Scored<T>>)
    ensures SortsStably(xs, SortDescending(xs))
    ensures |SortDescending(xs)| == |xs| && multiset(SortDescending(xs)) == multiset(xs)
  {
    SortDescends(xs);
    SortPermutes(xs);
    forall score: real ensures WithScore(SortDescending(xs), score) == WithScore(xs, score) {
      SortKeepsTies(xs, score);
    }
  }

  lemma {:induction false} LastScore<T>(a: seq<Scored<T>>, b: seq<Scored<T>>)
    requires a != [] && Descending(a) && forall score: real :: WithScore(a, score) == WithScore(b, score)
    ensures b != [] && exists i :: 0 <= i < |b| && b[i].score == a[|a| - 1].score
  {
    var v := a[|a| - 1].score;
    WithScoreMember(a, |a| - 1);
    if forall i :: 0 <= i < |b| ==> b[i].score != v {
      WithScoreNone(b, v);
    }
  }

  /** There is only one: being descending with ties in order determines the result. */
  lemma {:induction false} StableSortIsUnique<T>(a: seq<Scored<T>>, b: seq<Scored<T>>)
    requires Descending(a) && Descending(b)
    requires forall score: real :: WithScore(a, score) == WithScore(b, score)
    ensures a == b
    decreases |a|
  {
    if a != [] {
      LastScore(a, b);
      LastScore(b, a);
      var m, n := |a| - 1, |b| - 1;
      var v := a[m].score;
      assert b[n].score == v;
      assert WithScore(a, v)[|WithScore(a, v)| - 1] == a[m];
      assert WithScore(b, v)[|WithScore(b, v)| - 1] == b[n];
      forall score: real ensures WithScore(a[..m], score) == WithScore(b[..n], score) {
        WithoutLast(a, b, score);
      }
      StableSortIsUnique(a[..m], b[..n]);
      assert a == a[..m] + [a[m]] && b == b[..n] + [b[n]];
    } else if b != [] {
      LastScore(b, a);
    }
  }

  lemma {:induction false} WithoutLast<T>(a: seq<Scored<T>>, b: seq<Scored<T>>, score: real)
    requires a != [] && b != [] && a[|a| - 1] == b[|b| - 1]
    requires WithScore(a, score) == WithScore(b, score)
    ensures WithScore(a[..|a| - 1], score) == WithScore(b[..|b| - 1], score)
  {
    var x, y, last := WithScore(a[..|a| - 1], score), WithScore(b[..|b| - 1], score), a[|a| - 1];
    if last.score == score {
      assert x + [last] == y + [last];
      SameInit(x, y, last);
    } else {
      assert x + [] == x && y + [] == y;
    }
  }

  lemma {:induction false} SameInit<T>(x: seq<Scored<T>>, y: seq<Scored<T>>, last: Scored<T>)
    requires x + [last] == y + [last]
    ensures x == y
  {
    assert |x + [last]| == |y + [last]|;
    assert x == (x + [last])[..|x|] && y == (y + [last])[..|y|];
  }

  // ---- Ties, position by position ----

  /** Two elements of a list, one before the other. */
  ghost predicate InOrder<T>(xs: seq<T>, x: T, y: T) {
    exists p, q :: 0 <= p < q < |xs| && xs[p] == x && xs[q] == y
  }

  lemma {:induction false} WithScorePair<T>(xs: seq<Scored<T>>, i: nat, j: nat)
    requires i < j < |xs| && xs[i].score == xs[j].score
    ensures InOrder(WithScore(xs, xs[j].score), xs[i], xs[j])
  {
    var n, score := |xs| - 1, xs[j].score;
    var before, all := WithScore(xs[..n], score), WithScore(xs, score);
    if j < n {
      WithScorePair(xs[..n], i, j);
      var p, q :| 0 <= p < q < |before| && before[p] == xs[i] && before[q] == xs[j];
      assert all[p] == xs[i] && all[q] == xs[j];
    } else {
      WithScoreMember(xs[..n], i);
      var p :| 0 <= p < |before| && before[p] == xs[i];
      assert all[p] == xs[i] && all[|before|] == xs[j];
    }
  }

  lemma {:induction false} PairWithScore<T>(xs: seq<Scored<T>>, score: real, x: Scored<T>, y: Scored<T>)
    requires InOrder(WithScore(xs, score), x, y)
    ensures InOrder(xs, x, y)
  {
    var all := WithScore(xs, score);
    var p, q :| 0 <= p < q < |all| && all[p] == x && all[q] == y;
    var n := |xs| - 1;
    var before := WithScore(xs[..n], score);
    if q < |before| {
      assert before[p] == x && before[q] == y;
      PairWithScore(xs[..n], score, x, y);
      var a, b :| 0 <= a < b < n && xs[..n][a] == x && xs[..n][b] == y;
      assert xs[a] == x && xs[b] == y;
    } else {
      assert before[p] == x;
      WithScoreIsIn(xs[..n], score, x);
      var a :| 0 <= a < n && xs[..n][a] == x;
      assert xs[a] == x && xs[n] == y;
    }
  }

  lemma {:induction false} WithScoreIsIn<T>(xs: seq<Scored<T>>, score: real, x: Scored<T>)
    requires x in WithScore(xs, score)
    ensures x in xs
  {
    if xs != [] && x in WithScore(xs[..|xs| - 1], score) {
      WithScoreIsIn(xs[..|xs| - 1], score, x);
    }
  }

  /** Elements with the same score come out in the order in which they came in. */
  lemma {:induction false} TiesKeepOrder<T>(xs: seq<Scored<T>>, i: nat, j: nat)
    requires i < j < |SortDescending(xs)| && SortDescending(xs)[i].score == SortDescending(xs)[j].score
    ensures InOrder(xs, SortDescending(xs)[i], SortDescending(xs)[j])
  {
    var sorted := SortDescending(xs);
    WithScorePair(sorted, i, j);
    SortKeepsTies(xs, sorted[j].score);
    PairWithScore(xs, sorted[j].score, sorted[i], sorted[j]);
  }
}

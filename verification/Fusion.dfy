/** Reciprocal Rank Fusion, over exact reals. */
module Fusion {
  import opened Wrappers
  import opened Sequences

  const DEFAULT_RRF_K := 60

  datatype Error = InvalidK

  /** A Python dictionary of scores: its keys in insertion order, and their values. */
  datatype Scores = Scores(order: seq<int>, value: map<int, real>)

  // ---- The specification ----

  /** What rank `rank`, counted from 1, is worth. */
  function Share(k: int, rank: nat): real
    requires k >= 1 && rank >= 1
  {
    1.0 / (k + rank) as real
  }

  /** What one ranking contributes to an item. */
  function FromRanking(k: int, ranking: seq<int>, item: int): real
    requires k >= 1
  {
    if ranking == [] then 0.0
    else
      var n := |ranking| - 1;
      FromRanking(k, ranking[..n], item) + (if ranking[n] == item then Share(k, n + 1) else 0.0)
  }

  /** The score of an item: the sum of 1 / (k + rank) over all its places in all rankings. */
  function Score(k: int, rankings: seq<seq<int>>, item: int): real
    requires k >= 1
  {
    if rankings == [] then 0.0
    else
      var n := |rankings| - 1;
      Score(k, rankings[..n], item) + FromRanking(k, rankings[n], item)
  }

  /** The items of a list, each at its first occurrence. */
  function FirstSeen(seen: seq<int>, items: seq<int>): seq<int> {
    if items == [] then seen
    else
      var n := |items| - 1;
      var before := FirstSeen(seen, items[..n]);
      if items[n] in before then before else before + [items[n]]
  }

  function Order(rankings: seq<seq<int>>): seq<int> {
    if rankings == [] then [] else FirstSeen(Order(rankings[..|rankings| - 1]), rankings[|rankings| - 1])
  }

  predicate Distinct(items: seq<int>) {
    forall i, j :: 0 <= i < j < |items| ==> items[i] != items[j]
  }

  // ---- The algorithm ----

  /** The dictionary holds each item's score so far; `part` is what the ranking being read has
      contributed. */
  ghost predicate Holds(k: int, scores: Scores, done: seq<seq<int>>, part: seq<int>)
    requires k >= 1
  {
    && scores.order == FirstSeen(Order(done), part)
    && (forall id :: id in scores.value <==> id in scores.order)
    && (forall id :: id in scores.value ==> scores.value[id] == Score(k, done, id) + FromRanking(k, part, id))
    && (forall id :: id !in scores.value ==> Score(k, done, id) + FromRanking(k, part, id) == 0.0)
  }

  /** `reciprocal_rank_fusion`. */
  method Fuse(rankings: seq<seq<int>>, k: int) returns (r: Result<Scores, Error>)
    ensures r.Err? <==> k < 1
    ensures r.Ok? ==> r.value.order == Order(rankings)
    ensures r.Ok? ==> forall id :: id in r.value.value <==> id in r.value.order
    ensures r.Ok? ==> forall id :: id in r.value.value ==> r.value.value[id] == Score(k, rankings, id)
  {
    if k < 1 {
      return Err(InvalidK);
    }
    var scores := Scores([], map[]);
    for n := 0 to |rankings|
      invariant Holds(k, scores, rankings[..n], [])
    {
      var ranking := rankings[n];
      for i := 0 to |ranking|
        invariant Holds(k, scores, rankings[..n], ranking[..i])
      {
        var item := ranking[i];
        ghost var before := scores;
        var so_far := if item in scores.value then scores.value[item] else 0.0;
        var order := if item in scores.value then scores.order else scores.order + [item];
        scores := Scores(order, scores.value[item := so_far + 1.0 / (k + i + 1) as real]);
        OneMorePlace(k, before, scores, rankings[..n], ranking, i);
      }
      assert ranking[..|ranking|] == ranking;
      assert rankings[..n + 1][..n] == rankings[..n];
      RankingDone(k, scores, rankings[..n], ranking);
      assert rankings[..n + 1] == rankings[..n] + [ranking];
    }
    assert rankings[..|rankings|] == rankings;
    r := Ok(scores);
  }

  lemma {:induction false} OneMorePlace(k: int, before: Scores, after: Scores, done: seq<seq<int>>, ranking: seq<int>, i: nat)
    requires k >= 1 && i < |ranking| && Holds(k, before, done, ranking[..i])
    requires var item := ranking[i];
      && after.order == (if item in before.value then before.order else before.order + [item])
      && after.value == before.value[item := (if item in before.value then before.value[item] else 0.0) + Share(k, i + 1)]
    ensures Holds(k, after, done, ranking[..i + 1])
  {
    assert ranking[..i + 1][..i] == ranking[..i];
    forall id
      ensures FromRanking(k, ranking[..i + 1], id)
           == FromRanking(k, ranking[..i], id) + (if ranking[i] == id then Share(k, i + 1) else 0.0)
    {
    }
  }

  lemma {:induction false} RankingDone(k: int, scores: Scores, done: seq<seq<int>>, ranking: seq<int>)
    requires k >= 1 && Holds(k, scores, done, ranking)
    ensures Holds(k, scores, done + [ranking], [])
  {
    assert (done + [ranking])[..|done|] == done;
    assert Order(done + [ranking]) == FirstSeen(Order(done), ranking);
    forall id ensures Score(k, done + [ranking], id) == Score(k, done, id) + FromRanking(k, ranking, id) {
    }
  }

  // ---- The domain ----

  lemma {:induction false} FirstSeenMembers(seen: seq<int>, items: seq<int>, id: int)
    ensures id in FirstSeen(seen, items) <==> id in seen || id in items
  {
    if items != [] {
      var n := |items| - 1;
      FirstSeenMembers(seen, items[..n], id);
      assert items == items[..n] + [items[n]];
      if items[n] == id {
        FirstSeenMembers(seen, items[..n], items[n]);
      }
    }
  }

  lemma {:induction false} FirstSeenDistinct(seen: seq<int>, items: seq<int>)
    requires Distinct(seen)
    ensures Distinct(FirstSeen(seen, items))
  {
    if items != [] {
      FirstSeenDistinct(seen, items[..|items| - 1]);
    }
  }

  lemma {:induction false} OrderDistinct(rankings: seq<seq<int>>)
    ensures Distinct(Order(rankings))
  {
    if rankings != [] {
      OrderDistinct(rankings[..|rankings| - 1]);
      FirstSeenDistinct(Order(rankings[..|rankings| - 1]), rankings[|rankings| - 1]);
    }
  }

  /** The dictionary has exactly the items that some ranking has. */
  lemma {:induction false} OrderIsUnion(rankings: seq<seq<int>>, id: int)
    ensures id in Order(rankings) <==> exists n :: 0 <= n < |rankings| && id in rankings[n]
  {
    if rankings != [] {
      var n := |rankings| - 1;
      OrderIsUnion(rankings[..n], id);
      FirstSeenMembers(Order(rankings[..n]), rankings[n], id);
      if id in Order(rankings[..n]) {
        var m :| 0 <= m < n && id in rankings[..n][m];
        assert id in rankings[m];
      }
      if exists m :: 0 <= m < |rankings| && id in rankings[m] {
        var m :| 0 <= m < |rankings| && id in rankings[m];
        assert m < n ==> id in rankings[..n][m];
      }
    }
  }

  // ---- The order of the dictionary ----

  /** The first occurrence of one item is before that of another. */
  predicate Earlier(items: seq<int>, x: int, y: int) {
    exists p :: 0 <= p < |items| && items[p] == x && forall q :: 0 <= q <= p ==> items[q] != y
  }

  lemma {:induction false} EarlierGrows(items: seq<int>, more: seq<int>, x: int, y: int)
    requires Earlier(items, x, y)
    ensures Earlier(items + more, x, y)
  {
    var p :| 0 <= p < |items| && items[p] == x && forall q :: 0 <= q <= p ==> items[q] != y;
    assert (items + more)[p] == x && forall q :: 0 <= q <= p ==> (items + more)[q] == items[q];
  }

  /** Items are in the order of their first occurrences. */
  lemma {:induction false} FirstSeenOrder(items: seq<int>, i: nat, j: nat)
    requires i < j < |FirstSeen([], items)|
    ensures Earlier(items, FirstSeen([], items)[i], FirstSeen([], items)[j])
  {
    var n := |items| - 1;
    var before, x, y := FirstSeen([], items[..n]), FirstSeen([], items)[i], FirstSeen([], items)[j];
    assert items == items[..n] + [items[n]];
    if j < |before| {
      FirstSeenOrder(items[..n], i, j);
      EarlierGrows(items[..n], [items[n]], x, y);
    } else {
      FirstSeenMembers([], items[..n], x);
      FirstSeenMembers([], items[..n], y);
      var p :| 0 <= p < n && items[..n][p] == x;
      forall q | 0 <= q <= p ensures items[q] != y {
        assert items[q] == items[..n][q];
      }
      assert items[p] == x;
    }
  }

  lemma {:induction false} FirstSeenConcat(seen: seq<int>, a: seq<int>, b: seq<int>)
    ensures FirstSeen(FirstSeen(seen, a), b) == FirstSeen(seen, a + b)
  {
    if b == [] {
      assert a + b == a;
    } else {
      var n := |b| - 1;
      assert (a + b)[..|a| + n] == a + b[..n];
      FirstSeenConcat(seen, a, b[..n]);
    }
  }

  lemma {:induction false} OrderOfTwo(a: seq<int>, b: seq<int>)
    ensures Order([a, b]) == FirstSeen([], a + b)
  {
    assert [a, b][..1] == [a] && [a][..0] == [];
    assert Order([]) == [];
    FirstSeenConcat([], a, b);
  }

  // ---- Scores ----

  lemma {:induction false} FromRankingAbsent(k: int, ranking: seq<int>, item: int)
    requires k >= 1 && item !in ranking
    ensures FromRanking(k, ranking, item) == 0.0
  {
    if ranking != [] {
      FromRankingAbsent(k, ranking[..|ranking| - 1], item);
    }
  }

  /** In a list without duplicates an item has one share, that of its rank. */
  lemma {:induction false} FromRankingAt(k: int, ranking: seq<int>, i: nat)
    requires k >= 1 && i < |ranking| && Distinct(ranking)
    ensures FromRanking(k, ranking, ranking[i]) == Share(k, i + 1) == 1.0 / (k + i + 1) as real
  {
    var n := |ranking| - 1;
    if i < n {
      FromRankingAt(k, ranking[..n], i);
    } else {
      FromRankingAbsent(k, ranking[..n], ranking[n]);
    }
  }

  lemma {:induction false} ShareFalls(k: int, better: nat, worse: nat)
    requires k >= 1 && 1 <= better <= worse
    ensures Share(k, better) >= Share(k, worse) > 0.0
    ensures better < worse ==> Share(k, better) > Share(k, worse)
  {
    var a, b := (k + better) as real, (k + worse) as real;
    Reciprocals(a, b);
  }

  lemma {:induction false} Reciprocals(a: real, b: real)
    requires 0.0 < a <= b
    ensures 1.0 / a >= 1.0 / b > 0.0 && (a < b ==> 1.0 / a > 1.0 / b)
  {
    assert (1.0 / a) * a == 1.0 && (1.0 / b) * b == 1.0;
    assert 1.0 / a - 1.0 / b == (b - a) * ((1.0 / a) * (1.0 / b));
  }

  /** In a ranking without duplicates, `x` is placed no worse than `y`. */
  predicate NoWorse(ranking: seq<int>, x: int, y: int) {
    forall j :: 0 <= j < |ranking| && ranking[j] == y ==> exists i :: 0 <= i <= j && ranking[i] == x
  }

  predicate Better(ranking: seq<int>, x: int, y: int) {
    x in ranking && NoWorse(ranking, x, y) && x != y
  }

  lemma {:induction false} NoWorseScores(k: int, ranking: seq<int>, x: int, y: int)
    requires k >= 1 && Distinct(ranking) && NoWorse(ranking, x, y)
    ensures FromRanking(k, ranking, x) >= FromRanking(k, ranking, y)
    ensures Better(ranking, x, y) ==> FromRanking(k, ranking, x) > FromRanking(k, ranking, y)
  {
    if y in ranking {
      var j :| 0 <= j < |ranking| && ranking[j] == y;
      var i :| 0 <= i <= j && ranking[i] == x;
      FromRankingAt(k, ranking, i);
      FromRankingAt(k, ranking, j);
      ShareFalls(k, i + 1, j + 1);
    } else {
      FromRankingAbsent(k, ranking, y);
      if x in ranking {
        var i :| 0 <= i < |ranking| && ranking[i] == x;
        FromRankingAt(k, ranking, i);
        ShareFalls(k, i + 1, i + 1);
      } else {
        FromRankingAbsent(k, ranking, x);
      }
    }
  }

  /** An item that no ranking places worse than another, and one places better, scores strictly
      more. */
  lemma {:induction false} DominanceRaisesScore(k: int, rankings: seq<seq<int>>, x: int, y: int)
    requires k >= 1
    requires forall n :: 0 <= n < |rankings| ==> Distinct(rankings[n]) && NoWorse(rankings[n], x, y)
    ensures Score(k, rankings, x) >= Score(k, rankings, y)
    ensures (exists n :: 0 <= n < |rankings| && Better(rankings[n], x, y)) ==> Score(k, rankings, x) > Score(k, rankings, y)
  {
    if rankings != [] {
      var n := |rankings| - 1;
      var init := rankings[..n];
      DominanceRaisesScore(k, init, x, y);
      NoWorseScores(k, rankings[n], x, y);
      if exists m :: 0 <= m < |rankings| && Better(rankings[m], x, y) {
        var m :| 0 <= m < |rankings| && Better(rankings[m], x, y);
        if m < n {
          assert Better(init[m], x, y);
        }
      }
    }
  }

  lemma {:induction false} ScoreConcat(k: int, a: seq<seq<int>>, b: seq<seq<int>>, item: int)
    requires k >= 1
    ensures Score(k, a + b, item) == Score(k, a, item) + Score(k, b, item)
  {
    if b == [] {
      assert a + b == a;
    } else {
      assert (a + b)[..|a + b| - 1] == a + b[..|b| - 1];
      ScoreConcat(k, a, b[..|b| - 1], item);
    }
  }

  lemma {:induction false} ScoreOfOne(k: int, ranking: seq<int>, item: int)
    requires k >= 1
    ensures Score(k, [ranking], item) == FromRanking(k, ranking, item)
  {
    assert [ranking][..0] == [];
    assert Score(k, [], item) == 0.0;
  }

  /** The scores do not depend on the order of the rankings. */
  lemma {:induction false} ScoreIgnoresOrder(k: int, a: seq<seq<int>>, b: seq<seq<int>>, item: int)
    requires k >= 1 && multiset(a) == multiset(b)
    ensures Score(k, a, item) == Score(k, b, item)
    decreases |a|
  {
    if a == [] {
      assert |multiset(b)| == 0;
    } else {
      var n := |a| - 1;
      assert a[n] in multiset(b);
      var i :| 0 <= i < |b| && b[i] == a[n];
      assert Without(a, n) == a[..n];
      MultisetWithout(a, n);
      MultisetWithout(b, i);
      ScoreIgnoresOrder(k, a[..n], Without(b, i), item);
      ScoreWithout(k, a, n, item);
      ScoreWithout(k, b, i, item);
    }
  }

  lemma {:induction false} ScoreWithout(k: int, b: seq<seq<int>>, i: nat, item: int)
    requires k >= 1 && i < |b|
    ensures Score(k, b, item) == Score(k, Without(b, i), item) + Score(k, [b[i]], item)
  {
    assert b == b[..i] + [b[i]] + b[i + 1..];
    ScoreConcat(k, b[..i], b[i + 1..], item);
    ScoreConcat(k, b[..i] + [b[i]], b[i + 1..], item);
    ScoreConcat(k, b[..i], [b[i]], item);
  }

  // ---- Total mass ----

  /** 1/(k+1) + ... + 1/(k+n). */
  function Harmonic(k: int, n: nat): real
    requires k >= 1
  {
    if n == 0 then 0.0 else Harmonic(k, n - 1) + Share(k, n)
  }

  function Harmonics(k: int, rankings: seq<seq<int>>): real
    requires k >= 1
  {
    if rankings == [] then 0.0
    else Harmonics(k, rankings[..|rankings| - 1]) + Harmonic(k, |rankings[|rankings| - 1]|)
  }

  function SumOfRanking(k: int, ranking: seq<int>, items: seq<int>): real
    requires k >= 1
  {
    if items == [] then 0.0
    else SumOfRanking(k, ranking, items[..|items| - 1]) + FromRanking(k, ranking, items[|items| - 1])
  }

  function SumOfScores(k: int, rankings: seq<seq<int>>, items: seq<int>): real
    requires k >= 1
  {
    if items == [] then 0.0
    else SumOfScores(k, rankings, items[..|items| - 1]) + Score(k, rankings, items[|items| - 1])
  }

  lemma {:induction false} SumOfRankingGrows(k: int, ranking: seq<int>, items: seq<int>)
    requires k >= 1 && ranking != [] && Distinct(items)
    ensures var n := |ranking| - 1;
            SumOfRanking(k, ranking, items) == SumOfRanking(k, ranking[..n], items)
              + (if ranking[n] in items then Share(k, n + 1) else 0.0)
  {
    if items != [] {
      var m := |items| - 1;
      SumOfRankingGrows(k, ranking, items[..m]);
      assert items == items[..m] + [items[m]];
    }
  }

  lemma {:induction false} SumOfRankingIsHarmonic(k: int, ranking: seq<int>, items: seq<int>)
    requires k >= 1 && Distinct(items) && forall i :: 0 <= i < |ranking| ==> ranking[i] in items
    ensures SumOfRanking(k, ranking, items) == Harmonic(k, |ranking|)
  {
    if ranking == [] {
      SumOfNothing(k, items);
    } else {
      SumOfRankingGrows(k, ranking, items);
      SumOfRankingIsHarmonic(k, ranking[..|ranking| - 1], items);
    }
  }

  lemma {:induction false} SumOfNothing(k: int, items: seq<int>)
    requires k >= 1
    ensures SumOfRanking(k, [], items) == 0.0
  {
    if items != [] {
      SumOfNothing(k, items[..|items| - 1]);
    }
  }

  lemma {:induction false} SumOfScoresSplits(k: int, rankings: seq<seq<int>>, items: seq<int>)
    requires k >= 1
    ensures rankings == [] ==> SumOfScores(k, rankings, items) == 0.0
    ensures rankings != [] ==>
      SumOfScores(k, rankings, items)
      == SumOfScores(k, rankings[..|rankings| - 1], items) + SumOfRanking(k, rankings[|rankings| - 1], items)
  {
    if items != [] {
      SumOfScoresSplits(k, rankings, items[..|items| - 1]);
    }
  }

  /** Nothing is lost: the scores add up to what all places of all rankings are worth. */
  lemma {:induction false} MassIsConserved(k: int, rankings: seq<seq<int>>, items: seq<int>)
    requires k >= 1 && Distinct(items)
    requires forall n, i :: 0 <= n < |rankings| && 0 <= i < |rankings[n]| ==> rankings[n][i] in items
    ensures SumOfScores(k, rankings, items) == Harmonics(k, rankings)
  {
    SumOfScoresSplits(k, rankings, items);
    if rankings != [] {
      var n := |rankings| - 1;
      MassIsConserved(k, rankings[..n], items);
      SumOfRankingIsHarmonic(k, rankings[n], items);
    }
  }

  /** The same for the dictionary that `Fuse` returns. */
  lemma {:induction false} FusedMass(k: int, rankings: seq<seq<int>>)
    requires k >= 1
    ensures SumOfScores(k, rankings, Order(rankings)) == Harmonics(k, rankings)
  {
    OrderDistinct(rankings);
    forall n, i | 0 <= n < |rankings| && 0 <= i < |rankings[n]| ensures rankings[n][i] in Order(rankings) {
      OrderIsUnion(rankings, rankings[n][i]);
    }
    MassIsConserved(k, rankings, Order(rankings));
  }

  // ---- Consensus ----

  /** With two rankings of at most k + 1 places, an item that both rank scores strictly above an
      item that only one ranks. */
  lemma {:induction false} ConsensusWins(k: int, a: seq<int>, b: seq<int>, both: int, one: int)
    requires k >= 1 && Distinct(a) && Distinct(b) && |a| <= k + 1 && |b| <= k + 1
    requires both in a && both in b && !(one in a && one in b)
    ensures Score(k, [a, b], both) > Score(k, [a, b], one)
  {
    ScoreOfTwo(k, a, b, both);
    ScoreOfTwo(k, a, b, one);
    AtLeastLast(k, a, both);
    AtLeastLast(k, b, both);
    AtMostFirst(k, a, one);
    AtMostFirst(k, b, one);
    if one !in a {
      FromRankingAbsent(k, a, one);
    } else {
      FromRankingAbsent(k, b, one);
    }
    TwoLastBeatFirst(k);
  }

  lemma {:induction false} ScoreOfTwo(k: int, a: seq<int>, b: seq<int>, item: int)
    requires k >= 1
    ensures Score(k, [a, b], item) == FromRanking(k, a, item) + FromRanking(k, b, item)
  {
    assert [a, b][..1] == [a];
    ScoreOfOne(k, a, item);
  }

  /** An item in a ranking of at most k + 1 places has at least the last share. */
  lemma {:induction false} AtLeastLast(k: int, ranking: seq<int>, item: int)
    requires k >= 1 && Distinct(ranking) && |ranking| <= k + 1 && item in ranking
    ensures FromRanking(k, ranking, item) >= Share(k, k + 1)
  {
    var i :| 0 <= i < |ranking| && ranking[i] == item;
    FromRankingAt(k, ranking, i);
    ShareFalls(k, i + 1, k + 1);
  }

  lemma {:induction false} AtMostFirst(k: int, ranking: seq<int>, item: int)
    requires k >= 1 && Distinct(ranking)
    ensures FromRanking(k, ranking, item) <= Share(k, 1)
  {
    if item in ranking {
      var i :| 0 <= i < |ranking| && ranking[i] == item;
      FromRankingAt(k, ranking, i);
      ShareFalls(k, 1, i + 1);
    } else {
      FromRankingAbsent(k, ranking, item);
      ShareFalls(k, 1, 1);
    }
  }

  lemma {:induction false} TwoLastBeatFirst(k: int)
    requires k >= 1
    ensures Share(k, k + 1) + Share(k, k + 1) > Share(k, 1)
  {
    var x := (k + 1) as real;
    assert (2 * k + 1) as real == 2.0 * x - 1.0;
    Reciprocals(x - 0.5, x);
    assert 2.0 / (2.0 * x - 1.0) == 1.0 / (x - 0.5);
  }

  /** The bound is tight: in rankings of k + 2 places an item that is last in both ties with one
      that is first in a single one. */
  lemma {:induction false} ConsensusBoundIsTight(k: int, a: seq<int>, b: seq<int>, both: int, one: int)
    requires k >= 1 && Distinct(a) && Distinct(b) && |a| == |b| == k + 2
    requires a[k + 1] == both && b[k + 1] == both && a[0] == one && one !in b
    ensures Score(k, [a, b], both) == Score(k, [a, b], one)
  {
    ScoreOfTwo(k, a, b, both);
    ScoreOfTwo(k, a, b, one);
    FromRankingAt(k, a, k + 1);
    FromRankingAt(k, b, k + 1);
    FromRankingAt(k, a, 0);
    FromRankingAbsent(k, b, one);
    var x := (k + 1) as real;
    assert (k + (k + 2)) as real == 2.0 * x;
    assert 1.0 / (2.0 * x) + 1.0 / (2.0 * x) == 1.0 / x;
  }
}

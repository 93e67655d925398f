/** The hybrid retriever: what happens to the two ranked lists that the database returns. */
module Retriever {
  import opened StableSort
  import opened Fusion
  import opened Reranker

  /** A row of either query; `id` is the primary key of the chunk. */
  datatype Row = Row(id: int, document: int, text: string)

  function Ids(rows: seq<Row>): seq<int> {
    seq(|rows|, i requires 0 <= i < |rows| => rows[i].id)
  }

  /** The rows by id, later ones replacing earlier ones. */
  function Catalog(rows: seq<Row>): map<int, Row> {
    if rows == [] then map[] else Catalog(rows[..|rows| - 1])[rows[|rows| - 1].id := rows[|rows| - 1]]
  }

  function Rankings(vector: seq<Row>, keyword: seq<Row>): seq<seq<int>> {
    [Ids(vector), Ids(keyword)]
  }

  /** The fused items in the order of the dictionary. */
  function Items(rankings: seq<seq<int>>): seq<Scored<int>> {
    var order := Order(rankings);
    seq(|order|, i requires 0 <= i < |order| => Scored(order[i], Score(DEFAULT_RRF_K, rankings, order[i])))
  }

  function Best(items: seq<Scored<int>>, n: nat): seq<Scored<int>> {
    var sorted := SortDescending(items);
    if n <= |sorted| then sorted[..n] else sorted
  }

  function ToChunk(catalog: map<int, Row>, item: Scored<int>): ScoredChunk
    requires item.item in catalog
  {
    Scored(Candidate(item.item, catalog[item.item].document, catalog[item.item].text), item.score)
  }

  function Retrieved(vector: seq<Row>, keyword: seq<Row>, poolSize: nat): seq<ScoredChunk> {
    var best := Best(Items(Rankings(vector, keyword)), poolSize);
    var catalog := Catalog(vector + keyword);
    BestInCatalog(vector, keyword, poolSize);
    seq(|best|, i requires 0 <= i < |best| => ToChunk(catalog, best[i]))
  }

  /** `retrieve` after the two queries. */
  method Retrieve(vector: seq<Row>, keyword: seq<Row>, poolSize: nat) returns (r: seq<ScoredChunk>)
    ensures r == Retrieved(vector, keyword, poolSize)
    ensures IsPool(vector, keyword, poolSize, r)
  {
    PoolExactlyWhen(vector, keyword, poolSize, Retrieved(vector, keyword, poolSize));
    hide IsPool;
    var rows := vector + keyword;
    var catalog: map<int, Row> := map[];
    for i := 0 to |rows|
      invariant catalog == Catalog(rows[..i])
    {
      assert rows[..i + 1][..i] == rows[..i];
      catalog := catalog[rows[i].id := rows[i]];
    }
    assert rows[..|rows|] == rows;
    var fused := Fuse(Rankings(vector, keyword), DEFAULT_RRF_K);
    var scores := fused.value;
    assert forall id :: id in scores.value <==> id in scores.order;
    forall i | 0 <= i < |scores.order| ensures scores.order[i] in scores.value {
      assert scores.order[i] in scores.order;
    }
    var items := seq(|scores.order|, i requires 0 <= i < |scores.order| => Scored(scores.order[i], scores.value[scores.order[i]]));
    assert items == Items(Rankings(vector, keyword));
    var best := Best(items, poolSize);
    BestInCatalog(vector, keyword, poolSize);
    r := seq(|best|, i requires 0 <= i < |best| => ToChunk(catalog, best[i]));
  }

  // ---- Lookups never miss ----

  lemma {:induction false} CatalogHas(rows: seq<Row>, i: nat)
    requires i < |rows|
    ensures rows[i].id in Catalog(rows)
  {
    if i < |rows| - 1 {
      CatalogHas(rows[..|rows| - 1], i);
    }
  }

  lemma {:induction false} OrderInCatalog(vector: seq<Row>, keyword: seq<Row>, id: int)
    requires id in Order(Rankings(vector, keyword))
    ensures id in Catalog(vector + keyword)
  {
    var rankings := Rankings(vector, keyword);
    OrderIsUnion(rankings, id);
    var n :| 0 <= n < |rankings| && id in rankings[n];
    var i :| 0 <= i < |rankings[n]| && rankings[n][i] == id;
    var j := if n == 0 then i else |vector| + i;
    assert (vector + keyword)[j].id == id;
    CatalogHas(vector + keyword, j);
  }

  lemma {:induction false} BestIsSome(items: seq<Scored<int>>, n: nat, i: nat)
    requires i < |Best(items, n)|
    ensures Best(items, n)[i] in items
  {
    SortPermutes(items);
    assert SortDescending(items)[i] in multiset(SortDescending(items));
  }

  lemma {:induction false} BestInCatalog(vector: seq<Row>, keyword: seq<Row>, poolSize: nat)
    ensures var best := Best(Items(Rankings(vector, keyword)), poolSize);
            forall i :: 0 <= i < |best| ==> best[i].item in Catalog(vector + keyword)
  {
    var items := Items(Rankings(vector, keyword));
    var best := Best(items, poolSize);
    forall i | 0 <= i < |best| ensures best[i].item in Catalog(vector + keyword) {
      BestIsSome(items, poolSize, i);
      var j :| 0 <= j < |items| && items[j] == best[i];
      OrderInCatalog(vector, keyword, items[j].item);
    }
  }

  // ---- Distinct results ----

  ghost predicate NoRepeats<T>(xs: seq<T>) {
    forall i, j :: 0 <= i < j < |xs| ==> xs[i] != xs[j]
  }

  lemma {:induction false} NoRepeatsMultiset<T>(xs: seq<T>)
    ensures NoRepeats(xs) <==> forall x :: multiset(xs)[x] <= 1
  {
    if xs != [] {
      var n := |xs| - 1;
      NoRepeatsMultiset(xs[..n]);
      assert xs == xs[..n] + [xs[n]];
      assert multiset(xs) == multiset(xs[..n]) + multiset{xs[n]};
      if NoRepeats(xs) {
        assert forall i, j :: 0 <= i < j < n ==> xs[..n][i] != xs[..n][j];
        assert xs[n] !in xs[..n];
      } else if NoRepeats(xs[..n]) {
        var i, j :| 0 <= i < j < |xs| && xs[i] == xs[j];
        assert j == n && xs[i] == xs[..n][i];
        assert multiset(xs)[xs[n]] >= 2;
      } else {
        var x :| multiset(xs[..n])[x] > 1;
        assert multiset(xs)[x] > 1;
      }
    }
  }

  /** The scores go with the ids. */
  ghost predicate Keyed(items: seq<Scored<int>>, rankings: seq<seq<int>>) {
    forall i :: 0 <= i < |items| ==> items[i].item in Order(rankings) && items[i].score == Score(DEFAULT_RRF_K, rankings, items[i].item)
  }

  lemma {:induction false} SortedItems(rankings: seq<seq<int>>)
    ensures var sorted := SortDescending(Items(rankings));
            NoRepeats(sorted) && Keyed(sorted, rankings) && |sorted| == |Order(rankings)|
  {
    var items := Items(rankings);
    var sorted := SortDescending(items);
    OrderDistinct(rankings);
    SortPermutes(items);
    NoRepeatsMultiset(items);
    NoRepeatsMultiset(sorted);
    forall i | 0 <= i < |sorted|
      ensures sorted[i].item in Order(rankings) && sorted[i].score == Score(DEFAULT_RRF_K, rankings, sorted[i].item)
    {
      assert sorted[i] in multiset(sorted);
      var j :| 0 <= j < |items| && items[j] == sorted[i];
    }
  }

  /** The pool: at most `poolSize` chunks, no chunk twice, in descending order of their fused
      score. */
  lemma {:induction false} PoolIsOrdered(vector: seq<Row>, keyword: seq<Row>, poolSize: nat)
    ensures var r := Retrieved(vector, keyword, poolSize);
            var n := |Order(Rankings(vector, keyword))|;
            && |r| == (if poolSize <= n then poolSize else n)
            && Descending(r)
            && (forall i, j :: 0 <= i < j < |r| ==> r[i].item.chunk != r[j].item.chunk)
            && (forall i :: 0 <= i < |r| ==> r[i].score == Score(DEFAULT_RRF_K, Rankings(vector, keyword), r[i].item.chunk))
  {
    var rankings := Rankings(vector, keyword);
    SortedItems(rankings);
    SortDescends(Items(rankings));
    var best := Best(Items(rankings), poolSize);
    var r := Retrieved(vector, keyword, poolSize);
    assert |r| == |best|;
    assert forall i :: 0 <= i < |r| ==> r[i].item.chunk == best[i].item && r[i].score == best[i].score;
    KeyedIdsDiffer(SortDescending(Items(rankings)), rankings);
  }

  lemma {:induction false} KeyedIdsDiffer(items: seq<Scored<int>>, rankings: seq<seq<int>>)
    requires NoRepeats(items) && Keyed(items, rankings)
    ensures forall i, j :: 0 <= i < j < |items| ==> items[i].item != items[j].item
  {
  }

  // ---- Consensus survives the cut ----

  lemma {:induction false} SetSize(xs: seq<int>)
    ensures |set x | x in xs| <= |xs|
    ensures Distinct(xs) ==> |set x | x in xs| == |xs|
  {
    if xs != [] {
      var n := |xs| - 1;
      SetSize(xs[..n]);
      assert xs == xs[..n] + [xs[n]];
      assert (set x | x in xs) == (set x | x in xs[..n]) + {xs[n]};
      if Distinct(xs) {
        assert xs[n] !in xs[..n];
      }
    }
  }

  lemma {:induction false} Pigeonhole(xs: seq<int>, ys: seq<int>)
    requires Distinct(xs) && forall i :: 0 <= i < |xs| ==> xs[i] in ys
    ensures |xs| <= |ys|
  {
    SetSize(xs);
    SetSize(ys);
    var sx, sy := set x | x in xs, set y | y in ys;
    assert sy == sx + (sy - sx);
  }

  lemma {:induction false} PositionOf(rankings: seq<seq<int>>, id: int) returns (p: nat)
    requires id in Order(rankings)
    ensures p < |SortDescending(Items(rankings))| && SortDescending(Items(rankings))[p].item == id
  {
    var items := Items(rankings);
    var sorted := SortDescending(items);
    SortPermutes(items);
    var i :| 0 <= i < |Order(rankings)| && Order(rankings)[i] == id;
    assert items[i] in multiset(items);
    p :| 0 <= p < |sorted| && sorted[p] == items[i];
  }

  /** Everything sorted at or before a chunk of both arms is a chunk of both arms. */
  lemma {:induction false} OnlyConsensusBefore(vector: seq<Row>, keyword: seq<Row>, p: nat, i: nat)
    requires Distinct(Ids(vector)) && Distinct(Ids(keyword)) && |vector| <= DEFAULT_RRF_K + 1 && |keyword| <= DEFAULT_RRF_K + 1
    requires var sorted := SortDescending(Items(Rankings(vector, keyword)));
             i <= p < |sorted| && sorted[p].item in Ids(vector) && sorted[p].item in Ids(keyword)
    ensures SortDescending(Items(Rankings(vector, keyword)))[i].item in Ids(vector)
  {
    var rankings := Rankings(vector, keyword);
    var sorted := SortDescending(Items(rankings));
    SortedItems(rankings);
    SortDescends(Items(rankings));
    assert sorted[i].score >= sorted[p].score;
    if sorted[i].item !in Ids(vector) {
      ConsensusWins(DEFAULT_RRF_K, Ids(vector), Ids(keyword), sorted[p].item, sorted[i].item);
    }
  }

  /** A chunk that both arms return is never cut from the pool, as long as the pool has at most
      k + 1 = 61 places; the arms return at most as many rows as the pool has places. */
  lemma {:induction false} ConsensusIsKept(vector: seq<Row>, keyword: seq<Row>, poolSize: nat, id: int)
    requires Distinct(Ids(vector)) && Distinct(Ids(keyword)) && |vector| <= poolSize && |keyword| <= poolSize
    requires poolSize <= DEFAULT_RRF_K + 1 && id in Ids(vector) && id in Ids(keyword)
    ensures exists i :: 0 <= i < |Retrieved(vector, keyword, poolSize)| && Retrieved(vector, keyword, poolSize)[i].item.chunk == id
  {
    var rankings := Rankings(vector, keyword);
    var sorted := SortDescending(Items(rankings));
    assert id in rankings[0];
    OrderIsUnion(rankings, id);
    var p := PositionOf(rankings, id);
    SortedItems(rankings);
    KeyedIdsDiffer(sorted, rankings);
    var ids := seq(p + 1, i requires 0 <= i <= p => sorted[i].item);
    forall i | 0 <= i <= p ensures ids[i] in Ids(vector) {
      OnlyConsensusBefore(vector, keyword, p, i);
    }
    Pigeonhole(ids, Ids(vector));
    assert Retrieved(vector, keyword, poolSize)[p].item.chunk == id;
  }

  // ---- The pool, said of the two arms ----

  function FusedScore(vector: seq<Row>, keyword: seq<Row>, id: int): real {
    FromRanking(60, Ids(vector), id) + FromRanking(60, Ids(keyword), id)
  }

  function AllIds(vector: seq<Row>, keyword: seq<Row>): set<int> {
    (set row | row in vector :: row.id) + (set row | row in keyword :: row.id)
  }

  /** One chunk goes before another: by its score, and by where the arms first return it if the
      scores are the same. */
  ghost predicate Outranks(vector: seq<Row>, keyword: seq<Row>, x: int, y: int) {
    var a, b := FusedScore(vector, keyword, x), FusedScore(vector, keyword, y);
    a > b || (a == b && Earlier(Ids(vector) + Ids(keyword), x, y))
  }

  /** The document and the text are those of the last row with the id of the chunk. */
  ghost predicate IsLastRow(rows: seq<Row>, c: Candidate) {
    exists n :: 0 <= n < |rows| && rows[n] == Row(c.chunk, c.document, c.text) && forall m :: n < m < |rows| ==> rows[m].id != c.chunk
  }

  ghost predicate InPool(r: seq<ScoredChunk>, id: int) {
    exists i :: 0 <= i < |r| && r[i].item.chunk == id
  }

  /** The pool holds as many of the chunks that the arms return as there are places, every chunk
      outranks those after it and those that have no place, and all have their own scores,
      documents and texts. */
  ghost predicate IsPool(vector: seq<Row>, keyword: seq<Row>, poolSize: nat, r: seq<ScoredChunk>) {
    && |r| == (if poolSize <= |AllIds(vector, keyword)| then poolSize else |AllIds(vector, keyword)|)
    && (forall i :: 0 <= i < |r| ==>
          && r[i].item.chunk in AllIds(vector, keyword)
          && r[i].score == FusedScore(vector, keyword, r[i].item.chunk)
          && IsLastRow(vector + keyword, r[i].item))
    && (forall i, j :: 0 <= i < j < |r| ==>
          r[i].item.chunk != r[j].item.chunk && Outranks(vector, keyword, r[i].item.chunk, r[j].item.chunk))
    && (forall i, id :: 0 <= i < |r| && id in AllIds(vector, keyword) && !InPool(r, id) ==>
          Outranks(vector, keyword, r[i].item.chunk, id))
  }

  lemma {:induction false} AllIdsAreListed(vector: seq<Row>, keyword: seq<Row>, id: int)
    ensures id in AllIds(vector, keyword) <==> id in Ids(vector) || id in Ids(keyword)
    ensures id in AllIds(vector, keyword) <==> id in Order(Rankings(vector, keyword))
  {
    var rankings := Rankings(vector, keyword);
    OrderIsUnion(rankings, id);
    assert rankings[0] == Ids(vector) && rankings[1] == Ids(keyword);
    IdsAreListed(vector, id);
    IdsAreListed(keyword, id);
  }

  lemma {:induction false} IdsAreListed(rows: seq<Row>, id: int)
    ensures id in Ids(rows) <==> id in (set row | row in rows :: row.id)
  {
    if id in Ids(rows) {
      var i :| 0 <= i < |rows| && Ids(rows)[i] == id;
      assert rows[i] in rows && rows[i].id == id;
    }
    if id in (set row | row in rows :: row.id) {
      var i :| 0 <= i < |rows| && rows[i].id == id;
      assert Ids(rows)[i] == id;
    }
  }

  lemma {:induction false} CountIds(vector: seq<Row>, keyword: seq<Row>)
    ensures |AllIds(vector, keyword)| == |Order(Rankings(vector, keyword))|
  {
    var order := Order(Rankings(vector, keyword));
    OrderDistinct(Rankings(vector, keyword));
    SetSize(order);
    forall id ensures id in AllIds(vector, keyword) <==> id in order {
      AllIdsAreListed(vector, keyword, id);
    }
    assert AllIds(vector, keyword) == set x | x in order;
  }

  lemma {:induction false} CatalogIsLast(rows: seq<Row>, id: int)
    requires id in Catalog(rows)
    ensures IsLastRow(rows, Candidate(id, Catalog(rows)[id].document, Catalog(rows)[id].text))
  {
    var n := |rows| - 1;
    var c := Candidate(id, Catalog(rows)[id].document, Catalog(rows)[id].text);
    if rows[n].id == id {
      assert rows[n] == Row(c.chunk, c.document, c.text);
    } else {
      CatalogIsLast(rows[..n], id);
      var m :| 0 <= m < n && rows[..n][m] == Row(c.chunk, c.document, c.text)
               && forall l :: m < l < n ==> rows[..n][l].id != c.chunk;
      assert rows[m] == Row(c.chunk, c.document, c.text);
      forall l | m < l < |rows| ensures rows[l].id != c.chunk {
        assert l < n ==> rows[l] == rows[..n][l];
      }
    }
  }

  lemma {:induction false} FusedScoreIsScore(vector: seq<Row>, keyword: seq<Row>, id: int)
    ensures FusedScore(vector, keyword, id) == Score(DEFAULT_RRF_K, Rankings(vector, keyword), id)
  {
    ScoreOfTwo(DEFAULT_RRF_K, Ids(vector), Ids(keyword), id);
  }

  /** Everything sorted before something else outranks it. */
  lemma {:induction false} SortedOutranks(vector: seq<Row>, keyword: seq<Row>, i: nat, j: nat)
    requires i < j < |SortDescending(Items(Rankings(vector, keyword)))|
    ensures var sorted := SortDescending(Items(Rankings(vector, keyword)));
            Outranks(vector, keyword, sorted[i].item, sorted[j].item)
  {
    var rankings := Rankings(vector, keyword);
    var items, order := Items(rankings), Order(rankings);
    var sorted := SortDescending(items);
    SortedItems(rankings);
    SortDescends(items);
    FusedScoreIsScore(vector, keyword, sorted[i].item);
    FusedScoreIsScore(vector, keyword, sorted[j].item);
    assert sorted[i].score >= sorted[j].score;
    if sorted[i].score == sorted[j].score {
      TiesKeepOrder(items, i, j);
      var p, q :| 0 <= p < q < |items| && items[p] == sorted[i] && items[q] == sorted[j];
      OrderOfTwo(Ids(vector), Ids(keyword));
      FirstSeenOrder(Ids(vector) + Ids(keyword), p, q);
    }
  }

  lemma {:induction false} RetrievedFromSorted(vector: seq<Row>, keyword: seq<Row>, poolSize: nat)
    ensures var r, sorted := Retrieved(vector, keyword, poolSize), SortDescending(Items(Rankings(vector, keyword)));
            && |r| == (if poolSize <= |sorted| then poolSize else |sorted|)
            && forall i :: 0 <= i < |r| ==>
                 && r[i].item.chunk == sorted[i].item && r[i].score == sorted[i].score
                 && sorted[i].item in Catalog(vector + keyword)
                 && r[i].item == Candidate(sorted[i].item, Catalog(vector + keyword)[sorted[i].item].document,
                                           Catalog(vector + keyword)[sorted[i].item].text)
  {
    BestInCatalog(vector, keyword, poolSize);
  }

  lemma {:induction false} PlacedIsInPool(r: seq<ScoredChunk>, sorted: seq<Scored<int>>, p: nat)
    requires |r| <= |sorted| && p < |sorted| && forall i :: 0 <= i < |r| ==> r[i].item.chunk == sorted[i].item
    ensures p < |r| ==> InPool(r, sorted[p].item)
  {
  }

  lemma {:induction false} RetrievedIsPool(vector: seq<Row>, keyword: seq<Row>, poolSize: nat)
    ensures IsPool(vector, keyword, poolSize, Retrieved(vector, keyword, poolSize))
  {
    hide Retrieved, Catalog, Items, Outranks, IsLastRow, FusedScore, AllIds, SortDescending;
    var rankings := Rankings(vector, keyword);
    var r, sorted := Retrieved(vector, keyword, poolSize), SortDescending(Items(rankings));
    RetrievedFromSorted(vector, keyword, poolSize);
    SortedItems(rankings);
    KeyedIdsDiffer(sorted, rankings);
    CountIds(vector, keyword);
    forall i | 0 <= i < |r|
      ensures r[i].item.chunk in AllIds(vector, keyword) && r[i].score == FusedScore(vector, keyword, r[i].item.chunk)
              && IsLastRow(vector + keyword, r[i].item)
    {
      AllIdsAreListed(vector, keyword, sorted[i].item);
      FusedScoreIsScore(vector, keyword, sorted[i].item);
      CatalogIsLast(vector + keyword, sorted[i].item);
    }
    forall i, j | 0 <= i < j < |r|
      ensures r[i].item.chunk != r[j].item.chunk && Outranks(vector, keyword, r[i].item.chunk, r[j].item.chunk)
    {
      SortedOutranks(vector, keyword, i, j);
    }
    forall i, id | 0 <= i < |r| && id in AllIds(vector, keyword) && !InPool(r, id)
      ensures Outranks(vector, keyword, r[i].item.chunk, id)
    {
      AllIdsAreListed(vector, keyword, id);
      var p := PositionOf(rankings, id);
      PlacedIsInPool(r, sorted, p);
      SortedOutranks(vector, keyword, i, p);
    }
  }

  lemma {:induction false} OutranksOneWay(vector: seq<Row>, keyword: seq<Row>, x: int, y: int)
    requires x != y && Outranks(vector, keyword, x, y)
    ensures !Outranks(vector, keyword, y, x)
  {
  }

  lemma {:induction false} LastRowIsUnique(rows: seq<Row>, c: Candidate, d: Candidate)
    requires IsLastRow(rows, c) && IsLastRow(rows, d) && c.chunk == d.chunk
    ensures c == d
  {
  }

  lemma {:induction false} OutranksInPool(vector: seq<Row>, keyword: seq<Row>, poolSize: nat, r: seq<ScoredChunk>, i: nat, id: int)
    requires IsPool(vector, keyword, poolSize, r) && i < |r| && id in AllIds(vector, keyword)
    requires forall j :: 0 <= j <= i ==> r[j].item.chunk != id
    ensures Outranks(vector, keyword, r[i].item.chunk, id)
  {
    hide Outranks, AllIds, FusedScore, IsLastRow;
    if InPool(r, id) {
      var j :| 0 <= j < |r| && r[j].item.chunk == id;
      assert i < j;
    }
  }

  lemma {:induction false} PoolsAgree(vector: seq<Row>, keyword: seq<Row>, poolSize: nat, r: seq<ScoredChunk>,
                                      s: seq<ScoredChunk>, i: nat)
    requires IsPool(vector, keyword, poolSize, r) && IsPool(vector, keyword, poolSize, s) && i <= |r|
    ensures |r| == |s| && r[..i] == s[..i]
  {
    hide Outranks, AllIds, FusedScore, IsLastRow;
    if i > 0 {
      var n := i - 1;
      PoolsAgree(vector, keyword, poolSize, r, s, n);
      forall j | 0 <= j < n ensures r[j] == s[j] {
        assert r[j] == r[..n][j] && s[j] == s[..n][j];
      }
      var x, y := r[n].item.chunk, s[n].item.chunk;
      if x != y {
        OutranksInPool(vector, keyword, poolSize, r, n, y);
        OutranksInPool(vector, keyword, poolSize, s, n, x);
        OutranksOneWay(vector, keyword, x, y);
      }
      LastRowIsUnique(vector + keyword, r[n].item, s[n].item);
      assert r[..i] == r[..n] + [r[n]] && s[..i] == s[..n] + [s[n]];
    }
  }

  /** A list is the pool if and only if it holds the best chunks of the two arms, in order, each
      with its scores, its document and its text; with enough places these are all chunks of both. */
  lemma {:induction false} PoolExactlyWhen(vector: seq<Row>, keyword: seq<Row>, poolSize: nat, r: seq<ScoredChunk>)
    ensures r == Retrieved(vector, keyword, poolSize) <==> IsPool(vector, keyword, poolSize, r)
  {
    hide IsPool, Retrieved;
    RetrievedIsPool(vector, keyword, poolSize);
    if IsPool(vector, keyword, poolSize, r) {
      PoolsAgree(vector, keyword, poolSize, r, Retrieved(vector, keyword, poolSize), |r|);
    }
  }

  /** A pool with a place for every chunk of both arms has them all. */
  lemma {:induction false} NothingIsDropped(vector: seq<Row>, keyword: seq<Row>, poolSize: nat, id: int)
    requires poolSize >= |AllIds(vector, keyword)| && id in AllIds(vector, keyword)
    ensures InPool(Retrieved(vector, keyword, poolSize), id)
  {
    hide Retrieved, Items, Catalog, SortDescending;
    var rankings := Rankings(vector, keyword);
    AllIdsAreListed(vector, keyword, id);
    var p := PositionOf(rankings, id);
    RetrievedFromSorted(vector, keyword, poolSize);
    SortedItems(rankings);
    CountIds(vector, keyword);
    assert Retrieved(vector, keyword, poolSize)[p].item.chunk == id;
  }
}

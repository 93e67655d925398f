/** The lexical reranker, over exact reals. */
module Reranker {
  import opened Text
  import opened Tokenizer
  import opened StableSort

  datatype Candidate = Candidate(chunk: int, document: int, text: string)

  type ScoredChunk = Scored<Candidate>

  const W_RETRIEVAL := 0.3
  const W_COVERAGE := 0.6
  const W_PHRASE := 0.1

  function TokenSet(s: string): set<string> {
    set t | t in Tokens(s)
  }

  function Lowest(cs: seq<ScoredChunk>): real
    requires cs != []
  {
    if |cs| == 1 then cs[0].score
    else
      var rest := Lowest(cs[..|cs| - 1]);
      if cs[|cs| - 1].score < rest then cs[|cs| - 1].score else rest
  }

  function Highest(cs: seq<ScoredChunk>): real
    requires cs != []
  {
    if |cs| == 1 then cs[0].score
    else
      var rest := Highest(cs[..|cs| - 1]);
      if cs[|cs| - 1].score > rest then cs[|cs| - 1].score else rest
  }

  /** The retrieval score scaled to [0, 1]. */
  function Base(score: real, low: real, high: real): real {
    if high - low != 0.0 then (score - low) / (high - low) else 0.0
  }

  function Coverage(query: set<string>, chunk: set<string>): real {
    if query == {} then 0.0 else |query * chunk| as real / |query| as real
  }

  predicate Contains(text: string, phrase: string) {
    exists i :: 0 <= i <= |text| && OccursAt(text, phrase, i)
  }

  /** Coverage and phrase bonus of a chunk text, the part of the score that ignores retrieval. */
  function Lexical(lower: string -> string, query: string, text: string): real {
    W_COVERAGE * Coverage(TokenSet(lower(query)), TokenSet(lower(text)))
    + W_PHRASE * (if Contains(lower(text), Normalize(lower, query)) then 1.0 else 0.0)
  }

  function Final(lower: string -> string, query: string, c: ScoredChunk, low: real, high: real): real {
    W_RETRIEVAL * Base(c.score, low, high) + Lexical(lower, query, c.item.text)
  }

  function Rescored(lower: string -> string, query: string, cs: seq<ScoredChunk>, low: real, high: real): seq<ScoredChunk> {
    seq(|cs|, i requires 0 <= i < |cs| => Scored(cs[i].item, Final(lower, query, cs[i], low, high)))
  }

  function Take(cs: seq<ScoredChunk>, n: nat): seq<ScoredChunk> {
    if n <= |cs| then cs[..n] else cs
  }

  function Reranked(lower: string -> string, query: string, cs: seq<ScoredChunk>, topK: nat): seq<ScoredChunk> {
    if cs == [] then []
    else Take(SortDescending(Rescored(lower, query, cs, Lowest(cs), Highest(cs))), topK)
  }

  /** `LexicalReranker.rerank`. */
  method Rerank(lower: string -> string, query: string, cs: seq<ScoredChunk>, topK: nat) returns (r: seq<ScoredChunk>)
    ensures r == Reranked(lower, query, cs, topK)
  {
    if cs == [] {
      return [];
    }
    var queryTokens := TokenSet(lower(query));
    var normalizedQuery := Normalize(lower, query);
    var low, high := Lowest(cs), Highest(cs);
    var reranked: seq<ScoredChunk> := [];
    for i := 0 to |cs|
      invariant reranked == Rescored(lower, query, cs[..i], low, high)
    {
      var base := Base(cs[i].score, low, high);
      var coverage := Coverage(queryTokens, TokenSet(lower(cs[i].item.text)));
      var phrase := if Contains(lower(cs[i].item.text), normalizedQuery) then 1.0 else 0.0;
      var final := W_RETRIEVAL * base + W_COVERAGE * coverage + W_PHRASE * phrase;
      assert final == Final(lower, query, cs[i], low, high);
      RescoredStep(lower, query, cs, i, low, high);
      reranked := reranked + [Scored(cs[i].item, final)];
    }
    assert cs[..|cs|] == cs;
    reranked := SortDescending(reranked);
    r := Take(reranked, topK);
  }

  lemma {:induction false} RescoredStep(lower: string -> string, query: string, cs: seq<ScoredChunk>, i: nat, low: real, high: real)
    requires i < |cs|
    ensures Rescored(lower, query, cs[..i + 1], low, high)
         == Rescored(lower, query, cs[..i], low, high) + [Scored(cs[i].item, Final(lower, query, cs[i], low, high))]
  {
  }

  // ---- An exact stable top-k ----

  lemma {:induction false} Bounds(cs: seq<ScoredChunk>, i: nat)
    requires i < |cs|
    ensures Lowest(cs) <= cs[i].score <= Highest(cs)
  {
    if |cs| > 1 {
      var n := |cs| - 1;
      Bounds(cs[..n], if i < n then i else 0);
    }
  }

  lemma {:induction false} BaseInUnit(score: real, low: real, high: real)
    requires low <= score <= high
    ensures 0.0 <= Base(score, low, high) <= 1.0
  {
    if high - low != 0.0 {
      QuotientInUnit(score - low, high - low);
    }
  }

  lemma {:induction false} QuotientInUnit(a: real, b: real)
    requires 0.0 <= a <= b && b > 0.0
    ensures 0.0 <= a / b <= 1.0
  {
  }

  lemma {:induction false} CoverageInUnit(query: set<string>, chunk: set<string>)
    ensures 0.0 <= Coverage(query, chunk) <= 1.0
  {
    if query != {} {
      SubsetSize(query * chunk, query);
      QuotientInUnit(|query * chunk| as real, |query| as real);
    }
  }

  lemma {:induction false} SubsetSize(a: set<string>, b: set<string>)
    requires a <= b
    ensures |a| <= |b|
  {
    assert b == a + (b - a);
  }

  /** The best and the rest of a stable descending rearrangement of the rescored candidates. */
  ghost predicate IsTopK(rescored: seq<ScoredChunk>, kept: seq<ScoredChunk>, dropped: seq<ScoredChunk>, topK: nat) {
    && SortsStably(rescored, kept + dropped)
    && multiset(kept + dropped) == multiset(rescored)
    && |kept| == (if topK <= |rescored| then topK else |rescored|)
    && (forall i, j :: 0 <= i < |kept| && 0 <= j < |dropped| ==> kept[i].score >= dropped[j].score)
  }

  /** Every score is in [0, 1] and every candidate is unchanged but for its score. */
  ghost predicate Rescores(cs: seq<ScoredChunk>, rescored: seq<ScoredChunk>) {
    |rescored| == |cs| && forall i :: 0 <= i < |cs| ==> rescored[i].item == cs[i].item && 0.0 <= rescored[i].score <= 1.0
  }

  /** The candidates with the reranker's own scores: 0.3 of the retrieval score scaled between the
      lowest and the highest, 0.6 of the coverage and 0.1 for the phrase. */
  function AllRescored(lower: string -> string, query: string, cs: seq<ScoredChunk>): seq<ScoredChunk> {
    if cs == [] then [] else Rescored(lower, query, cs, Lowest(cs), Highest(cs))
  }

  ghost predicate IsTopKOf(rescored: seq<ScoredChunk>, kept: seq<ScoredChunk>, topK: nat) {
    exists dropped :: IsTopK(rescored, kept, dropped, topK)
  }

  /** The scores are in [0, 1] and go with unchanged candidates, and reranking keeps exactly the
      best min(top_k, n) of them, in descending order with ties in input order, so that nothing
      dropped scores above anything kept. */
  lemma {:induction false} RerankIsStableTopK(lower: string -> string, query: string, cs: seq<ScoredChunk>, topK: nat)
    ensures Rescores(cs, AllRescored(lower, query, cs))
    ensures IsTopKOf(AllRescored(lower, query, cs), Reranked(lower, query, cs, topK), topK)
  {
    var rescored := AllRescored(lower, query, cs);
    if cs == [] {
      assert IsTopK(rescored, [], [], topK);
    } else {
      RescoredInUnit(lower, query, cs);
      TakeIsTopK(rescored, topK);
    }
  }

  /** A list is the result of reranking if and only if it is the stable top-k of the candidates
      under the reranker's scores. */
  lemma {:induction false} RerankExactlyWhen(lower: string -> string, query: string, cs: seq<ScoredChunk>, topK: nat,
                                             r: seq<ScoredChunk>)
    ensures r == Reranked(lower, query, cs, topK) <==> IsTopKOf(AllRescored(lower, query, cs), r, topK)
  {
    var rescored, reranked := AllRescored(lower, query, cs), Reranked(lower, query, cs, topK);
    RerankIsStableTopK(lower, query, cs, topK);
    if IsTopKOf(rescored, r, topK) {
      var d1 :| IsTopK(rescored, r, d1, topK);
      var d2 :| IsTopK(rescored, reranked, d2, topK);
      TopKIsUnique(rescored, r, d1, reranked, d2, topK);
    }
  }

  lemma {:induction false} RescoredInUnit(lower: string -> string, query: string, cs: seq<ScoredChunk>)
    requires cs != []
    ensures Rescores(cs, Rescored(lower, query, cs, Lowest(cs), Highest(cs)))
  {
    var rescored := Rescored(lower, query, cs, Lowest(cs), Highest(cs));
    forall i | 0 <= i < |cs| ensures rescored[i].item == cs[i].item && 0.0 <= rescored[i].score <= 1.0 {
      Bounds(cs, i);
      FinalInUnit(lower, query, cs[i], Lowest(cs), Highest(cs));
    }
  }

  lemma {:induction false} FinalInUnit(lower: string -> string, query: string, c: ScoredChunk, low: real, high: real)
    requires low <= c.score <= high
    ensures 0.0 <= Final(lower, query, c, low, high) <= 1.0
  {
    BaseInUnit(c.score, low, high);
    LexicalBounded(lower, query, c.item.text);
  }

  lemma {:induction false} LexicalBounded(lower: string -> string, query: string, text: string)
    ensures 0.0 <= Lexical(lower, query, text) <= W_COVERAGE + W_PHRASE
  {
    CoverageInUnit(TokenSet(lower(query)), TokenSet(lower(text)));
  }

  lemma {:induction false} TakeIsTopK(rescored: seq<ScoredChunk>, topK: nat)
    ensures IsTopKOf(rescored, Take(SortDescending(rescored), topK), topK)
  {
    var sorted := SortDescending(rescored);
    SortIsStable(rescored);
    var kept := Take(sorted, topK);
    var dropped := sorted[|kept|..];
    assert kept + dropped == sorted;
    assert IsTopK(rescored, kept, dropped, topK);
  }

  /** The kept part of a top-k is determined by the rescored candidates. */
  lemma {:induction false} TopKIsUnique(rescored: seq<ScoredChunk>, k1: seq<ScoredChunk>, d1: seq<ScoredChunk>,
                                        k2: seq<ScoredChunk>, d2: seq<ScoredChunk>, topK: nat)
    requires IsTopK(rescored, k1, d1, topK) && IsTopK(rescored, k2, d2, topK)
    ensures k1 == k2
  {
    StableSortIsUnique(k1 + d1, k2 + d2);
    assert k1 == (k1 + d1)[..|k1|] && k2 == (k2 + d2)[..|k2|];
  }

  // ---- Independence of the scale of retrieval scores ----

  function Affine(x: real, a: real, b: real): real {
    a * x + b
  }

  function Scaled(c: ScoredChunk, a: real, b: real): ScoredChunk {
    Scored(c.item, Affine(c.score, a, b))
  }

  function Rescaled(cs: seq<ScoredChunk>, a: real, b: real): seq<ScoredChunk> {
    seq(|cs|, i requires 0 <= i < |cs| => Scaled(cs[i], a, b))
  }

  lemma {:induction false} RescaledInit(cs: seq<ScoredChunk>, a: real, b: real)
    requires cs != []
    ensures Rescaled(cs, a, b)[..|cs| - 1] == Rescaled(cs[..|cs| - 1], a, b)
  {
  }

  lemma {:induction false} LowestRescales(cs: seq<ScoredChunk>, a: real, b: real)
    requires cs != [] && a > 0.0
    ensures Lowest(Rescaled(cs, a, b)) == Affine(Lowest(cs), a, b)
  {
    if |cs| > 1 {
      var n := |cs| - 1;
      LowestRescales(cs[..n], a, b);
      RescaledInit(cs, a, b);
      AffineKeepsOrder(cs[n].score, Lowest(cs[..n]), a, b);
    }
  }

  lemma {:induction false} HighestRescales(cs: seq<ScoredChunk>, a: real, b: real)
    requires cs != [] && a > 0.0
    ensures Highest(Rescaled(cs, a, b)) == Affine(Highest(cs), a, b)
  {
    if |cs| > 1 {
      var n := |cs| - 1;
      HighestRescales(cs[..n], a, b);
      RescaledInit(cs, a, b);
      AffineKeepsOrder(Highest(cs[..n]), cs[n].score, a, b);
    }
  }

  lemma {:induction false} AffineKeepsOrder(x: real, y: real, a: real, b: real)
    requires a > 0.0
    ensures Affine(x, a, b) < Affine(y, a, b) <==> x < y
  {
    assert a * y - a * x == a * (y - x);
  }

  lemma {:induction false} BaseRescales(score: real, low: real, high: real, a: real, b: real)
    requires a > 0.0
    ensures Base(Affine(score, a, b), Affine(low, a, b), Affine(high, a, b)) == Base(score, low, high)
  {
    var span := high - low;
    assert Affine(high, a, b) - Affine(low, a, b) == a * span;
    assert Affine(score, a, b) - Affine(low, a, b) == a * (score - low);
    if span != 0.0 {
      CancelFactor(score - low, span, a);
    }
  }

  lemma {:induction false} CancelFactor(x: real, y: real, a: real)
    requires a > 0.0 && y != 0.0
    ensures a * y != 0.0 && (a * x) / (a * y) == x / y
  {
    assert (x / y) * y == x;
    assert a * x == (x / y) * (a * y);
  }

  /** Retrieval scores matter only up to scale: a positive affine change of all of them leaves the
      whole result as it is. */
  lemma {:induction false} RerankIgnoresScale(lower: string -> string, query: string, cs: seq<ScoredChunk>, topK: nat, a: real, b: real)
    requires a > 0.0
    ensures Reranked(lower, query, Rescaled(cs, a, b), topK) == Reranked(lower, query, cs, topK)
  {
    if cs != [] {
      LowestRescales(cs, a, b);
      HighestRescales(cs, a, b);
      RescoredRescales(lower, query, cs, Lowest(cs), Highest(cs), a, b);
      assert Rescaled(cs, a, b) != [];
    }
  }

  lemma {:induction false} FinalRescales(lower: string -> string, query: string, c: ScoredChunk, low: real, high: real, a: real, b: real)
    requires a > 0.0
    ensures Final(lower, query, Scaled(c, a, b), Affine(low, a, b), Affine(high, a, b)) == Final(lower, query, c, low, high)
  {
    BaseRescales(c.score, low, high, a, b);
  }

  lemma {:induction false} RescoredRescales(lower: string -> string, query: string, cs: seq<ScoredChunk>,
                                            low: real, high: real, a: real, b: real)
    requires a > 0.0
    ensures Rescored(lower, query, Rescaled(cs, a, b), Affine(low, a, b), Affine(high, a, b))
         == Rescored(lower, query, cs, low, high)
  {
    forall i | 0 <= i < |cs|
      ensures Final(lower, query, Rescaled(cs, a, b)[i], Affine(low, a, b), Affine(high, a, b))
           == Final(lower, query, cs[i], low, high)
    {
      FinalRescales(lower, query, cs[i], low, high, a, b);
    }
  }

  // ---- Dependence on the query ----

  /** Reranking sees the query only through its normalized form. */
  lemma {:induction false} RerankNormalizes(lower: string -> string, q1: string, q2: string, cs: seq<ScoredChunk>, topK: nat)
    requires Normalize(lower, q1) == Normalize(lower, q2)
    ensures Reranked(lower, q1, cs, topK) == Reranked(lower, q2, cs, topK)
  {
    TokensOfNormalized(lower, q1, q2);
    if cs != [] {
      var low, high := Lowest(cs), Highest(cs);
      forall i | 0 <= i < |cs| ensures Final(lower, q1, cs[i], low, high) == Final(lower, q2, cs[i], low, high) {
      }
      assert Rescored(lower, q1, cs, low, high) == Rescored(lower, q2, cs, low, high);
    }
  }

  // ---- What is kept ----

  /** What is kept is among the candidates, each at most once if they are different. */
  lemma {:induction false} KeptAreCandidates(lower: string -> string, query: string, cs: seq<ScoredChunk>, topK: nat)
    ensures var r := Reranked(lower, query, cs, topK);
            && |r| == (if topK <= |cs| then topK else |cs|)
            && forall i :: 0 <= i < |r| ==> IsCandidate(cs, r[i].item)
  {
    if cs != [] {
      var rescored, r := Rescored(lower, query, cs, Lowest(cs), Highest(cs)), Reranked(lower, query, cs, topK);
      SortPermutes(rescored);
      forall i | 0 <= i < |r| ensures IsCandidate(cs, r[i].item) {
        assert SortDescending(rescored)[i] in multiset(SortDescending(rescored));
        var j :| 0 <= j < |rescored| && rescored[j] == r[i];
        assert cs[j].item == r[i].item;
      }
    }
  }

  ghost predicate IsCandidate(cs: seq<ScoredChunk>, item: Candidate) {
    exists j :: 0 <= j < |cs| && cs[j].item == item
  }

  // ---- What the scores reward ----

  /** The lowest and the highest retrieval score are those of candidates. */
  lemma {:induction false} RangeIsAttained(cs: seq<ScoredChunk>)
    requires cs != []
    ensures exists i :: 0 <= i < |cs| && cs[i].score == Lowest(cs)
    ensures exists i :: 0 <= i < |cs| && cs[i].score == Highest(cs)
  {
    var n := |cs| - 1;
    if n > 0 {
      RangeIsAttained(cs[..n]);
      var i :| 0 <= i < n && cs[..n][i].score == Lowest(cs[..n]);
      var j :| 0 <= j < n && cs[..n][j].score == Highest(cs[..n]);
      assert cs[i].score == Lowest(cs[..n]) && cs[j].score == Highest(cs[..n]);
    }
    assert cs[n].score == Lowest(cs) || n > 0;
    assert cs[n].score == Highest(cs) || n > 0;
  }

  predicate HasTokens(lower: string -> string, query: string) {
    Tokens(lower(query)) != []
  }

  /** How many different tokens of the query occur in the text. */
  function Found(lower: string -> string, query: string, text: string): nat {
    |set t | t in Tokens(lower(query)) && t in Tokens(lower(text))|
  }

  predicate AllFound(lower: string -> string, query: string, text: string) {
    forall t :: t in Tokens(lower(query)) ==> t in Tokens(lower(text))
  }

  predicate NoneFound(lower: string -> string, query: string, text: string) {
    forall t :: t in Tokens(lower(query)) ==> t !in Tokens(lower(text))
  }

  predicate HasPhrase(lower: string -> string, query: string, text: string) {
    exists i :: 0 <= i <= |lower(text)| && OccursAt(lower(text), Normalize(lower, query), i)
  }

  lemma {:induction false} FoundIsCommon(lower: string -> string, query: string, text: string)
    ensures Found(lower, query, text) == |TokenSet(lower(query)) * TokenSet(lower(text))|
  {
    assert (set t | t in Tokens(lower(query)) && t in Tokens(lower(text))) == TokenSet(lower(query)) * TokenSet(lower(text));
  }

  lemma {:induction false} QueryHasTokens(lower: string -> string, query: string)
    requires HasTokens(lower, query)
    ensures |TokenSet(lower(query))| >= 1
  {
    assert Tokens(lower(query))[0] in TokenSet(lower(query));
  }

  lemma {:induction false} QuotientsCompare(a: real, b: real, d: real)
    requires d > 0.0
    ensures a < b <==> a / d < b / d
    ensures a == 0.0 <==> a / d == 0.0
    ensures a == d <==> a / d == 1.0
  {
    assert (a / d) * d == a && (b / d) * d == b;
  }

  /** The three parts of a score; the first is nothing if all retrieval scores are the same, and the
      second if the query has no tokens. */
  lemma {:induction false} ScoreParts(lower: string -> string, query: string, c: ScoredChunk, low: real, high: real)
    ensures HasTokens(lower, query) <==> TokenSet(lower(query)) != {}
    ensures Final(lower, query, c, low, high)
         == (if low == high then 0.0 else 0.3 * ((c.score - low) / (high - low)))
            + (if HasTokens(lower, query) then 0.6 * (Found(lower, query, c.item.text) as real / |TokenSet(lower(query))| as real)
               else 0.0)
            + (if HasPhrase(lower, query, c.item.text) then 0.1 else 0.0)
  {
    if HasTokens(lower, query) {
      QueryHasTokens(lower, query);
    }
    FoundIsCommon(lower, query, c.item.text);
  }

  /** Other things being equal, a higher retrieval score and each further token of the query make
      the score higher, and the phrase adds a tenth. */
  lemma {:induction false} ScoreRises(lower: string -> string, query: string, a: ScoredChunk, b: ScoredChunk, low: real, high: real)
    requires low < high && HasTokens(lower, query)
    ensures var fa, fb := Found(lower, query, a.item.text), Found(lower, query, b.item.text);
            var pa, pb := HasPhrase(lower, query, a.item.text), HasPhrase(lower, query, b.item.text);
            var sa, sb := Final(lower, query, a, low, high), Final(lower, query, b, low, high);
            && (fa == fb && pa == pb ==> (sa < sb <==> a.score < b.score))
            && (a.score == b.score && pa == pb ==> (sa < sb <==> fa < fb))
            && (a.score == b.score && fa == fb && !pa && pb ==> sb == sa + 0.1)
  {
    hide Final, Found, HasPhrase;
    ScoreParts(lower, query, a, low, high);
    ScoreParts(lower, query, b, low, high);
    QuotientsCompare(a.score - low, b.score - low, high - low);
    var n := |TokenSet(lower(query))|;
    QueryHasTokens(lower, query);
    var fa, fb := Found(lower, query, a.item.text), Found(lower, query, b.item.text);
    QuotientsCompare(fa as real, fb as real, n as real);
    QuotientsCompare(fb as real, fa as real, n as real);
    QuotientsCompare(b.score - low, a.score - low, high - low);
  }

  lemma {:induction false} FoundExtremes(lower: string -> string, query: string, text: string)
    ensures Found(lower, query, text) <= |TokenSet(lower(query))|
    ensures Found(lower, query, text) == |TokenSet(lower(query))| <==> AllFound(lower, query, text)
    ensures Found(lower, query, text) == 0 <==> NoneFound(lower, query, text)
  {
    var wanted := TokenSet(lower(query));
    var found := set t | t in Tokens(lower(query)) && t in Tokens(lower(text));
    SubsetSize(found, wanted);
    if |found| == |wanted| {
      assert wanted == found + (wanted - found);
      assert |wanted - found| == 0;
      forall t | t in Tokens(lower(query)) ensures t in Tokens(lower(text)) {
        assert t in wanted && t !in wanted - found;
      }
    }
    if AllFound(lower, query, text) {
      assert found == wanted;
    }
    if |found| == 0 {
      forall t | t in Tokens(lower(query)) ensures t !in Tokens(lower(text)) {
        assert t !in found;
      }
    }
    if NoneFound(lower, query, text) {
      assert found == {};
    }
  }

  /** A score is 1 exactly for the best retrieval score, all tokens of the query and the phrase, and
      0 exactly for the worst one, no token and no phrase. All tokens always beat none. */
  lemma {:induction false} ScoreExtremes(lower: string -> string, query: string, c: ScoredChunk, low: real, high: real)
    requires low < high && HasTokens(lower, query) && low <= c.score <= high
    ensures var score, text := Final(lower, query, c, low, high), c.item.text;
            && (score == 1.0 <==> c.score == high && AllFound(lower, query, text) && HasPhrase(lower, query, text))
            && (score == 0.0 <==> c.score == low && NoneFound(lower, query, text) && !HasPhrase(lower, query, text))
            && (AllFound(lower, query, text) ==> score >= 0.6)
            && (NoneFound(lower, query, text) ==> score <= 0.4)
  {
    hide Final, Found, HasPhrase, AllFound, NoneFound;
    ScoreParts(lower, query, c, low, high);
    FoundExtremes(lower, query, c.item.text);
    QueryHasTokens(lower, query);
    var found, n := Found(lower, query, c.item.text), |TokenSet(lower(query))|;
    QuotientInUnit(c.score - low, high - low);
    QuotientsCompare(c.score - low, c.score - low, high - low);
    QuotientInUnit(found as real, n as real);
    QuotientsCompare(found as real, found as real, n as real);
  }
}

/** Answers stay within the tenant and the collection that were asked for. */
module SearchScope {
  import opened Wrappers
  import opened Reranker
  import opened Retriever
  import opened Search
  import opened SearchRuns

  /** Where a chunk belongs. */
  datatype Owner = Owner(tenant: int, collection: int)

  predicate InScope(owner: int -> Owner, chunk: int, tenant: int, collection: Option<int>) {
    owner(chunk).tenant == tenant && (collection.Some? ==> owner(chunk).collection == collection.value)
  }

  /** What the WHERE clauses of the two queries say: an arm that is asked for a tenant and a
      collection returns no chunk of another one. */
  ghost predicate ArmsAreScoped(e: Engine, owner: int -> Owner) {
    && (forall c, tenant, collection, embedding, n, row :: row in e.vectorArm(c, tenant, collection, embedding, n) ==>
          InScope(owner, row.id, tenant, collection))
    && (forall c, tenant, collection, text, n, row :: row in e.keywordArm(c, tenant, collection, text, n) ==>
          InScope(owner, row.id, tenant, collection))
  }

  ghost predicate AllInScope(owner: int -> Owner, results: seq<ScoredChunk>, tenant: int, collection: Option<int>) {
    forall i :: 0 <= i < |results| ==> InScope(owner, results[i].item.chunk, tenant, collection)
  }

  lemma {:induction false} PoolInScope(e: Engine, owner: int -> Owner, vector: seq<Row>, keyword: seq<Row>, i: nat,
                                       tenant: int, collection: Option<int>)
    requires forall row :: row in vector || row in keyword ==> InScope(owner, row.id, tenant, collection)
    requires i < |Retrieved(vector, keyword, e.poolSize)|
    ensures InScope(owner, Retrieved(vector, keyword, e.poolSize)[i].item.chunk, tenant, collection)
  {
    hide Retrieved, IsLastRow, Outranks, FusedScore;
    var id := Retrieved(vector, keyword, e.poolSize)[i].item.chunk;
    RetrievedIsPool(vector, keyword, e.poolSize);
    assert id in AllIds(vector, keyword);
  }

  lemma {:induction false} LiveStaysInScope(e: Engine, owner: int -> Owner, c1: Corpus, c2: Corpus, tenant: int, q: Query)
    requires e.model.Valid() && ArmsAreScoped(e, owner)
    ensures AllInScope(owner, e.Live(c1, c2, tenant, q), tenant, q.collection)
    ensures |e.Live(c1, c2, tenant, q)| <= q.topK
  {
    hide Retrieved, Reranked, InScope;
    var vector, keyword := e.Vector(c1, tenant, q), e.Keyword(c2, tenant, q);
    var pool := Retrieved(vector, keyword, e.poolSize);
    KeptAreCandidates(e.model.lower, q.text, pool, q.topK);
    var r := e.Live(c1, c2, tenant, q);
    forall i | 0 <= i < |r| ensures InScope(owner, r[i].item.chunk, tenant, q.collection) {
      var j :| 0 <= j < |pool| && pool[j].item == r[i].item;
      PoolInScope(e, owner, vector, keyword, j, tenant, q.collection);
    }
  }

  /** Every answer of every run, from the cache or not, has only chunks of the tenant it is given to
      and, with a filter, of the collection asked for, and at most `topK` of them. */
  lemma {:induction false} AnswersStayInScope(e: Engine, owner: int -> Owner, states: seq<State>, steps: seq<Step>, n: nat, id: int)
    requires IsRun(e, states, steps) && ArmsAreScoped(e, owner) && n < |states| && id in states[n].answers
    ensures var answer := states[n].answers[id];
            && AllInScope(owner, answer.results, answer.tenant, answer.query.collection)
            && |answer.results| <= answer.query.topK
  {
    hide AllInScope, AnsweredBy, Ran, ArmsAreScoped;
    if id in states[n - 1].answers {
      AnswersStay(e, states, steps, n - 1, id);
      AnswersStayInScope(e, owner, states, steps, n - 1, id);
    } else {
      RunKeepsInv(e, states, steps, n - 1);
      var x := Answerer(e, states, steps, n - 1, id);
      var answer := states[n].answers[id];
      AnswerIsLive(e, states, steps, n - 1, id, x);
      LiveStaysInScope(e, owner, states[x.vector].corpus, states[x.keyword].corpus, answer.tenant, answer.query);
    }
  }

  lemma {:induction false} AnswerIsLive(e: Engine, states: seq<State>, steps: seq<Step>, n: nat, id: int, x: Course)
    requires e.model.Valid() && AnsweredBy(e, states, steps, n, id, x)
    ensures x.vector < |states| && x.keyword < |states| && id in states[n + 1].answers
    ensures var answer := states[n + 1].answers[id];
            answer.results == e.Live(states[x.vector].corpus, states[x.keyword].corpus, answer.tenant, answer.query)
  {
  }

  /** No search is running that has been answered. */
  ghost predicate Apart(s: State) {
    forall id :: id in s.running ==> id !in s.answers
  }

  lemma {:induction false} ApartStep(e: Engine, s: State, step: Step)
    requires e.model.Valid() && Enabled(s, step) && Apart(s)
    ensures Apart(Apply(e, s, step))
    ensures forall id :: id in s.answers ==> id in Apply(e, s, step).answers && Apply(e, s, step).answers[id] == s.answers[id]
  {
    match step
    case Change(_) =>
    case Tick(_) =>
    case Drop(_) =>
    case Ask(_, _, _) =>
    case AskInVain(_, _, _) =>
    case ReadVector(_) =>
    case ReadKeyword(_) =>
    case Finish(_, _) =>
    case Abandon(_) =>
  }

  lemma {:induction false} RunIsApart(e: Engine, states: seq<State>, steps: seq<Step>, n: nat)
    requires IsRun(e, states, steps) && n < |states|
    ensures Apart(states[n])
  {
    hide Apply, Enabled;
    if n > 0 {
      RunIsApart(e, states, steps, n - 1);
      ApartStep(e, states[n - 1], steps[n - 1]);
    }
  }

  /** An answer is never changed. */
  lemma {:induction false} AnswersStay(e: Engine, states: seq<State>, steps: seq<Step>, n: nat, id: int)
    requires IsRun(e, states, steps) && n < |steps| && id in states[n].answers
    ensures id in states[n + 1].answers && states[n + 1].answers[id] == states[n].answers[id]
  {
    hide Apply, Enabled;
    StepOf(e, states, steps, n);
    RunIsApart(e, states, steps, n);
    ApartStep(e, states[n], steps[n]);
  }
}

/** The search use case and its cache. */
module Search {
  import opened Wrappers
  import opened Text
  import opened Tokenizer
  import opened Reranker
  import opened Retriever
  import opened CacheKeys
  import H = HashingEmbedding

  // ---- Queries ----

  const MAX_TOP_K := 50

  datatype Query = Query(text: string, topK: nat, collection: Option<int>)

  datatype QueryError = EmptyText | TopKOutOfRange

  /** The validations of `SearchQuery`. */
  function MakeQuery(text: string, topK: int, collection: Option<int>): (r: Result<Query, QueryError>)
    ensures r.Ok? <==> !Blank(text) && 1 <= topK <= MAX_TOP_K
    ensures r.Ok? ==> r.value == Query(text, topK, collection)
  {
    StripBlank(text);
    if Strip(text) == "" then Err(EmptyText)
    else if topK < 1 || topK > MAX_TOP_K then Err(TopKOutOfRange)
    else Ok(Query(text, topK, collection))
  }

  // ---- The live pipeline ----

  /** A name for a state of the chunks table. */
  type Corpus = int

  /** The components of a search. The two queries that the database answers are functions of the
      state of the chunks table that they see. */
  datatype Engine = Engine(
    model: H.Model,
    uuid: int -> string,
    vectorArm: (Corpus, int, Option<int>, seq<real>, nat) -> seq<Row>,
    keywordArm: (Corpus, int, Option<int>, string, nat) -> seq<Row>,
    poolSize: nat,
    ttl: int)
  {
    /** What is assumed of them: the full-text query depends on the query's words only. */
    ghost predicate Valid() {
      && model.Valid() && IsUuidText(uuid)
      && (forall c, tenant, collection, q1, q2, n :: Normalize(model.lower, q1) == Normalize(model.lower, q2) ==>
            keywordArm(c, tenant, collection, q1, n) == keywordArm(c, tenant, collection, q2, n))
    }

    function Key(tenant: int, q: Query): CacheKey {
      BuildCacheKey(uuid, model.lower, tenant, q.collection, q.text, q.topK)
    }

    function Vector(c: Corpus, tenant: int, q: Query): seq<Row>
      requires model.Valid()
    {
      vectorArm(c, tenant, q.collection, H.Embed(model, q.text), poolSize)
    }

    function Keyword(c: Corpus, tenant: int, q: Query): seq<Row> {
      keywordArm(c, tenant, q.collection, q.text, poolSize)
    }

    function Ranked(q: Query, vector: seq<Row>, keyword: seq<Row>): seq<ScoredChunk> {
      Reranked(model.lower, q.text, Retrieved(vector, keyword, poolSize), q.topK)
    }

    /** The answer without a cache. The two queries are two statements, which under READ COMMITTED
        may see two states of the table. */
    function Live(c1: Corpus, c2: Corpus, tenant: int, q: Query): seq<ScoredChunk>
      requires model.Valid()
    {
      Ranked(q, Vector(c1, tenant, q), Keyword(c2, tenant, q))
    }
  }

  /** Searches that share a cache entry have the same live answer. */
  lemma {:induction false} SharedKeysAgree(e: Engine, c1: Corpus, c2: Corpus, tenant1: int, q1: Query, tenant2: int, q2: Query)
    requires e.Valid() && e.Key(tenant1, q1) == e.Key(tenant2, q2)
    ensures e.Live(c1, c2, tenant1, q1) == e.Live(c1, c2, tenant2, q2)
  {
    KeysAreExact(e.uuid, e.model.lower, tenant1, q1.collection, q1.text, q1.topK, tenant2, q2.collection, q2.text, q2.topK);
    H.EmbeddingNormalizes(e.model, q1.text, q2.text);
    assert e.Vector(c1, tenant1, q1) == e.Vector(c1, tenant2, q2);
    assert e.Keyword(c2, tenant1, q1) == e.Keyword(c2, tenant2, q2);
    RerankNormalizes(e.model.lower, q1.text, q2.text,
                     Retrieved(e.Vector(c1, tenant1, q1), e.Keyword(c2, tenant1, q1), e.poolSize), q1.topK);
  }

  // ---- The in-memory cache ----

  datatype Entry = Entry(expiresAt: int, results: seq<ScoredChunk>)

  type Store = map<CacheKey, Entry>

  predicate Fresh(store: Store, key: CacheKey, now: int) {
    key in store && now <= store[key].expiresAt
  }

  function AfterGet(store: Store, key: CacheKey, now: int): Store {
    if key in store && !Fresh(store, key, now) then store - {key} else store
  }

  class InMemorySearchCache {
    var store: Store

    constructor ()
      ensures store == map[]
    {
      store := map[];
    }

    method Get(key: CacheKey, now: int) returns (r: Option<seq<ScoredChunk>>)
      modifies this
      ensures r.Some? <==> Fresh(old(store), key, now)
      ensures r.Some? ==> r.value == old(store)[key].results
      ensures store == AfterGet(old(store), key, now)
    {
      if key !in store {
        return None;
      }
      var entry := store[key];
      if entry.expiresAt < now {
        store := store - {key};
        return None;
      }
      return Some(entry.results);
    }

    method Set(key: CacheKey, results: seq<ScoredChunk>, ttl: int, now: int)
      modifies this
      ensures store == old(store)[key := Entry(now + ttl, results)]
    {
      store := store[key := Entry(now + ttl, results)];
    }
  }

  /** `SearchHandler.handle`, with the clock readings and the states of the chunks table that it
      meets on its way. */
  method Handle(e: Engine, cache: InMemorySearchCache, tenant: int, q: Query,
                now: int, c1: Corpus, c2: Corpus, later: int) returns (r: seq<ScoredChunk>)
    requires e.model.Valid()
    modifies cache
    ensures var key := e.Key(tenant, q);
            if Fresh(old(cache.store), key, now) then r == old(cache.store)[key].results && cache.store == old(cache.store)
            else r == e.Live(c1, c2, tenant, q) && cache.store == AfterGet(old(cache.store), key, now)[key := Entry(later + e.ttl, r)]
    ensures !Fresh(old(cache.store), e.Key(tenant, q), now) ==>
              var vector := e.vectorArm(c1, tenant, q.collection, H.Embed(e.model, q.text), e.poolSize);
              var keyword := e.keywordArm(c2, tenant, q.collection, q.text, e.poolSize);
              exists pool :: IsPool(vector, keyword, e.poolSize, pool)
                          && IsTopKOf(AllRescored(e.model.lower, q.text, pool), r, q.topK)
  {
    hide Retrieved, Reranked, IsPool, IsTopKOf, AllRescored;
    var key := BuildCacheKey(e.uuid, e.model.lower, tenant, q.collection, q.text, q.topK);
    var cached := cache.Get(key, now);
    if cached.Some? {
      return cached.value;
    }
    var embedding := H.EmbedOne(e.model, q.text);
    var vector := e.vectorArm(c1, tenant, q.collection, embedding, e.poolSize);
    var keyword := e.keywordArm(c2, tenant, q.collection, q.text, e.poolSize);
    var candidates := Retrieve(vector, keyword, e.poolSize);
    r := Rerank(e.model.lower, q.text, candidates, q.topK);
    RerankIsStableTopK(e.model.lower, q.text, candidates, q.topK);
    cache.Set(key, r, e.ttl, later);
  }
}

/** Any number of searches at a time over a corpus that changes and a cache that may lose entries. */
module SearchRuns {
  import opened Wrappers
  import opened Reranker
  import opened Retriever
  import opened CacheKeys
  import opened Search

  /** Where a search that missed the cache is. */
  datatype Running =
    | Missed(tenant: int, query: Query)
    | VectorRead(tenant: int, query: Query, vector: seq<Row>)
    | BothRead(tenant: int, query: Query, vector: seq<Row>, keyword: seq<Row>)

  datatype Answer = Answer(tenant: int, query: Query, results: seq<ScoredChunk>)

  datatype State = State(corpus: Corpus, clock: int, store: Store, running: map<int, Running>, answers: map<int, Answer>)

  datatype Step =
    | Change(corpus: Corpus)                        // any transaction on the chunks table
    | Tick(now: int)
    | Drop(key: CacheKey)                           // an entry is evicted
    | Ask(id: int, tenant: int, query: Query)       // the cache is consulted
    | AskInVain(id: int, tenant: int, query: Query) // the cache cannot be reached, which counts as a miss
    | ReadVector(id: int)
    | ReadKeyword(id: int)
    | Finish(id: int, stored: bool)                 // ranked, and stored unless the cache cannot be reached
    | Abandon(id: int)                              // an exception or a crash

  predicate Enabled(s: State, step: Step) {
    match step
    case Change(_) => true
    case Tick(now) => now >= s.clock
    case Drop(_) => true
    case Ask(id, _, _) => id !in s.running && id !in s.answers
    case AskInVain(id, _, _) => id !in s.running && id !in s.answers
    case ReadVector(id) => id in s.running && s.running[id].Missed?
    case ReadKeyword(id) => id in s.running && s.running[id].VectorRead?
    case Finish(id, _) => id in s.running && s.running[id].BothRead?
    case Abandon(id) => id in s.running
  }

  function Apply(e: Engine, s: State, step: Step): State
    requires e.model.Valid() && Enabled(s, step)
  {
    match step
    case Change(corpus) => s.(corpus := corpus)
    case Tick(now) => s.(clock := now)
    case Drop(key) => s.(store := s.store - {key})
    case Ask(id, tenant, q) =>
      var key := e.Key(tenant, q);
      if Fresh(s.store, key, s.clock) then s.(answers := s.answers[id := Answer(tenant, q, s.store[key].results)])
      else s.(store := AfterGet(s.store, key, s.clock), running := s.running[id := Missed(tenant, q)])
    case AskInVain(id, tenant, q) => s.(running := s.running[id := Missed(tenant, q)])
    case ReadVector(id) =>
      var Missed(tenant, q) := s.running[id];
      s.(running := s.running[id := VectorRead(tenant, q, e.Vector(s.corpus, tenant, q))])
    case ReadKeyword(id) =>
      var VectorRead(tenant, q, vector) := s.running[id];
      s.(running := s.running[id := BothRead(tenant, q, vector, e.Keyword(s.corpus, tenant, q))])
    case Finish(id, stored) =>
      var BothRead(tenant, q, vector, keyword) := s.running[id];
      var r := e.Ranked(q, vector, keyword);
      s.(store := if stored then s.store[e.Key(tenant, q) := Entry(s.clock + e.ttl, r)] else s.store,
         running := s.running - {id}, answers := s.answers[id := Answer(tenant, q, r)])
    case Abandon(id) => s.(running := s.running - {id})
  }

  /** A run from any corpus, with an empty cache. */
  ghost predicate IsRun(e: Engine, states: seq<State>, steps: seq<Step>) {
    && e.Valid()
    && |states| == |steps| + 1
    && states[0].store == map[] && states[0].running == map[] && states[0].answers == map[]
    && forall i :: 0 <= i < |steps| ==> Enabled(states[i], steps[i]) && states[i + 1] == Apply(e, states[i], steps[i])
  }

  // ---- The course of a search ----

  /** The steps of a run in which one search was asked, read the table twice and was finished. */
  datatype Course = Course(id: int, asked: nat, vector: nat, keyword: nat, finished: nat)

  predicate IsAsk(step: Step, id: int) {
    (step.Ask? || step.AskInVain?) && step.id == id
  }

  /** From one state to another the same search has been running. */
  ghost predicate InProgress(states: seq<State>, id: int, from: nat, to: nat) {
    to < |states| && forall i :: from < i <= to ==> id in states[i].running
  }

  /** A running search was asked at step `x.asked`, and what it has read is what the table gave at
      the steps `x.vector` and `x.keyword`. */
  ghost predicate Reading(e: Engine, states: seq<State>, steps: seq<Step>, n: nat, r: Running, x: Course)
    requires e.model.Valid()
  {
    && x.asked < n <= |steps| && n < |states| && IsAsk(steps[x.asked], x.id)
    && steps[x.asked].tenant == r.tenant && steps[x.asked].query == r.query
    && InProgress(states, x.id, x.asked, n)
    && (!r.Missed? ==> x.asked < x.vector < n && steps[x.vector] == ReadVector(x.id)
                       && r.vector == e.Vector(states[x.vector].corpus, r.tenant, r.query))
    && (r.BothRead? ==> x.vector < x.keyword < n && steps[x.keyword] == ReadKeyword(x.id)
                        && r.keyword == e.Keyword(states[x.keyword].corpus, r.tenant, r.query))
  }

  /** A search has run from its question to its answer. */
  ghost predicate Ran(states: seq<State>, steps: seq<Step>, x: Course) {
    && x.asked < x.vector < x.keyword < x.finished < |steps| < |states|
    && IsAsk(steps[x.asked], x.id) && steps[x.vector] == ReadVector(x.id) && steps[x.keyword] == ReadKeyword(x.id)
    && steps[x.finished].Finish? && steps[x.finished].id == x.id
    && InProgress(states, x.id, x.asked, x.finished)
  }

  /** The live answer to a query, computed from what the table was when a search read it. */
  function LiveFor(e: Engine, states: seq<State>, x: Course, tenant: int, q: Query): seq<ScoredChunk>
    requires e.model.Valid() && x.vector < |states| && x.keyword < |states|
  {
    e.Live(states[x.vector].corpus, states[x.keyword].corpus, tenant, q)
  }

  /** The entry was stored by a search that has run. */
  ghost predicate StoredBy(e: Engine, states: seq<State>, steps: seq<Step>, n: nat, key: CacheKey, entry: Entry, x: Course)
    requires e.model.Valid()
  {
    && Ran(states, steps, x) && x.finished < n && steps[x.finished] == Finish(x.id, true)
    && var tenant, q := steps[x.asked].tenant, steps[x.asked].query;
       key == e.Key(tenant, q)
       && entry == Entry(states[x.finished].clock + e.ttl, LiveFor(e, states, x, tenant, q))
  }

  ghost predicate EntryOk(e: Engine, states: seq<State>, steps: seq<Step>, n: nat, key: CacheKey, entry: Entry)
    requires e.model.Valid()
  {
    exists x :: StoredBy(e, states, steps, n, key, entry, x)
  }

  ghost predicate RunningOk(e: Engine, states: seq<State>, steps: seq<Step>, n: nat, id: int, r: Running)
    requires e.model.Valid()
  {
    exists x: Course :: x.id == id && Reading(e, states, steps, n, r, x)
  }

  ghost predicate StoreOk(e: Engine, states: seq<State>, steps: seq<Step>, n: nat, store: Store)
    requires e.model.Valid()
  {
    forall key :: key in store ==> EntryOk(e, states, steps, n, key, store[key])
  }

  ghost predicate SearchesOk(e: Engine, states: seq<State>, steps: seq<Step>, n: nat, running: map<int, Running>)
    requires e.model.Valid()
  {
    forall id :: id in running ==> RunningOk(e, states, steps, n, id, running[id])
  }

  ghost predicate Inv(e: Engine, states: seq<State>, steps: seq<Step>, n: nat)
    requires e.model.Valid() && n < |states|
  {
    StoreOk(e, states, steps, n, states[n].store) && SearchesOk(e, states, steps, n, states[n].running)
  }

  lemma {:induction false} StepOf(e: Engine, states: seq<State>, steps: seq<Step>, n: nat)
    requires IsRun(e, states, steps) && n < |steps|
    ensures e.Valid() && |states| == |steps| + 1
    ensures Enabled(states[n], steps[n]) && states[n + 1] == Apply(e, states[n], steps[n])
  {
  }

  // ---- What the steps leave behind ----

  /** What a finished search stores. */
  ghost predicate Stores(e: Engine, s: State, step: Step, key: CacheKey, entry: Entry) {
    && step.Finish? && step.stored && step.id in s.running && s.running[step.id].BothRead?
    && var r := s.running[step.id];
       key == e.Key(r.tenant, r.query) && entry == Entry(s.clock + e.ttl, e.Ranked(r.query, r.vector, r.keyword))
  }

  /** What a step leaves in the cache was there before or is what it has just computed. */
  lemma {:induction false} StoreAfter(e: Engine, s: State, step: Step, key: CacheKey)
    requires e.model.Valid() && Enabled(s, step) && key in Apply(e, s, step).store
    ensures var entry := Apply(e, s, step).store[key];
            (key in s.store && entry == s.store[key]) || Stores(e, s, step, key, entry)
  {
  }

  /** What a step does to a running search. */
  ghost predicate Moves(e: Engine, s: State, step: Step, id: int, r: Running)
    requires e.model.Valid()
  {
    match r
    case Missed(tenant, q) => step in {Ask(id, tenant, q), AskInVain(id, tenant, q)}
    case VectorRead(tenant, q, vector) =>
      step == ReadVector(id) && id in s.running && s.running[id] == Missed(tenant, q) && vector == e.Vector(s.corpus, tenant, q)
    case BothRead(tenant, q, vector, keyword) =>
      step == ReadKeyword(id) && id in s.running && s.running[id] == VectorRead(tenant, q, vector)
      && keyword == e.Keyword(s.corpus, tenant, q)
  }

  lemma {:induction false} RunningAfter(e: Engine, s: State, step: Step, id: int)
    requires e.model.Valid() && Enabled(s, step) && id in Apply(e, s, step).running
    ensures var r := Apply(e, s, step).running[id];
            (id in s.running && r == s.running[id]) || Moves(e, s, step, id, r)
  {
  }

  lemma {:induction false} RunningLonger(states: seq<State>, id: int, from: nat, n: nat)
    requires InProgress(states, id, from, n) && n + 1 < |states| && id in states[n + 1].running
    ensures InProgress(states, id, from, n + 1)
  {
  }

  lemma {:induction false} KeptSearchOk(e: Engine, states: seq<State>, steps: seq<Step>, n: nat, id: int, r: Running)
    requires e.model.Valid() && n < |steps| && n + 1 < |states| && id in states[n + 1].running
    requires RunningOk(e, states, steps, n, id, r)
    ensures RunningOk(e, states, steps, n + 1, id, r)
  {
    var x: Course :| x.id == id && Reading(e, states, steps, n, r, x);
    RunningLonger(states, id, x.asked, n);
    assert Reading(e, states, steps, n + 1, r, x);
  }

  lemma {:induction false} AskedSearchOk(e: Engine, states: seq<State>, steps: seq<Step>, n: nat, id: int, r: Running)
    requires e.model.Valid() && n < |steps| && n + 1 < |states| && id in states[n + 1].running
    requires r.Missed? && Moves(e, states[n], steps[n], id, r)
    ensures RunningOk(e, states, steps, n + 1, id, r)
  {
    assert Reading(e, states, steps, n + 1, r, Course(id, n, 0, 0, 0));
  }

  lemma {:induction false} ReadSearchOk(e: Engine, states: seq<State>, steps: seq<Step>, n: nat, id: int, r: Running)
    requires e.model.Valid() && n < |steps| && n + 1 < |states| && id in states[n + 1].running
    requires !r.Missed? && Moves(e, states[n], steps[n], id, r)
    requires RunningOk(e, states, steps, n, id, states[n].running[id])
    ensures RunningOk(e, states, steps, n + 1, id, r)
  {
    var x: Course :| x.id == id && Reading(e, states, steps, n, states[n].running[id], x);
    RunningLonger(states, id, x.asked, n);
    if r.VectorRead? {
      assert Reading(e, states, steps, n + 1, r, x.(vector := n));
    } else {
      assert Reading(e, states, steps, n + 1, r, x.(keyword := n));
    }
  }

  /** A search that finishes at step `n` has run. */
  lemma {:induction false} FinishedRan(e: Engine, states: seq<State>, steps: seq<Step>, n: nat) returns (x: Course)
    requires IsRun(e, states, steps) && n < |steps| && Inv(e, states, steps, n) && steps[n].Finish?
    ensures steps[n].id in states[n].running && states[n].running[steps[n].id].BothRead?
    ensures Ran(states, steps, x) && x.id == steps[n].id && x.finished == n
    ensures var r := states[n].running[steps[n].id];
            && steps[x.asked].tenant == r.tenant && steps[x.asked].query == r.query
            && e.Ranked(r.query, r.vector, r.keyword) == LiveFor(e, states, x, r.tenant, r.query)
  {
    StepOf(e, states, steps, n);
    var id := steps[n].id;
    var r := states[n].running[id];
    assert RunningOk(e, states, steps, n, id, r);
    var y: Course :| y.id == id && Reading(e, states, steps, n, r, y);
    x := y.(finished := n);
  }

  lemma {:induction false} KeptEntryOk(e: Engine, states: seq<State>, steps: seq<Step>, n: nat, key: CacheKey, entry: Entry)
    requires e.model.Valid() && EntryOk(e, states, steps, n, key, entry)
    ensures EntryOk(e, states, steps, n + 1, key, entry)
  {
    hide Ran, LiveFor;
    var x :| StoredBy(e, states, steps, n, key, entry, x);
    assert StoredBy(e, states, steps, n + 1, key, entry, x);
  }

  lemma {:induction false} StoredEntryOk(e: Engine, states: seq<State>, steps: seq<Step>, n: nat, key: CacheKey, entry: Entry)
    requires IsRun(e, states, steps) && n < |steps| && Inv(e, states, steps, n)
    requires Stores(e, states[n], steps[n], key, entry)
    ensures EntryOk(e, states, steps, n + 1, key, entry)
  {
    var x := FinishedRan(e, states, steps, n);
    assert StoredBy(e, states, steps, n + 1, key, entry, x);
  }

  lemma {:induction false} EntryAfter(e: Engine, states: seq<State>, steps: seq<Step>, n: nat, key: CacheKey)
    requires IsRun(e, states, steps) && n < |steps| && Inv(e, states, steps, n) && key in states[n + 1].store
    ensures EntryOk(e, states, steps, n + 1, key, states[n + 1].store[key])
  {
    StepOf(e, states, steps, n);
    StoreAfter(e, states[n], steps[n], key);
    hide Apply, Enabled, IsRun, EntryOk, Stores;
    var entry := states[n + 1].store[key];
    if Stores(e, states[n], steps[n], key, entry) {
      StoredEntryOk(e, states, steps, n, key, entry);
    } else {
      KeptEntryOk(e, states, steps, n, key, entry);
    }
  }

  lemma {:induction false} SearchAfter(e: Engine, states: seq<State>, steps: seq<Step>, n: nat, id: int)
    requires IsRun(e, states, steps) && n < |steps| && Inv(e, states, steps, n) && id in states[n + 1].running
    ensures RunningOk(e, states, steps, n + 1, id, states[n + 1].running[id])
  {
    StepOf(e, states, steps, n);
    RunningAfter(e, states[n], steps[n], id);
    hide Apply, Enabled, IsRun, RunningOk;
    var r := states[n + 1].running[id];
    if id in states[n].running && r == states[n].running[id] {
      KeptSearchOk(e, states, steps, n, id, r);
    } else if r.Missed? {
      AskedSearchOk(e, states, steps, n, id, r);
    } else {
      ReadSearchOk(e, states, steps, n, id, r);
    }
  }

  lemma {:induction false} EntriesAfter(e: Engine, states: seq<State>, steps: seq<Step>, n: nat)
    requires IsRun(e, states, steps) && n < |steps| && n + 1 < |states| && Inv(e, states, steps, n)
    ensures StoreOk(e, states, steps, n + 1, states[n + 1].store)
  {
    hide IsRun, Inv, EntryOk;
    StepOf(e, states, steps, n);
    var m, store := n + 1, states[n + 1].store;
    forall key | key in store ensures EntryOk(e, states, steps, m, key, store[key]) {
      EntryAfter(e, states, steps, n, key);
    }
  }

  lemma {:induction false} SearchesAfter(e: Engine, states: seq<State>, steps: seq<Step>, n: nat)
    requires IsRun(e, states, steps) && n < |steps| && n + 1 < |states| && Inv(e, states, steps, n)
    ensures SearchesOk(e, states, steps, n + 1, states[n + 1].running)
  {
    hide IsRun, Inv, RunningOk;
    StepOf(e, states, steps, n);
    var m, running := n + 1, states[n + 1].running;
    forall id | id in running ensures RunningOk(e, states, steps, m, id, running[id]) {
      SearchAfter(e, states, steps, n, id);
    }
  }

  lemma {:induction false} RunKeepsInv(e: Engine, states: seq<State>, steps: seq<Step>, n: nat)
    requires IsRun(e, states, steps) && n < |states|
    ensures Inv(e, states, steps, n)
  {
    if n > 0 {
      hide Apply, Enabled, StoreOk, SearchesOk;
      RunKeepsInv(e, states, steps, n - 1);
      EntriesAfter(e, states, steps, n - 1);
      SearchesAfter(e, states, steps, n - 1);
    }
  }

  // ---- Every answer is a recent live answer ----

  /** The search that computed an answer given at step `n`. It was asked for the same tenant,
      collection, top_k and normalized text, and the answer is the live answer to the query
      itself, from what the table was when that search read it. Either the answer is its own, or
      it stored its result and finished no longer than the time to live before. */
  ghost predicate AnsweredBy(e: Engine, states: seq<State>, steps: seq<Step>, n: nat, id: int, x: Course) {
    && IsRun(e, states, steps) && n < |steps| && id in states[n + 1].answers && id !in states[n].answers
    && Ran(states, steps, x)
    && (var answer := states[n + 1].answers[id];
        && e.Key(steps[x.asked].tenant, steps[x.asked].query) == e.Key(answer.tenant, answer.query)
        && answer.results == LiveFor(e, states, x, answer.tenant, answer.query))
    && (if steps[n].Finish? then x.id == id && x.finished == n
        else x.finished < n && steps[x.finished] == Finish(x.id, true)
             && states[n].clock <= states[x.finished].clock + e.ttl)
  }

  /** The time a search took. */
  function Duration(states: seq<State>, x: Course): int
    requires x.asked < |states| && x.finished < |states|
  {
    states[x.finished].clock - states[x.asked].clock
  }

  /** How long before step `n` the older of the two readings was. */
  function Age(states: seq<State>, n: nat, x: Course): int
    requires n < |states| && x.vector < |states|
  {
    states[n].clock - states[x.vector].clock
  }

  lemma {:induction false} ClockIsMonotone(e: Engine, states: seq<State>, steps: seq<Step>, i: nat, j: nat)
    requires IsRun(e, states, steps) && i <= j < |states|
    ensures states[i].clock <= states[j].clock
  {
    if i < j {
      hide IsRun;
      StepOf(e, states, steps, j - 1);
      ClockAfter(e, states[j - 1], steps[j - 1]);
      hide Apply, Enabled;
      ClockIsMonotone(e, states, steps, i, j - 1);
    }
  }

  lemma {:induction false} ClockAfter(e: Engine, s: State, step: Step)
    requires e.model.Valid() && Enabled(s, step)
    ensures s.clock <= Apply(e, s, step).clock
  {
  }

  /** Over any run of searches, corpus changes, expiries and cache failures, every answer was
      computed by a search for the same thing that finished now or no longer than the time to live
      ago, and what it read is no older than that and the time this search took. */
  lemma {:induction false} AnswersAreLive(e: Engine, states: seq<State>, steps: seq<Step>, n: nat, id: int)
    requires IsRun(e, states, steps) && n < |steps|
    requires id in states[n + 1].answers && id !in states[n].answers
    ensures exists x :: AnsweredBy(e, states, steps, n, id, x)
                     && Age(states, n, x) <= (if steps[n].Finish? then 0 else e.ttl) + Duration(states, x)
  {
    RunKeepsInv(e, states, steps, n);
    var x := Answerer(e, states, steps, n, id);
    ClockIsMonotone(e, states, steps, x.asked, x.vector);
  }

  lemma {:induction false} Answerer(e: Engine, states: seq<State>, steps: seq<Step>, n: nat, id: int) returns (x: Course)
    requires IsRun(e, states, steps) && n < |steps| && Inv(e, states, steps, n)
    requires id in states[n + 1].answers && id !in states[n].answers
    ensures AnsweredBy(e, states, steps, n, id, x)
  {
    StepOf(e, states, steps, n);
    if steps[n].Finish? {
      x := FinishedRan(e, states, steps, n);
    } else {
      assert steps[n].Ask? && steps[n].id == id;
      x := CachedAnswerer(e, states, steps, n, steps[n].tenant, steps[n].query);
    }
  }

  lemma {:induction false} CachedAnswerer(e: Engine, states: seq<State>, steps: seq<Step>, n: nat, tenant: int, q: Query)
    returns (x: Course)
    requires e.Valid() && n < |states| && Inv(e, states, steps, n)
    requires Fresh(states[n].store, e.Key(tenant, q), states[n].clock)
    ensures Ran(states, steps, x) && x.finished < n && steps[x.finished] == Finish(x.id, true)
    ensures e.Key(steps[x.asked].tenant, steps[x.asked].query) == e.Key(tenant, q)
    ensures states[n].store[e.Key(tenant, q)].results == LiveFor(e, states, x, tenant, q)
    ensures states[n].clock <= states[x.finished].clock + e.ttl
  {
    var key := e.Key(tenant, q);
    assert EntryOk(e, states, steps, n, key, states[n].store[key]);
    x :| StoredBy(e, states, steps, n, key, states[n].store[key], x);
    SharedKeysAgree(e, states[x.vector].corpus, states[x.keyword].corpus,
                    steps[x.asked].tenant, steps[x.asked].query, tenant, q);
  }

  // ---- Slow searches ----

  /** A search that is asked at time 0 and reads at once, a corpus that changes right after that, a
      search that takes `d` to finish, and the same question once more when the entry is about to
      expire. */
  function SlowSteps(e: Engine, tenant: int, q: Query, c2: Corpus, d: int): seq<Step> {
    [Ask(0, tenant, q), ReadVector(0), ReadKeyword(0), Change(c2), Tick(d), Finish(0, true), Tick(d + e.ttl), Ask(1, tenant, q)]
  }

  function SlowState(e: Engine, tenant: int, q: Query, c1: Corpus, c2: Corpus, d: int, i: nat): State
    requires e.model.Valid()
  {
    var r := e.Live(c1, c1, tenant, q);
    var vector, keyword := e.Vector(c1, tenant, q), e.Keyword(c1, tenant, q);
    var stored, answered := map[e.Key(tenant, q) := Entry(d + e.ttl, r)], map[0 := Answer(tenant, q, r)];
    if i == 0 then State(c1, 0, map[], map[], map[])
    else if i == 1 then State(c1, 0, map[], map[0 := Missed(tenant, q)], map[])
    else if i == 2 then State(c1, 0, map[], map[0 := VectorRead(tenant, q, vector)], map[])
    else if i == 3 then State(c1, 0, map[], map[0 := BothRead(tenant, q, vector, keyword)], map[])
    else if i == 4 then State(c2, 0, map[], map[0 := BothRead(tenant, q, vector, keyword)], map[])
    else if i == 5 then State(c2, d, map[], map[0 := BothRead(tenant, q, vector, keyword)], map[])
    else if i == 6 then State(c2, d, stored, map[], answered)
    else if i == 7 then State(c2, d + e.ttl, stored, map[], answered)
    else State(c2, d + e.ttl, stored, map[], answered[1 := Answer(tenant, q, r)])
  }

  function SlowStates(e: Engine, tenant: int, q: Query, c1: Corpus, c2: Corpus, d: int): seq<State>
    requires e.model.Valid()
  {
    seq(9, i requires 0 <= i < 9 => SlowState(e, tenant, q, c1, c2, d, i))
  }

  lemma {:induction false} SlowReads(e: Engine, tenant: int, q: Query, c1: Corpus, c2: Corpus, d: int, i: nat)
    requires e.model.Valid() && d >= 0 && e.ttl >= 0 && i < 4
    ensures var s, step := SlowState(e, tenant, q, c1, c2, d, i), SlowSteps(e, tenant, q, c2, d)[i];
            Enabled(s, step) && Apply(e, s, step) == SlowState(e, tenant, q, c1, c2, d, i + 1)
  {
    hide Engine.Live, Engine.Key, Engine.Vector, Engine.Keyword, Engine.Ranked;
  }

  lemma {:induction false} SlowTicks(e: Engine, tenant: int, q: Query, c1: Corpus, c2: Corpus, d: int, i: nat)
    requires e.model.Valid() && d >= 0 && e.ttl >= 0 && i in {4, 6}
    ensures var s, step := SlowState(e, tenant, q, c1, c2, d, i), SlowSteps(e, tenant, q, c2, d)[i];
            Enabled(s, step) && Apply(e, s, step) == SlowState(e, tenant, q, c1, c2, d, i + 1)
  {
    hide Engine.Live, Engine.Key, Engine.Vector, Engine.Keyword, Engine.Ranked;
  }

  lemma {:induction false} SlowFinishes(e: Engine, tenant: int, q: Query, c1: Corpus, c2: Corpus, d: int)
    requires e.model.Valid()
    ensures var s := SlowState(e, tenant, q, c1, c2, d, 5);
            Enabled(s, Finish(0, true)) && Apply(e, s, Finish(0, true)) == SlowState(e, tenant, q, c1, c2, d, 6)
  {
    hide Engine.Key, Engine.Vector, Engine.Keyword, Engine.Ranked;
    var s, t := SlowState(e, tenant, q, c1, c2, d, 5), SlowState(e, tenant, q, c1, c2, d, 6);
    assert s.running - {0} == t.running;
  }

  lemma {:induction false} SlowAsksAgain(e: Engine, tenant: int, q: Query, c1: Corpus, c2: Corpus, d: int)
    requires e.model.Valid()
    ensures var s := SlowState(e, tenant, q, c1, c2, d, 7);
            Enabled(s, Ask(1, tenant, q)) && Apply(e, s, Ask(1, tenant, q)) == SlowState(e, tenant, q, c1, c2, d, 8)
  {
    hide Engine.Live, Engine.Key, Engine.Vector, Engine.Keyword, Engine.Ranked;
  }

  const SLOW := Course(0, 0, 1, 2, 5)

  /** A search that takes `d` makes an answer that is `ttl + d` old: the bound is reached. If `d` is
      not 0, the answer comes from a corpus that was gone for the whole time to live. */
  lemma {:induction false} SlowSearchIsStale(e: Engine, tenant: int, q: Query, c1: Corpus, c2: Corpus, d: int)
    requires e.Valid() && d >= 0 && e.ttl >= 0
    ensures var states, steps := SlowStates(e, tenant, q, c1, c2, d), SlowSteps(e, tenant, q, c2, d);
            && AnsweredBy(e, states, steps, 7, 1, SLOW) && steps[7] == Ask(1, tenant, q)
            && states[8].answers[1] == Answer(tenant, q, e.Live(c1, c1, tenant, q))
            && Duration(states, SLOW) == d && Age(states, 7, SLOW) == e.ttl + d
            && (d > 0 ==> forall i :: 0 <= i <= 8 && states[i].clock >= states[7].clock - e.ttl ==> states[i].corpus == c2)
  {
    hide IsRun, Ran, LiveFor, SlowState;
    SlowIsRun(e, tenant, q, c1, c2, d);
    SlowRan(e, tenant, q, c1, c2, d);
    SlowAnswers(e, tenant, q, c1, c2, d);
    forall i | 0 <= i <= 8 ensures SlowStates(e, tenant, q, c1, c2, d)[i].clock >= d && d > 0
                                   ==> SlowStates(e, tenant, q, c1, c2, d)[i].corpus == c2
    {
      SlowCorpus(e, tenant, q, c1, c2, d, i);
    }
  }

  lemma {:induction false} SlowCorpus(e: Engine, tenant: int, q: Query, c1: Corpus, c2: Corpus, d: int, i: nat)
    requires e.model.Valid()
    ensures SlowState(e, tenant, q, c1, c2, d, i).clock >= d && d > 0 ==> SlowState(e, tenant, q, c1, c2, d, i).corpus == c2
  {
    hide Engine.Live, Engine.Key, Engine.Vector, Engine.Keyword, Engine.Ranked;
  }

  lemma {:induction false} SlowAnswers(e: Engine, tenant: int, q: Query, c1: Corpus, c2: Corpus, d: int)
    requires e.model.Valid()
    ensures SlowState(e, tenant, q, c1, c2, d, 0).clock == SlowState(e, tenant, q, c1, c2, d, 1).clock == 0
    ensures SlowState(e, tenant, q, c1, c2, d, 5).clock == d && SlowState(e, tenant, q, c1, c2, d, 7).clock == d + e.ttl
    ensures 1 !in SlowState(e, tenant, q, c1, c2, d, 7).answers && 1 in SlowState(e, tenant, q, c1, c2, d, 8).answers
    ensures SlowState(e, tenant, q, c1, c2, d, 8).answers[1] == Answer(tenant, q, e.Live(c1, c1, tenant, q))
  {
    hide Engine.Live, Engine.Key, Engine.Vector, Engine.Keyword, Engine.Ranked;
  }

  lemma {:induction false} SlowRan(e: Engine, tenant: int, q: Query, c1: Corpus, c2: Corpus, d: int)
    requires e.model.Valid()
    ensures var states := SlowStates(e, tenant, q, c1, c2, d);
            Ran(states, SlowSteps(e, tenant, q, c2, d), SLOW)
            && LiveFor(e, states, SLOW, tenant, q) == e.Live(c1, c1, tenant, q)
  {
    assert InProgress(SlowStates(e, tenant, q, c1, c2, d), 0, 0, 5);
  }

  lemma {:induction false} SlowIsRun(e: Engine, tenant: int, q: Query, c1: Corpus, c2: Corpus, d: int)
    requires e.Valid() && d >= 0 && e.ttl >= 0
    ensures IsRun(e, SlowStates(e, tenant, q, c1, c2, d), SlowSteps(e, tenant, q, c2, d))
  {
    var states, steps := SlowStates(e, tenant, q, c1, c2, d), SlowSteps(e, tenant, q, c2, d);
    forall i | 0 <= i < |steps| ensures Enabled(states[i], steps[i]) && states[i + 1] == Apply(e, states[i], steps[i]) {
      hide Enabled, Apply, SlowState;
      if i < 4 {
        SlowReads(e, tenant, q, c1, c2, d, i);
      } else if i == 5 {
        SlowFinishes(e, tenant, q, c1, c2, d);
      } else if i == 7 {
        SlowAsksAgain(e, tenant, q, c1, c2, d);
      } else {
        SlowTicks(e, tenant, q, c1, c2, d, i);
      }
    }
  }

  /** If searches take at most `d`, no answer comes from a reading older than the time to live. */
  ghost predicate TtlBoundsAge(e: Engine, d: int) {
    forall states, steps, n: nat, id, x :: AnsweredBy(e, states, steps, n, id, x) && Duration(states, x) <= d
      ==> Age(states, n, x) <= e.ttl
  }

  /** The time to live alone bounds the age of what answers are computed from if and only if
      searches take no time. */
  lemma {:induction false} TtlBoundsAgeExactlyWhen(e: Engine, d: int)
    requires e.Valid() && d >= 0 && e.ttl >= 0
    ensures TtlBoundsAge(e, d) <==> d == 0
  {
    if d == 0 {
      forall states, steps, n: nat, id, x | AnsweredBy(e, states, steps, n, id, x) && Duration(states, x) <= d
        ensures Age(states, n, x) <= e.ttl
      {
        ClockIsMonotone(e, states, steps, x.asked, x.vector);
      }
    } else {
      var q := Query("a", 1, None);
      var states, steps := SlowStates(e, 0, q, 0, 1, d), SlowSteps(e, 0, q, 1, d);
      SlowSearchIsStale(e, 0, q, 0, 1, d);
      assert AnsweredBy(e, states, steps, 7, 1, SLOW) && Duration(states, SLOW) <= d;
    }
  }

  // ---- One search on its own ----

  /** The steps of a search that misses, with the changes of the corpus and of the clock it meets,
      up to the ranking. */
  function UpToRanking(e: Engine, s: State, id: int, tenant: int, q: Query, c1: Corpus, c2: Corpus, later: int): State
    requires e.model.Valid() && id !in s.running && id !in s.answers && later >= s.clock
    requires !Fresh(s.store, e.Key(tenant, q), s.clock)
  {
    var asked := Apply(e, Apply(e, s, Ask(id, tenant, q)), Change(c1));
    var vector := Apply(e, Apply(e, asked, ReadVector(id)), Change(c2));
    Apply(e, Apply(e, vector, ReadKeyword(id)), Tick(later))
  }

  lemma {:induction false} ReadsBoth(e: Engine, s: State, id: int, tenant: int, q: Query, c1: Corpus, c2: Corpus, later: int)
    requires e.model.Valid() && id !in s.running && id !in s.answers && later >= s.clock
    requires !Fresh(s.store, e.Key(tenant, q), s.clock)
    ensures var t := UpToRanking(e, s, id, tenant, q, c1, c2, later);
            && id in t.running && t.running[id] == BothRead(tenant, q, e.Vector(c1, tenant, q), e.Keyword(c2, tenant, q))
            && t.store == AfterGet(s.store, e.Key(tenant, q), s.clock) && t.answers == s.answers && t.clock == later
  {
  }

  /** `Handle` does what the steps do: its answer and the cache it leaves are theirs. */
  lemma {:induction false} HandleIsSteps(e: Engine, s: State, id: int, tenant: int, q: Query,
                                         c1: Corpus, c2: Corpus, later: int)
    requires e.model.Valid() && id !in s.running && id !in s.answers && later >= s.clock
    ensures var key := e.Key(tenant, q);
            if Fresh(s.store, key, s.clock) then
              Apply(e, s, Ask(id, tenant, q)) == s.(answers := s.answers[id := Answer(tenant, q, s.store[key].results)])
            else
              var t, r := UpToRanking(e, s, id, tenant, q, c1, c2, later), e.Live(c1, c2, tenant, q);
              Enabled(t, Finish(id, true))
              && Apply(e, t, Finish(id, true)).answers == s.answers[id := Answer(tenant, q, r)]
              && Apply(e, t, Finish(id, true)).store == AfterGet(s.store, key, s.clock)[key := Entry(later + e.ttl, r)]
  {
    if !Fresh(s.store, e.Key(tenant, q), s.clock) {
      ReadsBoth(e, s, id, tenant, q, c1, c2, later);
      FinishIsRanked(e, UpToRanking(e, s, id, tenant, q, c1, c2, later), id);
    }
  }

  lemma {:induction false} FinishIsRanked(e: Engine, t: State, id: int)
    requires e.model.Valid() && id in t.running && t.running[id].BothRead?
    ensures var run := t.running[id]; var r := e.Ranked(run.query, run.vector, run.keyword);
            && Apply(e, t, Finish(id, true)).answers == t.answers[id := Answer(run.tenant, run.query, r)]
            && Apply(e, t, Finish(id, true)).store == t.store[e.Key(run.tenant, run.query) := Entry(t.clock + e.ttl, r)]
  {
  }
}

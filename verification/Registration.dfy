/** Registering a document: the lookup for a duplicate and the insertion. */
module Registration {
  import opened Documents
  import opened Saga
  import opened SagaInvariant
  import opened SagaSteps
  import opened SagaRuns
  import opened SagaOutcomes
  import opened SagaDatabase

  predicate HasHash(s: State, d: int, tenant: int, hash: ContentHash) {
    d in s.docs && s.docs[d].tenant == tenant && s.docs[d].hash == hash
  }

  /** What `find_by_content_hash` looks for: deleted documents are left out. */
  predicate IsDuplicate(s: State, d: int, tenant: int, hash: ContentHash) {
    HasHash(s, d, tenant, hash) && s.docs[d].status != Deleted
  }

  datatype Outcome =
    | Returned(document: int)  // the document that has the content already
    | Refused                  // the unique key raises
    | Created

  /** `RegisterDocumentHandler.handle`, with the steps that others take between its lookup and its
      commit. */
  method Handle(db: Database, document: int, tenant: int, collection: int, hash: ContentHash, others: seq<Step>)
    returns (o: Outcome)
    requires db.Valid()
    modifies db
    ensures db.Valid() && Extends(old(db.trace), db.trace)
    ensures o.Returned? <==> exists d :: IsDuplicate(old(db.state), d, tenant, hash)
    ensures o.Returned? ==> IsDuplicate(old(db.state), o.document, tenant, hash) && db.state == old(db.state)
    ensures o.Created? ==> document in db.state.docs && db.state.docs[document] == DocRow(tenant, collection, hash, Registered, 1)
    ensures o.Refused? ==> document in db.state.docs || exists d :: HasHash(db.state, d, tenant, hash)
    ensures others == [] && document !in old(db.state).docs ==> o == OutcomeAt(old(db.state), tenant, hash)
  {
    hide Apply, Inv, IsRun, Extends;
    UnchangedExtends(db.trace);
    ghost var start := db.state;
    if d :| d in db.state.docs && IsDuplicate(db.state, d, tenant, hash) {
      FoundIsTheOutcome(db.env, db.state, d, tenant, hash);
      return Returned(d);
    }
    for i := 0 to |others|
      invariant db.Valid() && Extends(old(db.trace), db.trace)
      invariant others == [] ==> db.state == start
    {
      if Enabled(db.state, others[i]) {
        ghost var before := db.trace;
        db.Take(others[i]);
        ExtendsOn(old(db.trace), before, db.trace);
      }
    }
    if document in db.state.docs || exists d | d in db.state.docs :: HasHash(db.state, d, tenant, hash) {
      return Refused;
    }
    ghost var before := db.trace;
    RegisterApplies(db.env, db.state, document, tenant, collection, hash);
    db.Take(Register(document, tenant, collection, hash));
    ExtendsOn(old(db.trace), before, db.trace);
    return Created;
  }

  lemma {:induction false} UnchangedExtends(trace: Trace)
    ensures Extends(trace, trace)
  {
  }

  lemma {:induction false} RegisterApplies(env: Env, s: State, document: int, tenant: int, collection: int, hash: ContentHash)
    requires document !in s.docs && !exists d :: HasHash(s, d, tenant, hash)
    ensures var step := Register(document, tenant, collection, hash);
            && Enabled(s, step) && document in Apply(env, s, step).docs
            && Apply(env, s, step).docs[document] == DocRow(tenant, collection, hash, Registered, 1)
  {
    forall e | e in s.docs ensures !(s.docs[e].tenant == tenant && s.docs[e].hash == hash) {
      assert !HasHash(s, e, tenant, hash);
    }
  }

  // ---- The outcome of a registration ----

  /** What the handler does when nobody interferes. */
  ghost function OutcomeAt(s: State, tenant: int, hash: ContentHash): Outcome {
    if exists d :: IsDuplicate(s, d, tenant, hash) then
      var d :| IsDuplicate(s, d, tenant, hash);
      Returned(d)
    else if exists d :: HasHash(s, d, tenant, hash) then Refused
    else Created
  }

  lemma {:induction false} OneOfEach(env: Env, s: State, d: int, e: int, tenant: int, hash: ContentHash)
    requires Inv(env, s) && HasHash(s, d, tenant, hash) && HasHash(s, e, tenant, hash)
    ensures d == e
  {
    assert HashesUnique(s);
  }

  lemma {:induction false} FoundIsTheOutcome(env: Env, s: State, d: int, tenant: int, hash: ContentHash)
    requires Inv(env, s) && IsDuplicate(s, d, tenant, hash)
    ensures OutcomeAt(s, tenant, hash) == Returned(d)
  {
    var e := OutcomeAt(s, tenant, hash).document;
    OneOfEach(env, s, d, e, tenant, hash);
  }

  /** A registration returns a document if and only if it is the one with this content and is not
      deleted, raises if and only if the document with this content is deleted, and creates one
      if and only if there is none. */
  lemma {:induction false} OutcomeExactlyWhen(env: Env, s: State, tenant: int, hash: ContentHash, d: int)
    requires Inv(env, s)
    ensures OutcomeAt(s, tenant, hash) == Returned(d) <==> IsDuplicate(s, d, tenant, hash)
    ensures OutcomeAt(s, tenant, hash) == Refused <==> exists e :: HasHash(s, e, tenant, hash) && s.docs[e].status == Deleted
    ensures OutcomeAt(s, tenant, hash) == Created <==> !exists e :: HasHash(s, e, tenant, hash)
  {
    hide Inv;
    var o := OutcomeAt(s, tenant, hash);
    if IsDuplicate(s, d, tenant, hash) {
      FoundIsTheOutcome(env, s, d, tenant, hash);
    }
    if o == Refused {
      var e :| HasHash(s, e, tenant, hash);
      assert !IsDuplicate(s, e, tenant, hash);
    }
    forall e | HasHash(s, e, tenant, hash) && s.docs[e].status == Deleted ensures o == Refused {
      if o.Returned? {
        OneOfEach(env, s, e, o.document, tenant, hash);
        assert false;
      }
    }
  }

  lemma {:induction false} RegistrationsAreExact(env: Env, states: seq<State>, steps: seq<Step>, i: nat,
                                                 tenant: int, hash: ContentHash, d: int)
    requires IsRun(env, states, steps) && i < |states|
    ensures var o := OutcomeAt(states[i], tenant, hash);
            && (o == Returned(d) <==> IsDuplicate(states[i], d, tenant, hash))
            && (o == Refused <==> exists e :: HasHash(states[i], e, tenant, hash) && states[i].docs[e].status == Deleted)
            && (o == Created <==> !exists e :: HasHash(states[i], e, tenant, hash))
  {
    RunKeepsInv(env, states, steps, i);
    OutcomeExactlyWhen(env, states[i], tenant, hash, d);
  }

  /** Once content has been registered in a tenant, no registration ever creates a document for it
      again. */
  lemma {:induction false} HashStaysTaken(env: Env, s: State, states: seq<State>, steps: seq<Step>, i: nat, d: int)
    requires Inv(env, s) && RunFrom(env, s, states, steps) && i < |states| && d in s.docs
    ensures OutcomeAt(states[i], s.docs[d].tenant, s.docs[d].hash) != Created
  {
    IdentityStays(env, s, states, steps, i, d);
    assert HasHash(states[i], d, s.docs[d].tenant, s.docs[d].hash);
  }

  /** After a delete that is final every registration of the content raises, for ever. */
  lemma {:induction false} DeletedHashIsRefused(env: Env, s: State, states: seq<State>, steps: seq<Step>, i: nat, d: int)
    requires Inv(env, s) && RunFrom(env, s, states, steps) && i < |states| && SafelyDeleted(s, d)
    ensures OutcomeAt(states[i], s.docs[d].tenant, s.docs[d].hash) == Refused
  {
    hide Inv;
    IdentityStays(env, s, states, steps, i, d);
    SafelyDeletedForever(env, s, states, steps, i, d);
    RunFromKeepsInv(env, s, states, steps, i);
    OutcomeExactlyWhen(env, states[i], s.docs[d].tenant, s.docs[d].hash, d);
    assert HasHash(states[i], d, s.docs[d].tenant, s.docs[d].hash);
  }

  // ---- A registration that is refused ----

  function OneDocument(tenant: int, collection: int, hash: ContentHash, status: DocumentStatus, requests: map<int, Request>): State {
    INITIAL.(docs := map[1 := DocRow(tenant, collection, hash, status, 1)], requests := requests)
  }

  lemma {:induction false} OneDocumentMoves(env: Env, tenant: int, collection: int, hash: ContentHash)
    ensures var s, t := OneDocument(tenant, collection, hash, Registered, map[]),
                        OneDocument(tenant, collection, hash, Registered, map[0 := Deleting(1)]);
            && Enabled(INITIAL, Register(1, tenant, collection, hash))
            && Apply(env, INITIAL, Register(1, tenant, collection, hash)) == s
            && Enabled(s, CheckDelete(0, 1, tenant)) && Apply(env, s, CheckDelete(0, 1, tenant)) == t
            && Enabled(t, CommitDelete(0)) && Apply(env, t, CommitDelete(0)) == OneDocument(tenant, collection, hash, Deleted, map[])
  {
    assert map[0 := Deleting(1)] - {0} == map[];
  }

  /** Register, delete and register again: the handler finds no duplicate and the unique key raises. */
  lemma {:induction false} RegistrationCanBeRefused(env: Env, tenant: int, collection: int, hash: ContentHash)
    ensures exists s :: Reaches(env, INITIAL, s) && OutcomeAt(s, tenant, hash) == Refused
  {
    hide Apply, Enabled, Reaches;
    var s, t := OneDocument(tenant, collection, hash, Registered, map[]), OneDocument(tenant, collection, hash, Registered, map[0 := Deleting(1)]);
    var u := OneDocument(tenant, collection, hash, Deleted, map[]);
    OneDocumentMoves(env, tenant, collection, hash);
    ReachesItself(env, INITIAL);
    ReachesOneMore(env, INITIAL, INITIAL, Register(1, tenant, collection, hash));
    ReachesOneMore(env, INITIAL, s, CheckDelete(0, 1, tenant));
    ReachesOneMore(env, INITIAL, t, CommitDelete(0));
    assert HasHash(u, 1, tenant, hash);
    assert forall d :: HasHash(u, d, tenant, hash) ==> d == 1;
  }
}

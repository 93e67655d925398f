/** The steps of the saga do to a document what the methods of the aggregate do. */
module SagaLifecycle {
  import opened Documents
  import opened Jobs
  import opened Saga

  /** The fields of the aggregate that has been read from a row. */
  function FieldsOf(row: DocRow, updatedAt: int): Fields {
    Fields(row.hash, row.status, row.version, updatedAt, [])
  }

  /** The row that is written back. */
  function WrittenRow(row: DocRow, f: Fields): DocRow {
    row.(hash := f.contentHash, status := f.status, version := f.version)
  }

  predicate IsMark(step: Step) {
    step.CommitIngesting? || step.CommitIndexed? || step.CommitFailed?
  }

  function MarkCall(step: Step): Call
    requires IsMark(step)
  {
    match step
    case CommitIngesting(_) => MarkIngesting
    case CommitIndexed(_) => MarkIndexed
    case CommitFailed(_) => MarkFailed
  }

  /** A check lets a transition pass if and only if the document is there for the tenant and the
      method of the aggregate does not raise on it. */
  lemma {:induction false} ChecksAreTheAggregates(env: Env, s: State, job: IngestionJob, call: Call, updatedAt: int)
    requires call in {MarkIngesting, MarkIndexed, MarkFailed}
    ensures var target := if call == MarkIngesting then Ingesting else if call == MarkIndexed then Indexed else Failed;
            (MayMark(s, job, target)
             <==> Found(s, job.tenant, job.key.document) && !Raises(FieldsOf(s.docs[job.key.document], updatedAt), call))
  {
  }

  /** A commit writes what the method of the aggregate made of the row when it was checked, which may
      have had another status than the row has now. */
  lemma {:induction false} CommitsAreTheAggregates(env: Env, s: State, step: Step, checked: DocumentStatus, tenant: int,
                                                   updatedAt: int, now: int)
    requires Enabled(s, step) && IsMark(step)
    requires var d := Head(s, step.w).key.document; !Raises(FieldsOf(s.docs[d].(status := checked), updatedAt), MarkCall(step))
    ensures var d := Head(s, step.w).key.document;
            var read := s.docs[d].(status := checked);
            Apply(env, s, step).docs
            == s.docs[d := WrittenRow(s.docs[d], After(d, tenant, FieldsOf(read, updatedAt), MarkCall(step), now))]
  {
    hide NextJob;
    match step
    case CommitIngesting(_) =>
    case CommitIndexed(_) =>
    case CommitFailed(_) =>
  }

  /** The same for a delete, which never raises. */
  lemma {:induction false} DeletesAreTheAggregates(env: Env, s: State, request: int, checked: DocumentStatus, tenant: int,
                                                   updatedAt: int, now: int)
    requires Enabled(s, CommitDelete(request))
    ensures var d := s.requests[request].document;
            var read := s.docs[d].(status := checked);
            Apply(env, s, CommitDelete(request)).docs
            == s.docs[d := WrittenRow(s.docs[d], After(d, tenant, FieldsOf(read, updatedAt), Delete, now))]
  {
  }

  /** A registration writes the row of a newly registered aggregate. */
  lemma {:induction false} RegistersTheAggregate(env: Env, s: State, d: int, tenant: int, collection: int, hash: ContentHash, now: int)
    requires Enabled(s, Register(d, tenant, collection, hash))
    ensures var row := Apply(env, s, Register(d, tenant, collection, hash)).docs[d];
            && row.tenant == tenant && row.collection == collection
            && row == WrittenRow(row, RegisteredFields(d, tenant, collection, hash, now))
  {
  }
}

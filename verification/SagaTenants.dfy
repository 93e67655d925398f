/** What happens to a document is started by requests of its own tenant. */
module SagaTenants {
  import opened Documents
  import opened Jobs
  import opened Saga
  import opened SagaInvariant
  import opened SagaSteps
  import opened SagaRuns
  import opened SagaOutcomes

  /** Before step `n` a request of the tenant to delete the document was let through. */
  ghost predicate DeleteAsked(steps: seq<Step>, n: nat, d: int, tenant: int) {
    n <= |steps| && exists j, r :: 0 <= j < n && steps[j] == CheckDelete(r, d, tenant)
  }

  /** Before step `n` a request of the tenant to upload the text of the document was let through. */
  ghost predicate UploadAsked(steps: seq<Step>, n: nat, d: int, tenant: int, text: string) {
    n <= |steps| && exists j, r :: 0 <= j < n && steps[j] == CheckUpload(r, d, tenant, text)
  }

  ghost predicate RequestAsked(s: State, steps: seq<Step>, n: nat, request: Request) {
    && request.document in s.docs
    && (request.Deleting? ==> DeleteAsked(steps, n, request.document, s.docs[request.document].tenant))
    && (request.Uploading? ==> UploadAsked(steps, n, request.document, s.docs[request.document].tenant, request.text))
    && (request.Uploaded? ==> request.document in s.content)
  }

  /** Everything there is of a document goes back to requests of its tenant. */
  ghost predicate Asked(s: State, steps: seq<Step>, n: nat) {
    && (forall r :: r in s.requests ==> RequestAsked(s, steps, n, s.requests[r]))
    && (forall d :: d in s.docs && s.docs[d].status == Deleted ==> DeleteAsked(steps, n, d, s.docs[d].tenant))
    && (forall d :: d in s.content ==> d in s.docs && UploadAsked(steps, n, d, s.docs[d].tenant, s.content[d].text))
    && (forall k :: k in s.jobs ==> k.document in s.content)
  }

  lemma {:induction false} AskedLater(steps: seq<Step>, n: nat, d: int, tenant: int, text: string)
    requires n < |steps|
    ensures DeleteAsked(steps, n, d, tenant) ==> DeleteAsked(steps, n + 1, d, tenant)
    ensures UploadAsked(steps, n, d, tenant, text) ==> UploadAsked(steps, n + 1, d, tenant, text)
  {
    if DeleteAsked(steps, n, d, tenant) {
      var j, r :| 0 <= j < n && steps[j] == CheckDelete(r, d, tenant);
    }
    if UploadAsked(steps, n, d, tenant, text) {
      var j, r :| 0 <= j < n && steps[j] == CheckUpload(r, d, tenant, text);
    }
  }

  // ---- Where requests, deletions, contents and jobs come from ----

  lemma {:induction false} RequestComesFrom(env: Env, s: State, step: Step, r: int)
    requires Enabled(s, step) && r in Apply(env, s, step).requests
    ensures var request := Apply(env, s, step).requests[r];
            || (r in s.requests && request == s.requests[r])
            || (request.Deleting? && step.CheckDelete? && step == CheckDelete(r, request.document, step.tenant)
                && Found(s, step.tenant, request.document))
            || (request.Uploading? && step.CheckUpload? && step == CheckUpload(r, request.document, step.tenant, request.text)
                && Found(s, step.tenant, request.document))
            || (request.Uploaded? && step == StoreContent(r))
  {
    if WorkerStep(step) {
      WorkersKeepRequests(env, s, step);
    }
  }

  lemma {:induction false} WorkersKeepRequests(env: Env, s: State, step: Step)
    requires Enabled(s, step) && WorkerStep(step)
    ensures Apply(env, s, step).requests == s.requests
  {
    if HandleStep(step) {
      HandleStepsKeepRequests(env, s, step);
    } else {
      OtherStepsKeepRequests(env, s, step);
    }
  }

  lemma {:induction false} HandleStepsKeepRequests(env: Env, s: State, step: Step)
    requires Enabled(s, step) && HandleStep(step)
    ensures Apply(env, s, step).requests == s.requests
  {
    match step
    case CheckIngesting(_) =>
    case CommitIngesting(_) =>
    case Extract(_) =>
    case Index(w) => IndexMoves(env, s, w);
    case CheckIndexed(_) =>
    case CommitIndexed(_) =>
    case Raise(_) =>
  }

  lemma {:induction false} OtherStepsKeepRequests(env: Env, s: State, step: Step)
    requires Enabled(s, step) && WorkerStep(step) && !HandleStep(step)
    ensures Apply(env, s, step).requests == s.requests
  {
    hide NextJob;
    match step
    case StartWorker(_) =>
    case SelectRows(_, _, _) =>
    case CommitClaim(_) =>
    case Complete(_) =>
    case Fail(_, _) =>
    case CheckFailed(_) =>
    case CommitFailed(_) =>
    case SwallowFailure(_) =>
    case Crash(_) =>
  }

  lemma {:induction false} NewDocument(env: Env, s: State, step: Step, d: int)
    requires Enabled(s, step) && d !in s.docs && d in Apply(env, s, step).docs
    ensures Apply(env, s, step).docs[d].status == Registered
  {
    if HandleStep(step) {
      if !step.CommitIngesting? && !step.CommitIndexed? {
        HandleStepsKeepDocs(env, s, step);
      }
    } else if WorkerStep(step) {
      if !step.CommitFailed? {
        OtherStepsKeepDocs(env, s, step);
      }
    }
  }

  lemma {:induction false} CommitsDoNotDelete(env: Env, s: State, step: Step, d: int)
    requires Enabled(s, step) && ChangesStatus(s, step, d) && !step.CommitDelete? && d in s.docs
    ensures d in Apply(env, s, step).docs && Apply(env, s, step).docs[d].status != Deleted
  {
    hide NextJob;
    match step
    case CommitIngesting(_) =>
    case CommitIndexed(_) =>
    case CommitFailed(_) =>
  }

  /** A document is deleted by the commit of a delete request. */
  lemma {:induction false} DeletedBy(env: Env, s: State, step: Step, d: int)
    requires Inv(env, s) && Enabled(s, step) && HasStatus(Apply(env, s, step), d, {Deleted}) && !HasStatus(s, d, {Deleted})
    ensures d in s.docs
    ensures step.CommitDelete? && step.request in s.requests && s.requests[step.request] == Deleting(d)
  {
    hide Inv, Apply;
    if d !in s.docs {
      NewDocument(env, s, step, d);
    } else {
      StatusOnlyChangesBy(env, s, step, d);
      if !step.CommitDelete? {
        CommitsDoNotDelete(env, s, step, d);
      }
    }
  }

  lemma {:induction false} NewContent(env: Env, s: State, step: Step, d: int)
    requires Inv(env, s) && Enabled(s, step) && d in Apply(env, s, step).content && d !in s.content
    ensures step.StoreContent? && step.request in s.requests && s.requests[step.request].Uploading?
    ensures s.requests[step.request].document == d && Apply(env, s, step).content[d].text == s.requests[step.request].text
  {
    if !step.StoreContent? {
      OtherStepsKeepContent(env, s, step);
    }
  }

  lemma {:induction false} NewJob(env: Env, s: State, step: Step, k: JobKey)
    requires Enabled(s, step) && k in Apply(env, s, step).jobs && k !in s.jobs
    ensures step.Enqueue? && step.request in s.requests && s.requests[step.request].Uploaded?
    ensures s.requests[step.request].document == k.document
  {
    NewJobIsPending(env, s, step, k);
  }

  // ---- Every step ----

  lemma {:induction false} SameTenant(env: Env, s: State, step: Step, d: int)
    requires Inv(env, s) && Enabled(s, step) && d in s.docs
    ensures d in Apply(env, s, step).docs && Apply(env, s, step).docs[d].tenant == s.docs[d].tenant
  {
    hide Inv, Apply, Enabled;
    StatusOnlyChangesBy(env, s, step, d);
  }

  lemma {:induction false} StoredIsThere(env: Env, s: State, r: int)
    requires Enabled(s, StoreContent(r))
    ensures s.requests[r].document in Apply(env, s, StoreContent(r)).content
    ensures r in Apply(env, s, StoreContent(r)).requests
    ensures Apply(env, s, StoreContent(r)).requests[r].document == s.requests[r].document
  {
  }

  lemma {:induction false} RequestsStayAsked(env: Env, s: State, steps: seq<Step>, n: nat, r: int)
    requires Inv(env, s) && n < |steps| && Enabled(s, steps[n]) && Asked(s, steps, n)
    requires r in Apply(env, s, steps[n]).requests
    ensures RequestAsked(Apply(env, s, steps[n]), steps, n + 1, Apply(env, s, steps[n]).requests[r])
  {
    hide Inv, Apply, Enabled;
    var step, t := steps[n], Apply(env, s, steps[n]);
    var request := t.requests[r];
    var d := request.document;
    RequestComesFrom(env, s, step, r);
    if step == StoreContent(r) && request.Uploaded? {
      StoreIsEnabled(s, r);
      StoredIsThere(env, s, r);
      assert RequestAsked(s, steps, n, s.requests[r]);
      SameTenant(env, s, step, d);
    } else {
      if r in s.requests && request == s.requests[r] {
        assert RequestAsked(s, steps, n, request);
      }
      SameTenant(env, s, step, d);
      AskedLater(steps, n, d, s.docs[d].tenant, if request.Uploading? then request.text else "");
      if request.Uploaded? {
        ContentStep(env, s, step, d);
      }
    }
  }

  lemma {:induction false} StoreIsEnabled(s: State, r: int)
    requires Enabled(s, StoreContent(r))
    ensures r in s.requests && s.requests[r].Uploading?
  {
  }

  lemma {:induction false} DeletionsStayAsked(env: Env, s: State, steps: seq<Step>, n: nat, d: int)
    requires Inv(env, s) && n < |steps| && Enabled(s, steps[n]) && Asked(s, steps, n)
    requires HasStatus(Apply(env, s, steps[n]), d, {Deleted})
    ensures DeleteAsked(steps, n + 1, d, Apply(env, s, steps[n]).docs[d].tenant)
  {
    hide Inv, Apply, Enabled;
    var step := steps[n];
    if !HasStatus(s, d, {Deleted}) {
      DeletedBy(env, s, step, d);
      assert RequestAsked(s, steps, n, s.requests[step.request]);
    }
    SameTenant(env, s, step, d);
    AskedLater(steps, n, d, s.docs[d].tenant, "");
  }

  lemma {:induction false} ContentsStayAsked(env: Env, s: State, steps: seq<Step>, n: nat, d: int)
    requires Inv(env, s) && n < |steps| && Enabled(s, steps[n]) && Asked(s, steps, n)
    requires d in Apply(env, s, steps[n]).content
    ensures var t := Apply(env, s, steps[n]);
            d in t.docs && UploadAsked(steps, n + 1, d, t.docs[d].tenant, t.content[d].text)
  {
    hide Inv, Apply, Enabled;
    var step := steps[n];
    if d in s.content {
      ContentStep(env, s, step, d);
    } else {
      NewContent(env, s, step, d);
      assert RequestAsked(s, steps, n, s.requests[step.request]);
    }
    SameTenant(env, s, step, d);
    AskedLater(steps, n, d, s.docs[d].tenant, Apply(env, s, step).content[d].text);
  }

  lemma {:induction false} JobsStayAsked(env: Env, s: State, steps: seq<Step>, n: nat, k: JobKey)
    requires Inv(env, s) && n < |steps| && Enabled(s, steps[n]) && Asked(s, steps, n)
    requires k in Apply(env, s, steps[n]).jobs
    ensures k.document in Apply(env, s, steps[n]).content
  {
    hide Inv, Apply, Enabled;
    var step := steps[n];
    if k !in s.jobs {
      NewJob(env, s, step, k);
      assert RequestAsked(s, steps, n, s.requests[step.request]);
    }
    ContentStep(env, s, step, k.document);
  }

  lemma {:induction false} AskedAfter(env: Env, s: State, steps: seq<Step>, n: nat)
    requires Inv(env, s) && n < |steps| && Enabled(s, steps[n]) && Asked(s, steps, n)
    ensures Asked(Apply(env, s, steps[n]), steps, n + 1)
  {
    hide Inv, Apply, Enabled, RequestAsked, DeleteAsked, UploadAsked;
    var t, m := Apply(env, s, steps[n]), n + 1;
    forall r | r in t.requests ensures RequestAsked(t, steps, m, t.requests[r]) {
      RequestsStayAsked(env, s, steps, n, r);
    }
    forall d | d in t.docs && t.docs[d].status == Deleted ensures DeleteAsked(steps, m, d, t.docs[d].tenant) {
      DeletionsStayAsked(env, s, steps, n, d);
    }
    forall d | d in t.content ensures d in t.docs && UploadAsked(steps, m, d, t.docs[d].tenant, t.content[d].text) {
      ContentsStayAsked(env, s, steps, n, d);
    }
    forall k | k in t.jobs ensures k.document in t.content {
      JobsStayAsked(env, s, steps, n, k);
    }
  }

  /** In every reachable state, a deleted document was asked to be deleted by its own tenant, stored
      content was uploaded by the tenant of its document, and only such documents have jobs. */
  lemma {:induction false} OnlyItsTenant(env: Env, states: seq<State>, steps: seq<Step>, i: nat)
    requires IsRun(env, states, steps) && i < |states|
    ensures Asked(states[i], steps, i)
  {
    hide Apply, Enabled, Asked, Inv;
    if i == 0 {
      NothingYet(steps);
    } else {
      OnlyItsTenant(env, states, steps, i - 1);
      RunKeepsInv(env, states, steps, i - 1);
      AskedAfter(env, states[i - 1], steps, i - 1);
    }
  }

  lemma {:induction false} NothingYet(steps: seq<Step>)
    ensures Asked(INITIAL, steps, 0)
  {
  }
}

/** The Document aggregate: its life cycle and its event log. */
module Documents {
  import opened Wrappers
  import opened Sequences

  /** A SHA-256 digest. SHA-256 is taken to be collision free, so the digest of a text is
      modelled by the text; other digests are the digest of no text anyone has. */
  datatype ContentHash = OfText(text: string) | OfNothing(id: int)

  datatype DocumentStatus = Registered | Ingesting | Indexed | Failed | Deleted

  /** `_ALLOWED_TRANSITIONS`. */
  predicate Allowed(from: DocumentStatus, to: DocumentStatus) {
    match from
    case Registered => to in {Ingesting, Deleted}
    case Ingesting => to in {Indexed, Failed, Deleted}
    case Indexed => to in {Ingesting, Deleted}
    case Failed => to in {Ingesting, Deleted}
    case Deleted => false
  }

  datatype Event =
    | DocumentRegistered(document: int, tenant: int, collection: int, contentHash: ContentHash)
    | DocumentContentChanged(document: int, tenant: int, newContentHash: ContentHash, version: int)
    | DocumentDeleted(document: int, tenant: int)

  /** The fields of a document that change, and the events it has not handed over yet. */
  datatype Fields = Fields(contentHash: ContentHash, status: DocumentStatus, version: int, updatedAt: int, events: seq<Event>)

  datatype Error = StateTransitionError

  /** The methods of a document, with the clock reading each of them takes. */
  datatype Call = MarkIngesting | MarkIndexed | MarkFailed | ChangeContent(hash: ContentHash) | Delete | PullEvents

  function Target(call: Call): DocumentStatus
    requires call in {MarkIngesting, MarkIndexed, MarkFailed}
  {
    match call
    case MarkIngesting => Ingesting
    case MarkIndexed => Indexed
    case _ => Failed
  }

  predicate Raises(f: Fields, call: Call) {
    match call
    case ChangeContent(_) => f.status == Deleted
    case Delete => false
    case PullEvents => false
    case _ => !Allowed(f.status, Target(call))
  }

  /** The events a call puts on record. */
  function Emitted(document: int, tenant: int, f: Fields, call: Call): seq<Event> {
    match call
    case ChangeContent(hash) =>
      if f.status == Deleted || hash == f.contentHash then []
      else [DocumentContentChanged(document, tenant, hash, f.version + 1)]
    case Delete => if f.status == Deleted then [] else [DocumentDeleted(document, tenant)]
    case _ => []
  }

  /** The batch of events a call hands over. */
  function Pulled(f: Fields, call: Call): seq<Event> {
    if call == PullEvents then f.events else []
  }

  function After(document: int, tenant: int, f: Fields, call: Call, now: int): Fields {
    if Raises(f, call) then f
    else
      match call
      case ChangeContent(hash) =>
        if hash == f.contentHash then f
        else Fields(hash, Registered, f.version + 1, now, f.events + Emitted(document, tenant, f, call))
      case Delete =>
        if f.status == Deleted then f
        else f.(status := Deleted, updatedAt := now, events := f.events + Emitted(document, tenant, f, call))
      case PullEvents => f.(events := [])
      case _ => f.(status := Target(call), updatedAt := now)
  }

  class Document {
    const id: int
    const tenant: int
    const collection: int
    const createdAt: int
    var contentHash: ContentHash
    var status: DocumentStatus
    var version: int
    var updatedAt: int
    var events: seq<Event>

    function State(): Fields
      reads this
    {
      Fields(contentHash, status, version, updatedAt, events)
    }

    constructor Register(id: int, tenant: int, collection: int, contentHash: ContentHash, now: int)
      ensures this.id == id && this.tenant == tenant && this.collection == collection && createdAt == now
      ensures State() == Fields(contentHash, Registered, 1, now,
                                [DocumentRegistered(id, tenant, collection, contentHash)])
    {
      this.id, this.tenant, this.collection, createdAt := id, tenant, collection, now;
      this.contentHash, status, version, updatedAt := contentHash, Registered, 1, now;
      events := [DocumentRegistered(id, tenant, collection, contentHash)];
    }

    method Record(event: Event)
      modifies this`events
      ensures events == old(events) + [event]
    {
      events := events + [event];
    }

    method PullEvents() returns (batch: seq<Event>)
      modifies this`events
      ensures batch == Pulled(old(State()), Call.PullEvents)
      ensures State() == After(id, tenant, old(State()), Call.PullEvents, old(updatedAt))
      ensures batch == old(events) && events == []
    {
      batch, events := events, [];
    }

    method Transition(target: DocumentStatus, now: int) returns (r: Result<(), Error>)
      modifies this`status, this`updatedAt
      ensures r.Err? <==> !Allowed(old(status), target)
      ensures r.Ok? ==> status == target && updatedAt == now
      ensures r.Err? ==> State() == old(State())
    {
      if !Allowed(status, target) {
        return Err(StateTransitionError);
      }
      status, updatedAt := target, now;
      return Ok(());
    }

    /** `mark_ingesting`, `mark_indexed` and `mark_failed`. */
    method Mark(call: Call, now: int) returns (r: Result<(), Error>)
      requires call in {MarkIngesting, MarkIndexed, MarkFailed}
      modifies this`status, this`updatedAt
      ensures r.Err? <==> Raises(old(State()), call)
      ensures State() == After(id, tenant, old(State()), call, now)
      ensures r.Ok? <==> old(status) in if call == MarkIngesting then {Registered, Indexed, Failed} else {Ingesting}
      ensures r.Ok? ==>
                && status == (if call == MarkIngesting then Ingesting else if call == MarkIndexed then Indexed else Failed)
                && updatedAt == now && contentHash == old(contentHash) && version == old(version) && events == old(events)
    {
      r := Transition(Target(call), now);
    }

    method ChangeContent(newHash: ContentHash, now: int) returns (r: Result<(), Error>)
      modifies this
      ensures r.Err? <==> Raises(old(State()), Call.ChangeContent(newHash))
      ensures State() == After(id, tenant, old(State()), Call.ChangeContent(newHash), now)
      ensures r.Ok? && newHash != old(contentHash) ==>
                && contentHash == newHash && status == Registered && version == old(version) + 1 && updatedAt == now
                && events == old(events) + [DocumentContentChanged(id, tenant, newHash, version)]
      ensures r.Err? || newHash == old(contentHash) ==> State() == old(State())
    {
      if status == Deleted {
        return Err(StateTransitionError);
      }
      if newHash == contentHash {
        return Ok(());
      }
      contentHash := newHash;
      version := version + 1;
      status := Registered;
      updatedAt := now;
      Record(DocumentContentChanged(id, tenant, newHash, version));
      return Ok(());
    }

    method Delete(now: int)
      modifies this
      ensures State() == After(id, tenant, old(State()), Call.Delete, now)
      ensures status == Deleted && contentHash == old(contentHash) && version == old(version)
      ensures if old(status) == Deleted then State() == old(State())
              else updatedAt == now && events == old(events) + [DocumentDeleted(id, tenant)]
    {
      if status == Deleted {
        return;
      }
      var r := Transition(Deleted, now);
      Record(DocumentDeleted(id, tenant));
    }
  }

  // ---- The event log over any sequence of calls ----

  datatype TimedCall = TimedCall(call: Call, now: int)

  function Run(document: int, tenant: int, f: Fields, calls: seq<TimedCall>): Fields {
    if calls == [] then f
    else
      var last := calls[|calls| - 1];
      After(document, tenant, Run(document, tenant, f, calls[..|calls| - 1]), last.call, last.now)
  }

  /** Every event put on record during the calls, in order. */
  function History(document: int, tenant: int, f: Fields, calls: seq<TimedCall>): seq<Event> {
    if calls == [] then []
    else
      var before := calls[..|calls| - 1];
      History(document, tenant, f, before)
      + Emitted(document, tenant, Run(document, tenant, f, before), calls[|calls| - 1].call)
  }

  /** The batches handed over during the calls, joined in order. */
  function HandedOver(document: int, tenant: int, f: Fields, calls: seq<TimedCall>): seq<Event> {
    if calls == [] then []
    else
      var before := calls[..|calls| - 1];
      HandedOver(document, tenant, f, before)
      + Pulled(Run(document, tenant, f, before), calls[|calls| - 1].call)
  }

  /** What a reader of the log knows about the document. */
  datatype View = Unknown | Known(contentHash: ContentHash, version: int, deleted: bool)

  function Fold(view: View, event: Event): View {
    match event
    case DocumentRegistered(_, _, _, hash) => Known(hash, 1, false)
    case DocumentContentChanged(_, _, hash, version) => Known(hash, version, view.Known? && view.deleted)
    case DocumentDeleted(_, _) => if view.Known? then view.(deleted := true) else Unknown
  }

  function Replay(log: seq<Event>): View {
    if log == [] then Unknown else Fold(Replay(log[..|log| - 1]), log[|log| - 1])
  }

  function CountChanges(log: seq<Event>): nat {
    if log == [] then 0
    else CountChanges(log[..|log| - 1]) + (if log[|log| - 1].DocumentContentChanged? then 1 else 0)
  }

  lemma {:induction false} CountChangesAppend(log: seq<Event>, event: Event)
    ensures CountChanges(log + [event]) == CountChanges(log) + (if event.DocumentContentChanged? then 1 else 0)
  {
    assert (log + [event])[..|log|] == log;
  }

  lemma {:induction false} ReplayAppend(log: seq<Event>, event: Event)
    ensures Replay(log + [event]) == Fold(Replay(log), event)
  {
    assert (log + [event])[..|log|] == log;
  }

  /** A deletion can only be the last event. */
  predicate DeletionIsLast(log: seq<Event>) {
    forall i :: 0 <= i < |log| - 1 ==> !log[i].DocumentDeleted?
  }

  /** The log describes the document. */
  predicate Describes(log: seq<Event>, f: Fields) {
    && log != []
    && Replay(log) == Known(f.contentHash, f.version, f.status == Deleted)
    && f.version == 1 + CountChanges(log)
    && DeletionIsLast(log)
    && (f.status == Deleted <==> log[|log| - 1].DocumentDeleted?)
  }

  lemma {:induction false} EmittedDescribes(document: int, tenant: int, log: seq<Event>, f: Fields, call: Call, now: int)
    requires Describes(log, f)
    ensures Describes(log + Emitted(document, tenant, f, call), After(document, tenant, f, call, now))
  {
    var emitted := Emitted(document, tenant, f, call);
    if emitted == [] {
      assert log + emitted == log;
    } else {
      assert emitted == [emitted[0]];
      ReplayAppend(log, emitted[0]);
      CountChangesAppend(log, emitted[0]);
    }
  }

  function RegisteredFields(document: int, tenant: int, collection: int, hash: ContentHash, now: int): Fields {
    Fields(hash, Registered, 1, now, [DocumentRegistered(document, tenant, collection, hash)])
  }

  /** The batches handed over and the pending events are exactly the log, which describes the
      document. */
  predicate Accounts(handed: seq<Event>, log: seq<Event>, f: Fields) {
    handed + f.events == log && Describes(log, f)
  }

  /** Over any sequence of calls on a newly registered document, the batches handed over followed
      by the pending events are the whole history, with nothing lost or repeated, and replaying
      the history gives the content hash, the version and whether the document is
      deleted; there is at most one deletion and nothing after it. */
  lemma {:induction false} LogReplaysToState(document: int, tenant: int, collection: int, hash: ContentHash, now: int,
                                             calls: seq<TimedCall>)
    ensures var f := RegisteredFields(document, tenant, collection, hash, now);
            Accounts(HandedOver(document, tenant, f, calls), f.events + History(document, tenant, f, calls),
                     Run(document, tenant, f, calls))
  {
    var f0 := RegisteredFields(document, tenant, collection, hash, now);
    if calls == [] {
      RegistrationAccounts(document, tenant, collection, hash, now);
      assert f0.events + [] == f0.events;
    } else {
      var before, last := calls[..|calls| - 1], calls[|calls| - 1];
      LogReplaysToState(document, tenant, collection, hash, now, before);
      CallAccounts(HandedOver(document, tenant, f0, before), f0.events + History(document, tenant, f0, before),
                   document, tenant, Run(document, tenant, f0, before), last.call, last.now);
      Reassociate(f0.events, History(document, tenant, f0, before),
                  Emitted(document, tenant, Run(document, tenant, f0, before), last.call));
    }
  }

  lemma {:induction false} RegistrationAccounts(document: int, tenant: int, collection: int, hash: ContentHash, now: int)
    ensures var f := RegisteredFields(document, tenant, collection, hash, now); Accounts([], f.events, f)
  {
    var f := RegisteredFields(document, tenant, collection, hash, now);
    ReplayAppend([], f.events[0]);
    CountChangesAppend([], f.events[0]);
    assert [] + [f.events[0]] == f.events;
  }

  lemma {:induction false} CallAccounts(handed: seq<Event>, log: seq<Event>, document: int, tenant: int,
                                        f: Fields, call: Call, now: int)
    requires Accounts(handed, log, f)
    ensures Accounts(handed + Pulled(f, call), log + Emitted(document, tenant, f, call),
                     After(document, tenant, f, call, now))
  {
    EmittedDescribes(document, tenant, log, f, call, now);
    HandOverStep(handed, document, tenant, f, call, now);
  }

  lemma {:induction false} HandOverStep(handed: seq<Event>, document: int, tenant: int, f: Fields, call: Call, now: int)
    ensures handed + Pulled(f, call) + After(document, tenant, f, call, now).events
         == handed + f.events + Emitted(document, tenant, f, call)
  {
    if call == PullEvents {
      assert f.events + [] == f.events;
    }
  }

  /** Every event is about the document. */
  predicate About(log: seq<Event>, document: int, tenant: int) {
    forall i :: 0 <= i < |log| ==> log[i].document == document && log[i].tenant == tenant
  }

  /** Every event of the history is about the document, and so is every one that is handed over. */
  lemma {:induction false} HistoryIsAbout(document: int, tenant: int, f: Fields, calls: seq<TimedCall>)
    ensures About(History(document, tenant, f, calls), document, tenant)
  {
    if calls != [] {
      HistoryIsAbout(document, tenant, f, calls[..|calls| - 1]);
    }
  }
}

/** The chunks table and its repository, which the saga sees as one sequence of chunks a document. */
module ChunkRepository {
  import opened Wrappers
  import opened Saga
  import opened SagaInvariant
  import opened SagaSteps

  predicate Owned(row: ChunkRow, tenant: int, document: int) {
    row.tenant == tenant && row.document == document
  }

  /** The rows that DELETE ... WHERE tenant_id = ... AND document_id = ... leaves. */
  function Kept(rows: seq<ChunkRow>, tenant: int, document: int): (r: seq<ChunkRow>)
    ensures |r| <= |rows|
  {
    if rows == [] then []
    else
      var n := |rows| - 1;
      Kept(rows[..n], tenant, document) + (if Owned(rows[n], tenant, document) then [] else [rows[n]])
  }

  function Replaced(rows: seq<ChunkRow>, tenant: int, document: int, chunks: seq<ChunkRow>): seq<ChunkRow> {
    Kept(rows, tenant, document) + chunks
  }

  /** The unique key of the table. */
  predicate UniqueOrdinals(rows: seq<ChunkRow>) {
    forall i, j :: 0 <= i < j < |rows| ==> rows[i].document != rows[j].document || rows[i].ordinal != rows[j].ordinal
  }

  datatype Error = IntegrityError

  class Repository {
    var rows: seq<ChunkRow>

    constructor ()
      ensures rows == []
    {
      rows := [];
    }

    method DeleteForDocument(tenant: int, document: int)
      modifies this
      ensures rows == Kept(old(rows), tenant, document)
    {
      var left: seq<ChunkRow> := [];
      for i := 0 to |rows|
        invariant rows == old(rows)
        invariant left == Kept(rows[..i], tenant, document)
      {
        assert rows[..i + 1][..i] == rows[..i];
        if !Owned(rows[i], tenant, document) {
          left := left + [rows[i]];
        }
      }
      assert rows[..|rows|] == rows;
      rows := left;
    }

    /** Deletes and inserts in one transaction; a violation of the unique key rolls both back. */
    method ReplaceForDocument(tenant: int, document: int, chunks: seq<ChunkRow>) returns (r: Result<(), Error>)
      modifies this
      ensures r.Ok? <==> UniqueOrdinals(Replaced(old(rows), tenant, document, chunks))
      ensures rows == if r.Ok? then Replaced(old(rows), tenant, document, chunks) else old(rows)
    {
      var before := rows;
      DeleteForDocument(tenant, document);
      for i := 0 to |chunks|
        invariant rows == Kept(before, tenant, document) + chunks[..i]
      {
        assert chunks[..i + 1] == chunks[..i] + [chunks[i]];
        rows := rows + [chunks[i]];
      }
      assert chunks[..|chunks|] == chunks;
      if !UniqueOrdinals(rows) {
        rows := before;
        return Err(IntegrityError);
      }
      return Ok(());
    }
  }

  // ---- The rows of a document ----

  function Of(rows: seq<ChunkRow>, document: int): seq<ChunkRow> {
    if rows == [] then []
    else
      var n := |rows| - 1;
      Of(rows[..n], document) + (if rows[n].document == document then [rows[n]] else [])
  }

  ghost predicate Ascending(rows: seq<ChunkRow>) {
    forall i, j :: 0 <= i < j < |rows| ==> rows[i].ordinal < rows[j].ordinal
  }

  /** What SELECT ... WHERE tenant_id = ... AND document_id = ... ORDER BY ordinal may return. */
  ghost predicate IsListing(rows: seq<ChunkRow>, tenant: int, document: int, listing: seq<ChunkRow>) {
    && (forall row :: row in listing <==> row in rows && Owned(row, tenant, document))
    && Ascending(listing)
  }

  lemma {:induction false} KeptHas(rows: seq<ChunkRow>, tenant: int, document: int, row: ChunkRow)
    ensures row in Kept(rows, tenant, document) <==> row in rows && !Owned(row, tenant, document)
  {
    if rows != [] {
      var n := |rows| - 1;
      KeptHas(rows[..n], tenant, document, row);
      assert rows == rows[..n] + [rows[n]];
    }
  }

  /** A listing is determined by the table. */
  lemma {:induction false} ListingIsUnique(rows: seq<ChunkRow>, tenant: int, document: int, l1: seq<ChunkRow>, l2: seq<ChunkRow>)
    requires IsListing(rows, tenant, document, l1) && IsListing(rows, tenant, document, l2)
    ensures l1 == l2
  {
    SortedSame(l1, l2);
  }

  ghost predicate SameRows(a: seq<ChunkRow>, b: seq<ChunkRow>) {
    forall row :: row in a <==> row in b
  }

  lemma {:induction false} AtMostLast(a: seq<ChunkRow>, i: nat)
    requires Ascending(a) && i < |a|
    ensures a[i].ordinal <= a[|a| - 1].ordinal
  {
  }

  lemma {:induction false} LastsAgree(a: seq<ChunkRow>, b: seq<ChunkRow>)
    requires Ascending(a) && Ascending(b) && SameRows(a, b) && a != []
    ensures b != [] && a[|a| - 1] == b[|b| - 1]
  {
    var n, m := |a| - 1, |b| - 1;
    assert a[n] in b;
    assert b[m] in a;
    var i :| 0 <= i <= n && a[i] == b[m];
    var j :| 0 <= j <= m && b[j] == a[n];
    AtMostLast(a, i);
    AtMostLast(b, j);
  }

  lemma {:induction false} WithoutLast(a: seq<ChunkRow>, row: ChunkRow)
    requires a != [] && Ascending(a)
    ensures row in a[..|a| - 1] <==> row in a && row != a[|a| - 1]
  {
    assert a == a[..|a| - 1] + [a[|a| - 1]];
  }

  lemma {:induction false} SortedSame(a: seq<ChunkRow>, b: seq<ChunkRow>)
    requires Ascending(a) && Ascending(b) && SameRows(a, b)
    ensures a == b
  {
    assert b != [] ==> b[0] in b;
    if a != [] {
      LastsAgree(a, b);
      var n, m := |a| - 1, |b| - 1;
      forall row ensures row in a[..n] <==> row in b[..m] {
        WithoutLast(a, row);
        WithoutLast(b, row);
      }
      SortedSame(a[..n], b[..m]);
      assert a == a[..n] + [a[n]] && b == b[..m] + [b[m]];
    }
  }

  /** The chunks a document is given: of that document and tenant, with ascending ordinals. */
  ghost predicate AreChunksOf(chunks: seq<ChunkRow>, tenant: int, document: int) {
    && (forall i :: 0 <= i < |chunks| ==> Owned(chunks[i], tenant, document))
    && Ascending(chunks)
  }

  /** After a replacement the document lists exactly the new chunks, in order, whatever it had
      before; every other document and tenant lists what it did. */
  lemma {:induction false} ReplaceThenList(rows: seq<ChunkRow>, tenant: int, document: int, chunks: seq<ChunkRow>,
                                           t: int, d: int, listing: seq<ChunkRow>)
    requires AreChunksOf(chunks, tenant, document)
    ensures IsListing(Replaced(rows, tenant, document, chunks), t, d, listing)
       <==> if t == tenant && d == document then listing == chunks else IsListing(rows, t, d, listing)
  {
    var after := Replaced(rows, tenant, document, chunks);
    forall row ensures row in after && Owned(row, t, d)
      <==> if t == tenant && d == document then row in chunks else row in rows && Owned(row, t, d)
    {
      KeptHas(rows, tenant, document, row);
    }
    if t == tenant && d == document {
      assert IsListing(after, t, d, chunks);
      if IsListing(after, t, d, listing) {
        ListingIsUnique(after, t, d, listing, chunks);
      }
    }
  }

  /** Replacing again with the same chunks changes nothing. */
  lemma {:induction false} ReplaceIsIdempotent(rows: seq<ChunkRow>, tenant: int, document: int, chunks: seq<ChunkRow>)
    requires AreChunksOf(chunks, tenant, document)
    ensures Replaced(Replaced(rows, tenant, document, chunks), tenant, document, chunks)
         == Replaced(rows, tenant, document, chunks)
  {
    hide Kept;
    var kept := Kept(rows, tenant, document);
    KeptConcat(kept, chunks, tenant, document);
    KeptTwice(rows, tenant, document);
    KeptNone(chunks, tenant, document);
    assert kept + [] == kept;
  }

  lemma {:induction false} KeptTwice(rows: seq<ChunkRow>, tenant: int, document: int)
    ensures Kept(Kept(rows, tenant, document), tenant, document) == Kept(rows, tenant, document)
  {
    hide Kept;
    var kept := Kept(rows, tenant, document);
    forall i | 0 <= i < |kept| ensures !Owned(kept[i], tenant, document) {
      KeptHas(rows, tenant, document, kept[i]);
    }
    KeptAll(kept, tenant, document);
  }

  lemma {:induction false} KeptConcat(a: seq<ChunkRow>, b: seq<ChunkRow>, tenant: int, document: int)
    ensures Kept(a + b, tenant, document) == Kept(a, tenant, document) + Kept(b, tenant, document)
  {
    if b == [] {
      assert a + b == a;
    } else {
      var n := |b| - 1;
      assert (a + b)[..|a + b| - 1] == a + b[..n];
      KeptConcat(a, b[..n], tenant, document);
    }
  }

  lemma {:induction false} KeptAll(rows: seq<ChunkRow>, tenant: int, document: int)
    requires forall i :: 0 <= i < |rows| ==> !Owned(rows[i], tenant, document)
    ensures Kept(rows, tenant, document) == rows
  {
    if rows != [] {
      KeptAll(rows[..|rows| - 1], tenant, document);
    }
  }

  lemma {:induction false} KeptNone(rows: seq<ChunkRow>, tenant: int, document: int)
    requires forall i :: 0 <= i < |rows| ==> Owned(rows[i], tenant, document)
    ensures Kept(rows, tenant, document) == []
  {
    if rows != [] {
      KeptNone(rows[..|rows| - 1], tenant, document);
    }
  }

  // ---- The saga's view of the table ----

  function StoredFor(chunks: map<int, seq<ChunkRow>>, document: int): seq<ChunkRow> {
    if document in chunks then chunks[document] else []
  }

  /** The table holds the chunks that the saga says each document has. */
  ghost predicate Represents(rows: seq<ChunkRow>, chunks: map<int, seq<ChunkRow>>) {
    UniqueOrdinals(rows) && forall d :: Of(rows, d) == StoredFor(chunks, d)
  }

  lemma {:induction false} OfConcat(a: seq<ChunkRow>, b: seq<ChunkRow>, d: int)
    ensures Of(a + b, d) == Of(a, d) + Of(b, d)
  {
    if b == [] {
      assert a + b == a;
    } else {
      var n := |b| - 1;
      assert (a + b)[..|a + b| - 1] == a + b[..n];
      OfConcat(a, b[..n], d);
    }
  }

  lemma {:induction false} OfChunks(chunks: seq<ChunkRow>, document: int, d: int)
    requires forall i :: 0 <= i < |chunks| ==> chunks[i].document == document
    ensures Of(chunks, d) == if d == document then chunks else []
  {
    if chunks != [] {
      OfChunks(chunks[..|chunks| - 1], document, d);
    }
  }

  lemma {:induction false} OfHas(rows: seq<ChunkRow>, d: int, row: ChunkRow)
    ensures row in Of(rows, d) <==> row in rows && row.document == d
  {
    if rows != [] {
      var n := |rows| - 1;
      OfHas(rows[..n], d, row);
      assert rows == rows[..n] + [rows[n]];
    }
  }

  lemma {:induction false} OfKept(rows: seq<ChunkRow>, tenant: int, document: int, d: int)
    requires forall row :: row in Of(rows, document) ==> row.tenant == tenant
    ensures Of(Kept(rows, tenant, document), d) == if d == document then [] else Of(rows, d)
  {
    if rows != [] {
      var n := |rows| - 1;
      forall row | row in Of(rows[..n], document) ensures row.tenant == tenant {
        OfHas(rows, document, row);
        OfHas(rows[..n], document, row);
      }
      OfKept(rows[..n], tenant, document, d);
      OfHas(rows, document, rows[n]);
      OfConcat(Kept(rows[..n], tenant, document), if Owned(rows[n], tenant, document) then [] else [rows[n]], d);
      OfChunks([rows[n]], rows[n].document, d);
    }
  }

  lemma {:induction false} KeptUnique(rows: seq<ChunkRow>, tenant: int, document: int)
    requires UniqueOrdinals(rows)
    ensures UniqueOrdinals(Kept(rows, tenant, document))
  {
    if rows != [] {
      var n := |rows| - 1;
      KeptUnique(rows[..n], tenant, document);
      var kept := Kept(rows[..n], tenant, document);
      forall i | 0 <= i < |kept| ensures kept[i].document != rows[n].document || kept[i].ordinal != rows[n].ordinal {
        KeptHas(rows[..n], tenant, document, kept[i]);
        var j :| 0 <= j < n && rows[j] == kept[i];
      }
    }
  }

  lemma {:induction false} ReplacedUnique(rows: seq<ChunkRow>, tenant: int, document: int, chunks: seq<ChunkRow>)
    requires UniqueOrdinals(rows) && AreChunksOf(chunks, tenant, document)
    requires forall row :: row in Of(rows, document) ==> row.tenant == tenant
    ensures UniqueOrdinals(Replaced(rows, tenant, document, chunks))
  {
    var kept := Kept(rows, tenant, document);
    KeptUnique(rows, tenant, document);
    OfKept(rows, tenant, document, document);
    forall i | 0 <= i < |kept| ensures kept[i].document != document {
      OfHas(kept, document, kept[i]);
    }
  }

  lemma {:induction false} OfReplaced(rows: seq<ChunkRow>, tenant: int, document: int, chunks: seq<ChunkRow>, d: int)
    requires AreChunksOf(chunks, tenant, document)
    requires forall row :: row in Of(rows, document) ==> row.tenant == tenant
    ensures Of(Replaced(rows, tenant, document, chunks), d) == if d == document then chunks else Of(rows, d)
  {
    OfKept(rows, tenant, document, d);
    OfConcat(Kept(rows, tenant, document), chunks, d);
    OfChunks(chunks, document, d);
  }

  lemma {:induction false} ReplaceRepresents(rows: seq<ChunkRow>, view: map<int, seq<ChunkRow>>, tenant: int, document: int,
                                             chunks: seq<ChunkRow>)
    requires Represents(rows, view) && AreChunksOf(chunks, tenant, document)
    requires forall row :: row in StoredFor(view, document) ==> row.tenant == tenant
    ensures Represents(Replaced(rows, tenant, document, chunks), view[document := chunks])
  {
    var replaced := Replaced(rows, tenant, document, chunks);
    assert Of(rows, document) == StoredFor(view, document);
    assert UniqueOrdinals(replaced) by {
      ReplacedUnique(rows, tenant, document, chunks);
    }
    forall d ensures Of(replaced, d) == StoredFor(view[document := chunks], d) {
      OfReplaced(rows, tenant, document, chunks, d);
    }
  }

  lemma {:induction false} StoredTenant(env: Env, s: State, d: int)
    requires d in s.docs && DocOk(env, s, d)
    ensures forall row :: row in StoredFor(s.chunks, d) ==> row.tenant == s.docs[d].tenant
  {
  }

  lemma {:induction false} ChunkSetIsOwned(env: Env, document: int, tenant: int, collection: int, version: int, text: string)
    ensures AreChunksOf(ChunkSet(env, document, tenant, collection, version, text), tenant, document)
  {
  }

  /** The transaction that stores the chunks of a document does to the table what the saga's step
      says, and it cannot violate the unique key. */
  lemma {:induction false} IndexStoresTheChunks(env: Env, s: State, w: int, rows: seq<ChunkRow>)
    requires Inv(env, s) && Enabled(s, Index(w)) && Accepted(env, s.workers[w].point.text)
    requires Represents(rows, s.chunks)
    ensures var job := Head(s, w);
            var chunks := ChunkSet(env, job.key.document, job.tenant, job.collection, job.key.version, s.workers[w].point.text);
            Represents(Replaced(rows, job.tenant, job.key.document, chunks), AfterIndex(env, s, w).chunks)
  {
    HeadFacts(env, s, w);
    var job, text := Head(s, w), s.workers[w].point.text;
    var d := job.key.document;
    StoredTenant(env, s, d);
    ChunkSetIsOwned(env, d, job.tenant, job.collection, job.key.version, text);
    ReplaceRepresents(rows, s.chunks, job.tenant, d, ChunkSet(env, d, job.tenant, job.collection, job.key.version, text));
  }
}

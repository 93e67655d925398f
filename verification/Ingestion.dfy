/** The saga with the chunker and the embedding model that the worker is built with. */
module Ingestion {
  import opened Text
  import opened RecursiveSplit
  import opened Packing
  import opened Chunker
  import opened Documents
  import opened Saga
  import opened SagaInvariant
  import opened SagaSteps
  import opened SagaRuns
  import opened SagaOutcomes
  import H = HashingEmbedding

  function LocalEnv(c: Config, m: H.Model): Env
    requires c.Valid() && m.Valid()
  {
    Env(text => if c.Valid() then ChunkTexts(c, text) else [], text => if m.Valid() then H.Embed(m, text) else [])
  }

  /** `Chunk.create` never raises on what the chunker returns. */
  lemma {:induction false} EverythingIsAccepted(c: Config, m: H.Model, text: string)
    requires c.Valid() && m.Valid()
    ensures Accepted(LocalEnv(c, m), text)
  {
    SplitIsSound(c, text);
    forall i | 0 <= i < |ChunkTexts(c, text)| ensures !Blank(ChunkTexts(c, text)[i]) {
      assert Sound(c, ChunkTexts(c, text)[i]);
    }
  }

  /** An attempt can complete if and only if it finds its document REGISTERED or INDEXED; no text
      can make it fail. */
  lemma {:induction false} AttemptsNeverFailOnText(c: Config, m: H.Model, s: State, w: int)
    requires c.Valid() && m.Valid() && Inv(LocalEnv(c, m), s) && WorkingAt(s, w, AtStart)
    ensures var job := Head(s, w);
            job.key.document in s.docs
            && (CanComplete(LocalEnv(c, m), s, job.key) <==> s.docs[job.key.document].status in {Registered, Indexed})
  {
    var d := Head(s, w).key.document;
    if d in s.content {
      EverythingIsAccepted(c, m, s.content[d].text);
    }
    AttemptCompletesExactlyWhen(LocalEnv(c, m), s, w);
  }

  function Texts(rows: seq<ChunkRow>): seq<string> {
    seq(|rows|, i requires 0 <= i < |rows| => rows[i].text)
  }

  /** In every reachable state, the chunks of an indexed document hold the very text whose digest
      it was registered with: taking the overlaps out gives it back but for whitespace and full
      stops. Every chunk has ink, is at most `Limit(c)` characters long, starts with the end of the
      one before it and has an embedding of the model's dimension and of length one. */
  lemma {:induction false} IndexHoldsTheDocument(c: Config, m: H.Model, states: seq<State>, steps: seq<Step>, i: nat, d: int)
    requires c.Valid() && m.Valid() && H.RootsAreExact(m)
    requires IsRun(LocalEnv(c, m), states, steps) && i < |states|
    requires d in states[i].docs && states[i].docs[d].status == Indexed
    ensures var s := states[i];
            && d in s.content && d in s.chunks && s.docs[d].hash == OfText(s.content[d].text)
            && (var texts := Texts(s.chunks[d]);
                && NoDots(Reassembled(c, texts)) == NoDots(Ink(s.content[d].text))
                && (forall n :: 0 <= n < |texts| ==> Sound(c, texts[n]))
                && Overlapping(c, texts))
            && (forall n :: 0 <= n < |s.chunks[d]| ==>
                  |s.chunks[d][n].embedding| == m.dimension && H.SumSquares(s.chunks[d][n].embedding) == 1.0)
  {
    var s, env := states[i], LocalEnv(c, m);
    RunKeepsInv(env, states, steps, i);
    assert DocOk(env, s, d);
    IndexConsistent(env, states, steps, i, d);
    var text := s.content[d].text;
    assert Texts(s.chunks[d]) == ChunkTexts(c, text);
    SplitRecoversText(c, text);
    SplitIsSound(c, text);
    SplitOverlaps(c, text);
    forall n | 0 <= n < |s.chunks[d]|
      ensures |s.chunks[d][n].embedding| == m.dimension && H.SumSquares(s.chunks[d][n].embedding) == 1.0
    {
      H.EmbeddingIsUnit(m, env.pieces(text)[n]);
    }
  }
}

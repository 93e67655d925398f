/** `RecursiveCharacterChunker.split` and the chunks built from what it returns. */
module Chunker {
  import opened Text
  import opened Wrappers
  import opened RecursiveSplit
  import opened Packing

  datatype TextPiece = TextPiece(ordinal: nat, text: string)

  /** The chunk texts of a document. */
  function ChunkTexts(c: Config, text: string): seq<string>
    requires c.Valid()
  {
    var normalized := Strip(text);
    if normalized == "" then [] else Chunks(PackAll(c, Fragments(c, normalized, 0)))
  }

  function Enumerated(texts: seq<string>): seq<TextPiece> {
    seq(|texts|, i requires 0 <= i < |texts| => TextPiece(i, texts[i]))
  }

  method Split(c: Config, text: string) returns (pieces: seq<TextPiece>)
    requires c.Valid()
    ensures pieces == Enumerated(ChunkTexts(c, text))
  {
    var normalized := Strip(text);
    if normalized == "" {
      return [];
    }
    var fragments := SplitRecursively(c, normalized, 0);
    var merged := Merge(c, fragments);
    pieces := Enumerated(merged);
  }

  // ---- What every split guarantees ----

  /** Every stored piece has ink and is at most `Limit(c)` long; only blank text has no pieces. */
  lemma {:induction false} SplitIsSound(c: Config, text: string)
    requires c.Valid()
    ensures forall i :: 0 <= i < |ChunkTexts(c, text)| ==> Sound(c, ChunkTexts(c, text)[i])
    ensures ChunkTexts(c, text) == [] <==> Blank(text)
  {
    var normalized := Strip(text);
    StripBlank(text);
    if normalized != "" {
      var fragments := Fragments(c, normalized, 0);
      FragmentsFit(c, normalized, 0);
      PackAllPacked(c, fragments);
      SplitConserves(c, normalized, 0);
      InkStrip(text);
      InkBlank(text);
      SoundChunks(c, PackAll(c, fragments));
    }
  }

  lemma {:induction false} SoundChunks(c: Config, p: Packing)
    requires c.Valid() && Packed(c, p) && !Blank(p.current)
    ensures Chunks(p) != [] && forall i :: 0 <= i < |Chunks(p)| ==> Sound(c, Chunks(p)[i])
  {
    assert Sound(c, p.current);
  }

  /** Consecutive pieces overlap: each one starts with the last `overlap` characters of the one
      before it, apart from whitespace at the start of those. */
  lemma {:induction false} SplitOverlaps(c: Config, text: string)
    requires c.Valid()
    ensures Overlapping(c, ChunkTexts(c, text))
  {
    var normalized := Strip(text);
    if normalized != "" {
      FragmentsFit(c, normalized, 0);
      PackAllOverlaps(c, Fragments(c, normalized, 0));
      OverlappingPrefix(c, PackAll(c, Fragments(c, normalized, 0)));
    }
  }

  lemma {:induction false} OverlappingPrefix(c: Config, p: Packing)
    requires c.Valid() && Overlapping(c, p.All())
    ensures Overlapping(c, Chunks(p))
  {
    if p.current == "" {
      forall i | 1 <= i < |p.chunks| ensures Continues(c, p.chunks[i - 1], p.chunks[i]) {
        assert Continues(c, p.All()[i - 1], p.All()[i]);
      }
    }
  }

  /** The pieces of a text are the greedy packing of its fragments, and nothing else is. */
  lemma {:induction false} SplitPacksExactlyWhen(c: Config, text: string, chunks: seq<string>)
    requires c.Valid() && !Blank(text)
    ensures chunks == ChunkTexts(c, text) <==> PacksGreedily(c, Fragments(c, Strip(text), 0), chunks)
  {
    hide PacksGreedily;
    NormalizedIsPackable(c, text);
    MergeExactlyWhen(c, Fragments(c, Strip(text), 0), chunks);
  }

  lemma {:induction false} NormalizedIsPackable(c: Config, text: string)
    requires c.Valid() && !Blank(text)
    ensures Strip(text) != "" && Packable(c, Fragments(c, Strip(text), 0))
  {
    var normalized := Strip(text);
    StripBlank(text);
    InkStrip(text);
    InkBlank(text);
    FragmentsFit(c, normalized, 0);
    SplitConserves(c, normalized, 0);
  }

  /** A text that fits in a chunk is one piece. */
  lemma {:induction false} ShortTextIsOnePiece(c: Config, text: string)
    requires c.Valid() && !Blank(text) && |Strip(text)| <= c.size
    ensures ChunkTexts(c, text) == [Strip(text)]
  {
    NormalizedIsPackable(c, text);
    OneChunkIfAllFit(c, [Strip(text)]);
    assert Filled("", [Strip(text)]) == Strip(text) by {
      assert [Strip(text)][..0] == [];
    }
  }

  /** Some line of some paragraph is longer than a chunk. */
  predicate LongLine(c: Config, text: string) {
    |text| > c.size && exists i :: 0 <= i < |Parts(text, 0)| && LongLineIn(c, Piece(Parts(text, 0)[i], 0))
  }

  predicate LongLineIn(c: Config, paragraph: string) {
    |paragraph| > c.size && exists i :: 0 <= i < |Parts(paragraph, 1)| && |Piece(Parts(paragraph, 1)[i], 1)| > c.size
  }

  /** The source text can be recovered from its pieces by taking the overlaps out: nothing but
      whitespace and full stops is lost, added or moved, and the non-whitespace text is recovered
      exactly if and only if no line is longer than a chunk. */
  lemma {:induction false} SplitRecoversText(c: Config, text: string)
    requires c.Valid()
    ensures var recovered := Reassembled(c, ChunkTexts(c, text));
            && NoDots(recovered) == NoDots(Ink(text))
            && |recovered| == |Ink(text)| + SentenceSplits(c, Strip(text), 0)
            && (recovered == Ink(text) <==> !LongLine(c, Strip(text)))
  {
    var normalized := Strip(text);
    InkStrip(text);
    LongLinesAreSplit(c, normalized);
    if normalized != "" {
      NormalizedIsRecovered(c, normalized);
    }
  }

  lemma {:induction false} NormalizedIsRecovered(c: Config, normalized: string)
    requires c.Valid() && normalized != ""
    ensures Conserves(Ink(normalized), Reassembled(c, Chunks(PackAll(c, Fragments(c, normalized, 0)))),
                      SentenceSplits(c, normalized, 0))
  {
    FragmentsFit(c, normalized, 0);
    MergeReassembles(c, Fragments(c, normalized, 0));
    SplitConserves(c, normalized, 0);
  }

  lemma {:induction false} LongLinesAreSplit(c: Config, text: string)
    requires c.Valid()
    ensures SentenceSplits(c, text, 0) > 0 <==> LongLine(c, text)
  {
    if |text| > c.size {
      var parts := Parts(text, 0);
      SomePartSplit(c, parts, 0);
      forall i | 0 <= i < |parts|
        ensures PartSplits(c, parts[i], 0) <==> LongLineIn(c, Piece(parts[i], 0))
      {
        LongLinesInParagraph(c, Piece(parts[i], 0));
      }
    }
  }

  lemma {:induction false} LongLinesInParagraph(c: Config, paragraph: string)
    requires c.Valid()
    ensures SentenceSplits(c, paragraph, 1) > 0 <==> LongLineIn(c, paragraph)
  {
    if |paragraph| > c.size {
      var parts := Parts(paragraph, 1);
      SomePartSplit(c, parts, 1);
      assert forall i :: 0 <= i < |parts| ==>
        (PartSplits(c, parts[i], 1) <==> |Piece(parts[i], 1)| > c.size);
    }
  }

  lemma {:induction false} SomePartSplit(c: Config, parts: seq<string>, level: nat)
    requires c.Valid() && level < LEVELS
    ensures PartsSentenceSplits(c, parts, level) > 0
       <==> exists i :: 0 <= i < |parts| && PartSplits(c, parts[i], level)
  {
    if parts != [] {
      var n := |parts| - 1;
      var init := parts[..n];
      SomePartSplit(c, init, level);
      if PartsSentenceSplits(c, init, level) > 0 {
        var i :| 0 <= i < n && PartSplits(c, init[i], level);
        assert PartSplits(c, parts[i], level);
      } else {
        assert forall i :: 0 <= i < n ==> init[i] == parts[i] && !PartSplits(c, init[i], level);
      }
    }
  }

  predicate PartSplits(c: Config, part: string, level: nat)
    requires c.Valid() && level < LEVELS
  {
    SentenceSplits(c, Piece(part, level), level + 1) > 0
  }

  // ---- The size bound is tight ----

  function Run(ch: char, n: nat): string {
    seq(n, _ => ch)
  }

  /** Two paragraphs that each fill a chunk exactly. */
  function TwoFullParagraphs(c: Config): string
    requires c.Valid()
  {
    Run('a', c.size) + "\n\n" + Run('b', c.size)
  }

  lemma {:induction false} NoBreakAt(text: string, j: nat)
    requires j < |text| && text[j] != '\n'
    ensures !OccursAt(text, "\n\n", j)
  {
    assert j + 2 <= |text| ==> text[j..j + 2][0] == text[j];
  }

  lemma {:induction false} FindNothing(b: string)
    requires forall i :: 0 <= i < |b| ==> b[i] != '\n'
    ensures Find(b, "\n\n", 0) == -1
  {
    forall j | 0 <= j < |b| ensures !OccursAt(b, "\n\n", j) {
      NoBreakAt(b, j);
    }
  }

  lemma {:induction false} FindBetween(a: string, b: string)
    requires forall i :: 0 <= i < |a| ==> a[i] != '\n'
    ensures Find(a + "\n\n" + b, "\n\n", 0) == |a|
  {
    var text := a + "\n\n" + b;
    assert OccursAt(text, "\n\n", |a|);
    forall j | 0 <= j < |a| ensures !OccursAt(text, "\n\n", j) {
      assert text[j] == a[j];
      NoBreakAt(text, j);
    }
  }

  lemma {:induction false} SplitTwoParagraphs(a: string, b: string)
    requires forall i :: 0 <= i < |a| ==> a[i] != '\n'
    requires forall i :: 0 <= i < |b| ==> b[i] != '\n'
    ensures SplitOn(a + "\n\n" + b, "\n\n") == [a, b]
  {
    var text := a + "\n\n" + b;
    FindBetween(a, b);
    FindNothing(b);
    assert text[..|a|] == a && text[|a| + 2..] == b;
    assert SplitOn(b, "\n\n") == [b];
  }

  lemma {:induction false} ParagraphPiece(s: string)
    requires s != "" && !IsSpace(s[|s| - 1])
    ensures Piece(s, 0) == s
  {
    assert Blank("\n\n");
    RStripDropsBlank(s, "\n\n");
    assert RStrip(s) == s;
    assert Separator(0) == "\n\n";
  }

  lemma {:induction false} OnePart(c: Config, a: string, level: nat)
    requires c.Valid() && level < LEVELS
    ensures PartsFragments(c, [a], level) == PartFragments(c, a, level)
  {
    PartsFragmentsStep(c, [a], 0, level);
    assert [a][..0] == [] && [a][..1] == [a];
    NoParts(c, level);
  }

  lemma {:induction false} NoParts(c: Config, level: nat)
    requires c.Valid() && level < LEVELS
    ensures PartsFragments(c, [], level) == []
  {
  }

  lemma {:induction false} TwoParts(c: Config, a: string, b: string, level: nat)
    requires c.Valid() && level < LEVELS
    ensures PartsFragments(c, [a, b], level) == PartFragments(c, a, level) + PartFragments(c, b, level)
  {
    OnePart(c, a, level);
    PartsFragmentsStep(c, [a, b], 1, level);
    assert [a, b][..1] == [a] && [a, b][..2] == [a, b];
  }

  /** A paragraph that fits and ends in ink is a fragment as it is. */
  lemma {:induction false} ParagraphFragment(c: Config, s: string)
    requires c.Valid() && s != "" && |s| <= c.size && !IsSpace(s[|s| - 1])
    ensures PartFragments(c, s, 0) == [s]
  {
    ParagraphPiece(s);
  }

  lemma {:induction false} TwoParagraphsFragments(c: Config)
    requires c.Valid()
    ensures Fragments(c, TwoFullParagraphs(c), 0) == [Run('a', c.size), Run('b', c.size)]
  {
    var a, b := Run('a', c.size), Run('b', c.size);
    SplitTwoParagraphs(a, b);
    assert Parts(TwoFullParagraphs(c), 0) == [a, b];
    TwoParts(c, a, b, 0);
    ParagraphFragment(c, a);
    ParagraphFragment(c, b);
  }

  /** For every configuration some document has a piece of exactly `Limit(c)` characters. */
  lemma {:induction false} LimitIsReached(c: Config)
    requires c.Valid()
    ensures exists i :: 0 <= i < |ChunkTexts(c, TwoFullParagraphs(c))|
                     && |ChunkTexts(c, TwoFullParagraphs(c))[i]| == Limit(c)
  {
    TwoParagraphsChunks(c);
    var i := if c.overlap == 0 then 0 else 1;
    assert |ChunkTexts(c, TwoFullParagraphs(c))[i]| == Limit(c);
  }

  lemma {:induction false} TwoParagraphsChunks(c: Config)
    requires c.Valid()
    ensures var texts := ChunkTexts(c, TwoFullParagraphs(c));
            |texts| == 2 && |texts[0]| == c.size && (c.overlap > 0 ==> |texts[1]| == Limit(c))
  {
    var a, b := Run('a', c.size), Run('b', c.size);
    TwoParagraphsTrimmed(c);
    TwoParagraphsFragments(c);
    ChunkTextsFrom(c, TwoFullParagraphs(c), [a, b]);
    PackTwo(c, a, b);
  }

  lemma {:induction false} TwoParagraphsTrimmed(c: Config)
    requires c.Valid()
    ensures TwoFullParagraphs(c) != "" && Strip(TwoFullParagraphs(c)) == TwoFullParagraphs(c)
  {
    StripTrimmed(TwoFullParagraphs(c));
  }

  lemma {:induction false} ChunkTextsFrom(c: Config, text: string, fragments: seq<string>)
    requires c.Valid() && text != "" && Strip(text) == text && Fragments(c, text, 0) == fragments
    ensures ChunkTexts(c, text) == Chunks(PackAll(c, fragments))
  {
  }

  lemma {:induction false} PackOneFull(c: Config, a: string)
    requires c.Valid() && |a| == c.size
    ensures PackAll(c, [a]) == Packing([], a)
  {
    assert [a][..0] == [];
    assert PackAll(c, []) == EMPTY;
  }

  lemma {:induction false} PackTwo(c: Config, a: string, b: string)
    requires c.Valid() && |a| == c.size && |b| == c.size
    requires forall i :: 0 <= i < c.size ==> !IsSpace(a[i]) && !IsSpace(b[i])
    ensures Chunks(PackAll(c, [a, b])) == [a, Joined(Tail(c, a), b)]
    ensures c.overlap > 0 ==> |Joined(Tail(c, a), b)| == Limit(c)
  {
    hide Joined, PackAll;
    PackOneFull(c, a);
    PackAllStep(c, [a, b], 1);
    assert [a, b][..1] == [a] && [a, b][..2] == [a, b];
    JoinedInked(a, b);
    if c.overlap > 0 {
      JoinedInked(Tail(c, a), b);
    }
    BlankJoined(Tail(c, a), b);
    assert !Blank(b);
  }

  lemma {:induction false} JoinedInked(a: string, b: string)
    requires a != "" && b != "" && !IsSpace(a[0]) && !IsSpace(b[|b| - 1])
    ensures |Joined(a, b)| == |a| + 1 + |b|
  {
    StripTrimmed(a + " " + b);
  }

  // ---- Chunks ----

  datatype ChunkError = NegativeOrdinal | EmptyText

  datatype Chunk<E> = Chunk(document: int, version: int, ordinal: int, text: string, embedding: E)

  /** `Chunk.create`: the validations of `ChunkText` and of the constructor, in evaluation order. */
  function CreateChunk<E>(document: int, version: int, ordinal: int, text: string, embedding: E)
    : (r: Result<Chunk<E>, ChunkError>)
    ensures r.Ok? <==> ordinal >= 0 && !Blank(text)
  {
    StripBlank(text);
    if Strip(text) == "" then Err(EmptyText)
    else if ordinal < 0 then Err(NegativeOrdinal)
    else Ok(Chunk(document, version, ordinal, text, embedding))
  }

  /** No piece the chunker returns is refused, so building the chunks of a document never raises. */
  lemma {:induction false} PiecesAreAccepted<E>(c: Config, text: string, i: nat, document: int, version: int, e: E)
    requires c.Valid() && i < |ChunkTexts(c, text)|
    ensures var piece := Enumerated(ChunkTexts(c, text))[i];
            CreateChunk(document, version, piece.ordinal, piece.text, e)
            == Ok(Chunk(document, version, i, ChunkTexts(c, text)[i], e))
  {
    SplitIsSound(c, text);
    StripBlank(ChunkTexts(c, text)[i]);
    assert Sound(c, ChunkTexts(c, text)[i]);
  }
}

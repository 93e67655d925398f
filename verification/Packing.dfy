/** The second half of the chunker: packing fragments into chunks that overlap. */
module Packing {
  import opened Wrappers
  import opened Text
  import opened RecursiveSplit

  /** The two variables of the merge loop: chunks already emitted, and the one being filled. */
  datatype Packing = Packing(chunks: seq<string>, current: string) {
    function All(): seq<string> {
      chunks + [current]
    }
  }

  const EMPTY := Packing([], "")

  /** The last `overlap` characters. */
  function Tail(c: Config, text: string): string
    requires c.Valid()
  {
    if |text| <= c.overlap then text else text[|text| - c.overlap..]
  }

  function Candidate(p: Packing, fragment: string): string {
    if p.current != "" then Joined(p.current, fragment) else fragment
  }

  /** One turn of the loop of `_merge_with_overlap`. */
  function Pack(c: Config, p: Packing, fragment: string): Packing
    requires c.Valid()
  {
    if |Candidate(p, fragment)| <= c.size then
      Packing(p.chunks, Candidate(p, fragment))
    else if p.current != "" then
      Packing(p.chunks + [p.current], Joined(Tail(c, p.current), fragment))
    else
      Packing(p.chunks + [fragment[..c.size]], fragment[c.size - c.overlap..])
  }

  function PackAll(c: Config, fragments: seq<string>): Packing
    requires c.Valid()
  {
    if fragments == [] then EMPTY
    else Pack(c, PackAll(c, fragments[..|fragments| - 1]), fragments[|fragments| - 1])
  }

  function Chunks(p: Packing): seq<string> {
    if p.current != "" then p.chunks + [p.current] else p.chunks
  }

  /** `_merge_with_overlap`. */
  method Merge(c: Config, fragments: seq<string>) returns (chunks: seq<string>)
    requires c.Valid()
    ensures chunks == Chunks(PackAll(c, fragments))
    ensures Packable(c, fragments) ==> PacksGreedily(c, fragments, chunks)
  {
    hide PackAll, Joined, Packable, PacksGreedily;
    PackNothing(c);
    chunks := [];
    var current := "";
    assert fragments[..0] == [];
    for i := 0 to |fragments|
      invariant Packing(chunks, current) == PackAll(c, fragments[..i])
    {
      PackAllStep(c, fragments, i);
      var fragment := fragments[i];
      var candidate := if current != "" then Joined(current, fragment) else fragment;
      assert candidate == Candidate(Packing(chunks, current), fragment);
      if |candidate| <= c.size {
        current := candidate;
        continue;
      }
      if current != "" {
        chunks := chunks + [current];
        current := Joined(Tail(c, current), fragment);
      } else {
        chunks := chunks + [fragment[..c.size]];
        current := fragment[c.size - c.overlap..];
      }
    }
    assert fragments[..|fragments|] == fragments;
    if current != "" {
      chunks := chunks + [current];
    }
    if Packable(c, fragments) {
      MergeExactlyWhen(c, fragments, chunks);
    }
  }

  lemma {:induction false} PackNothing(c: Config)
    requires c.Valid()
    ensures PackAll(c, []) == Packing([], "")
  {
  }

  lemma {:induction false} PackAllStep(c: Config, fragments: seq<string>, i: nat)
    requires c.Valid() && i < |fragments|
    ensures PackAll(c, fragments[..i + 1]) == Pack(c, PackAll(c, fragments[..i]), fragments[i])
  {
    assert fragments[..i + 1][..i] == fragments[..i];
  }

  // ---- Facts about stripping a concatenation ----

  lemma {:induction false} RStripKeeps(a: string, b: string)
    requires a == "" || !IsSpace(a[|a| - 1]) || !Blank(b)
    ensures a <= RStrip(a + b)
  {
    var s := a + b;
    var n := LastInk(s, |s|);
    assert forall i :: 0 <= i < |b| ==> b[i] == s[|a| + i];
    assert a != "" ==> s[|a| - 1] == a[|a| - 1];
  }

  lemma {:induction false} BlankLStrip(s: string)
    requires Blank(s)
    ensures LStrip(s) == ""
  {
  }

  lemma {:induction false} LStripBlankPrefix(a: string, b: string)
    requires Blank(a)
    ensures LStrip(a + b) == LStrip(b)
  {
    var s := a + b;
    var n := FirstInk(b, 0);
    assert forall i :: 0 <= i < |b| ==> s[|a| + i] == b[i];
    assert FirstInk(s, 0) == |a| + n;
    assert s[|a| + n..] == b[n..];
  }

  lemma {:induction false} LStripKeepsRest(a: string, b: string)
    requires !Blank(a)
    ensures LStrip(a + b) == LStrip(a) + b
  {
    var s := a + b;
    var n := FirstInk(a, 0);
    assert n < |a|;
    assert forall i :: 0 <= i < |a| ==> s[i] == a[i];
    assert FirstInk(s, 0) == n;
  }

  lemma {:induction false} RStripDropsBlank(a: string, b: string)
    requires Blank(b)
    ensures RStrip(a + b) == RStrip(a)
  {
    var s := a + b;
    assert forall i :: 0 <= i < |b| ==> s[|a| + i] == b[i];
    assert forall i :: 0 <= i < |a| ==> s[i] == a[i];
    assert LastInk(s, |s|) == LastInk(a, |a|);
  }

  /** Two texts joined by one space and stripped, as the merge does with f-strings. */
  function Joined(a: string, b: string): string {
    Strip(a + " " + b)
  }

  lemma {:induction false} JoinedAfterBlank(a: string, b: string)
    requires Blank(a)
    ensures |Joined(a, b)| <= |b|
  {
    LStripBlankPrefix(a + " ", b);
  }

  lemma {:induction false} JoinedBlanks(a: string, b: string)
    requires Blank(a) && Blank(b)
    ensures Joined(a, b) == ""
  {
    LStripBlankPrefix(a + " ", b);
    BlankLStrip(b);
  }

  lemma {:induction false} JoinedInkedBlank(a: string, b: string)
    requires !Blank(a) && Blank(b)
    ensures Joined(a, b) == RStrip(LStrip(a))
  {
    SpaceMoves(a, b);
    LStripKeepsRest(a, " " + b);
    RStripDropsBlank(LStrip(a), " " + b);
  }

  lemma {:induction false} SpaceMoves(a: string, b: string)
    ensures a + " " + b == a + (" " + b)
  {
  }

  lemma {:induction false} JoinedBeforeBlank(a: string, b: string)
    requires Blank(b)
    ensures |Joined(a, b)| <= |a|
  {
    if Blank(a) {
      JoinedBlanks(a, b);
    } else {
      JoinedInkedBlank(a, b);
    }
  }

  lemma {:induction false} InkTrailingSpace(a: string)
    ensures Ink(a + " ") == Ink(a)
  {
    InkConcat(a, " ");
    InkBlank(" ");
  }

  lemma {:induction false} InkJoined(a: string, b: string)
    ensures Ink(Joined(a, b)) == Ink(a) + Ink(b)
  {
    InkStrip(a + " " + b);
    InkConcat(a + " ", b);
    InkTrailingSpace(a);
  }

  lemma {:induction false} BlankJoined(a: string, b: string)
    ensures Blank(Joined(a, b)) <==> Blank(a) && Blank(b)
  {
    InkJoined(a, b);
    InkBlank(a);
    InkBlank(b);
    InkBlank(Joined(a, b));
  }

  // ---- Size, blankness and trimming ----

  /** The longest a chunk can get. */
  function Limit(c: Config): int {
    if c.overlap == 0 then c.size else c.size + c.overlap + 1
  }

  /** A chunk being filled is oversized only because of its overlap, and then it is trimmed. */
  predicate Sized(c: Config, current: string) {
    && |current| <= Limit(c)
    && (|current| > c.size ==> Trimmed(current))
  }

  /** A chunk fit to be stored: it has ink and is not too long. */
  predicate Sound(c: Config, chunk: string) {
    !Blank(chunk) && |chunk| <= Limit(c)
  }

  /** What the loop keeps as long as no fragment is larger than a chunk. Blank text is merged
      away before the first chunk is emitted. */
  predicate Packed(c: Config, p: Packing) {
    && (forall i :: 0 <= i < |p.chunks| ==> Sound(c, p.chunks[i]))
    && Sized(c, p.current)
    && (p.chunks != [] ==> !Blank(p.current) && Trimmed(p.current))
  }

  /** A chunk overflows only if it has ink, and a blank fragment overflows only a chunk that is
      oversized already. */
  lemma {:induction false} OverflowIsInked(c: Config, current: string, fragment: string)
    requires c.Valid() && Sized(c, current) && |fragment| <= c.size
    requires |Joined(current, fragment)| > c.size
    ensures !Blank(current)
    ensures Blank(fragment) ==> Trimmed(current) && c.overlap > 0
  {
    if Blank(current) {
      JoinedAfterBlank(current, fragment);
    }
    if Blank(fragment) {
      JoinedBeforeBlank(current, fragment);
    }
  }

  lemma {:induction false} NextIsSized(c: Config, current: string, fragment: string)
    requires c.Valid() && |fragment| <= c.size
    ensures Sized(c, Joined(Tail(c, current), fragment))
  {
    if c.overlap == 0 {
      JoinedAfterBlank(Tail(c, current), fragment);
    }
  }

  lemma {:induction false} TailEnd(c: Config, text: string)
    requires c.Valid() && text != "" && c.overlap > 0
    ensures var tail := Tail(c, text); tail != "" && tail[|tail| - 1] == text[|text| - 1]
  {
  }

  lemma {:induction false} NextIsInked(c: Config, current: string, fragment: string)
    requires c.Valid() && current != ""
    requires Blank(fragment) ==> Trimmed(current) && c.overlap > 0
    ensures !Blank(Joined(Tail(c, current), fragment))
  {
    BlankJoined(Tail(c, current), fragment);
    if Blank(fragment) {
      TailEnd(c, current);
    }
  }

  lemma {:induction false} JoinKeepsPacked(c: Config, p: Packing, fragment: string)
    requires Packed(c, p) && p.current != "" && |Joined(p.current, fragment)| <= c.size <= Limit(c)
    ensures Packed(c, Packing(p.chunks, Joined(p.current, fragment)))
    ensures Blank(Joined(p.current, fragment)) ==> Blank(p.current) && Blank(fragment)
  {
    BlankJoined(p.current, fragment);
  }

  lemma {:induction false} EmitKeepsPacked(c: Config, p: Packing, next: string)
    requires Packed(c, p) && !Blank(p.current)
    requires Sized(c, next) && Trimmed(next) && !Blank(next)
    ensures Packed(c, Packing(p.chunks + [p.current], next))
  {
    assert Sound(c, p.current);
  }

  lemma {:induction false} PackKeepsPacked(c: Config, p: Packing, fragment: string)
    requires c.Valid() && Packed(c, p) && |fragment| <= c.size
    ensures Packed(c, Pack(c, p, fragment))
    ensures Blank(Pack(c, p, fragment).current) ==> Blank(p.current) && Blank(fragment)
  {
    if p.current != "" {
      if |Joined(p.current, fragment)| <= c.size {
        JoinKeepsPacked(c, p, fragment);
      } else {
        OverflowIsInked(c, p.current, fragment);
        NextIsSized(c, p.current, fragment);
        NextIsInked(c, p.current, fragment);
        EmitKeepsPacked(c, p, Joined(Tail(c, p.current), fragment));
      }
    }
  }

  lemma {:induction false} PackAllPacked(c: Config, fragments: seq<string>)
    requires c.Valid()
    requires forall i :: 0 <= i < |fragments| ==> |fragments[i]| <= c.size
    ensures Packed(c, PackAll(c, fragments))
    ensures Blank(PackAll(c, fragments).current) ==> Ink(Concat(fragments)) == ""
  {
    if fragments != [] {
      var n := |fragments| - 1;
      PackAllPacked(c, fragments[..n]);
      PackKeepsPacked(c, PackAll(c, fragments[..n]), fragments[n]);
      InkConcat(Concat(fragments[..n]), fragments[n]);
      InkBlank(fragments[n]);
    }
  }

  /** The branch that cuts a fragment larger than a chunk is never taken. */
  lemma {:induction false} OversizedBranchIsDead(c: Config, fragments: seq<string>, i: nat)
    requires c.Valid() && i < |fragments|
    requires forall j :: 0 <= j < |fragments| ==> |fragments[j]| <= c.size
    ensures var p := PackAll(c, fragments[..i]);
            |Candidate(p, fragments[i])| > c.size ==> p.current != "" && !Blank(p.current)
  {
    var p := PackAll(c, fragments[..i]);
    PackAllPacked(c, fragments[..i]);
    if p.current != "" && |Joined(p.current, fragments[i])| > c.size {
      OverflowIsInked(c, p.current, fragments[i]);
    }
  }

  // ---- Overlap ----

  /** A chunk starts with the tail of the chunk before it. */
  predicate Continues(c: Config, before: string, chunk: string)
    requires c.Valid()
  {
    LStrip(Tail(c, before)) <= chunk
  }

  predicate Overlapping(c: Config, chunks: seq<string>)
    requires c.Valid()
  {
    forall i :: 1 <= i < |chunks| ==> Continues(c, chunks[i - 1], chunks[i])
  }

  lemma {:induction false} JoinedKeepsTrimmed(a: string, b: string)
    requires a != "" && Trimmed(a)
    ensures a <= Joined(a, b)
  {
    SpaceMoves(a, b);
    RStripKeeps(a, " " + b);
  }

  lemma {:induction false} SpacedBlank(b: string)
    requires !Blank(b)
    ensures !Blank(" " + b)
  {
    var i :| 0 <= i < |b| && !IsSpace(b[i]);
    assert (" " + b)[i + 1] == b[i];
  }

  lemma {:induction false} LStripEnd(a: string)
    requires !Blank(a)
    ensures LStrip(a) != "" && LStrip(a)[|LStrip(a)| - 1] == a[|a| - 1]
  {
    assert FirstInk(a, 0) < |a|;
  }

  lemma {:induction false} JoinedKeepsStart(a: string, b: string)
    requires !Blank(a) && (!Blank(b) || !IsSpace(a[|a| - 1]))
    ensures LStrip(a) <= Joined(a, b)
  {
    SpaceMoves(a, b);
    LStripKeepsRest(a, " " + b);
    LStripEnd(a);
    if !Blank(b) {
      SpacedBlank(b);
    }
    RStripKeeps(LStrip(a), " " + b);
  }

  lemma {:induction false} NextOverlaps(c: Config, current: string, fragment: string)
    requires c.Valid() && current != ""
    requires Blank(fragment) ==> Trimmed(current) && c.overlap > 0
    ensures Continues(c, current, Joined(Tail(c, current), fragment))
  {
    var tail := Tail(c, current);
    if Blank(tail) {
      BlankLStrip(tail);
    } else {
      if Blank(fragment) {
        TailEnd(c, current);
      }
      JoinedKeepsStart(tail, fragment);
    }
  }

  lemma {:induction false} OverlappingGrows(c: Config, chunks: seq<string>, last: string, next: string)
    requires c.Valid() && Overlapping(c, chunks + [last]) && Continues(c, last, next)
    ensures Overlapping(c, chunks + [last] + [next])
  {
    var before, after := chunks + [last], chunks + [last] + [next];
    forall i | 1 <= i < |after| ensures Continues(c, after[i - 1], after[i]) {
      if i < |before| {
        assert Continues(c, before[i - 1], before[i]);
      }
    }
  }

  lemma {:induction false} OverlappingExtends(c: Config, chunks: seq<string>, last: string, longer: string)
    requires c.Valid() && Overlapping(c, chunks + [last])
    requires chunks != [] ==> last <= longer
    ensures Overlapping(c, chunks + [longer])
  {
    var before, after := chunks + [last], chunks + [longer];
    forall i | 1 <= i < |after| ensures Continues(c, after[i - 1], after[i]) {
      assert Continues(c, before[i - 1], before[i]);
      assert after[i - 1] == before[i - 1];
    }
  }

  lemma {:induction false} PackKeepsOverlap(c: Config, p: Packing, fragment: string)
    requires c.Valid() && Packed(c, p) && |fragment| <= c.size
    requires Overlapping(c, p.All())
    ensures Overlapping(c, Pack(c, p, fragment).All())
  {
    if |Candidate(p, fragment)| <= c.size {
      if p.chunks != [] {
        JoinedKeepsTrimmed(p.current, fragment);
      }
      OverlappingExtends(c, p.chunks, p.current, Candidate(p, fragment));
    } else {
      OverflowIsInked(c, p.current, fragment);
      NextOverlaps(c, p.current, fragment);
      OverlappingGrows(c, p.chunks, p.current, Joined(Tail(c, p.current), fragment));
    }
  }

  lemma {:induction false} PackAllOverlaps(c: Config, fragments: seq<string>)
    requires c.Valid()
    requires forall i :: 0 <= i < |fragments| ==> |fragments[i]| <= c.size
    ensures Overlapping(c, PackAll(c, fragments).All())
  {
    if fragments != [] {
      var n := |fragments| - 1;
      PackAllPacked(c, fragments[..n]);
      PackAllOverlaps(c, fragments[..n]);
      PackKeepsOverlap(c, PackAll(c, fragments[..n]), fragments[n]);
    }
  }

  // ---- Reassembly ----

  function Drop(s: string, n: nat): string {
    if n <= |s| then s[n..] else ""
  }

  /** The ink of the chunks with every overlap taken out: from each chunk after the first, as
      many non-whitespace characters are dropped as the tail of the chunk before it has. */
  function Reassembled(c: Config, chunks: seq<string>): string
    requires c.Valid()
  {
    var n := |chunks| - 1;
    if chunks == [] then ""
    else if n == 0 then Ink(chunks[0])
    else Reassembled(c, chunks[..n]) + Drop(Ink(chunks[n]), |Ink(Tail(c, chunks[n - 1]))|)
  }

  lemma {:induction false} InkPrefix(a: string, b: string)
    requires a <= b
    ensures Ink(a) <= Ink(b)
  {
    InkConcat(a, b[|a|..]);
    assert b == a + b[|a|..];
  }

  /** The tail really is the start of the next chunk's ink, so nothing but overlap is dropped. */
  lemma {:induction false} OverlapInk(c: Config, before: string, chunk: string)
    requires c.Valid() && Continues(c, before, chunk)
    ensures Ink(Tail(c, before)) <= Ink(chunk)
  {
    InkLStrip(Tail(c, before));
    InkPrefix(LStrip(Tail(c, before)), chunk);
  }

  lemma {:induction false} ReassembledOne(c: Config, chunk: string)
    requires c.Valid()
    ensures Reassembled(c, [] + [chunk]) == Ink(chunk)
  {
  }

  lemma {:induction false} ReassembledAppend(c: Config, chunks: seq<string>, next: string)
    requires c.Valid() && chunks != []
    ensures Reassembled(c, chunks + [next])
         == Reassembled(c, chunks) + Drop(Ink(next), |Ink(Tail(c, chunks[|chunks| - 1]))|)
  {
    assert (chunks + [next])[..|chunks|] == chunks;
  }

  lemma {:induction false} DropGrows(before: string, last: string, ink: string, n: nat)
    requires n <= |last|
    ensures before + Drop(last + ink, n) == before + Drop(last, n) + ink
  {
  }

  lemma {:induction false} DropPrefix(a: string, b: string)
    ensures Drop(a + b, |a|) == b
  {
  }

  /** More ink in the last chunk is more ink altogether. */
  lemma {:induction false} ReassembledExtends(c: Config, chunks: seq<string>, last: string, longer: string, ink: string)
    requires c.Valid() && Overlapping(c, chunks + [last])
    requires Ink(longer) == Ink(last) + ink
    ensures Reassembled(c, chunks + [longer]) == Reassembled(c, chunks + [last]) + ink
  {
    if chunks == [] {
      ReassembledOne(c, longer);
      ReassembledOne(c, last);
    } else {
      LastContinues(c, chunks, last);
      ReassembledAppend(c, chunks, longer);
      ReassembledAppend(c, chunks, last);
      DropGrows(Reassembled(c, chunks), Ink(last), ink, |Ink(Tail(c, chunks[|chunks| - 1]))|);
    }
  }

  lemma {:induction false} LastContinues(c: Config, chunks: seq<string>, last: string)
    requires c.Valid() && Overlapping(c, chunks + [last]) && chunks != []
    ensures Ink(Tail(c, chunks[|chunks| - 1])) <= Ink(last)
  {
    var all, n := chunks + [last], |chunks|;
    assert Continues(c, all[n - 1], all[n]);
    OverlapInk(c, chunks[n - 1], last);
  }

  lemma {:induction false} PackAddsInk(c: Config, p: Packing, fragment: string)
    requires c.Valid() && Packed(c, p) && |fragment| <= c.size
    requires Overlapping(c, p.All())
    ensures Reassembled(c, Pack(c, p, fragment).All()) == Reassembled(c, p.All()) + Ink(fragment)
  {
    if |Candidate(p, fragment)| <= c.size {
      InkJoined(p.current, fragment);
      ReassembledExtends(c, p.chunks, p.current, Candidate(p, fragment), Ink(fragment));
    } else {
      var next := Joined(Tail(c, p.current), fragment);
      OverflowIsInked(c, p.current, fragment);
      InkJoined(Tail(c, p.current), fragment);
      ReassembledAppend(c, p.All(), next);
      DropPrefix(Ink(Tail(c, p.current)), Ink(fragment));
    }
  }

  lemma {:induction false} PackAllInk(c: Config, fragments: seq<string>)
    requires c.Valid()
    requires forall i :: 0 <= i < |fragments| ==> |fragments[i]| <= c.size
    ensures Reassembled(c, PackAll(c, fragments).All()) == Ink(Concat(fragments))
  {
    if fragments != [] {
      var n := |fragments| - 1;
      PackAllPacked(c, fragments[..n]);
      PackAllOverlaps(c, fragments[..n]);
      PackAllInk(c, fragments[..n]);
      PackAddsInk(c, PackAll(c, fragments[..n]), fragments[n]);
      InkConcat(Concat(fragments[..n]), fragments[n]);
    }
  }

  /** The merge loses and invents nothing. */
  lemma {:induction false} MergeReassembles(c: Config, fragments: seq<string>)
    requires c.Valid()
    requires forall i :: 0 <= i < |fragments| ==> |fragments[i]| <= c.size
    ensures Reassembled(c, Chunks(PackAll(c, fragments))) == Ink(Concat(fragments))
  {
    PackAllPacked(c, fragments);
    PackAllInk(c, fragments);
    var p := PackAll(c, fragments);
    if p.current == "" {
      assert p.chunks == [];
      assert p.All() == [""];
    }
  }

  // ---- Greedy packing ----

  /** Fragments that fit and are not all blank. */
  ghost predicate Packable(c: Config, fragments: seq<string>) {
    Fits(c, fragments) && Ink(Concat(fragments)) != ""
  }

  /** A chunk filled up: fragments appended one after the other, separated by one space. */
  function Filled(start: string, run: seq<string>): string {
    if run == [] then start
    else
      var before, fragment := Filled(start, run[..|run| - 1]), run[|run| - 1];
      if before == "" then fragment else Strip(before + " " + fragment)
  }

  /** The chunk made of a run of fragments: the first chunk starts with nothing, every other one
      with the last `overlap` characters of the chunk before it. */
  function RunChunk(c: Config, before: Option<string>, run: seq<string>): string
    requires c.Valid() && run != []
  {
    match before
    case None => Filled("", run)
    case Some(chunk) =>
      var overlap := chunk[(if |chunk| <= c.overlap then 0 else |chunk| - c.overlap)..];
      Filled(Strip(overlap + " " + run[0]), run[1..])
  }

  /** A run begins exactly where a fragment does not fit into the chunk before, and goes on only as
      long as the next fragment still fits. */
  ghost predicate FillsRun(c: Config, before: Option<string>, run: seq<string>, chunk: string)
    requires c.Valid()
  {
    && run != [] && chunk == RunChunk(c, before, run)
    && (before.Some? ==> |Strip(before.value + " " + run[0])| > c.size)
    && (forall n :: 1 < n <= |run| ==> |RunChunk(c, before, run[..n])| <= c.size)
  }

  function Before(first: Option<string>, chunks: seq<string>, i: nat): Option<string>
    requires i <= |chunks|
  {
    if i == 0 then first else Some(chunks[i - 1])
  }

  ghost predicate Greedy(c: Config, first: Option<string>, runs: seq<seq<string>>, chunks: seq<string>)
    requires c.Valid()
  {
    |runs| == |chunks| && forall i :: 0 <= i < |runs| ==> FillsRun(c, Before(first, chunks, i), runs[i], chunks[i])
  }

  function Flattened(runs: seq<seq<string>>): seq<string> {
    if runs == [] then [] else runs[0] + Flattened(runs[1..])
  }

  /** The fragments can be cut into runs, one for each chunk, that are as long as possible. */
  ghost predicate PacksGreedily(c: Config, fragments: seq<string>, chunks: seq<string>)
    requires c.Valid()
  {
    "" !in chunks && exists runs :: Flattened(runs) == fragments && Greedy(c, None, runs, chunks)
  }

  lemma {:induction false} FilledGrows(start: string, run: seq<string>, fragment: string)
    ensures var before := Filled(start, run);
            Filled(start, run + [fragment]) == if before == "" then fragment else Strip(before + " " + fragment)
  {
    assert (run + [fragment])[..|run|] == run;
  }

  lemma {:induction false} RunGrows(c: Config, before: Option<string>, run: seq<string>, fragment: string)
    requires c.Valid() && run != []
    ensures var chunk := RunChunk(c, before, run);
            RunChunk(c, before, run + [fragment]) == if chunk == "" then fragment else Strip(chunk + " " + fragment)
  {
    hide Filled, Strip;
    match before
    case None => FilledGrows("", run, fragment);
    case Some(chunk) =>
      var overlap := chunk[(if |chunk| <= c.overlap then 0 else |chunk| - c.overlap)..];
      assert (run + [fragment])[1..] == run[1..] + [fragment];
      FilledGrows(Strip(overlap + " " + run[0]), run[1..], fragment);
  }

  lemma {:induction false} RunOfOne(c: Config, before: Option<string>, fragment: string)
    requires c.Valid()
    ensures RunChunk(c, before, [fragment]) == if before.None? then fragment else Joined(Tail(c, before.value), fragment)
  {
    assert [fragment][..0] == [] && [fragment][1..] == [];
    assert Filled("", []) == "";
  }

  lemma {:induction false} FlattenedGrows(runs: seq<seq<string>>, run: seq<string>)
    ensures Flattened(runs + [run]) == Flattened(runs) + run
  {
    if runs == [] {
      assert [] + [run] == [run];
      assert Flattened([run][1..]) == [];
    } else {
      assert (runs + [run])[1..] == runs[1..] + [run];
      FlattenedGrows(runs[1..], run);
    }
  }

  /** A run that is filled goes on. */
  lemma {:induction false} FillsMore(c: Config, before: Option<string>, run: seq<string>, chunk: string, fragment: string)
    requires c.Valid() && FillsRun(c, before, run, chunk)
    requires |if chunk == "" then fragment else Strip(chunk + " " + fragment)| <= c.size
    ensures FillsRun(c, before, run + [fragment], if chunk == "" then fragment else Strip(chunk + " " + fragment))
  {
    hide RunChunk, Strip;
    var longer := run + [fragment];
    RunGrows(c, before, run, fragment);
    forall n | 1 < n <= |longer| ensures |RunChunk(c, before, longer[..n])| <= c.size {
      if n <= |run| {
        assert longer[..n] == run[..n];
      } else {
        assert longer[..n] == longer;
      }
    }
  }

  lemma {:induction false} LastRun(c: Config, runs: seq<seq<string>>, run: seq<string>, chunks: seq<string>, chunk: string)
    requires c.Valid() && Greedy(c, None, runs, chunks) && FillsRun(c, Before(None, chunks, |chunks|), run, chunk)
    ensures Greedy(c, None, runs + [run], chunks + [chunk])
  {
    hide FillsRun;
    var after := chunks + [chunk];
    forall i | 0 <= i <= |runs| ensures FillsRun(c, Before(None, after, i), (runs + [run])[i], after[i]) {
      assert Before(None, after, i) == Before(None, chunks, i);
    }
  }

  lemma {:induction false} AllButLast(c: Config, runs: seq<seq<string>>, chunks: seq<string>, chunk: string)
    requires c.Valid() && Greedy(c, None, runs, chunks + [chunk])
    ensures |runs| == |chunks| + 1 && Greedy(c, None, runs[..|chunks|], chunks)
    ensures FillsRun(c, Before(None, chunks, |chunks|), runs[|chunks|], chunk)
  {
    hide FillsRun;
    var m, before := |chunks|, chunks + [chunk];
    forall i | 0 <= i < m ensures FillsRun(c, Before(None, chunks, i), runs[..m][i], chunks[i]) {
      assert Before(None, before, i) == Before(None, chunks, i) && before[i] == chunks[i];
    }
    assert Before(None, before, m) == Before(None, chunks, m) && before[m] == chunk;
  }

  lemma {:induction false} FirstRun(c: Config, fragment: string)
    requires c.Valid()
    ensures Greedy(c, None, [[fragment]], [fragment]) && Flattened([[fragment]]) == [fragment]
  {
    RunOfOne(c, None, fragment);
    assert Flattened([[fragment]][1..]) == [];
  }

  /** One turn of the loop, with the fragment fitting or not. */
  lemma {:induction false} PackIsGreedy(c: Config, p: Packing, fragment: string, runs: seq<seq<string>>)
    returns (next: seq<seq<string>>)
    requires c.Valid() && Greedy(c, None, runs, p.All())
    requires |Candidate(p, fragment)| > c.size ==> p.current != ""
    ensures Flattened(next) == Flattened(runs) + [fragment] && Greedy(c, None, next, Pack(c, p, fragment).All())
  {
    hide FillsRun, Greedy, Flattened;
    var m := |p.chunks|;
    AllButLast(c, runs, p.chunks, p.current);
    FlattenedGrows(runs[..m], runs[m]);
    assert runs[..m] + [runs[m]] == runs;
    if |Candidate(p, fragment)| <= c.size {
      next := runs[..m] + [runs[m] + [fragment]];
      FillsMore(c, Before(None, p.chunks, m), runs[m], p.current, fragment);
      LastRun(c, runs[..m], runs[m] + [fragment], p.chunks, Candidate(p, fragment));
      FlattenedGrows(runs[..m], runs[m] + [fragment]);
    } else {
      next := runs + [[fragment]];
      StartsRun(c, p.current, fragment);
      GreedyLengths(c, runs, p.All());
      LastRun(c, runs, [fragment], p.All(), Joined(Tail(c, p.current), fragment));
      FlattenedGrows(runs, [fragment]);
    }
  }

  lemma {:induction false} GreedyLengths(c: Config, runs: seq<seq<string>>, chunks: seq<string>)
    requires c.Valid() && Greedy(c, None, runs, chunks)
    ensures |runs| == |chunks|
  {
  }

  lemma {:induction false} StartsRun(c: Config, before: string, fragment: string)
    requires c.Valid() && |Joined(before, fragment)| > c.size
    ensures FillsRun(c, Some(before), [fragment], Joined(Tail(c, before), fragment))
  {
    RunOfOne(c, Some(before), fragment);
  }

  lemma {:induction false} PackAllGreedy(c: Config, fragments: seq<string>, n: nat) returns (runs: seq<seq<string>>)
    requires c.Valid() && 1 <= n <= |fragments| && Fits(c, fragments)
    ensures Flattened(runs) == fragments[..n] && Greedy(c, None, runs, PackAll(c, fragments[..n]).All())
  {
    hide Greedy, Joined, PackAll, Flattened;
    PackAllStep(c, fragments, n - 1);
    var p, fragment := PackAll(c, fragments[..n - 1]), fragments[n - 1];
    if n == 1 {
      PackNothing(c);
      assert fragments[..0] == [] && fragments[..1] == [fragment];
      assert p == EMPTY && |fragment| <= c.size;
      assert Packing([], fragment).All() == [fragment];
      FirstRun(c, fragment);
      runs := [[fragment]];
    } else {
      var before := PackAllGreedy(c, fragments, n - 1);
      OversizedBranchIsDead(c, fragments, n - 1);
      runs := PackIsGreedy(c, p, fragment, before);
      assert fragments[..n] == fragments[..n - 1] + [fragment];
    }
  }

  // The first run of one packing is not shorter than that of another.

  lemma {:induction false} FirstRunIsLongest(c: Config, before: Option<string>, run: seq<string>, chunk: string, next: string,
                                             other: seq<string>, chunk': string)
    requires c.Valid() && FillsRun(c, before, run, chunk) && FillsRun(c, before, other, chunk') && chunk != ""
    requires |run| < |other| && run + [next] == other[..|run| + 1]
    ensures |Strip(chunk + " " + next)| <= c.size
  {
    hide Strip, RunChunk;
    RunGrows(c, before, run, next);
  }

  lemma {:induction false} OverflowOfSecond(c: Config, first: Option<string>, runs: seq<seq<string>>, chunks: seq<string>)
    requires c.Valid() && Greedy(c, first, runs, chunks) && |runs| > 1
    ensures runs[1] != [] && |Strip(chunks[0] + " " + runs[1][0])| > c.size
  {
    hide RunChunk, Strip;
    assert FillsRun(c, Before(first, chunks, 1), runs[1], chunks[1]);
  }

  lemma {:induction false} FirstRunsAgree(c: Config, first: Option<string>, runs: seq<seq<string>>, chunks: seq<string>,
                                          others: seq<seq<string>>, chunks': seq<string>)
    requires c.Valid() && Greedy(c, first, runs, chunks) && Greedy(c, first, others, chunks') && "" !in chunks
    requires runs != [] && others != [] && Flattened(runs) == Flattened(others)
    ensures |runs[0]| >= |others[0]|
  {
    hide Strip, RunChunk;
    var run, other := runs[0], others[0];
    assert FillsRun(c, Before(first, chunks, 0), run, chunks[0]) && FillsRun(c, Before(first, chunks', 0), other, chunks'[0]);
    if |run| < |other| {
      assert |Flattened(runs)| >= |other|;
      OverflowOfSecond(c, first, runs, chunks);
      var next := runs[1][0];
      assert Flattened(runs[1..]) == runs[1] + Flattened(runs[1..][1..]);
      assert Flattened(runs)[|run|] == next;
      assert Flattened(runs)[..|run| + 1] == run + [next];
      assert Flattened(others)[..|run| + 1] == other[..|run| + 1];
      FirstRunIsLongest(c, first, run, chunks[0], next, other, chunks'[0]);
    }
  }

  lemma {:induction false} GreedyRest(c: Config, first: Option<string>, runs: seq<seq<string>>, chunks: seq<string>)
    requires c.Valid() && Greedy(c, first, runs, chunks) && runs != []
    ensures FillsRun(c, first, runs[0], chunks[0]) && Greedy(c, Some(chunks[0]), runs[1..], chunks[1..])
  {
    hide FillsRun;
    assert FillsRun(c, Before(first, chunks, 0), runs[0], chunks[0]);
    forall i | 0 <= i < |runs| - 1
      ensures FillsRun(c, Before(Some(chunks[0]), chunks[1..], i), runs[1..][i], chunks[1..][i])
    {
      assert FillsRun(c, Before(first, chunks, i + 1), runs[i + 1], chunks[i + 1]);
    }
  }

  lemma {:induction false} GreedyNothing(c: Config, first: Option<string>, runs: seq<seq<string>>, chunks: seq<string>)
    requires c.Valid() && Greedy(c, first, runs, chunks)
    ensures Flattened(runs) == [] <==> runs == []
  {
    if runs != [] {
      GreedyRest(c, first, runs, chunks);
    }
  }

  /** There is only one way to pack greedily. */
  lemma {:induction false} GreedyIsUnique(c: Config, first: Option<string>, runs: seq<seq<string>>, chunks: seq<string>,
                                          others: seq<seq<string>>, chunks': seq<string>)
    requires c.Valid() && Greedy(c, first, runs, chunks) && Greedy(c, first, others, chunks')
    requires "" !in chunks && "" !in chunks' && Flattened(runs) == Flattened(others)
    ensures chunks == chunks'
    decreases |runs|
  {
    hide FillsRun;
    GreedyNothing(c, first, runs, chunks);
    GreedyNothing(c, first, others, chunks');
    if runs != [] {
      FirstRunsAgree(c, first, runs, chunks, others, chunks');
      FirstRunsAgree(c, first, others, chunks', runs, chunks);
      assert runs[0] == Flattened(runs)[..|runs[0]|] == others[0];
      assert Flattened(runs[1..]) == Flattened(runs)[|runs[0]|..] == Flattened(others[1..]);
      GreedyRest(c, first, runs, chunks);
      GreedyRest(c, first, others, chunks');
      SameRunSameChunk(c, first, runs[0], chunks[0], chunks'[0]);
      GreedyIsUnique(c, Some(chunks[0]), runs[1..], chunks[1..], others[1..], chunks'[1..]);
      assert chunks == [chunks[0]] + chunks[1..] && chunks' == [chunks'[0]] + chunks'[1..];
    }
  }

  lemma {:induction false} SameRunSameChunk(c: Config, before: Option<string>, run: seq<string>, chunk: string, chunk': string)
    requires c.Valid() && FillsRun(c, before, run, chunk) && FillsRun(c, before, run, chunk')
    ensures chunk == chunk'
  {
  }

  lemma {:induction false} ChunksAreInked(c: Config, fragments: seq<string>)
    requires c.Valid() && Packable(c, fragments)
    ensures var p := PackAll(c, fragments); p.current != "" && "" !in Chunks(p) && Chunks(p) == p.All()
  {
    var p := PackAll(c, fragments);
    PackAllPacked(c, fragments);
    forall i | 0 <= i < |Chunks(p)| ensures Chunks(p)[i] != "" {
      assert i < |p.chunks| ==> Sound(c, p.chunks[i]);
    }
  }

  /** The result of the merge is the greedy packing of the fragments, and nothing else is: each
      chunk is the overlap with the chunk before it and as many of the next fragments as fit. */
  lemma {:induction false} MergeExactlyWhen(c: Config, fragments: seq<string>, chunks: seq<string>)
    requires c.Valid() && Packable(c, fragments)
    ensures chunks == Chunks(PackAll(c, fragments)) <==> PacksGreedily(c, fragments, chunks)
  {
    hide Greedy, Flattened, PackAll;
    var n, packed := |fragments|, Chunks(PackAll(c, fragments));
    assert fragments != [];
    assert fragments[..n] == fragments;
    var runs := PackAllGreedy(c, fragments, n);
    ChunksAreInked(c, fragments);
    assert PacksGreedily(c, fragments, packed);
    if PacksGreedily(c, fragments, chunks) {
      var others :| Flattened(others) == fragments && Greedy(c, None, others, chunks);
      GreedyIsUnique(c, None, runs, packed, others, chunks);
    }
  }

  /** Fragments that fit in one chunk together are one chunk. */
  lemma {:induction false} OneChunkIfAllFit(c: Config, fragments: seq<string>)
    requires c.Valid() && Packable(c, fragments)
    requires forall n :: 1 < n <= |fragments| ==> |Filled("", fragments[..n])| <= c.size
    ensures Chunks(PackAll(c, fragments)) == [Filled("", fragments)]
  {
    hide PackAll, Filled;
    var chunk := Filled("", fragments);
    assert fragments != [];
    InkFilled(fragments);
    assert FillsRun(c, None, fragments, chunk);
    assert Greedy(c, None, [fragments], [chunk]);
    FlattenedGrows([], fragments);
    assert [] + [fragments] == [fragments];
    MergeExactlyWhen(c, fragments, [chunk]);
  }

  lemma {:induction false} InkFilled(run: seq<string>)
    ensures Ink(Filled("", run)) == Ink(Concat(run))
  {
    if run != [] {
      var n := |run| - 1;
      InkFilled(run[..n]);
      InkConcat(Concat(run[..n]), run[n]);
      InkJoined(Filled("", run[..n]), run[n]);
    }
  }
}

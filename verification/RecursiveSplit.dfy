/** The first half of the chunker: splitting on progressively finer separators. */
module RecursiveSplit {
  import opened Text
  import opened Wrappers

  datatype ConfigError = SizeNotPositive | OverlapOutOfRange

  datatype Config = Config(size: int, overlap: int) {
    predicate Valid() {
      0 <= overlap < size
    }

    /** The checks of `__post_init__`, in its order. */
    static function Make(size: int, overlap: int): (r: Result<Config, ConfigError>)
      ensures r.Ok? <==> Config(size, overlap).Valid()
      ensures r.Ok? ==> r.value == Config(size, overlap)
      ensures r == Err(SizeNotPositive) <==> size <= 0
    {
      if size <= 0 then Err(SizeNotPositive)
      else if overlap < 0 || overlap >= size then Err(OverlapOutOfRange)
      else Ok(Config(size, overlap))
    }
  }

  const SENTENCE_LEVEL := 2
  const CHARACTER_LEVEL := 4
  const LEVELS := 5

  function Separator(level: nat): string
    requires level < LEVELS
  {
    match level
    case 0 => "\n\n"
    case 1 => "\n"
    case 2 => ". "
    case 3 => " "
    case _ => ""
  }

  /** The source's `parts`: one character each at the last level. */
  function Parts(text: string, level: nat): seq<string>
    requires level < LEVELS
  {
    if level == CHARACTER_LEVEL then seq(|text|, i requires 0 <= i < |text| => [text[i]])
    else SplitOn(text, Separator(level))
  }

  /** A part with its separator put back; paragraphs and lines lose trailing whitespace again. */
  function Piece(part: string, level: nat): string
    requires level < LEVELS
  {
    var piece := part + Separator(level);
    if level < SENTENCE_LEVEL then RStrip(piece) else piece
  }

  /** What `_recursive_split` returns. */
  function Fragments(c: Config, text: string, level: nat): seq<string>
    requires c.Valid()
    decreases LEVELS - level, 1, 0
  {
    if |text| <= c.size || level >= LEVELS then [text]
    else PartsFragments(c, Parts(text, level), level)
  }

  function PartsFragments(c: Config, parts: seq<string>, level: nat): seq<string>
    requires c.Valid() && level < LEVELS
    decreases LEVELS - level, 0, |parts|
  {
    if parts == [] then []
    else PartsFragments(c, parts[..|parts| - 1], level) + PartFragments(c, parts[|parts| - 1], level)
  }

  function PartFragments(c: Config, part: string, level: nat): seq<string>
    requires c.Valid() && level < LEVELS
    decreases LEVELS - level, 0, 0
  {
    var piece := Piece(part, level);
    if piece == "" then []
    else if |piece| > c.size then Fragments(c, piece, level + 1)
    else [piece]
  }

  /** The loop of `_recursive_split`. */
  method SplitRecursively(c: Config, text: string, level: nat) returns (result: seq<string>)
    requires c.Valid()
    ensures result == Fragments(c, text, level)
    decreases LEVELS - level
  {
    if |text| <= c.size || level >= LEVELS {
      return [text];
    }
    var parts := Parts(text, level);
    result := [];
    for i := 0 to |parts|
      invariant result == PartsFragments(c, parts[..i], level)
    {
      PartsFragmentsStep(c, parts, i, level);
      var piece := Piece(parts[i], level);
      if piece == "" {
        continue;
      }
      if |piece| > c.size {
        var deeper := SplitRecursively(c, piece, level + 1);
        result := result + deeper;
      } else {
        result := result + [piece];
      }
    }
    assert parts[..|parts|] == parts;
  }

  lemma {:induction false} PartsFragmentsStep(c: Config, parts: seq<string>, i: nat, level: nat)
    requires c.Valid() && level < LEVELS && i < |parts|
    ensures PartsFragments(c, parts[..i + 1], level)
         == PartsFragments(c, parts[..i], level) + PartFragments(c, parts[i], level)
  {
    assert parts[..i + 1][..i] == parts[..i];
  }

  // ---- Size ----

  predicate Fits(c: Config, fragments: seq<string>) {
    forall i :: 0 <= i < |fragments| ==> fragments[i] != "" && |fragments[i]| <= c.size
  }

  /** Every fragment fits in a chunk: the recursion never runs out of separators on an
      oversized text, because the last level cuts into single characters. */
  lemma {:induction false} FragmentsFit(c: Config, text: string, level: nat)
    requires c.Valid() && text != "" && level < LEVELS
    ensures Fits(c, Fragments(c, text, level))
    decreases LEVELS - level, 1, 0
  {
    if |text| > c.size {
      PartsFragmentsFit(c, Parts(text, level), level);
    }
  }

  lemma {:induction false} PartsFragmentsFit(c: Config, parts: seq<string>, level: nat)
    requires c.Valid() && level < LEVELS
    requires level == CHARACTER_LEVEL ==> forall i :: 0 <= i < |parts| ==> |parts[i]| == 1
    ensures Fits(c, PartsFragments(c, parts, level))
    decreases LEVELS - level, 0, |parts|
  {
    if parts != [] {
      PartsFragmentsFit(c, parts[..|parts| - 1], level);
      var piece := Piece(parts[|parts| - 1], level);
      if |piece| > c.size {
        FragmentsFit(c, piece, level + 1);
      }
    }
  }

  // ---- Conservation ----

  /** How often the recursion splits an oversized text into sentences. */
  function SentenceSplits(c: Config, text: string, level: nat): nat
    requires c.Valid()
    decreases LEVELS - level, 1, 0
  {
    if |text| <= c.size || level >= LEVELS then 0
    else (if level == SENTENCE_LEVEL then 1 else 0) + PartsSentenceSplits(c, Parts(text, level), level)
  }

  function PartsSentenceSplits(c: Config, parts: seq<string>, level: nat): nat
    requires c.Valid() && level < LEVELS
    decreases LEVELS - level, 0, |parts|
  {
    if parts == [] then 0
    else PartsSentenceSplits(c, parts[..|parts| - 1], level)
         + SentenceSplits(c, Piece(parts[|parts| - 1], level), level + 1)
  }

  /** Without the full stops. */
  function NoDots(s: string): string {
    if s == "" then "" else (if s[0] == '.' then "" else [s[0]]) + NoDots(s[1..])
  }

  lemma {:induction false} NoDotsConcat(a: string, b: string)
    ensures NoDots(a + b) == NoDots(a) + NoDots(b)
  {
    if a == "" {
      assert a + b == b;
    } else {
      assert (a + b)[1..] == a[1..] + b;
      NoDotsConcat(a[1..], b);
    }
  }

  /** The text with separators put back, part by part, before anything is split further. */
  function Pieces(parts: seq<string>, level: nat): string
    requires level < LEVELS
  {
    if parts == [] then "" else Pieces(parts[..|parts| - 1], level) + Piece(parts[|parts| - 1], level)
  }

  lemma {:induction false} InkPieces(parts: seq<string>, level: nat)
    requires level < LEVELS
    ensures Ink(Pieces(parts, level)) == Ink(Concat(Suffixed(parts, Separator(level))))
  {
    if parts != [] {
      var n := |parts| - 1;
      var suffixed := Suffixed(parts, Separator(level));
      InkPieces(parts[..n], level);
      assert suffixed[..n] == Suffixed(parts[..n], Separator(level));
      InkConcat(Pieces(parts[..n], level), Piece(parts[n], level));
      InkConcat(Concat(suffixed[..n]), suffixed[n]);
      InkRStrip(suffixed[n]);
    }
  }

  lemma {:induction false} CharactersRejoin(text: string)
    ensures Concat(Suffixed(Parts(text, CHARACTER_LEVEL), "")) == text
  {
    var parts := Suffixed(Parts(text, CHARACTER_LEVEL), "");
    if text == "" {
    } else {
      var n := |text| - 1;
      CharactersRejoin(text[..n]);
      assert parts[..n] == Suffixed(Parts(text[..n], CHARACTER_LEVEL), "");
      assert parts[n] == [text[n]];
    }
  }

  /** One level of splitting keeps the ink and appends that of one separator. */
  lemma {:induction false} InkOfLevel(text: string, level: nat)
    requires level < LEVELS
    ensures Ink(Pieces(Parts(text, level), level)) == if level == SENTENCE_LEVEL then Ink(text) + "." else Ink(text)
  {
    var separator := Separator(level);
    InkPieces(Parts(text, level), level);
    if level == CHARACTER_LEVEL {
      CharactersRejoin(text);
    } else {
      SplitRejoins(text, separator);
      InkConcat(text, separator);
      InkOfSeparator(level);
    }
  }

  lemma {:induction false} InkOfSeparator(level: nat)
    requires level < LEVELS
    ensures Ink(Separator(level)) == if level == SENTENCE_LEVEL then "." else ""
  {
    if level == SENTENCE_LEVEL {
      assert ". "[1..] == " ";
      assert Ink(" ") == "";
    } else {
      InkBlank(Separator(level));
    }
  }

  /** What is conserved between a text and the fragments it was split into. */
  predicate Conserves(before: string, after: string, dots: nat) {
    && NoDots(after) == NoDots(before)
    && |after| == |before| + dots
    && (dots == 0 ==> after == before)
  }

  lemma {:induction false} ConservesTogether(b1: string, a1: string, d1: nat, b2: string, a2: string, d2: nat)
    requires Conserves(b1, a1, d1) && Conserves(b2, a2, d2)
    ensures Conserves(b1 + b2, a1 + a2, d1 + d2)
  {
    NoDotsConcat(b1, b2);
    NoDotsConcat(a1, a2);
  }

  /** The recursive split conserves the text: deleting whitespace and '.', nothing is lost, added
      or moved; each sentence-level split adds exactly one character, a '.'; with no
      sentence-level split all non-whitespace is kept exactly. */
  lemma {:induction false} SplitConserves(c: Config, text: string, level: nat)
    requires c.Valid()
    ensures Conserves(Ink(text), Ink(Concat(Fragments(c, text, level))), SentenceSplits(c, text, level))
    decreases LEVELS - level, 1, 0
  {
    if |text| <= c.size || level >= LEVELS {
      ConcatOne(text);
    } else {
      PartsConserve(c, Parts(text, level), level);
      InkOfLevel(text, level);
      if level == SENTENCE_LEVEL {
        DotAdded(Ink(text));
      }
    }
  }

  lemma {:induction false} DotAdded(s: string)
    ensures NoDots(s + ".") == NoDots(s)
  {
    NoDotsConcat(s, ".");
    assert NoDots(".") == "";
  }

  lemma {:induction false} PartsConserve(c: Config, parts: seq<string>, level: nat)
    requires c.Valid() && level < LEVELS
    ensures Conserves(Ink(Pieces(parts, level)), Ink(Concat(PartsFragments(c, parts, level))),
                      PartsSentenceSplits(c, parts, level))
    decreases LEVELS - level, 0, |parts|
  {
    if parts != [] {
      var n := |parts| - 1;
      var before, last := PartsFragments(c, parts[..n], level), PartFragments(c, parts[n], level);
      var piece := Piece(parts[n], level);
      PartsConserve(c, parts[..n], level);
      PartConserves(c, parts[n], level);
      InkConcat(Pieces(parts[..n], level), piece);
      ConcatAppend(before, last);
      InkConcat(Concat(before), Concat(last));
      ConservesTogether(
        Ink(Pieces(parts[..n], level)), Ink(Concat(before)), PartsSentenceSplits(c, parts[..n], level),
        Ink(piece), Ink(Concat(last)), SentenceSplits(c, piece, level + 1));
    }
  }

  lemma {:induction false} PartConserves(c: Config, part: string, level: nat)
    requires c.Valid() && level < LEVELS
    ensures Conserves(Ink(Piece(part, level)), Ink(Concat(PartFragments(c, part, level))),
                      SentenceSplits(c, Piece(part, level), level + 1))
    decreases LEVELS - level, 0, 0
  {
    var piece := Piece(part, level);
    if |piece| > c.size {
      SplitConserves(c, piece, level + 1);
    } else {
      ConcatOne(piece);
    }
  }

  // ---- Natural boundaries ----

  predicate IsPieceOf(piece: string, text: string, level: nat)
    requires level < LEVELS
  {
    exists i :: 0 <= i < |Parts(text, level)| && piece == Piece(Parts(text, level)[i], level)
  }

  /** Each text of the chain is too long for a chunk and the next one is a piece of it, cut at the
      separator of the next level. */
  ghost predicate Descends(c: Config, chain: seq<string>, level: nat) {
    && chain != [] && level + |chain| <= LEVELS + 1
    && forall j :: 0 <= j < |chain| - 1 ==> |chain[j]| > c.size && IsPieceOf(chain[j + 1], chain[j], level + j)
  }

  ghost predicate LeadsTo(c: Config, text: string, level: nat, chain: seq<string>, fragment: string) {
    Descends(c, chain, level) && chain[0] == text && chain[|chain| - 1] == fragment
  }

  lemma {:induction false} SomePart(c: Config, parts: seq<string>, level: nat, fragment: string)
    requires c.Valid() && level < LEVELS
    ensures fragment in PartsFragments(c, parts, level)
       <==> exists i :: 0 <= i < |parts| && fragment in PartFragments(c, parts[i], level)
  {
    hide PartFragments;
    if parts != [] {
      var n := |parts| - 1;
      var init := parts[..n];
      SomePart(c, init, level, fragment);
      assert fragment in PartsFragments(c, parts, level)
        <==> fragment in PartsFragments(c, init, level) || fragment in PartFragments(c, parts[n], level);
      if fragment in PartsFragments(c, init, level) {
        var i :| 0 <= i < n && fragment in PartFragments(c, init[i], level);
        assert fragment in PartFragments(c, parts[i], level);
      } else {
        assert forall i :: 0 <= i < n ==> init[i] == parts[i] && fragment !in PartFragments(c, init[i], level);
      }
    }
  }

  /** A text is cut only as far as necessary: the fragments of a text are exactly the non-empty
      pieces that fit in a chunk and that come out of cutting pieces that do not, first at blank
      lines, then at line ends, sentence ends, spaces and between characters. */
  lemma {:induction false} FragmentsAreCoarsest(c: Config, text: string, level: nat, fragment: string)
    requires c.Valid() && text != "" && level < LEVELS
    ensures fragment in Fragments(c, text, level)
       <==> fragment != "" && |fragment| <= c.size && exists chain :: LeadsTo(c, text, level, chain, fragment)
    decreases LEVELS - level
  {
    if fragment in Fragments(c, text, level) {
      FragmentsFit(c, text, level);
      var chain := ChainTo(c, text, level, fragment);
      assert LeadsTo(c, text, level, chain, fragment);
    }
    if fragment != "" && |fragment| <= c.size && exists chain :: LeadsTo(c, text, level, chain, fragment) {
      var chain :| LeadsTo(c, text, level, chain, fragment);
      ChainEndsInFragment(c, text, level, chain, fragment);
    }
  }

  lemma {:induction false} LongerChain(c: Config, text: string, level: nat, chain: seq<string>, fragment: string)
    requires level < CHARACTER_LEVEL && |text| > c.size && chain != [] && IsPieceOf(chain[0], text, level)
    requires LeadsTo(c, chain[0], level + 1, chain, fragment)
    ensures LeadsTo(c, text, level, [text] + chain, fragment)
  {
    hide IsPieceOf;
    var longer := [text] + chain;
    forall j | 0 <= j < |longer| - 1 ensures |longer[j]| > c.size && IsPieceOf(longer[j + 1], longer[j], level + j) {
      if j > 0 {
        assert longer[j] == chain[j - 1] && longer[j + 1] == chain[j - 1 + 1];
        assert IsPieceOf(chain[j - 1 + 1], chain[j - 1], level + 1 + (j - 1));
      }
    }
  }

  lemma {:induction false} FragmentOfPiece(c: Config, text: string, level: nat, fragment: string) returns (piece: string)
    requires c.Valid() && |text| > c.size && level < LEVELS && fragment in Fragments(c, text, level)
    ensures IsPieceOf(piece, text, level) && piece != ""
    ensures if |piece| > c.size then level < CHARACTER_LEVEL && fragment in Fragments(c, piece, level + 1) else fragment == piece
  {
    hide PartsFragments;
    var parts := Parts(text, level);
    assert fragment in PartsFragments(c, parts, level);
    SomePart(c, parts, level, fragment);
    var i :| 0 <= i < |parts| && fragment in PartFragments(c, parts[i], level);
    piece := Piece(parts[i], level);
    if level == CHARACTER_LEVEL {
      CharacterPieces(text, i);
    }
  }

  lemma {:induction false} CharacterPieces(text: string, i: nat)
    requires i < |Parts(text, CHARACTER_LEVEL)|
    ensures |Piece(Parts(text, CHARACTER_LEVEL)[i], CHARACTER_LEVEL)| == 1
  {
  }

  lemma {:induction false} PieceIsCut(c: Config, text: string, level: nat, piece: string, fragment: string)
    requires c.Valid() && |text| > c.size && level < LEVELS && IsPieceOf(piece, text, level) && piece != ""
    requires if |piece| > c.size then fragment in Fragments(c, piece, level + 1) else fragment == piece
    ensures fragment in Fragments(c, text, level)
  {
    hide PartsFragments;
    var parts := Parts(text, level);
    var i :| 0 <= i < |parts| && piece == Piece(parts[i], level);
    assert fragment in PartFragments(c, parts[i], level);
    SomePart(c, parts, level, fragment);
    assert fragment in PartsFragments(c, parts, level);
  }

  lemma {:induction false} ChainTo(c: Config, text: string, level: nat, fragment: string) returns (chain: seq<string>)
    requires c.Valid() && text != "" && level < LEVELS && fragment in Fragments(c, text, level)
    ensures LeadsTo(c, text, level, chain, fragment)
    decreases LEVELS - level
  {
    hide PartsFragments, Parts, IsPieceOf;
    if |text| <= c.size {
      chain := [text];
    } else {
      var piece := FragmentOfPiece(c, text, level, fragment);
      if |piece| > c.size {
        var rest := ChainTo(c, piece, level + 1, fragment);
        chain := [text] + rest;
        LongerChain(c, text, level, rest, fragment);
      } else {
        chain := [text, piece];
      }
    }
  }

  lemma {:induction false} ShorterChain(c: Config, text: string, level: nat, chain: seq<string>, fragment: string)
    requires LeadsTo(c, text, level, chain, fragment) && |chain| > 1
    ensures level < LEVELS && |text| > c.size && IsPieceOf(chain[1], text, level)
    ensures LeadsTo(c, chain[1], level + 1, chain[1..], fragment)
  {
    hide IsPieceOf;
    var rest := chain[1..];
    assert IsPieceOf(chain[0 + 1], chain[0], level + 0);
    forall j | 0 <= j < |rest| - 1 ensures |rest[j]| > c.size && IsPieceOf(rest[j + 1], rest[j], level + 1 + j) {
      assert rest[j] == chain[j + 1] && rest[j + 1] == chain[j + 1 + 1];
      assert IsPieceOf(chain[j + 1 + 1], chain[j + 1], level + (j + 1));
    }
  }

  lemma {:induction false} ChainEndsInFragment(c: Config, text: string, level: nat, chain: seq<string>, fragment: string)
    requires c.Valid() && LeadsTo(c, text, level, chain, fragment)
    requires fragment != "" && |fragment| <= c.size
    ensures fragment in Fragments(c, text, level)
    decreases |chain|
  {
    hide PartsFragments, Parts, IsPieceOf;
    if |chain| > 1 {
      ShorterChain(c, text, level, chain, fragment);
      var piece := chain[1];
      if |chain| > 2 {
        ShorterChain(c, piece, level + 1, chain[1..], fragment);
        ChainEndsInFragment(c, piece, level + 1, chain[1..], fragment);
      }
      PieceIsCut(c, text, level, piece, fragment);
    }
  }
}

/** Which texts the guard flags, said in words and spaces. */
module GuardPhrases {
  import opened Text
  import opened Guard
  import opened GuardPatterns

  // ---- Phrases ----

  /** At least one whitespace character and nothing else. */
  predicate Gap(w: string) {
    w != "" && Blank(w)
  }

  predicate Nothing(w: string) {
    w == ""
  }

  /** A colon after any whitespace. */
  predicate Colon(w: string) {
    w != "" && Blank(w[..|w| - 1]) && w[|w| - 1] == ':'
  }

  /** The letters of a word, in either case. */
  predicate Spelled(word: string, w: string) {
    |w| == |word| && forall i :: 0 <= i < |w| ==> SameLetter(word[i], w[i])
  }

  /** The words of a phrase, in order, with gaps between them. */
  ghost predicate Written(words: seq<string>, w: string)
    requires words != []
    decreases |words|
  {
    if |words| == 1 then Spelled(words[0], w)
    else exists i, j :: 0 <= i < j <= |w| && Spelled(words[0], w[..i]) && Gap(w[i..j]) && Written(words[1..], w[j..])
  }

  /** One of the phrases and what has to follow it. */
  ghost predicate Says(phrases: set<seq<string>>, ending: string -> bool, w: string) {
    exists words, i :: words in phrases && words != [] && 0 <= i <= |w| && Written(words, w[..i]) && ending(w[i..])
  }

  const ARTICLES: set<seq<string>> := {[], ["all"], ["the"]}
  const EARLIER_WORDS := {"previous", "prior", "above", "earlier"}

  /** A verb, perhaps an article, a word for what came earlier, and a noun. */
  function ArticlePhrases(verb: string, nouns: set<string>): set<seq<string>> {
    set a, e, n | a in ARTICLES && e in EARLIER_WORDS && n in nouns :: [verb] + a + [e, n]
  }

  /** The override phrasings that the patterns are meant to find. */
  function Phrases(k: nat): set<seq<string>>
    requires k < 6
  {
    match k
    case 0 => ArticlePhrases("ignore", {"instruction", "instructions"})
    case 1 => ArticlePhrases("disregard", {"instruction", "instructions", "context", "text"})
    case 2 => {["forget", "everything"], ["forget", "all", "previous"], ["forget", "all", "prior"]}
    case 3 => {["you", "are", "now"]}
    case 4 => {["new", "instruction"], ["new", "instructions"]}
    case _ => {["system", "prompt"]}
  }

  function Ending(k: nat): string -> bool {
    if k == 3 then Gap else if k == 4 then Colon else Nothing
  }

  /** An override phrasing occurs in the text. */
  ghost predicate Overrides(text: string) {
    exists k, i, j :: 0 <= k < 6 && 0 <= i <= j <= |text| && Says(Phrases(k), Ending(k), text[i..j])
  }

  /** In ASCII, the same letter in either case and nothing else. */
  lemma {:induction false} SameLetterInAscii(letter: char, c: char)
    requires 'a' <= letter <= 'z' && c as int < 128
    ensures SameLetter(letter, c) <==> c as int == letter as int || c as int == letter as int - 32
  {
  }

  // ---- What expressions mean ----

  /** The words of an expression are the given phrases with the given ending. */
  ghost predicate Means(r: Regex, phrases: set<seq<string>>, ending: string -> bool) {
    forall w :: Matches(r, w) <==> Says(phrases, ending, w)
  }

  ghost predicate Same(r: Regex, s: Regex) {
    forall w :: Matches(r, w) <==> Matches(s, w)
  }

  lemma {:induction false} SameMeaning(r: Regex, s: Regex, phrases: set<seq<string>>, ending: string -> bool)
    requires Same(r, s) && Means(s, phrases, ending)
    ensures Means(r, phrases, ending)
  {
    forall w ensures Matches(r, w) <==> Says(phrases, ending, w) {
      assert Matches(r, w) <==> Matches(s, w);
    }
  }

  lemma {:induction false} SpacesAreGaps(w: string)
    ensures Matches(SOME_SPACE, w) <==> Gap(w)
    decreases |w|
  {
    if |w| > 1 {
      SpacesAreGaps(w[1..]);
      if Gap(w) {
        assert Gap(w[1..]);
        assert Matches(Spaces, w[..1]) && Matches(SOME_SPACE, w[1..]);
      }
      if Matches(SOME_SPACE, w) {
        assert SOME_SPACE == Repeat(Spaces) && !Matches(Spaces, w);
        var i :| 0 < i < |w| && Matches(Spaces, w[..i]) && Matches(SOME_SPACE, w[i..]);
        assert i == 1 && w == w[..1] + w[1..];
      }
    }
  }

  lemma {:induction false} MatchesConcat(first: Regex, second: Regex, w: string)
    ensures Matches(Concat(first, second), w) <==> exists i :: 0 <= i <= |w| && Matches(first, w[..i]) && Matches(second, w[i..])
  {
  }

  lemma {:induction false} ConcatEither(a: Regex, b: Regex, c: Regex)
    ensures Same(Concat(Either(a, b), c), Either(Concat(a, c), Concat(b, c)))
  {
    forall w ensures Matches(Concat(Either(a, b), c), w) <==> Matches(Either(Concat(a, c), Concat(b, c)), w) {
      MatchesConcat(Either(a, b), c, w);
      MatchesConcat(a, c, w);
      MatchesConcat(b, c, w);
    }
  }

  lemma {:induction false} ConcatOptional(a: Regex, c: Regex)
    ensures Same(Concat(Optional(a), c), Either(c, Concat(a, c)))
  {
    forall w ensures Matches(Concat(Optional(a), c), w) <==> Matches(Either(c, Concat(a, c)), w) {
      MatchesConcat(Optional(a), c, w);
      MatchesConcat(a, c, w);
      assert w[..0] == "" && w[0..] == w;
      if Matches(c, w) {
        assert Matches(Optional(a), w[..0]) && Matches(c, w[0..]);
      }
    }
  }

  lemma {:induction false} ConcatAssociates(a: Regex, b: Regex, c: Regex)
    ensures Same(Concat(Concat(a, b), c), Concat(a, Concat(b, c)))
  {
    forall w ensures Matches(Concat(Concat(a, b), c), w) <==> Matches(Concat(a, Concat(b, c)), w) {
      ConcatToRight(a, b, c, w);
      ConcatToLeft(a, b, c, w);
    }
  }

  lemma {:induction false} ConcatToRight(a: Regex, b: Regex, c: Regex, w: string)
    ensures Matches(Concat(Concat(a, b), c), w) ==> Matches(Concat(a, Concat(b, c)), w)
  {
    hide Matches;
    MatchesConcat(Concat(a, b), c, w);
    if Matches(Concat(Concat(a, b), c), w) {
      var j :| 0 <= j <= |w| && Matches(Concat(a, b), w[..j]) && Matches(c, w[j..]);
      MatchesConcat(a, b, w[..j]);
      var i :| 0 <= i <= j && Matches(a, w[..j][..i]) && Matches(b, w[..j][i..]);
      assert w[..j][..i] == w[..i] && w[..j][i..] == w[i..][..j - i] && w[j..] == w[i..][j - i..];
      MatchesConcat(b, c, w[i..]);
      MatchesConcat(a, Concat(b, c), w);
    }
  }

  lemma {:induction false} ConcatToLeft(a: Regex, b: Regex, c: Regex, w: string)
    ensures Matches(Concat(a, Concat(b, c)), w) ==> Matches(Concat(Concat(a, b), c), w)
  {
    hide Matches;
    MatchesConcat(a, Concat(b, c), w);
    if Matches(Concat(a, Concat(b, c)), w) {
      var i :| 0 <= i <= |w| && Matches(a, w[..i]) && Matches(Concat(b, c), w[i..]);
      MatchesConcat(b, c, w[i..]);
      var j :| 0 <= j <= |w| - i && Matches(b, w[i..][..j]) && Matches(c, w[i..][j..]);
      assert w[..i + j][..i] == w[..i] && w[..i + j][i..] == w[i..][..j] && w[i + j..] == w[i..][j..];
      MatchesConcat(a, b, w[..i + j]);
      MatchesConcat(Concat(a, b), c, w);
    }
  }

  // ---- Rules ----

  lemma {:induction false} MeansWord(word: string)
    ensures Means(Literal(word), {[word]}, Nothing)
  {
    forall w ensures Matches(Literal(word), w) <==> Says({[word]}, Nothing, w) {
      assert w[..|w|] == w && w[|w|..] == "";
      assert Matches(Literal(word), w) <==> Spelled(word, w);
      if Spelled(word, w) {
        assert [word] in {[word]} && Written([word], w[..|w|]) && Nothing(w[|w|..]);
      }
    }
  }

  lemma {:induction false} MeansEither(a: Regex, b: Regex, left: set<seq<string>>, right: set<seq<string>>, ending: string -> bool)
    requires Means(a, left, ending) && Means(b, right, ending)
    ensures Means(Either(a, b), left + right, ending)
  {
    forall w ensures Matches(Either(a, b), w) <==> Says(left + right, ending, w) {
      assert Matches(a, w) <==> Says(left, ending, w);
      assert Matches(b, w) <==> Says(right, ending, w);
    }
  }

  function Prefixed(word: string, phrases: set<seq<string>>): set<seq<string>> {
    set words | words in phrases :: [word] + words
  }

  /** A word, a gap and the rest. */
  function AfterWord(word: string, r: Regex): Regex {
    Concat(Literal(word), Concat(SOME_SPACE, r))
  }

  lemma {:induction false} MatchesAfterWord(word: string, r: Regex, w: string)
    ensures Matches(AfterWord(word, r), w)
       <==> exists i, j :: 0 <= i < j <= |w| && Spelled(word, w[..i]) && Gap(w[i..j]) && Matches(r, w[j..])
  {
    hide Gap, Spelled;
    if Matches(AfterWord(word, r), w) {
      var i, n := SplitAfterWord(word, r, w);
      assert w[i..][..n] == w[i..i + n] && w[i..][n..] == w[i + n..];
      assert 0 <= i < i + n <= |w| && Spelled(word, w[..i]) && Gap(w[i..i + n]) && Matches(r, w[i + n..]);
    }
    if i, j :| 0 <= i < j <= |w| && Spelled(word, w[..i]) && Gap(w[i..j]) && Matches(r, w[j..]) {
      assert w[i..][..j - i] == w[i..j] && w[i..][j - i..] == w[j..];
      JoinAfterWord(word, r, w, i, j - i);
    }
  }

  lemma {:induction false} SplitAfterWord(word: string, r: Regex, w: string) returns (i: nat, n: nat)
    requires Matches(AfterWord(word, r), w)
    ensures i + n <= |w| && n > 0 && Spelled(word, w[..i]) && Gap(w[i..][..n]) && Matches(r, w[i..][n..])
  {
    MatchesConcat(Literal(word), Concat(SOME_SPACE, r), w);
    i :| 0 <= i <= |w| && Matches(Literal(word), w[..i]) && Matches(Concat(SOME_SPACE, r), w[i..]);
    MatchesConcat(SOME_SPACE, r, w[i..]);
    n :| 0 <= n <= |w| - i && Matches(SOME_SPACE, w[i..][..n]) && Matches(r, w[i..][n..]);
    SpacesAreGaps(w[i..][..n]);
  }

  lemma {:induction false} JoinAfterWord(word: string, r: Regex, w: string, i: nat, n: nat)
    requires i + n <= |w| && Spelled(word, w[..i]) && Gap(w[i..][..n]) && Matches(r, w[i..][n..])
    ensures Matches(AfterWord(word, r), w)
  {
    SpacesAreGaps(w[i..][..n]);
    MatchesConcat(SOME_SPACE, r, w[i..]);
    assert Matches(Literal(word), w[..i]);
    MatchesConcat(Literal(word), Concat(SOME_SPACE, r), w);
  }

  lemma {:induction false} WrittenAfterWord(word: string, words: seq<string>, w: string)
    requires words != []
    ensures Written([word] + words, w)
       <==> exists i, j :: 0 <= i < j <= |w| && Spelled(word, w[..i]) && Gap(w[i..j]) && Written(words, w[j..])
  {
    assert ([word] + words)[1..] == words;
  }

  lemma {:induction false} MeansAfterWord(word: string, r: Regex, phrases: set<seq<string>>, ending: string -> bool)
    requires Means(r, phrases, ending) && [] !in phrases
    ensures Means(AfterWord(word, r), Prefixed(word, phrases), ending)
  {
    hide Gap, Spelled, Matches, Written;
    forall w ensures Matches(AfterWord(word, r), w) <==> Says(Prefixed(word, phrases), ending, w) {
      if Matches(AfterWord(word, r), w) {
        SaysAfterWord(word, r, phrases, ending, w);
      }
      if Says(Prefixed(word, phrases), ending, w) {
        FollowsWord(word, r, phrases, ending, w);
      }
    }
  }

  lemma {:induction false} SaysAfterWord(word: string, r: Regex, phrases: set<seq<string>>, ending: string -> bool, w: string)
    requires Means(r, phrases, ending) && Matches(AfterWord(word, r), w)
    ensures Says(Prefixed(word, phrases), ending, w)
  {
    hide Gap, Spelled, Matches, Written;
    MatchesAfterWord(word, r, w);
    var i, j :| 0 <= i < j <= |w| && Spelled(word, w[..i]) && Gap(w[i..j]) && Matches(r, w[j..]);
    assert Says(phrases, ending, w[j..]);
    var words, n :| words in phrases && words != [] && 0 <= n <= |w| - j && Written(words, w[j..][..n]) && ending(w[j..][n..]);
    var m := j + n;
    assert w[..m][..i] == w[..i] && w[..m][i..j] == w[i..j] && w[..m][j..] == w[j..][..n] && w[m..] == w[j..][n..];
    WrittenAfterWord(word, words, w[..m]);
    assert [word] + words in Prefixed(word, phrases);
  }

  lemma {:induction false} FollowsWord(word: string, r: Regex, phrases: set<seq<string>>, ending: string -> bool, w: string)
    requires Means(r, phrases, ending) && Says(Prefixed(word, phrases), ending, w) && [] !in phrases
    ensures Matches(AfterWord(word, r), w)
  {
    hide Gap, Spelled, Matches, Written;
    var all, m :| all in Prefixed(word, phrases) && all != [] && 0 <= m <= |w| && Written(all, w[..m]) && ending(w[m..]);
    var words :| words in phrases && all == [word] + words;
    WrittenAfterWord(word, words, w[..m]);
    var i, j :| 0 <= i < j <= m && Spelled(word, w[..m][..i]) && Gap(w[..m][i..j]) && Written(words, w[..m][j..]);
    assert w[..m][..i] == w[..i] && w[..m][i..j] == w[i..j];
    assert w[..m][j..] == w[j..][..m - j] && w[m..] == w[j..][m - j..];
    assert Says(phrases, ending, w[j..]);
    MatchesAfterWord(word, r, w);
  }

  /** A word with a gap or a colon after it, or with nothing. */
  lemma {:induction false} MeansWordThen(word: string, r: Regex, ending: string -> bool)
    requires forall w :: Matches(r, w) <==> ending(w)
    ensures Means(Concat(Literal(word), r), {[word]}, ending)
  {
    forall w ensures Matches(Concat(Literal(word), r), w) <==> Says({[word]}, ending, w) {
      MatchesConcat(Literal(word), r, w);
      if Says({[word]}, ending, w) {
        var words, i :| words in {[word]} && words != [] && 0 <= i <= |w| && Written(words, w[..i]) && ending(w[i..]);
        assert Matches(Literal(word), w[..i]);
      }
      if i :| 0 <= i <= |w| && Matches(Literal(word), w[..i]) && Matches(r, w[i..]) {
        assert [word] in {[word]} && Written([word], w[..i]) && ending(w[i..]);
      }
    }
  }

  lemma {:induction false} LiteralsJoin(a: string, b: string)
    ensures Same(Concat(Literal(a), Literal(b)), Literal(a + b))
  {
    forall w ensures Matches(Concat(Literal(a), Literal(b)), w) <==> Matches(Literal(a + b), w) {
      MatchesConcat(Literal(a), Literal(b), w);
      if Matches(Literal(a + b), w) {
        var n := |a|;
        assert Matches(Literal(a), w[..n]) && Matches(Literal(b), w[n..]) by {
          forall i | 0 <= i < n ensures SameLetter(a[i], w[..n][i]) {
            assert SameLetter((a + b)[i], w[i]);
          }
          forall i | 0 <= i < |b| ensures SameLetter(b[i], w[n..][i]) {
            assert SameLetter((a + b)[n + i], w[n + i]);
          }
        }
      }
      if i :| 0 <= i <= |w| && Matches(Literal(a), w[..i]) && Matches(Literal(b), w[i..]) {
        forall j | 0 <= j < |w| ensures SameLetter((a + b)[j], w[j]) {
          assert if j < i then SameLetter(a[j], w[..i][j]) else SameLetter(b[j - i], w[i..][j - i]);
        }
      }
    }
  }

  lemma {:induction false} LiteralsJoinBefore(a: string, b: string, r: Regex)
    ensures Same(Concat(Concat(Literal(a), Literal(b)), r), Concat(Literal(a + b), r))
  {
    LiteralsJoin(a, b);
    hide Matches;
    forall w ensures Matches(Concat(Concat(Literal(a), Literal(b)), r), w) <==> Matches(Concat(Literal(a + b), r), w) {
      MatchesConcat(Concat(Literal(a), Literal(b)), r, w);
      MatchesConcat(Literal(a + b), r, w);
    }
  }

  lemma {:induction false} SameInEither(a: Regex, b: Regex, c: Regex, d: Regex)
    requires Same(a, c) && Same(b, d)
    ensures Same(Either(a, b), Either(c, d))
  {
  }

  // ---- The parts of the patterns ----

  lemma {:induction false} Spread(r: Regex, s: Regex, t: Regex)
    requires Same(r, s) && Same(s, t)
    ensures Same(r, t)
  {
    forall w ensures Matches(r, w) <==> Matches(t, w) {
      assert Matches(r, w) <==> Matches(s, w);
    }
  }

  function Earliers(nouns: set<seq<string>>): set<seq<string>> {
    set e, words | e in EARLIER_WORDS && words in nouns :: [e] + words
  }

  lemma {:induction false} MeansEarlier(r: Regex, nouns: set<seq<string>>, ending: string -> bool)
    requires Means(r, nouns, ending) && [] !in nouns
    ensures Means(Concat(EARLIER, Concat(SOME_SPACE, r)), Earliers(nouns), ending)
  {
    hide Matches, Says;
    var rest := Concat(SOME_SPACE, r);
    var above := Either(Literal("above"), Literal("earlier"));
    var prior := Either(Literal("prior"), above);
    MeansAfterWord("above", r, nouns, ending);
    MeansAfterWord("earlier", r, nouns, ending);
    MeansEither(AfterWord("above", r), AfterWord("earlier", r), Prefixed("above", nouns), Prefixed("earlier", nouns), ending);
    ConcatEither(Literal("above"), Literal("earlier"), rest);
    var some := Prefixed("above", nouns) + Prefixed("earlier", nouns);
    SameMeaning(Concat(above, rest), Either(AfterWord("above", r), AfterWord("earlier", r)), some, ending);
    MeansAfterWord("prior", r, nouns, ending);
    MeansEither(AfterWord("prior", r), Concat(above, rest), Prefixed("prior", nouns), some, ending);
    ConcatEither(Literal("prior"), above, rest);
    var more := Prefixed("prior", nouns) + some;
    SameMeaning(Concat(prior, rest), Either(AfterWord("prior", r), Concat(above, rest)), more, ending);
    MeansAfterWord("previous", r, nouns, ending);
    MeansEither(AfterWord("previous", r), Concat(prior, rest), Prefixed("previous", nouns), more, ending);
    ConcatEither(Literal("previous"), prior, rest);
    SameMeaning(Concat(EARLIER, rest), Either(AfterWord("previous", r), Concat(prior, rest)), Prefixed("previous", nouns) + more, ending);
    assert Prefixed("previous", nouns) + more == Earliers(nouns);
  }

  function WithArticle(phrases: set<seq<string>>): set<seq<string>> {
    phrases + (Prefixed("all", phrases) + Prefixed("the", phrases))
  }

  lemma {:induction false} MeansWithArticle(r: Regex, phrases: set<seq<string>>, ending: string -> bool)
    requires Means(r, phrases, ending) && [] !in phrases
    ensures Means(Concat(ARTICLE, r), WithArticle(phrases), ending)
  {
    hide Matches, Says;
    var all, the := Concat(Literal("all"), SOME_SPACE), Concat(Literal("the"), SOME_SPACE);
    MeansAfterWord("all", r, phrases, ending);
    MeansAfterWord("the", r, phrases, ending);
    ConcatAssociates(Literal("all"), SOME_SPACE, r);
    ConcatAssociates(Literal("the"), SOME_SPACE, r);
    SameMeaning(Concat(all, r), AfterWord("all", r), Prefixed("all", phrases), ending);
    SameMeaning(Concat(the, r), AfterWord("the", r), Prefixed("the", phrases), ending);
    var both := Prefixed("all", phrases) + Prefixed("the", phrases);
    MeansEither(Concat(all, r), Concat(the, r), Prefixed("all", phrases), Prefixed("the", phrases), ending);
    ConcatEither(all, the, r);
    SameMeaning(Concat(Either(all, the), r), Either(Concat(all, r), Concat(the, r)), both, ending);
    MeansEither(r, Concat(Either(all, the), r), phrases, both, ending);
    ConcatOptional(Either(all, the), r);
    SameMeaning(Concat(ARTICLE, r), Either(r, Concat(Either(all, the), r)), phrases + both, ending);
  }

  const INSTRUCTION_NOUNS := {["instruction"], ["instructions"]}

  lemma {:induction false} ConcatOptionalLast(a: Regex, b: Regex)
    ensures Same(Concat(a, Optional(b)), Either(a, Concat(a, b)))
  {
    forall w ensures Matches(Concat(a, Optional(b)), w) <==> Matches(Either(a, Concat(a, b)), w) {
      MatchesConcat(a, Optional(b), w);
      MatchesConcat(a, b, w);
      assert w[..|w|] == w && w[|w|..] == "";
      if Matches(a, w) {
        assert Matches(a, w[..|w|]) && Matches(Optional(b), w[|w|..]);
      }
      if i :| 0 <= i <= |w| && Matches(a, w[..i]) && Matches(Optional(b), w[i..]) {
        if w[i..] == "" {
          assert w[..i] == w;
        }
      }
    }
  }

  lemma {:induction false} MeansInstructions()
    ensures Means(INSTRUCTIONS, INSTRUCTION_NOUNS, Nothing)
  {
    hide Matches, Says;
    var one, many := Literal("instruction"), Concat(Literal("instruction"), Literal("s"));
    MeansWord("instruction");
    MeansWord("instructions");
    LiteralsJoin("instruction", "s");
    assert "instruction" + "s" == "instructions";
    SameMeaning(many, Literal("instructions"), {["instructions"]}, Nothing);
    MeansEither(one, many, {["instruction"]}, {["instructions"]}, Nothing);
    ConcatOptionalLast(one, Literal("s"));
    SameMeaning(INSTRUCTIONS, Either(one, many), {["instruction"]} + {["instructions"]}, Nothing);
    assert {["instruction"]} + {["instructions"]} == INSTRUCTION_NOUNS;
  }

  /** `instructions?` with something after it. */
  lemma {:induction false} MeansInstructionsThen(r: Regex, ending: string -> bool)
    requires forall w :: Matches(r, w) <==> ending(w)
    ensures Means(Concat(INSTRUCTIONS, r), INSTRUCTION_NOUNS, ending)
  {
    var one, many := Literal("instruction"), Concat(Literal("instruction"), Literal("s"));
    MeansWordThen("instruction", r, ending);
    MeansWordThen("instructions", r, ending);
    hide Matches, Says;
    LiteralsJoinBefore("instruction", "s", r);
    assert "instruction" + "s" == "instructions";
    SameMeaning(Concat(many, r), Concat(Literal("instructions"), r), {["instructions"]}, ending);
    MeansEither(Concat(one, r), Concat(many, r), {["instruction"]}, {["instructions"]}, ending);
    ConcatOptionalLast(one, Literal("s"));
    ConcatEither(one, many, r);
    SameBefore(INSTRUCTIONS, Either(one, many), r);
    Spread(Concat(INSTRUCTIONS, r), Concat(Either(one, many), r), Either(Concat(one, r), Concat(many, r)));
    SameMeaning(Concat(INSTRUCTIONS, r), Either(Concat(one, r), Concat(many, r)), {["instruction"]} + {["instructions"]}, ending);
    assert {["instruction"]} + {["instructions"]} == INSTRUCTION_NOUNS;
  }

  lemma {:induction false} SameBefore(a: Regex, b: Regex, r: Regex)
    requires Same(a, b)
    ensures Same(Concat(a, r), Concat(b, r))
  {
    hide Matches;
    forall w ensures Matches(Concat(a, r), w) <==> Matches(Concat(b, r), w) {
      MatchesConcat(a, r, w);
      MatchesConcat(b, r, w);
    }
  }

  lemma {:induction false} ColonMatches(w: string)
    ensures Matches(Concat(Optional(SOME_SPACE), Literal(":")), w) <==> Colon(w)
  {
    var n := |w| - 1;
    MatchesConcat(Optional(SOME_SPACE), Literal(":"), w);
    if Colon(w) {
      SpacesAreGaps(w[..n]);
      assert Matches(Optional(SOME_SPACE), w[..n]) && Matches(Literal(":"), w[n..]);
    }
    if i :| 0 <= i <= |w| && Matches(Optional(SOME_SPACE), w[..i]) && Matches(Literal(":"), w[i..]) {
      SpacesAreGaps(w[..i]);
      assert SameLetter(":"[0], w[i..][0]);
    }
  }

  // ---- The six patterns ----

  lemma {:induction false} PrefixedOne(word: string, words: seq<string>)
    ensures Prefixed(word, {words}) == {[word] + words}
  {
    assert words in {words} && [word] + words in Prefixed(word, {words});
  }

  lemma {:induction false} PrefixedBoth(word: string, left: set<seq<string>>, right: set<seq<string>>)
    ensures Prefixed(word, left + right) == Prefixed(word, left) + Prefixed(word, right)
  {
  }

  lemma {:induction false} IgnoreMeans()
    ensures Means(PATTERNS[0], Phrases(0), Nothing)
  {
    hide Means, Matches;
    var earlier := Concat(EARLIER, Concat(SOME_SPACE, INSTRUCTIONS));
    MeansInstructions();
    MeansEarlier(INSTRUCTIONS, INSTRUCTION_NOUNS, Nothing);
    var phrases := Earliers(INSTRUCTION_NOUNS);
    MeansWithArticle(earlier, phrases, Nothing);
    MeansAfterWord("ignore", Concat(ARTICLE, earlier), WithArticle(phrases), Nothing);
    assert INSTRUCTION_NOUNS == set n | n in {"instruction", "instructions"} :: [n];
    PhrasesOf("ignore", {"instruction", "instructions"}, INSTRUCTION_NOUNS);
  }

  lemma {:induction false} DisregardMeans()
    ensures Means(PATTERNS[1], Phrases(1), Nothing)
  {
    hide Means, Matches;
    var nouns := {"instruction", "instructions", "context", "text"};
    var phrases: set<seq<string>> := set n | n in nouns :: [n];
    var others := Either(Literal("context"), Literal("text"));
    MeansInstructions();
    MeansWord("context");
    MeansWord("text");
    MeansEither(Literal("context"), Literal("text"), {["context"]}, {["text"]}, Nothing);
    MeansEither(INSTRUCTIONS, others, INSTRUCTION_NOUNS, {["context"]} + {["text"]}, Nothing);
    assert INSTRUCTION_NOUNS + ({["context"]} + {["text"]}) == phrases;
    var noun := Either(INSTRUCTIONS, others);
    var earlier := Concat(EARLIER, Concat(SOME_SPACE, noun));
    MeansEarlier(noun, phrases, Nothing);
    MeansWithArticle(earlier, Earliers(phrases), Nothing);
    MeansAfterWord("disregard", Concat(ARTICLE, earlier), WithArticle(Earliers(phrases)), Nothing);
    PhrasesOf("disregard", nouns, phrases);
  }

  lemma {:induction false} ForgetMeans()
    ensures Means(PATTERNS[2], Phrases(2), Nothing)
  {
    hide Means, Matches;
    var which := Either(Literal("previous"), Literal("prior"));
    MeansWord("everything");
    MeansWord("previous");
    MeansWord("prior");
    MeansEither(Literal("previous"), Literal("prior"), {["previous"]}, {["prior"]}, Nothing);
    var some := {["previous"]} + {["prior"]};
    MeansAfterWord("all", which, some, Nothing);
    MeansEither(Literal("everything"), AfterWord("all", which), {["everything"]}, Prefixed("all", some), Nothing);
    var phrases := {["everything"]} + Prefixed("all", some);
    MeansAfterWord("forget", Either(Literal("everything"), AfterWord("all", which)), phrases, Nothing);
    PrefixedBoth("all", {["previous"]}, {["prior"]});
    PrefixedOne("all", ["previous"]);
    PrefixedOne("all", ["prior"]);
    assert ["all"] + ["previous"] == ["all", "previous"] && ["all"] + ["prior"] == ["all", "prior"];
    PrefixedBoth("forget", {["everything"]}, {["all", "previous"]} + {["all", "prior"]});
    PrefixedBoth("forget", {["all", "previous"]}, {["all", "prior"]});
    PrefixedOne("forget", ["everything"]);
    PrefixedOne("forget", ["all", "previous"]);
    PrefixedOne("forget", ["all", "prior"]);
    hide Prefixed;
    assert ["forget"] + ["everything"] == ["forget", "everything"];
    assert ["forget"] + ["all", "previous"] == ["forget", "all", "previous"];
    assert ["forget"] + ["all", "prior"] == ["forget", "all", "prior"];
    assert Prefixed("forget", phrases) == Phrases(2);
  }

  lemma {:induction false} YouMeans()
    ensures Means(PATTERNS[3], Phrases(3), Gap)
  {
    forall w ensures Matches(SOME_SPACE, w) <==> Gap(w) {
      SpacesAreGaps(w);
    }
    MeansWordThen("now", SOME_SPACE, Gap);
    hide Means, Matches;
    var now := Concat(Literal("now"), SOME_SPACE);
    MeansAfterWord("are", now, {["now"]}, Gap);
    MeansAfterWord("you", AfterWord("are", now), Prefixed("are", {["now"]}), Gap);
    PrefixedOne("are", ["now"]);
    PrefixedOne("you", ["are", "now"]);
    assert ["are"] + ["now"] == ["are", "now"] && ["you"] + ["are", "now"] == ["you", "are", "now"];
  }

  lemma {:induction false} NewMeans()
    ensures Means(PATTERNS[4], Phrases(4), Colon)
  {
    var colon := Concat(Optional(SOME_SPACE), Literal(":"));
    forall w ensures Matches(colon, w) <==> Colon(w) {
      ColonMatches(w);
    }
    MeansInstructionsThen(colon, Colon);
    hide Means, Matches;
    MeansAfterWord("new", Concat(INSTRUCTIONS, colon), INSTRUCTION_NOUNS, Colon);
    PrefixedBoth("new", {["instruction"]}, {["instructions"]});
    assert {["instruction"]} + {["instructions"]} == INSTRUCTION_NOUNS;
    PrefixedOne("new", ["instruction"]);
    PrefixedOne("new", ["instructions"]);
    assert ["new"] + ["instruction"] == ["new", "instruction"] && ["new"] + ["instructions"] == ["new", "instructions"];
  }

  lemma {:induction false} SystemMeans()
    ensures Means(PATTERNS[5], Phrases(5), Nothing)
  {
    hide Means, Matches;
    MeansWord("prompt");
    MeansAfterWord("system", Literal("prompt"), {["prompt"]}, Nothing);
    PrefixedOne("system", ["prompt"]);
    assert ["system"] + ["prompt"] == ["system", "prompt"];
  }

  /** A pattern matches exactly its override phrasings: the words of the phrase in either case, with
      whitespace between them, and whitespace or a colon after them where it asks for that. */
  lemma {:induction false} PatternsMeanExactly(k: nat, w: string)
    requires k < 6
    ensures |PATTERNS| == 6
    ensures Matches(PATTERNS[k], w) <==> Says(Phrases(k), Ending(k), w)
  {
    hide Matches, Says, Phrases;
    IgnoreMeans();
    DisregardMeans();
    ForgetMeans();
    YouMeans();
    NewMeans();
    SystemMeans();
    assert Means(PATTERNS[k], Phrases(k), Ending(k));
  }

  lemma {:induction false} OverridesExactlyWhen(patterns: seq<Pattern>, text: string)
    requires AllCompile(patterns)
    ensures Overrides(text) <==> exists k :: 0 <= k < |patterns| && !Clean(patterns[k], text)
  {
    hide Matches, Says, Phrases, Ending;
    forall k: nat, w | k < 6 ensures patterns[k].words(w) <==> Says(Phrases(k), Ending(k), w) {
      PatternsMeanExactly(k, w);
      assert Compiles(PATTERNS[k], patterns[k]);
    }
    if Overrides(text) {
      var k, i, j :| 0 <= k < 6 && 0 <= i <= j <= |text| && Says(Phrases(k), Ending(k), text[i..j]);
      assert !Clean(patterns[k], text);
    }
    if k :| 0 <= k < |patterns| && !Clean(patterns[k], text) {
      var i, j :| 0 <= i <= j <= |text| && patterns[k].words(text[i..j]);
      assert Says(Phrases(k), Ending(k), text[i..j]);
    }
  }

  /** The guard flags and changes a text if and only if an override phrasing occurs in it, and none
      is left in what it returns. */
  lemma {:induction false} FlagsExactlyOverrides(patterns: seq<Pattern>, text: string)
    requires AllCompile(patterns)
    ensures AllRedactable(patterns)
    ensures var r := Scanned(patterns, text);
            (r.1 <==> Overrides(text)) && (r.0 != text <==> Overrides(text)) && !Overrides(r.0)
  {
    hide Overrides, AllCompile;
    GuardIsSound(patterns, text);
    OverridesExactlyWhen(patterns, text);
    OverridesExactlyWhen(patterns, Scanned(patterns, text).0);
    FlagMeansMatch(patterns, text);
  }

  lemma {:induction false} PhraseHasParts(word: string, nouns: set<string>, phrases: set<seq<string>>, words: seq<string>)
    requires phrases == (set n | n in nouns :: [n]) && words in Prefixed(word, WithArticle(Earliers(phrases)))
    ensures words in ArticlePhrases(word, nouns)
  {
    var rest :| rest in WithArticle(Earliers(phrases)) && words == [word] + rest;
    var a, e, n := ArticleOf(nouns, phrases, rest);
    assert words == [word] + a + [e, n];
  }

  lemma {:induction false} PartsMakePhrase(word: string, nouns: set<string>, phrases: set<seq<string>>, words: seq<string>)
    requires phrases == (set n | n in nouns :: [n]) && words in ArticlePhrases(word, nouns)
    ensures words in Prefixed(word, WithArticle(Earliers(phrases)))
  {
    hide WithArticle;
    var a, e, n :| a in ARTICLES && e in EARLIER_WORDS && n in nouns && words == [word] + a + [e, n];
    assert [n] in phrases && [e] + [n] == [e, n];
    assert [e, n] in Earliers(phrases);
    ArticleAdded(Earliers(phrases), a, [e, n]);
    assert words == [word] + (a + [e, n]);
  }

  lemma {:induction false} ArticleAdded(phrases: set<seq<string>>, a: seq<string>, phrase: seq<string>)
    requires a in ARTICLES && phrase in phrases
    ensures a + phrase in WithArticle(phrases)
  {
    if a == [] {
      assert a + phrase == phrase;
    }
  }

  /** The phrases of the first two patterns, put together from their parts. */
  lemma {:induction false} PhrasesOf(word: string, nouns: set<string>, phrases: set<seq<string>>)
    requires phrases == set n | n in nouns :: [n]
    ensures Prefixed(word, WithArticle(Earliers(phrases))) == ArticlePhrases(word, nouns)
  {
    hide Prefixed, WithArticle, Earliers, ArticlePhrases;
    var left, right := Prefixed(word, WithArticle(Earliers(phrases))), ArticlePhrases(word, nouns);
    forall words ensures words in left <==> words in right {
      if words in left {
        PhraseHasParts(word, nouns, phrases, words);
      }
      if words in right {
        PartsMakePhrase(word, nouns, phrases, words);
      }
    }
  }

  lemma {:induction false} ArticleOf(nouns: set<string>, phrases: set<seq<string>>, rest: seq<string>)
    returns (a: seq<string>, e: string, n: string)
    requires phrases == set n | n in nouns :: [n]
    requires rest in WithArticle(Earliers(phrases))
    ensures a in ARTICLES && e in EARLIER_WORDS && n in nouns && rest == a + [e, n]
  {
    var phrase := rest;
    a := [];
    if rest !in Earliers(phrases) {
      a := [rest[0]];
      phrase := rest[1..];
      assert phrase in Earliers(phrases);
    }
    var noun;
    e, noun :| e in EARLIER_WORDS && noun in phrases && phrase == [e] + noun;
    n :| n in nouns && noun == [n];
  }
}

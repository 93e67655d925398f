/** The guard's own patterns, as regular expressions, meet what the guard needs of a pattern. */
module GuardPatterns {
  import opened Text
  import opened Guard

  datatype Regex =
    | Literal(word: string)   // one or more letters or a colon, in either case
    | Spaces                  // \s
    | Concat(first: Regex, second: Regex)
    | Either(left: Regex, right: Regex)
    | Optional(inner: Regex)
    | Repeat(inner: Regex)    // one or more, or with Optional zero or more

  /** A character matches a lower-case letter of a pattern without regard to case. Python also
      accepts two dotted or dotless forms of i and the long s. */
  predicate SameLetter(letter: char, c: char) {
    || c == letter
    || ('a' <= letter <= 'z' && c as int == letter as int - 32)
    || (letter == 'i' && (c == '\U{130}' || c == '\U{131}'))
    || (letter == 's' && c == '\U{17f}')
  }

  ghost predicate Matches(r: Regex, w: string)
    decreases r, |w|
  {
    match r
    case Literal(word) => |w| == |word| && forall i :: 0 <= i < |w| ==> SameLetter(word[i], w[i])
    case Spaces => |w| == 1 && IsSpace(w[0])
    case Concat(first, second) => exists i :: 0 <= i <= |w| && Matches(first, w[..i]) && Matches(second, w[i..])
    case Either(left, right) => Matches(left, w) || Matches(right, w)
    case Optional(inner) => w == "" || Matches(inner, w)
    case Repeat(inner) => Matches(inner, w) || exists i :: 0 < i < |w| && Matches(inner, w[..i]) && Matches(r, w[i..])
  }

  const SOME_SPACE := Repeat(Spaces)

  /** `(?:all\s+|the\s+)?` */
  const ARTICLE := Optional(Either(Concat(Literal("all"), SOME_SPACE), Concat(Literal("the"), SOME_SPACE)))

  const EARLIER := Either(Literal("previous"), Either(Literal("prior"), Either(Literal("above"), Literal("earlier"))))

  /** `instructions?` */
  const INSTRUCTIONS := Concat(Literal("instruction"), Optional(Literal("s")))

  /** `_PATTERNS`. */
  const PATTERNS: seq<Regex> := [
    Concat(Literal("ignore"), Concat(SOME_SPACE, Concat(ARTICLE, Concat(EARLIER, Concat(SOME_SPACE, INSTRUCTIONS))))),
    Concat(Literal("disregard"), Concat(SOME_SPACE, Concat(ARTICLE, Concat(EARLIER, Concat(SOME_SPACE,
      Either(INSTRUCTIONS, Either(Literal("context"), Literal("text")))))))),
    Concat(Literal("forget"), Concat(SOME_SPACE,
      Either(Literal("everything"), Concat(Literal("all"), Concat(SOME_SPACE, Either(Literal("previous"), Literal("prior"))))))),
    Concat(Literal("you"), Concat(SOME_SPACE, Concat(Literal("are"), Concat(SOME_SPACE, Concat(Literal("now"), SOME_SPACE))))),
    Concat(Literal("new"), Concat(SOME_SPACE, Concat(INSTRUCTIONS, Concat(Optional(SOME_SPACE), Literal(":"))))),
    Concat(Literal("system"), Concat(SOME_SPACE, Literal("prompt")))]

  // ---- Checks on the expression, sound for every word ----

  /** Only lower-case letters and the colon. */
  predicate Plain(word: string) {
    word != "" && forall i :: 0 <= i < |word| ==> 'a' <= word[i] <= 'z' || word[i] == ':'
  }

  predicate PlainLiterals(r: Regex) {
    match r
    case Literal(word) => Plain(word)
    case Spaces => true
    case Concat(first, second) => PlainLiterals(first) && PlainLiterals(second)
    case Either(left, right) => PlainLiterals(left) && PlainLiterals(right)
    case Optional(inner) => PlainLiterals(inner)
    case Repeat(inner) => PlainLiterals(inner)
  }

  /** Every word has whitespace in it. */
  predicate NeedsSpace(r: Regex) {
    match r
    case Literal(word) => false
    case Spaces => true
    case Concat(first, second) => NeedsSpace(first) || NeedsSpace(second)
    case Either(left, right) => NeedsSpace(left) && NeedsSpace(right)
    case Optional(inner) => false
    case Repeat(inner) => NeedsSpace(inner)
  }

  lemma {:induction false} BracketFreeConcat(w: string, i: nat)
    requires i <= |w| && BracketFree(w[..i]) && BracketFree(w[i..])
    ensures BracketFree(w)
  {
    assert w == w[..i] + w[i..];
  }

  lemma {:induction false} PlainIsBracketFree(word: string, w: string)
    requires Plain(word) && Matches(Literal(word), w)
    ensures BracketFree(w)
  {
    forall i | 0 <= i < |w| ensures w[i] != '[' && w[i] != ']' {
      assert SameLetter(word[i], w[i]);
    }
  }

  lemma {:induction false} WordsAreBracketFree(r: Regex, w: string)
    requires PlainLiterals(r) && Matches(r, w)
    ensures BracketFree(w)
    decreases r, |w|
  {
    match r
    case Literal(word) => PlainIsBracketFree(word, w);
    case Spaces =>
    case Concat(first, second) =>
      var i :| 0 <= i <= |w| && Matches(first, w[..i]) && Matches(second, w[i..]);
      WordsAreBracketFree(first, w[..i]);
      WordsAreBracketFree(second, w[i..]);
      BracketFreeConcat(w, i);
    case Either(left, right) =>
      if Matches(left, w) { WordsAreBracketFree(left, w); } else { WordsAreBracketFree(right, w); }
    case Optional(inner) =>
      if w != "" { WordsAreBracketFree(inner, w); }
    case Repeat(inner) =>
      if Matches(inner, w) {
        WordsAreBracketFree(inner, w);
      } else {
        var i :| 0 < i < |w| && Matches(inner, w[..i]) && Matches(r, w[i..]);
        WordsAreBracketFree(inner, w[..i]);
        WordsAreBracketFree(r, w[i..]);
        BracketFreeConcat(w, i);
      }
  }

  ghost predicate HasSpace(w: string) {
    exists i :: 0 <= i < |w| && IsSpace(w[i])
  }

  lemma {:induction false} HasSpaceIn(w: string, a: nat, b: nat)
    requires a <= b <= |w| && HasSpace(w[a..b])
    ensures HasSpace(w)
  {
    var i :| 0 <= i < b - a && IsSpace(w[a..b][i]);
    assert IsSpace(w[a + i]);
  }

  lemma {:induction false} WordsHaveSpace(r: Regex, w: string)
    requires NeedsSpace(r) && Matches(r, w)
    ensures HasSpace(w)
    decreases r, |w|
  {
    match r
    case Spaces => assert IsSpace(w[0]);
    case Concat(first, second) =>
      var i :| 0 <= i <= |w| && Matches(first, w[..i]) && Matches(second, w[i..]);
      assert w[..i] == w[0..i] && w[i..] == w[i..|w|];
      if NeedsSpace(first) {
        WordsHaveSpace(first, w[..i]);
        HasSpaceIn(w, 0, i);
      } else {
        WordsHaveSpace(second, w[i..]);
        HasSpaceIn(w, i, |w|);
      }
    case Either(left, right) =>
      if Matches(left, w) { WordsHaveSpace(left, w); } else { WordsHaveSpace(right, w); }
    case Repeat(inner) =>
      if Matches(inner, w) {
        WordsHaveSpace(inner, w);
      } else {
        var i :| 0 < i < |w| && Matches(inner, w[..i]) && Matches(r, w[i..]);
        WordsHaveSpace(inner, w[..i]);
        assert w[..i] == w[0..i];
        HasSpaceIn(w, 0, i);
      }
  }

  /** A compiled pattern whose words are those of a regular expression, whatever match the engine
      prefers where several start at the same place. */
  ghost predicate Compiles(r: Regex, p: Pattern) {
    Finds(p) && forall w :: p.words(w) <==> Matches(r, w)
  }

  lemma {:induction false} CompiledIsRedactable(r: Regex, p: Pattern)
    requires Compiles(r, p) && PlainLiterals(r) && NeedsSpace(r)
    ensures Redactable(p)
  {
    forall w | p.words(w) ensures w != "" && BracketFree(w) {
      WordsAreBracketFree(r, w);
      WordsHaveSpace(r, w);
    }
    var mark := "redacted";
    forall i, j | 0 <= i <= j <= |mark| ensures !p.words(mark[i..j]) {
      if p.words(mark[i..j]) {
        WordsHaveSpace(r, mark[i..j]);
        HasSpaceIn(mark, i, j);
      }
    }
  }

  lemma {:induction false} PartsArePlain()
    ensures PlainLiterals(SOME_SPACE) && NeedsSpace(SOME_SPACE)
    ensures PlainLiterals(ARTICLE) && PlainLiterals(EARLIER) && PlainLiterals(INSTRUCTIONS)
  {
  }

  lemma {:induction false} PatternsPassTheChecks(k: nat)
    requires k < |PATTERNS|
    ensures PlainLiterals(PATTERNS[k]) && NeedsSpace(PATTERNS[k])
  {
    PartsArePlain();
  }

  ghost predicate AllCompile(patterns: seq<Pattern>) {
    |patterns| == |PATTERNS| && forall k :: 0 <= k < |PATTERNS| ==> Compiles(PATTERNS[k], patterns[k])
  }

  /** The guard as it is configured: scanning leaves no match of any of the six patterns, a second
      scan does nothing, and the flag says exactly whether the text changed. */
  lemma {:induction false} GuardIsSound(patterns: seq<Pattern>, text: string)
    requires AllCompile(patterns)
    ensures AllRedactable(patterns)
    ensures var r := Scanned(patterns, text);
            && (forall k :: 0 <= k < |patterns| ==> Clean(patterns[k], r.0))
            && Scanned(patterns, r.0) == (r.0, false)
            && (r.1 <==> r.0 != text)
  {
    forall k | 0 <= k < |patterns| ensures Redactable(patterns[k]) {
      PatternsPassTheChecks(k);
      CompiledIsRedactable(PATTERNS[k], patterns[k]);
    }
    ScanIsComplete(patterns, text);
    ScanIsIdempotent(patterns, text);
    FlagMeansChange(patterns, text);
  }
}

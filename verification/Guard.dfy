/** The prompt-injection guard: sequential redaction of known override phrasings. */
module Guard {
  import opened Sequences

  const REDACTION := "[redacted]"

  /** A compiled pattern: the words it matches, and the length of the match that the regular
      expression engine picks at a position, 0 if there is none. */
  datatype Pattern = Pattern(words: string -> bool, matched: (string, nat) -> nat)

  ghost predicate BracketFree(s: string) {
    forall i :: 0 <= i < |s| ==> s[i] != '[' && s[i] != ']'
  }

  /** No word of the pattern occurs in the text. */
  ghost predicate Clean(p: Pattern, s: string) {
    forall i, j :: 0 <= i <= j <= |s| ==> !p.words(s[i..j])
  }

  /** The engine finds a match at a position if and only if some word starts there. */
  ghost predicate Finds(p: Pattern) {
    forall s: string, i: nat :: i <= |s| ==>
      && i + p.matched(s, i) <= |s|
      && (if p.matched(s, i) > 0 then p.words(s[i..i + p.matched(s, i)])
          else forall j :: i <= j <= |s| ==> !p.words(s[i..j]))
  }

  /** What the guard needs of a pattern: words are not empty and have no brackets, and none is
      inside the redaction mark. */
  ghost predicate Redactable(p: Pattern) {
    && Finds(p)
    && (forall w :: p.words(w) ==> w != "" && BracketFree(w))
    && Clean(p, "redacted")
  }

  /** `pattern.subn(REDACTION, s)` from position `i` on: the new text and the number of matches. */
  ghost function Subn(p: Pattern, s: string, i: nat): (r: (string, nat))
    requires Finds(p) && i <= |s|
    decreases |s| - i
  {
    if i == |s| then ("", 0)
    else if p.matched(s, i) > 0 then
      var rest := Subn(p, s, i + p.matched(s, i));
      (REDACTION + rest.0, rest.1 + 1)
    else
      var rest := Subn(p, s, i + 1);
      ([s[i]] + rest.0, rest.1)
  }

  /** The same as a scan from left to right. */
  method Substitute(p: Pattern, s: string) returns (cleaned: string, count: nat)
    requires Finds(p)
    ensures (cleaned, count) == Subn(p, s, 0)
    ensures exists kept, words :: Cuts(p, s, kept, words) && count == |words| && cleaned == Woven(kept, Marks(count))
  {
    hide Subn;
    cleaned, count := "", 0;
    var i: nat := 0;
    assert cleaned + Subn(p, s, 0).0 == Subn(p, s, 0).0;
    while i < |s|
      invariant i <= |s|
      invariant cleaned + Subn(p, s, i).0 == Subn(p, s, 0).0
      invariant count + Subn(p, s, i).1 == Subn(p, s, 0).1
    {
      SubnStep(p, s, i, cleaned);
      var n := p.matched(s, i);
      if n > 0 {
        cleaned, count, i := cleaned + REDACTION, count + 1, i + n;
      } else {
        cleaned, i := cleaned + [s[i]], i + 1;
      }
    }
    SubnEnd(p, s);
    assert cleaned + "" == cleaned;
    ghost var kept, words := PassReplacesWords(p, s, 0);
    assert s[0..] == s;
  }

  /** One step of the scan. */
  lemma {:induction false} SubnAt(p: Pattern, s: string, i: nat)
    requires Finds(p) && i < |s|
    ensures var n := p.matched(s, i);
            if n > 0 then
              i + n <= |s| && Subn(p, s, i) == (REDACTION + Subn(p, s, i + n).0, Subn(p, s, i + n).1 + 1)
            else
              Subn(p, s, i) == ([s[i]] + Subn(p, s, i + 1).0, Subn(p, s, i + 1).1)
  {
  }

  lemma {:induction false} SubnEnd(p: Pattern, s: string)
    requires Finds(p)
    ensures Subn(p, s, |s|) == ("", 0)
  {
  }

  lemma {:induction false} SubnStep(p: Pattern, s: string, i: nat, cleaned: string)
    requires Finds(p) && i < |s|
    ensures var n := p.matched(s, i);
            if n > 0 then
              i + n <= |s| && cleaned + Subn(p, s, i).0 == cleaned + REDACTION + Subn(p, s, i + n).0
              && Subn(p, s, i).1 == Subn(p, s, i + n).1 + 1
            else
              cleaned + Subn(p, s, i).0 == cleaned + [s[i]] + Subn(p, s, i + 1).0
              && Subn(p, s, i).1 == Subn(p, s, i + 1).1
  {
    hide Subn;
    SubnAt(p, s, i);
    var n := p.matched(s, i);
    if n > 0 {
      Reassociate(cleaned, REDACTION, Subn(p, s, i + n).0);
    } else {
      Reassociate(cleaned, [s[i]], Subn(p, s, i + 1).0);
    }
  }

  /** All passes, one pattern after the other. */
  ghost function Scanned(patterns: seq<Pattern>, s: string): (string, bool)
    requires forall k :: 0 <= k < |patterns| ==> Finds(patterns[k])
  {
    if patterns == [] then (s, false)
    else
      var n := |patterns| - 1;
      var before := Scanned(patterns[..n], s);
      var last := Subn(patterns[n], before.0, 0);
      (last.0, before.1 || last.1 > 0)
  }

  /** `PromptInjectionGuard.scan`. */
  method Scan(patterns: seq<Pattern>, text: string) returns (cleaned: string, flagged: bool)
    requires forall k :: 0 <= k < |patterns| ==> Finds(patterns[k])
    ensures (cleaned, flagged) == Scanned(patterns, text)
  {
    flagged := false;
    cleaned := text;
    for k := 0 to |patterns|
      invariant (cleaned, flagged) == Scanned(patterns[..k], text)
    {
      assert patterns[..k + 1][..k] == patterns[..k];
      var count;
      cleaned, count := Substitute(patterns[k], cleaned);
      if count > 0 {
        flagged := true;
      }
    }
    assert patterns[..|patterns|] == patterns;
  }

  // ---- One pass ----

  /** Output without brackets has been copied from the text. */
  lemma {:induction false} CopiedVerbatim(p: Pattern, s: string, i: nat, m: nat)
    requires Finds(p) && i <= |s| && m <= |Subn(p, s, i).0| && BracketFree(Subn(p, s, i).0[..m])
    ensures i + m <= |s| && Subn(p, s, i).0[..m] == s[i..i + m]
    decreases m
  {
    hide Subn;
    if i == |s| {
      SubnEnd(p, s);
    } else if m > 0 {
      var out := Subn(p, s, i).0;
      SubnAt(p, s, i);
      assert out[..m][0] == out[0];
      var rest := Subn(p, s, i + 1).0;
      assert out[..m] == [s[i]] + rest[..m - 1];
      forall x | 0 <= x < m - 1 ensures rest[x] != '[' && rest[x] != ']' {
        assert rest[x] == out[..m][x + 1];
      }
      CopiedVerbatim(p, s, i + 1, m - 1);
    }
  }

  lemma {:induction false} SliceOfFirst(a: string, b: string, i: nat, j: nat)
    requires i <= j <= |a|
    ensures (a + b)[i..j] == a[i..j]
  {
  }

  lemma {:induction false} SliceOfSecond(a: string, b: string, i: nat, j: nat)
    requires |a| <= i <= j <= |a| + |b|
    ensures (a + b)[i..j] == b[i - |a|..j - |a|]
  {
  }

  lemma {:induction false} MarkIsBracketed()
    ensures |REDACTION| == 10 && REDACTION[0] == '[' && REDACTION[9] == ']' && REDACTION[1..9] == "redacted"
  {
  }

  lemma {:induction false} BracketFreeAt(s: string, i: nat, j: nat, k: nat)
    requires i <= k < j <= |s| && BracketFree(s[i..j])
    ensures s[k] != '[' && s[k] != ']'
  {
    assert s[i..j][k - i] == s[k];
  }

  /** A bracket-free piece of a redaction followed by more text is inside one of the two. */
  lemma {:induction false} InsideOrAfter(rest: string, i: nat, j: nat)
    requires i <= j <= |REDACTION + rest| && i < j && BracketFree((REDACTION + rest)[i..j])
    ensures 1 <= i
    ensures (j <= 9 && (REDACTION + rest)[i..j] == "redacted"[i - 1..j - 1])
         || (10 <= i && (REDACTION + rest)[i..j] == rest[i - 10..j - 10])
  {
    var out := REDACTION + rest;
    MarkIsBracketed();
    BracketFreeAt(out, i, j, i);
    if i <= 9 {
      if j > 9 {
        BracketFreeAt(out, i, j, 9);
      }
      SliceOfFirst(REDACTION, rest, i, j);
      assert REDACTION[i..j] == REDACTION[1..9][i - 1..j - 1];
    } else {
      SliceOfSecond(REDACTION, rest, i, j);
    }
  }

  /** If no word of `q` starts in the text where `p` has no match, a pass of `p` leaves no word
      of `q`. */
  lemma {:induction false} PassLeavesClean(p: Pattern, q: Pattern, s: string, i: nat)
    requires Redactable(p) && Redactable(q) && i <= |s|
    requires forall x, y :: i <= x <= y <= |s| && p.matched(s, x) == 0 ==> !q.words(s[x..y])
    ensures Clean(q, Subn(p, s, i).0)
    decreases |s| - i
  {
    if i < |s| {
      var out := Subn(p, s, i).0;
      var next := if p.matched(s, i) > 0 then i + p.matched(s, i) else i + 1;
      var rest := Subn(p, s, next).0;
      PassLeavesClean(p, q, s, next);
      forall a, b | 0 <= a <= b <= |out| ensures !q.words(out[a..b]) {
        if q.words(out[a..b]) {
          WordIsElsewhere(p, q, s, i, a, b);
        }
      }
    }
  }

  /** A word in the output of a pass is also in the redaction mark, in the rest of the output or,
      copied, in the text. */
  lemma {:induction false} WordIsElsewhere(p: Pattern, q: Pattern, s: string, i: nat, a: nat, b: nat)
    requires Redactable(p) && Redactable(q) && i < |s|
    requires a <= b <= |Subn(p, s, i).0| && q.words(Subn(p, s, i).0[a..b])
    ensures var next := if p.matched(s, i) > 0 then i + p.matched(s, i) else i + 1;
            || !Clean(q, "redacted")
            || !Clean(q, Subn(p, s, next).0)
            || (p.matched(s, i) == 0 && i + b <= |s| && q.words(s[i..i + b]))
  {
    var out := Subn(p, s, i).0;
    var next := if p.matched(s, i) > 0 then i + p.matched(s, i) else i + 1;
    var rest := Subn(p, s, next).0;
    if p.matched(s, i) > 0 {
      InsideOrAfter(rest, a, b);
    } else if a > 0 {
      assert out == [s[i]] + rest;
      assert out[a..b] == rest[a - 1..b - 1];
    } else {
      CopiedVerbatim(p, s, i, b);
      assert out[0..b] == out[..b];
    }
  }

  lemma {:induction false} PassCleansItself(p: Pattern, s: string)
    requires Redactable(p)
    ensures Clean(p, Subn(p, s, 0).0)
  {
    PassLeavesClean(p, p, s, 0);
  }

  lemma {:induction false} PassKeepsClean(p: Pattern, q: Pattern, s: string)
    requires Redactable(p) && Redactable(q) && Clean(q, s)
    ensures Clean(q, Subn(p, s, 0).0)
  {
    PassLeavesClean(p, q, s, 0);
  }

  /** A pass over clean text does nothing. */
  lemma {:induction false} CleanIsUnchanged(p: Pattern, s: string, i: nat)
    requires Redactable(p) && Clean(p, s) && i <= |s|
    ensures Subn(p, s, i) == (s[i..], 0)
    decreases |s| - i
  {
    hide Subn;
    if i < |s| {
      SubnAt(p, s, i);
      assert !p.words(s[i..i + p.matched(s, i)]);
      CleanIsUnchanged(p, s, i + 1);
      assert s[i..] == [s[i]] + s[i + 1..];
    } else {
      SubnEnd(p, s);
      assert s[i..] == "";
    }
  }

  // ---- Changes are flagged ----

  function Brackets(s: string): nat {
    if s == "" then 0 else (if s[0] == '[' then 1 else 0) + Brackets(s[1..])
  }

  lemma {:induction false} BracketsConcat(a: string, b: string)
    ensures Brackets(a + b) == Brackets(a) + Brackets(b)
  {
    if a == "" {
      assert a + b == b;
    } else {
      assert (a + b)[1..] == a[1..] + b;
      BracketsConcat(a[1..], b);
    }
  }

  lemma {:induction false} NoOpening(s: string)
    requires forall i :: 0 <= i < |s| ==> s[i] != '['
    ensures Brackets(s) == 0
  {
    if s != "" {
      NoOpening(s[1..]);
    }
  }

  lemma {:induction false} RedactionHasOne()
    ensures Brackets(REDACTION) == 1
  {
    NoOpening(REDACTION[1..]);
  }

  /** Each match adds one opening bracket. */
  lemma {:induction false} PassAddsBrackets(p: Pattern, s: string, i: nat)
    requires Redactable(p) && i <= |s|
    ensures Brackets(Subn(p, s, i).0) == Brackets(s[i..]) + Subn(p, s, i).1
    decreases |s| - i
  {
    hide Subn, Brackets;
    if i < |s| {
      SubnAt(p, s, i);
      var n := p.matched(s, i);
      if n > 0 {
        PassAddsBrackets(p, s, i + n);
        WordHasNoBrackets(p, s, i);
        RedactionAddsOne(Subn(p, s, i + n).0);
      } else {
        PassAddsBrackets(p, s, i + 1);
        assert s[i..] == [s[i]] + s[i + 1..];
        CharacterBrackets(s[i], s[i + 1..], Subn(p, s, i + 1).0);
      }
    } else {
      SubnEnd(p, s);
      assert s[i..] == "";
    }
  }

  lemma {:induction false} RedactionAddsOne(rest: string)
    ensures Brackets(REDACTION + rest) == 1 + Brackets(rest)
  {
    BracketsConcat(REDACTION, rest);
    RedactionHasOne();
  }

  lemma {:induction false} CharacterBrackets(c: char, a: string, b: string)
    ensures Brackets([c] + a) - Brackets(a) == Brackets([c] + b) - Brackets(b)
  {
    BracketsConcat([c], a);
    BracketsConcat([c], b);
  }

  lemma {:induction false} WordHasNoBrackets(p: Pattern, s: string, i: nat)
    requires Redactable(p) && i < |s| && p.matched(s, i) > 0
    ensures Brackets(s[i..]) == Brackets(s[i + p.matched(s, i)..])
  {
    var n := p.matched(s, i);
    var word, rest := s[i..i + n], s[i + n..];
    assert s[i..] == word + rest;
    BracketsConcat(word, rest);
    assert BracketFree(word);
    NoOpening(word);
  }

  lemma {:induction false} NoMatchNoChange(p: Pattern, s: string, i: nat)
    requires Finds(p) && i <= |s| && Subn(p, s, i).1 == 0
    ensures Subn(p, s, i).0 == s[i..]
    decreases |s| - i
  {
    if i < |s| {
      NoMatchNoChange(p, s, i + 1);
    }
  }

  // ---- All passes ----

  ghost predicate AllRedactable(patterns: seq<Pattern>) {
    forall k :: 0 <= k < |patterns| ==> Redactable(patterns[k])
  }

  /** After all passes no pattern matches anywhere: a later redaction never completes a match of
      an earlier pattern. */
  lemma {:induction false} ScanIsComplete(patterns: seq<Pattern>, s: string)
    requires AllRedactable(patterns)
    ensures forall k :: 0 <= k < |patterns| ==> Clean(patterns[k], Scanned(patterns, s).0)
  {
    if patterns != [] {
      var n := |patterns| - 1;
      var init := patterns[..n];
      assert AllRedactable(init);
      ScanIsComplete(init, s);
      var before := Scanned(init, s).0;
      PassCleansItself(patterns[n], before);
      forall k | 0 <= k < n ensures Clean(patterns[k], Scanned(patterns, s).0) {
        assert init[k] == patterns[k];
        PassKeepsClean(patterns[n], patterns[k], before);
      }
    }
  }

  lemma {:induction false} ScanAddsBrackets(patterns: seq<Pattern>, s: string)
    requires AllRedactable(patterns)
    ensures var r := Scanned(patterns, s);
            if r.1 then Brackets(r.0) > Brackets(s) else r.0 == s
  {
    if patterns != [] {
      var n := |patterns| - 1;
      var init := patterns[..n];
      assert AllRedactable(init);
      ScanAddsBrackets(init, s);
      var before := Scanned(init, s).0;
      PassAddsBrackets(patterns[n], before, 0);
      assert before[0..] == before;
      if Subn(patterns[n], before, 0).1 == 0 {
        NoMatchNoChange(patterns[n], before, 0);
      }
    }
  }

  /** The flag is raised if and only if the text changed. */
  lemma {:induction false} FlagMeansChange(patterns: seq<Pattern>, s: string)
    requires AllRedactable(patterns)
    ensures Scanned(patterns, s).1 <==> Scanned(patterns, s).0 != s
  {
    ScanAddsBrackets(patterns, s);
  }

  lemma {:induction false} CleanScan(patterns: seq<Pattern>, s: string)
    requires AllRedactable(patterns) && forall k :: 0 <= k < |patterns| ==> Clean(patterns[k], s)
    ensures Scanned(patterns, s) == (s, false)
  {
    if patterns != [] {
      var n := |patterns| - 1;
      var init := patterns[..n];
      forall k | 0 <= k < n ensures Redactable(init[k]) && Clean(init[k], s) {
        assert init[k] == patterns[k];
      }
      CleanScan(init, s);
      CleanIsUnchanged(patterns[n], s, 0);
      assert s[0..] == s;
    }
  }

  /** Scanning a scanned text again changes and flags nothing. */
  lemma {:induction false} ScanIsIdempotent(patterns: seq<Pattern>, s: string)
    requires AllRedactable(patterns)
    ensures Scanned(patterns, Scanned(patterns, s).0) == (Scanned(patterns, s).0, false)
  {
    ScanIsComplete(patterns, s);
    CleanScan(patterns, Scanned(patterns, s).0);
  }

  /** The flag is raised if and only if some pattern matches in the text as it came in. */
  lemma {:induction false} FlagMeansMatch(patterns: seq<Pattern>, s: string)
    requires AllRedactable(patterns)
    ensures Scanned(patterns, s).1 <==> exists k :: 0 <= k < |patterns| && !Clean(patterns[k], s)
  {
    ScanIsComplete(patterns, s);
    FlagMeansChange(patterns, s);
    if forall k :: 0 <= k < |patterns| ==> Clean(patterns[k], s) {
      CleanScan(patterns, s);
    }
  }

  // ---- What a pass keeps ----

  /** Texts with something between each two of them. */
  function Woven(kept: seq<string>, between: seq<string>): string
    requires |kept| == |between| + 1
  {
    if between == [] then kept[0] else kept[0] + between[0] + Woven(kept[1..], between[1..])
  }

  function Marks(n: nat): seq<string> {
    seq(n, _ => REDACTION)
  }

  /** Some words of the pattern, and the text around them. */
  ghost predicate Cuts(p: Pattern, s: string, kept: seq<string>, words: seq<string>) {
    && |kept| == |words| + 1 && Woven(kept, words) == s
    && forall i :: 0 <= i < |words| ==> p.words(words[i])
  }

  /** A pass replaces words of the pattern by the mark and keeps all text between them. */
  lemma {:induction false} PassReplacesWords(p: Pattern, s: string, i: nat) returns (kept: seq<string>, words: seq<string>)
    requires Finds(p) && i <= |s|
    ensures Cuts(p, s[i..], kept, words)
    ensures Subn(p, s, i) == (Woven(kept, Marks(|words|)), |words|)
    decreases |s| - i
  {
    hide Subn;
    if i == |s| {
      SubnEnd(p, s);
      kept, words := [""], [];
    } else {
      SubnAt(p, s, i);
      var n := p.matched(s, i);
      var rest, more;
      if n > 0 {
        rest, more := PassReplacesWords(p, s, i + n);
        kept, words := [""] + rest, [s[i..i + n]] + more;
        assert kept[1..] == rest && words[1..] == more;
        assert s[i..] == s[i..i + n] + s[i + n..];
        var marks := Marks(|words|);
        assert marks[1..] == Marks(|more|);
        assert "" + REDACTION == REDACTION && "" + words[0] == words[0];
      } else {
        rest, more := PassReplacesWords(p, s, i + 1);
        kept, words := [[s[i]] + rest[0]] + rest[1..], more;
        assert s[i..] == [s[i]] + s[i + 1..];
        LongerFirst(s[i], rest, more);
        LongerFirst(s[i], rest, Marks(|more|));
      }
    }
  }

  lemma {:induction false} LongerFirst(c: char, kept: seq<string>, between: seq<string>)
    requires |kept| == |between| + 1
    ensures Woven([[c] + kept[0]] + kept[1..], between) == [c] + Woven(kept, between)
  {
    if between != [] {
      assert ([[c] + kept[0]] + kept[1..])[1..] == kept[1..];
      assert [c] + kept[0] + between[0] + Woven(kept[1..], between[1..])
          == [c] + (kept[0] + between[0] + Woven(kept[1..], between[1..]));
    }
  }
}

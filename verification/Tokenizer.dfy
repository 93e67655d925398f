/** Tokens, words and normalized queries. Lower-casing is a parameter, of which nothing is assumed
    unless a lemma says so. */
module Tokenizer {
  import opened Text

  /** `[a-z0-9]`. */
  predicate IsTokenChar(c: char) {
    'a' <= c <= 'z' || '0' <= c <= '9'
  }

  function TokenEnd(s: string, i: nat): (n: nat)
    requires i <= |s|
    ensures i <= n <= |s|
    ensures forall j :: i <= j < n ==> IsTokenChar(s[j])
    ensures n < |s| ==> !IsTokenChar(s[n])
    decreases |s| - i
  {
    if i < |s| && IsTokenChar(s[i]) then TokenEnd(s, i + 1) else i
  }

  /** `re.findall("[a-z0-9]+", s)`. */
  function Tokens(s: string): seq<string>
    decreases |s|
  {
    if s == "" then []
    else if !IsTokenChar(s[0]) then Tokens(s[1..])
    else [s[..TokenEnd(s, 0)]] + Tokens(s[TokenEnd(s, 0)..])
  }

  function WordEnd(s: string, i: nat): (n: nat)
    requires i <= |s|
    ensures i <= n <= |s|
    ensures forall j :: i <= j < n ==> !IsSpace(s[j])
    ensures n < |s| ==> IsSpace(s[n])
    decreases |s| - i
  {
    if i < |s| && !IsSpace(s[i]) then WordEnd(s, i + 1) else i
  }

  /** `s.split()`. */
  function Words(s: string): seq<string>
    decreases |s|
  {
    if s == "" then []
    else if IsSpace(s[0]) then Words(s[1..])
    else [s[..WordEnd(s, 0)]] + Words(s[WordEnd(s, 0)..])
  }

  /** `" ".join(words)`. */
  function Spaced(words: seq<string>): string {
    if words == [] then ""
    else if |words| == 1 then words[0]
    else words[0] + " " + Spaced(words[1..])
  }

  /** `_normalize`. */
  function Normalize(lower: string -> string, text: string): string {
    Spaced(Words(lower(text)))
  }

  lemma {:induction false} TokensConcat(a: string, b: string)
    requires b == "" || !IsTokenChar(b[0])
    ensures Tokens(a + b) == Tokens(a) + Tokens(b)
    decreases |a|
  {
    if a == "" {
      assert a + b == b;
    } else if !IsTokenChar(a[0]) {
      assert (a + b)[1..] == a[1..] + b;
      TokensConcat(a[1..], b);
    } else {
      var n := TokenEnd(a, 0);
      TokenEndConcat(a, b);
      TokensConcat(a[n..], b);
      assert (a + b)[..n] == a[..n] && (a + b)[n..] == a[n..] + b;
    }
  }

  lemma {:induction false} TokenEndConcat(a: string, b: string)
    requires b == "" || !IsTokenChar(b[0])
    ensures TokenEnd(a + b, 0) == TokenEnd(a, 0)
  {
    var s := a + b;
    assert forall i :: 0 <= i < |a| ==> s[i] == a[i];
    assert b != "" ==> s[|a|] == b[0];
  }

  lemma {:induction false} SpaceIsNoToken(c: char)
    requires IsSpace(c)
    ensures !IsTokenChar(c)
  {
  }

  lemma {:induction false} TokensAfterSpace(s: string)
    ensures Tokens(" " + s) == Tokens(s)
  {
    assert (" " + s)[1..] == s;
  }

  lemma {:induction false} TokensOfSpaced(word: string, words: seq<string>)
    requires word != ""
    ensures Tokens(Spaced([word] + words)) == Tokens(word) + Tokens(Spaced(words))
  {
    if words == [] {
      assert [word] + words == [word];
      assert Tokens(word) + [] == Tokens(word);
    } else {
      assert ([word] + words)[1..] == words;
      assert word + " " + Spaced(words) == word + (" " + Spaced(words));
      TokensConcat(word, " " + Spaced(words));
      TokensAfterSpace(Spaced(words));
    }
  }

  /** Splitting on whitespace and joining with single spaces keeps the tokens. */
  lemma {:induction false} TokensOfWords(s: string)
    ensures Tokens(Spaced(Words(s))) == Tokens(s)
    decreases |s|
  {
    if s != "" {
      if IsSpace(s[0]) {
        SpaceIsNoToken(s[0]);
        TokensOfWords(s[1..]);
      } else {
        var n := WordEnd(s, 0);
        var word, rest := s[..n], s[n..];
        if rest != "" {
          SpaceIsNoToken(rest[0]);
        }
        TokensOfWords(rest);
        TokensConcat(word, rest);
        assert s == word + rest;
        TokensOfSpaced(word, Words(rest));
      }
    }
  }

  /** What the tokens of a query are depends on its normalized form only. */
  lemma {:induction false} TokensOfNormalized(lower: string -> string, q1: string, q2: string)
    requires Normalize(lower, q1) == Normalize(lower, q2)
    ensures Tokens(lower(q1)) == Tokens(lower(q2))
  {
    TokensOfWords(lower(q1));
    TokensOfWords(lower(q2));
  }

  // ---- Tokens and words are maximal runs ----

  lemma {:induction false} NoTokens(gap: string, rest: string)
    requires forall c :: c in gap ==> !IsTokenChar(c)
    ensures Tokens(gap + rest) == Tokens(rest)
  {
    if gap == "" {
      assert gap + rest == rest;
    } else {
      assert gap[0] in gap && (gap + rest)[1..] == gap[1..] + rest;
      NoTokens(gap[1..], rest);
    }
  }

  /** The tokens are the maximal runs of lower-case letters and digits, from left to right. */
  lemma {:induction false} TokensAreRuns(gap: string, token: string, rest: string)
    requires forall i :: 0 <= i < |gap| ==> !('a' <= gap[i] <= 'z' || '0' <= gap[i] <= '9')
    requires forall i :: 0 <= i < |token| ==> 'a' <= token[i] <= 'z' || '0' <= token[i] <= '9'
    requires rest != "" ==> !('a' <= rest[0] <= 'z' || '0' <= rest[0] <= '9')
    ensures Tokens(gap) == []
    ensures token != "" ==> Tokens(gap + token + rest) == [token] + Tokens(rest)
  {
    NoTokens(gap, "");
    assert gap + "" == gap;
    if token != "" {
      var s := token + rest;
      assert gap + token + rest == gap + s;
      NoTokens(gap, s);
      assert forall i :: 0 <= i < |token| ==> s[i] == token[i];
      assert rest != "" ==> s[|token|] == rest[0];
      assert TokenEnd(s, 0) == |token|;
      assert s[..|token|] == token && s[|token|..] == rest;
    }
  }

  lemma {:induction false} NoWords(gap: string, rest: string)
    requires Blank(gap)
    ensures Words(gap + rest) == Words(rest)
  {
    if gap == "" {
      assert gap + rest == rest;
    } else {
      assert (gap + rest)[1..] == gap[1..] + rest;
      NoWords(gap[1..], rest);
    }
  }

  /** Without whitespace and not empty. */
  predicate IsWord(w: string) {
    w != "" && forall i :: 0 <= i < |w| ==> !IsSpace(w[i])
  }

  /** The words are the maximal runs of other characters than whitespace, from left to right. */
  lemma {:induction false} WordsAreRuns(gap: string, word: string, rest: string)
    requires Blank(gap) && IsWord(word) && (rest != "" ==> IsSpace(rest[0]))
    ensures Words(gap) == []
    ensures Words(gap + word + rest) == [word] + Words(rest)
  {
    NoWords(gap, "");
    assert gap + "" == gap;
    var s := word + rest;
    assert gap + word + rest == gap + s;
    NoWords(gap, s);
    assert forall i :: 0 <= i < |word| ==> s[i] == word[i];
    assert rest != "" ==> s[|word|] == rest[0];
    assert WordEnd(s, 0) == |word|;
    assert s[..|word|] == word && s[|word|..] == rest;
  }

  lemma {:induction false} WordsAreWords(s: string)
    ensures forall w :: w in Words(s) ==> IsWord(w)
    decreases |s|
  {
    if s != "" {
      WordsAreWords(if IsSpace(s[0]) then s[1..] else s[WordEnd(s, 0)..]);
    }
  }

  // ---- Normal forms ----

  /** Joining words with single spaces and splitting again gives them back. */
  lemma {:induction false} WordsOfSpaced(words: seq<string>)
    requires forall w :: w in words ==> IsWord(w)
    ensures Words(Spaced(words)) == words
  {
    if words != [] {
      var rest := if |words| == 1 then "" else " " + Spaced(words[1..]);
      assert words[0] in words;
      assert words == [words[0]] + words[1..];
      assert "" + words[0] + rest == Spaced(words);
      WordsAreRuns("", words[0], rest);
      WordsOfSpaced(words[1..]);
      if |words| > 1 {
        NoWords(" ", Spaced(words[1..]));
      }
    }
  }

  /** No whitespace at either end, none but single spaces. */
  predicate IsNormal(s: string) {
    && Trimmed(s)
    && (forall i :: 0 <= i < |s| && IsSpace(s[i]) ==> s[i] == ' ')
    && (forall i :: 0 <= i < |s| - 1 && IsSpace(s[i]) ==> !IsSpace(s[i + 1]))
  }

  lemma {:induction false} SpacedIsNormal(words: seq<string>)
    requires forall w :: w in words ==> IsWord(w)
    ensures IsNormal(Spaced(words)) && (words != [] ==> Spaced(words) != "" && Spaced(words)[0] == words[0][0])
  {
    if words != [] {
      assert words[0] in words;
    }
    if |words| > 1 {
      var s, word, rest := Spaced(words), words[0], Spaced(words[1..]);
      SpacedIsNormal(words[1..]);
      assert words[1..][0] in words;
      var n := |word|;
      assert s == word + " " + rest;
      forall i | 0 <= i < |s| ensures s[i] == if i < n then word[i] else if i == n then ' ' else rest[i - n - 1] {
      }
    }
  }

  /** A text is normal if and only if splitting it into words and joining them leaves it alone. */
  lemma {:induction false} NormalExactlyWhen(s: string)
    ensures IsNormal(s) <==> Spaced(Words(s)) == s
  {
    WordsAreWords(s);
    SpacedIsNormal(Words(s));
    if IsNormal(s) {
      NormalIsKept(s);
    }
  }

  /** The first word of a normal text, and the normal text after it. */
  lemma {:induction false} NormalSplits(s: string, n: nat)
    requires IsNormal(s) && s != "" && n == WordEnd(s, 0)
    ensures IsWord(s[..n])
    ensures n < |s| ==> n + 1 < |s| && s == s[..n] + " " + s[n + 1..] && IsNormal(s[n + 1..])
  {
    if n < |s| {
      var more := s[n + 1..];
      assert s[n] == ' ';
      assert s == s[..n] + [s[n]] + more;
      forall i | 0 <= i < |more| ensures more[i] == s[n + 1 + i] {
      }
    }
  }

  lemma {:induction false} NormalIsKept(s: string)
    requires IsNormal(s)
    ensures Spaced(Words(s)) == s && (s != "" ==> Words(s) != [])
    decreases |s|
  {
    hide IsNormal;
    if s != "" {
      var n := WordEnd(s, 0);
      NormalSplits(s, n);
      if n == |s| {
        assert s[..n] == s && "" + s + "" == s;
        WordsAreRuns("", s, "");
      } else {
        var word, more := s[..n], s[n + 1..];
        assert "" + word + (" " + more) == word + " " + more;
        WordsAreRuns("", word, " " + more);
        NormalIsKept(more);
        NoWords(" ", more);
        assert ([word] + Words(more))[1..] == Words(more);
      }
    }
  }

  /** Two texts have the same normal form if and only if, in lower case, they have the same words. */
  lemma {:induction false} SameNormalFormExactlyWhen(lower: string -> string, a: string, b: string)
    ensures Normalize(lower, a) == Normalize(lower, b) <==> Words(lower(a)) == Words(lower(b))
    ensures IsNormal(Normalize(lower, a))
  {
    WordsAreWords(lower(a));
    WordsAreWords(lower(b));
    WordsOfSpaced(Words(lower(a)));
    WordsOfSpaced(Words(lower(b)));
    SpacedIsNormal(Words(lower(a)));
  }

  /** Normalizing again does nothing if and only if lower-casing the normal form again leaves its
      words alone. */
  lemma {:induction false} NormalizeTwice(lower: string -> string, a: string)
    ensures var n := Normalize(lower, a); Normalize(lower, n) == n <==> Words(lower(n)) == Words(n)
  {
    var n := Normalize(lower, a);
    WordsAreWords(lower(a));
    WordsOfSpaced(Words(lower(a)));
    SameNormalFormExactlyWhen(lower, n, a);
  }

  /** Lower-casing character by character; a second time it does nothing. */
  ghost predicate Lowers(lower: string -> string, low: char -> char) {
    && (forall s :: |lower(s)| == |s|)
    && (forall s, i :: 0 <= i < |s| ==> lower(s)[i] == low(s[i]))
    && low(' ') == ' ' && forall c :: low(low(c)) == low(c)
  }

  lemma {:induction false} WordsAreInText(s: string, w: string, c: char)
    requires w in Words(s) && c in w
    ensures c in s
    decreases |s|
  {
    if IsSpace(s[0]) {
      WordsAreInText(s[1..], w, c);
    } else {
      var n := WordEnd(s, 0);
      if w != s[..n] {
        WordsAreInText(s[n..], w, c);
      }
    }
  }

  lemma {:induction false} SpacedIsInWords(words: seq<string>, c: char)
    requires c in Spaced(words)
    ensures c == ' ' || exists w :: w in words && c in w
  {
    if words != [] {
      assert words[0] in words;
      if c !in words[0] && c != ' ' {
        SpacedIsInWords(words[1..], c);
      }
    }
  }

  lemma {:induction false} NormalizeIsIdempotent(lower: string -> string, low: char -> char, a: string)
    requires Lowers(lower, low)
    ensures Normalize(lower, Normalize(lower, a)) == Normalize(lower, a)
  {
    var n := Normalize(lower, a);
    forall i | 0 <= i < |n| ensures lower(n)[i] == n[i] {
      SpacedIsInWords(Words(lower(a)), n[i]);
      if n[i] != ' ' {
        var w :| w in Words(lower(a)) && n[i] in w;
        WordsAreInText(lower(a), w, n[i]);
        var j :| 0 <= j < |lower(a)| && lower(a)[j] == n[i];
        assert n[i] == low(a[j]);
      }
    }
    assert lower(n) == n;
    NormalizeTwice(lower, a);
  }
}

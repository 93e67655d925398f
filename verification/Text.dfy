/** Python string operations the chunker, the guard and the search path rely on. */
module Text {

  /** `str.isspace` for one character, which is what `str.strip`, `str.split()` and `\s` use. */
  predicate IsSpace(c: char) {
    || '\t' <= c <= '\r'
    || '\U{1c}' <= c <= ' '
    || c == '\U{85}'
    || c == '\U{a0}'
    || c == '\U{1680}'
    || '\U{2000}' <= c <= '\U{200a}'
    || c == '\U{2028}'
    || c == '\U{2029}'
    || c == '\U{202f}'
    || c == '\U{205f}'
    || c == '\U{3000}'
  }

  predicate Blank(s: string) {
    forall i :: 0 <= i < |s| ==> IsSpace(s[i])
  }

  /** No whitespace at either end. */
  predicate Trimmed(s: string) {
    s != "" ==> !IsSpace(s[0]) && !IsSpace(s[|s| - 1])
  }

  /** Where the first non-whitespace character at or after `i` is. */
  function FirstInk(s: string, i: nat): (n: nat)
    requires i <= |s|
    ensures i <= n <= |s|
    ensures forall j :: i <= j < n ==> IsSpace(s[j])
    ensures n < |s| ==> !IsSpace(s[n])
    decreases |s| - i
  {
    if i < |s| && IsSpace(s[i]) then FirstInk(s, i + 1) else i
  }

  /** Where the non-whitespace characters before `i` end. */
  function LastInk(s: string, i: nat): (n: nat)
    requires i <= |s|
    ensures n <= i
    ensures forall j :: n <= j < i ==> IsSpace(s[j])
    ensures n > 0 ==> !IsSpace(s[n - 1])
  {
    if i > 0 && IsSpace(s[i - 1]) then LastInk(s, i - 1) else i
  }

  function LStrip(s: string): (r: string)
    ensures r != "" ==> !IsSpace(r[0])
  {
    s[FirstInk(s, 0)..]
  }

  function RStrip(s: string): (r: string)
    ensures |r| <= |s| && r == s[..|r|]
    ensures r != "" ==> !IsSpace(r[|r| - 1])
  {
    s[..LastInk(s, |s|)]
  }

  function Strip(s: string): (r: string)
    ensures |r| <= |s|
    ensures Trimmed(r)
  {
    RStrip(LStrip(s))
  }

  lemma {:induction false} StripTrimmed(s: string)
    requires Trimmed(s)
    ensures Strip(s) == s
  {
  }

  /** The non-whitespace characters of a string, in order. */
  function Ink(s: string): string {
    if s == "" then ""
    else if IsSpace(s[0]) then Ink(s[1..])
    else [s[0]] + Ink(s[1..])
  }

  lemma {:induction false} InkConcat(a: string, b: string)
    ensures Ink(a + b) == Ink(a) + Ink(b)
  {
    if a == "" {
      assert a + b == b;
    } else {
      assert (a + b)[1..] == a[1..] + b;
      InkConcat(a[1..], b);
    }
  }

  lemma {:induction false} InkBlank(s: string)
    ensures Ink(s) == "" <==> Blank(s)
  {
    if s != "" {
      InkBlank(s[1..]);
      assert Blank(s) <==> IsSpace(s[0]) && Blank(s[1..]) by {
        assert s == [s[0]] + s[1..];
      }
    }
  }

  lemma {:induction false} InkLStrip(s: string)
    ensures Ink(LStrip(s)) == Ink(s)
  {
    var n := FirstInk(s, 0);
    assert s == s[..n] + s[n..];
    InkConcat(s[..n], s[n..]);
    InkBlank(s[..n]);
  }

  lemma {:induction false} InkRStrip(s: string)
    ensures Ink(RStrip(s)) == Ink(s)
  {
    var n := LastInk(s, |s|);
    assert s == s[..n] + s[n..];
    InkConcat(s[..n], s[n..]);
    InkBlank(s[n..]);
  }

  lemma {:induction false} InkStrip(s: string)
    ensures Ink(Strip(s)) == Ink(s)
  {
    InkLStrip(s);
    InkRStrip(LStrip(s));
  }

  function Concat(ss: seq<string>): string {
    if ss == [] then "" else Concat(ss[..|ss| - 1]) + ss[|ss| - 1]
  }

  lemma {:induction false} ConcatAppend(a: seq<string>, b: seq<string>)
    ensures Concat(a + b) == Concat(a) + Concat(b)
  {
    if b == [] {
      assert a + b == a;
    } else {
      assert (a + b)[..|a + b| - 1] == a + b[..|b| - 1];
      ConcatAppend(a, b[..|b| - 1]);
    }
  }

  /** `sep` occurs in `text` at position `i`. */
  predicate OccursAt(text: string, sep: string, i: nat) {
    i + |sep| <= |text| && text[i..i + |sep|] == sep
  }

  /** `text.find(sep, i)`: the first occurrence at or after `i`, or -1. */
  function Find(text: string, sep: string, i: nat): (r: int)
    requires i <= |text| && sep != ""
    ensures r == -1 || (i <= r && OccursAt(text, sep, r))
    ensures forall j :: i <= j < (if r == -1 then |text| else r) ==> !OccursAt(text, sep, j)
    decreases |text| - i
  {
    if i == |text| then -1
    else if OccursAt(text, sep, i) then i
    else Find(text, sep, i + 1)
  }

  /** `text.split(sep)` for a non-empty separator. */
  function SplitOn(text: string, sep: string): seq<string>
    requires sep != ""
    decreases |text|
  {
    var i := Find(text, sep, 0);
    if i == -1 then [text] else [text[..i]] + SplitOn(text[i + |sep|..], sep)
  }

  /** Every part followed by the separator. */
  function Suffixed(parts: seq<string>, sep: string): seq<string> {
    seq(|parts|, i requires 0 <= i < |parts| => parts[i] + sep)
  }

  /** Joining what `split` returned gives the text back: with the separator after every part,
      one separator more than the text had. */
  lemma {:induction false} SplitRejoins(text: string, sep: string)
    requires sep != ""
    ensures Concat(Suffixed(SplitOn(text, sep), sep)) == text + sep
    decreases |text|
  {
    var i := Find(text, sep, 0);
    if i == -1 {
      ConcatOne(text + sep);
      assert Suffixed([text], sep) == [text + sep];
    } else {
      var head, rest := text[..i], text[i + |sep|..];
      SplitRejoins(rest, sep);
      SuffixedCons(head, SplitOn(rest, sep), sep);
      ConcatAppend([head + sep], Suffixed(SplitOn(rest, sep), sep));
      ConcatOne(head + sep);
      CutAt(text, sep, i);
      SeparatorAfterRest(head, rest, sep);
    }
  }

  lemma {:induction false} SuffixedCons(head: string, parts: seq<string>, sep: string)
    ensures Suffixed([head] + parts, sep) == [head + sep] + Suffixed(parts, sep)
  {
  }

  lemma {:induction false} SeparatorAfterRest(head: string, rest: string, sep: string)
    ensures (head + sep) + (rest + sep) == (head + sep + rest) + sep
  {
  }

  lemma {:induction false} ConcatOne(s: string)
    ensures Concat([s]) == s
  {
    assert Concat([s][..0]) == "";
  }

  lemma {:induction false} CutAt(text: string, sep: string, i: nat)
    requires OccursAt(text, sep, i)
    ensures text == text[..i] + sep + text[i + |sep|..]
  {
  }

  lemma {:induction false} StripBlank(s: string)
    ensures Strip(s) == "" <==> Blank(s)
  {
    InkStrip(s);
    InkBlank(s);
    InkBlank(Strip(s));
    assert Strip(s) != "" ==> !IsSpace(Strip(s)[0]);
  }

  /** Stripping takes the whitespace at both ends away and nothing else. */
  lemma {:induction false} StripAround(before: string, s: string, after: string)
    requires Blank(before) && Trimmed(s) && Blank(after)
    ensures Strip(before + s + after) == s
  {
    var all := before + s + after;
    forall i | 0 <= i < |all| ensures all[i] == if i < |before| then before[i] else (s + after)[i - |before|] {
    }
    if s == "" {
      StripBlank(all);
    } else {
      assert all[|before|] == s[0];
      assert FirstInk(all, 0) == |before|;
      var rest := all[|before|..];
      assert rest == s + after;
      assert rest[|s| - 1] == s[|s| - 1];
      forall i | |s| <= i < |rest| ensures IsSpace(rest[i]) {
        assert rest[i] == after[i - |s|];
      }
      assert LastInk(rest, |rest|) == |s|;
    }
  }

  lemma {:induction false} OccursInPrefix(text: string, n: nat, sep: string, i: nat)
    requires n <= |text|
    ensures OccursAt(text[..n], sep, i) ==> OccursAt(text, sep, i)
  {
    assert i + |sep| <= n ==> text[..n][i..i + |sep|] == text[i..i + |sep|];
  }

  /** A part, with the separator that ends it unless it is the last one. */
  function Ended(parts: seq<string>, sep: string, i: nat): string
    requires i < |parts|
  {
    if i < |parts| - 1 then parts[i] + sep else parts[i]
  }

  lemma {:induction false} SplitStep(text: string, sep: string)
    requires sep != ""
    ensures var n := Find(text, sep, 0);
            SplitOn(text, sep) == if n == -1 then [text] else [text[..n]] + SplitOn(text[n + |sep|..], sep)
    ensures SplitOn(text, sep) != []
  {
  }

  /** Where a part ends is the first occurrence of the separator after the part before it, and
      there is none in the last part. */
  lemma {:induction false} SplitsAtFirst(text: string, sep: string, i: nat, j: nat)
    requires sep != "" && i < |SplitOn(text, sep)| && j < |SplitOn(text, sep)[i]|
    ensures !OccursAt(Ended(SplitOn(text, sep), sep, i), sep, j)
    decreases |text|
  {
    hide SplitOn, OccursAt;
    var n := Find(text, sep, 0);
    SplitStep(text, sep);
    if n != -1 {
      FoundFits(text, sep);
      var rest := text[n + |sep|..];
      SplitStep(rest, sep);
      if i > 0 {
        SplitsAtFirst(rest, sep, i - 1, j);
      } else {
        assert text[..n] + sep == text[..n + |sep|] by { CutAt(text, sep, n); }
        OccursInPrefix(text, n + |sep|, sep, j);
      }
    }
  }

  lemma {:induction false} FoundFits(text: string, sep: string)
    requires sep != "" && Find(text, sep, 0) != -1
    ensures OccursAt(text, sep, Find(text, sep, 0)) && Find(text, sep, 0) + |sep| <= |text|
  {
  }
}

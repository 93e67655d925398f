/** A text that the chunker does not keep: a line longer than a chunk gets a full stop. */
module LongLineExample {
  import opened Text
  import opened RecursiveSplit
  import opened Packing
  import opened Chunker

  const TINY := Config(1, 0)

  lemma {:induction false} NoSplit(text: string, sep: string)
    requires sep != "" && forall j :: 0 <= j < |text| ==> !OccursAt(text, sep, j)
    ensures SplitOn(text, sep) == [text]
  {
  }

  /** A text whose first character is not that of the separator does not have it there. */
  lemma {:induction false} NotThere(text: string, sep: string, j: nat)
    requires sep != "" && j < |text| && text[j] != sep[0]
    ensures !OccursAt(text, sep, j)
  {
    if j + |sep| <= |text| {
      assert text[j..j + |sep|][0] == text[j];
    }
  }

  lemma {:induction false} LevelKeeps(level: nat)
    requires level < 3
    ensures Parts("ab", level) == ["ab"]
    ensures Piece("ab", level) == if level == 2 then "ab. " else "ab"
  {
    forall j | 0 <= j < 2 ensures !OccursAt("ab", Separator(level), j) {
      NotThere("ab", Separator(level), j);
    }
    NoSplit("ab", Separator(level));
    if level < 2 {
      assert Blank(Separator(level));
      RStripDropsBlank("ab", Separator(level));
      assert RStrip("ab") == "ab";
    }
  }

  lemma {:induction false} WordsSplit()
    ensures Parts("ab. ", 3) == ["ab.", ""]
  {
    var text := "ab. ";
    forall j | 0 <= j < 3 ensures !OccursAt(text, " ", j) {
      NotThere(text, " ", j);
    }
    assert OccursAt(text, " ", 3) by {
      assert text[3..4] == " ";
    }
    assert Find(text, " ", 0) == 3;
    assert text[..3] == "ab." && text[4..] == "";
    assert SplitOn("", " ") == [""];
    assert SplitOn(text, " ") == [text[..3]] + SplitOn(text[4..], " ");
  }

  lemma {:induction false} FourParts(c: Config, parts: seq<string>, level: nat)
    requires c.Valid() && level < LEVELS && |parts| == 4
    ensures PartsFragments(c, parts, level)
         == PartFragments(c, parts[0], level) + PartFragments(c, parts[1], level)
          + PartFragments(c, parts[2], level) + PartFragments(c, parts[3], level)
  {
    TwoParts(c, parts[0], parts[1], level);
    assert parts[..2] == [parts[0], parts[1]] && parts[..4] == parts;
    PartsFragmentsStep(c, parts, 2, level);
    PartsFragmentsStep(c, parts, 3, level);
    hide PartsFragments, PartFragments;
  }

  lemma {:induction false} OneCharacter(ch: char)
    ensures PartFragments(TINY, [ch], 4) == [[ch]]
  {
    assert [ch] + "" == [ch];
  }

  lemma {:induction false} CharacterFragments()
    ensures Fragments(TINY, "ab. ", 4) == ["a", "b", ".", " "]
  {
    var text := "ab. ";
    var parts := Parts(text, 4);
    assert parts == ["a", "b", ".", " "];
    FourParts(TINY, parts, 4);
    OneCharacter('a');
    OneCharacter('b');
    OneCharacter('.');
    OneCharacter(' ');
  }

  lemma {:induction false} WordParts()
    ensures PartFragments(TINY, "ab.", 3) == ["a", "b", ".", " "]
    ensures PartFragments(TINY, "", 3) == [" "]
  {
    CharacterFragments();
    assert Piece("ab.", 3) == "ab. " && Piece("", 3) == " ";
  }

  lemma {:induction false} WordFragments()
    ensures Fragments(TINY, "ab. ", 3) == ["a", "b", ".", " ", " "]
  {
    WordsSplit();
    TwoParts(TINY, "ab.", "", 3);
    WordParts();
    hide PartsFragments, PartFragments, Parts;
    assert ["a", "b", ".", " "] + [" "] == ["a", "b", ".", " ", " "];
    assert Fragments(TINY, "ab. ", 3) == PartsFragments(TINY, Parts("ab. ", 3), 3);
  }

  lemma {:induction false} LevelFragments(level: nat)
    requires level < 3
    ensures Fragments(TINY, "ab", level) == ["a", "b", ".", " ", " "]
    decreases 3 - level
  {
    LevelKeeps(level);
    OnePart(TINY, "ab", level);
    if level == 2 {
      WordFragments();
    } else {
      LevelFragments(level + 1);
    }
  }

  lemma {:induction false} JoinedTo(a: string, b: string, joined: string)
    requires Trimmed(joined) && joined != "" && (a + " " + b == joined || a + " " + b == " " + joined || a + " " + b == joined + "  ")
    ensures Joined(a, b) == joined
  {
    var s := a + " " + b;
    if s == " " + joined {
      assert LStrip(s) == joined by {
        LStripBlankPrefix(" ", joined);
        StripTrimmed(joined);
      }
      StripTrimmed(joined);
    } else if s == joined + "  " {
      LStripKeepsRest(joined, "  ");
      RStripDropsBlank(joined, "  ");
      StripTrimmed(joined);
    } else {
      StripTrimmed(joined);
    }
  }

  /** A fragment that does not fit starts the next chunk. */
  lemma {:induction false} Overflows(chunks: seq<string>, current: string, fragment: string)
    requires |current| == 1 && Trimmed(current) && |fragment| == 1 && Trimmed(fragment)
    ensures Pack(TINY, Packing(chunks, current), fragment) == Packing(chunks + [current], fragment)
  {
    hide Joined;
    var both := current + " " + fragment;
    assert |both| == 3 && Trimmed(both);
    JoinedTo(current, fragment, both);
    assert "" + " " + fragment == " " + fragment;
    JoinedTo("", fragment, fragment);
    assert Tail(TINY, current) == "";
  }

  /** A space disappears in the chunk before it. */
  lemma {:induction false} Absorbs(chunks: seq<string>, current: string)
    requires |current| == 1 && Trimmed(current)
    ensures Pack(TINY, Packing(chunks, current), " ") == Packing(chunks, current)
  {
    hide Joined;
    assert current + " " + " " == current + "  ";
    JoinedTo(current, " ", current);
  }

  lemma {:induction false} PackAppend(c: Config, fragments: seq<string>, fragment: string)
    requires c.Valid()
    ensures PackAll(c, fragments + [fragment]) == Pack(c, PackAll(c, fragments), fragment)
  {
    assert (fragments + [fragment])[..|fragments|] == fragments;
  }

  lemma {:induction false} PackFirst(fragment: string)
    requires |fragment| == 1
    ensures PackAll(TINY, [fragment]) == Packing([], fragment)
  {
    assert [] + [fragment] == [fragment];
    PackAppend(TINY, [], fragment);
    PackNothing(TINY);
  }

  /** Three characters and two spaces: a chunk for each character. */
  lemma {:induction false} PacksThree(a: string, b: string, c: string)
    requires |a| == 1 && |b| == 1 && |c| == 1 && Trimmed(a) && Trimmed(b) && Trimmed(c)
    ensures Chunks(PackAll(TINY, [a] + [b] + [c] + [" "] + [" "])) == [a] + [b] + [c]
  {
    PackFirst(a);
    PackAppend(TINY, [a], b);
    PackAppend(TINY, [a] + [b], c);
    PackAppend(TINY, [a] + [b] + [c], " ");
    PackAppend(TINY, [a] + [b] + [c] + [" "], " ");
    hide PackAll, Pack;
    Overflows([], a, b);
    assert [] + [a] == [a];
    Overflows([a], b, c);
    Absorbs([a] + [b], c);
  }

  lemma {:induction false} Packs()
    ensures Chunks(PackAll(TINY, ["a", "b", ".", " ", " "])) == ["a", "b", "."]
  {
    PacksThree("a", "b", ".");
    hide PackAll, Pack, Chunks;
    assert ["a"] + ["b"] + ["."] + [" "] + [" "] == ["a", "b", ".", " ", " "];
    assert ["a"] + ["b"] + ["."] == ["a", "b", "."];
  }

  lemma {:induction false} Recovers()
    ensures Reassembled(TINY, ["a", "b", "."]) == "ab."
  {
    assert ["a", "b", "."][..2] == ["a", "b"] && ["a", "b"][..1] == ["a"];
    assert Ink("a") == "a" && Ink("b") == "b" && Ink(".") == "." && Ink("") == "";
    assert Tail(TINY, "a") == "" && Tail(TINY, "b") == "";
  }

  /** With chunks of one character the line "ab" comes back as "ab.". */
  lemma {:induction false} LongLineGainsAStop()
    ensures TINY.Valid() && LongLine(TINY, "ab")
    ensures ChunkTexts(TINY, "ab") == ["a", "b", "."]
    ensures Reassembled(TINY, ChunkTexts(TINY, "ab")) == "ab." && Ink("ab") == "ab"
  {
    LevelKeeps(0);
    LevelKeeps(1);
    assert LongLineIn(TINY, Piece(Parts("ab", 0)[0], 0)) by {
      assert |Piece(Parts("ab", 1)[0], 1)| > TINY.size;
    }
    StripTrimmed("ab");
    LevelFragments(0);
    ChunkTextsFrom(TINY, "ab", ["a", "b", ".", " ", " "]);
    Packs();
    Recovers();
  }
}

/** Wrapping legend labels into lines of bounded length. */
module LabelWrap {

  // ------------------------------------------------------------------ words

  /** What the browser's regular expressions call white space. */
  predicate IsSpace(c: char) {
    || c == ' ' || c == '\t' || c == '\n' || c == '\r' || c == '\U{000B}' || c == '\U{000C}'
    || c == '\U{00A0}' || c == '\U{1680}' || '\U{2000}' <= c <= '\U{200A}'
    || c == '\U{2028}' || c == '\U{2029}' || c == '\U{202F}' || c == '\U{205F}' || c == '\U{3000}' || c == '\U{FEFF}'
  }

  /** By code point. */
  lemma SpacesByCode(c: char)
    ensures IsSpace(c) <==> c as int in {9, 10, 11, 12, 13, 32, 160, 5760, 8192, 8193, 8194, 8195, 8196, 8197, 8198,
                                         8199, 8200, 8201, 8202, 8232, 8233, 8239, 8287, 12288, 65279}
  {
  }

  /** The characters that are not white space, in order. */
  function Solid(s: string): string {
    if s == "" then ""
    else
      var n := |s| - 1;
      if IsSpace(s[n]) then Solid(s[..n]) else Solid(s[..n]) + [s[n]]
  }

  predicate IsWord(s: string) {
    s != "" && forall c :: c in s ==> !IsSpace(c)
  }

  /** The maximal runs of characters that are not white space. */
  function SplitWords(s: string): seq<string> {
    if s == "" then []
    else
      var n := |s| - 1;
      var words := SplitWords(s[..n]);
      if IsSpace(s[n]) then words
      else if words == [] || IsSpace(s[n - 1]) then words + [[s[n]]]
      else words[..|words| - 1] + [words[|words| - 1] + [s[n]]]
  }

  function Flat(words: seq<string>): string {
    if words == [] then "" else Flat(words[..|words| - 1]) + words[|words| - 1]
  }

  /** Words separated by single spaces. */
  function Join(words: seq<string>): string {
    if words == [] then ""
    else if |words| == 1 then words[0]
    else Join(words[..|words| - 1]) + " " + words[|words| - 1]
  }

  lemma FlatSnoc(words: seq<string>, w: string)
    ensures Flat(words + [w]) == Flat(words) + w
  {
    assert (words + [w])[..|words|] == words;
  }

  lemma {:induction false} FlatConcat(a: seq<string>, b: seq<string>)
    ensures Flat(a + b) == Flat(a) + Flat(b)
  {
    if b == [] {
      assert a + b == a;
    } else {
      var n := |b| - 1;
      assert a + b == a + b[..n] + [b[n]] && b == b[..n] + [b[n]];
      FlatConcat(a, b[..n]);
      FlatSnoc(a + b[..n], b[n]);
    }
  }

  /** Splitting yields only words. */
  lemma {:induction false} SplitYieldsWords(s: string)
    ensures forall w :: w in SplitWords(s) ==> IsWord(w)
  {
    if s != "" {
      var n := |s| - 1;
      SplitYieldsWords(s[..n]);
      var words := SplitWords(s[..n]);
      if words != [] {
        assert IsWord(words[|words| - 1]);
      }
    }
  }

  /** Splitting keeps every solid character, in order. */
  lemma {:induction false} SplitKeepsSolid(s: string)
    ensures Flat(SplitWords(s)) == Solid(s)
  {
    if s != "" {
      var n := |s| - 1;
      SplitKeepsSolid(s[..n]);
      var words := SplitWords(s[..n]);
      if !IsSpace(s[n]) {
        if words == [] || IsSpace(s[n - 1]) {
          FlatSnoc(words, [s[n]]);
        } else {
          var k := |words| - 1;
          FlatSnoc(words[..k], words[k] + [s[n]]);
        }
      }
    }
  }

  /** How one more character changes the words. */
  lemma SplitSnoc(s: string, c: char)
    ensures var words := SplitWords(s);
      SplitWords(s + [c])
      == if IsSpace(c) then words
         else if words == [] || IsSpace(s[|s| - 1]) then words + [[c]]
         else words[..|words| - 1] + [words[|words| - 1] + [c]]
  {
    assert (s + [c])[..|s|] == s;
  }

  lemma {:induction false} SplitAppendsWord(s: string, w: string)
    requires IsWord(w) && (s == "" || IsSpace(s[|s| - 1]))
    ensures SplitWords(s + w) == SplitWords(s) + [w]
  {
    NoWordsInNothing(s);
    hide SplitWords;
    var n := |w| - 1;
    assert w[n] in w;
    assert s + w == s + w[..n] + [w[n]];
    SplitSnoc(s + w[..n], w[n]);
    if n == 0 {
      assert s + w[..0] == s && w == [w[0]];
    } else {
      assert IsWord(w[..n]) && w[n - 1] in w;
      SplitAppendsWord(s, w[..n]);
      assert w == w[..n] + [w[n]];
    }
  }

  lemma NoWordsInNothing(s: string)
    ensures s == "" ==> SplitWords(s) == []
  {
  }

  /** A word put behind a single space is one more word. */
  lemma SplitJoins(line: string, w: string)
    requires IsWord(w)
    ensures SplitWords(line + " " + w) == SplitWords(line) + [w]
  {
    assert (line + " ")[..|line|] == line;
    assert SplitWords(line + " ") == SplitWords(line);
    SplitAppendsWord(line + " ", w);
  }

  // ----------------------------------------------------------------- chunks

  /** A word cut into pieces of m characters; the last one may be shorter. */
  function Slices(word: string, m: nat): seq<string>
    requires m > 0
  {
    if word == "" then []
    else if |word| <= m then [word]
    else [word[..m]] + Slices(word[m..], m)
  }

  function ChunksOf(words: seq<string>, m: nat): seq<string>
    requires m > 0
  {
    if words == [] then [] else ChunksOf(words[..|words| - 1], m) + Slices(words[|words| - 1], m)
  }

  lemma {:induction false} SlicesKeep(word: string, m: nat)
    requires m > 0
    ensures Flat(Slices(word, m)) == word
  {
    if word == "" {
    } else if |word| <= m {
      FlatSnoc([], word);
      assert [] + [word] == [word];
    } else {
      var head, tail := word[..m], word[m..];
      SlicesKeep(tail, m);
      FlatConcat([head], Slices(tail, m));
      FlatSnoc([], head);
      assert [] + [head] == [head];
      assert word == head + tail;
    }
  }

  ghost predicate AllWords(words: seq<string>) {
    forall w :: w in words ==> IsWord(w)
  }

  ghost predicate AllChunks(chunks: seq<string>, m: nat) {
    forall c :: c in chunks ==> IsWord(c) && |c| <= m
  }

  lemma {:induction false} SlicesShort(word: string, m: nat)
    requires m > 0 && IsWord(word)
    ensures AllChunks(Slices(word, m), m)
  {
    if |word| > m {
      assert forall c :: c in word[m..] ==> c in word;
      assert forall c :: c in word[..m] ==> c in word;
      SlicesShort(word[m..], m);
    }
  }

  lemma {:induction false} ChunksShort(words: seq<string>, m: nat)
    requires m > 0 && AllWords(words)
    ensures AllChunks(ChunksOf(words, m), m)
  {
    if words != [] {
      var n := |words| - 1;
      assert words[n] in words;
      ChunksShort(words[..n], m);
      SlicesShort(words[n], m);
    }
  }

  /** Chunking keeps the characters. */
  lemma {:induction false} ChunksKeep(words: seq<string>, m: nat)
    requires m > 0
    ensures Flat(ChunksOf(words, m)) == Flat(words)
  {
    if words != [] {
      var n := |words| - 1;
      ChunksKeep(words[..n], m);
      SlicesKeep(words[n], m);
      FlatConcat(ChunksOf(words[..n], m), Slices(words[n], m));
    }
  }

  /** Words that fit are not cut. */
  lemma {:induction false} ChunksUncut(words: seq<string>, m: nat)
    requires m > 0 && AllChunks(words, m)
    ensures ChunksOf(words, m) == words
  {
    if words != [] {
      var n := |words| - 1;
      assert words[n] in words;
      ChunksUncut(words[..n], m);
      assert words == words[..n] + [words[n]];
    }
  }

  lemma NoSlices(m: nat)
    requires m > 0
    ensures Slices("", m) == []
  {
  }

  /** The inner loop: slices of m characters. */
  method Cut(word: string, m: nat) returns (pieces: seq<string>)
    requires m > 0
    ensures pieces == Slices(word, m)
  {
    pieces := [];
    var offset := 0;
    NoSlices(m);
    hide Slices;
    while offset < |word|
      invariant pieces + Slices(Rest(word, offset), m) == Slices(word, m)
      decreases |word| - offset
    {
      var end := if offset + m <= |word| then offset + m else |word|;
      SliceStep(word, m, offset);
      assert pieces + ([word[offset..end]] + Slices(Rest(word, offset + m), m))
          == pieces + [word[offset..end]] + Slices(Rest(word, offset + m), m);
      pieces := pieces + [word[offset..end]];
      offset := offset + m;
    }
  }

  function Rest(word: string, offset: nat): string {
    if offset <= |word| then word[offset..] else ""
  }

  lemma SliceStep(word: string, m: nat, offset: nat)
    requires m > 0 && offset < |word|
    ensures var end := if offset + m <= |word| then offset + m else |word|;
      Slices(Rest(word, offset), m) == [word[offset..end]] + Slices(Rest(word, offset + m), m)
  {
    var rest := word[offset..];
    if |rest| > m {
      assert rest[..m] == word[offset..offset + m];
      assert rest[m..] == word[offset + m..];
    } else {
      assert rest == word[offset..|word|];
      assert Slices(Rest(word, offset + m), m) == [];
    }
  }

  /** The first loop of wrapLegendLabel. */
  method Chunks(words: seq<string>, m: nat) returns (chunks: seq<string>)
    requires m > 0 && AllWords(words)
    ensures chunks == ChunksOf(words, m)
  {
    chunks := [];
    for i := 0 to |words|
      invariant chunks == ChunksOf(words[..i], m)
    {
      var word := words[i];
      assert words[..i + 1][..i] == words[..i];
      if |word| <= m {
        assert IsWord(word);
        chunks := chunks + [word];
      } else {
        var pieces := Cut(word, m);
        chunks := chunks + pieces;
      }
    }
    assert words[..|words|] == words;
  }

  // ------------------------------------------------------------------ lines

  /** The words of all lines, in order. */
  function LineWords(lines: seq<string>): seq<string> {
    if lines == [] then [] else LineWords(lines[..|lines| - 1]) + SplitWords(lines[|lines| - 1])
  }

  /** The solid characters of all lines, in order. */
  function SolidLines(lines: seq<string>): string {
    if lines == [] then "" else SolidLines(lines[..|lines| - 1]) + Solid(lines[|lines| - 1])
  }

  /** A line within the limit whose words are separated by single spaces. */
  ghost predicate LineOk(line: string, m: nat) {
    |line| <= m && line == Join(SplitWords(line))
  }

  /** The next line's first word would not have fitted on this line. */
  ghost predicate Overflows(line: string, next: string, m: nat) {
    SplitWords(next) != [] && |line| + 1 + |SplitWords(next)[0]| > m
  }

  ghost predicate Lines(lines: seq<string>, m: nat) {
    && (forall i :: 0 <= i < |lines| ==> LineOk(lines[i], m))
    && (forall i :: 0 < i < |lines| ==> Overflows(lines[i - 1], lines[i], m))
  }

  /** The lines of a label: its chunks in order, joined by single spaces, as many per line as fit. */
  ghost predicate Wrapped(caption: string, m: nat, lines: seq<string>)
    requires m > 0
  {
    lines != [] && LineWords(lines) == ChunksOf(SplitWords(caption), m) && Lines(lines, m)
  }

  lemma LineWordsSnoc(lines: seq<string>, line: string)
    ensures LineWords(lines + [line]) == LineWords(lines) + SplitWords(line)
  {
    assert (lines + [line])[..|lines|] == lines;
  }

  lemma JoinSnoc(words: seq<string>, w: string)
    requires words != []
    ensures Join(words + [w]) == Join(words) + " " + w
  {
    assert (words + [w])[..|words|] == words;
  }

  /** Appending a word to a line adds exactly that word. */
  lemma ExtendedLine(line: string, w: string, m: nat)
    requires LineOk(line, m) && IsWord(w) && SplitWords(line) != [] && |line| + 1 + |w| <= m
    ensures LineOk(line + " " + w, m)
    ensures SplitWords(line + " " + w) == SplitWords(line) + [w]
  {
    SplitJoins(line, w);
    JoinSnoc(SplitWords(line), w);
  }

  lemma FreshLine(w: string, m: nat)
    requires IsWord(w) && |w| <= m
    ensures LineOk(w, m) && SplitWords(w) == [w]
  {
    SplitAppendsWord("", w);
    assert "" + w == w;
  }

  lemma ExtendLast(lines: seq<string>, w: string, m: nat)
    requires lines != [] && Lines(lines, m) && IsWord(w)
    requires SplitWords(lines[|lines| - 1]) != [] && |lines[|lines| - 1]| + 1 + |w| <= m
    ensures var k := |lines| - 1; var line := lines[k] + " " + w;
      && Lines(lines[k := line], m) && SplitWords(line) != []
      && LineWords(lines[k := line]) == LineWords(lines) + [w]
  {
    hide SplitWords, Join, LineWords;
    var k := |lines| - 1;
    var line := lines[k] + " " + w;
    var now := lines[k := line];
    ExtendedLine(lines[k], w, m);
    assert now == lines[..k] + [line] && lines == lines[..k] + [lines[k]];
    LineWordsSnoc(lines[..k], line);
    LineWordsSnoc(lines[..k], lines[k]);
    if k > 0 {
      assert Overflows(lines[k - 1], lines[k], m);
      assert Overflows(now[k - 1], now[k], m);
    }
  }

  lemma AddLine(lines: seq<string>, w: string, m: nat)
    requires Lines(lines, m) && IsWord(w) && |w| <= m
    requires lines != [] ==> |lines[|lines| - 1]| + 1 + |w| > m
    ensures Lines(lines + [w], m) && LineWords(lines + [w]) == LineWords(lines) + [w]
    ensures SplitWords(w) != []
  {
    hide SplitWords, Join, LineWords;
    var now := lines + [w];
    FreshLine(w, m);
    LineWordsSnoc(lines, w);
    forall i | 0 < i < |now| ensures Overflows(now[i - 1], now[i], m) {
      assert i < |lines| ==> now[i] == lines[i];
    }
  }

  /** The second loop of wrapLegendLabel: fills lines greedily. */
  method FillLines(chunks: seq<string>, m: nat) returns (lines: seq<string>)
    requires m > 0 && AllChunks(chunks, m)
    ensures lines == [] <==> chunks == []
    ensures LineWords(lines) == chunks && Lines(lines, m)
  {
    hide SplitWords, Join, LineWords;
    lines := [];
    NoLines();
    for i := 0 to |chunks|
      invariant lines == [] <==> i == 0
      invariant LineWords(lines) == chunks[..i] && Lines(lines, m)
      invariant lines != [] ==> SplitWords(lines[|lines| - 1]) != []
    {
      var chunk := chunks[i];
      assert chunks[..i + 1] == chunks[..i] + [chunk];
      assert IsWord(chunk);
      var n := |lines|;
      if n > 0 && |lines[n - 1]| > 0 && |lines[n - 1]| + 1 + |chunk| <= m {
        ExtendLast(lines, chunk, m);
        lines := lines[n - 1 := lines[n - 1] + " " + chunk];
      } else {
        NonEmptyLine(lines);
        AddLine(lines, chunk, m);
        lines := lines + [chunk];
      }
    }
    assert chunks[..|chunks|] == chunks;
  }

  lemma NoLines()
    ensures LineWords([]) == []
  {
  }

  lemma NonEmptyLine(lines: seq<string>)
    ensures lines != [] && SplitWords(lines[|lines| - 1]) != [] ==> lines[|lines| - 1] != ""
  {
  }

  /** wrapLegendLabel. */
  method WrapLegendLabel(caption: string, m: nat) returns (lines: seq<string>)
    requires m > 0
    ensures Wrapped(caption, m, lines)
  {
    var words := SplitWords(caption);
    SplitYieldsWords(caption);
    if words == [] {
      BlankLine(m);
      return [""];
    }
    var chunks := Chunks(words, m);
    ChunksShort(words, m);
    SomeChunk(words, m);
    lines := FillLines(chunks, m);
  }

  lemma BlankLine(m: nat)
    ensures LineWords([""]) == [] && Lines([""], m)
  {
    LineWordsSnoc([], "");
    assert [] + [""] == [""];
  }

  lemma SomeChunk(words: seq<string>, m: nat)
    requires m > 0 && AllWords(words) && words != []
    ensures ChunksOf(words, m) != []
  {
    assert words[|words| - 1] in words;
  }

  lemma {:induction false} LineWordsSolid(lines: seq<string>)
    ensures Flat(LineWords(lines)) == SolidLines(lines)
  {
    if lines != [] {
      var n := |lines| - 1;
      LineWordsSolid(lines[..n]);
      SplitKeepsSolid(lines[n]);
      FlatConcat(LineWords(lines[..n]), SplitWords(lines[n]));
    }
  }

  /** Wrapping loses and reorders no solid character, and cuts no word that fits on a line. */
  lemma WrappingKeepsText(caption: string, m: nat, lines: seq<string>)
    requires m > 0 && Wrapped(caption, m, lines)
    ensures SolidLines(lines) == Solid(caption)
    ensures AllChunks(SplitWords(caption), m) ==> LineWords(lines) == SplitWords(caption)
  {
    SplitKeepsSolid(caption);
    SplitYieldsWords(caption);
    ChunksKeep(SplitWords(caption), m);
    LineWordsSolid(lines);
    if AllChunks(SplitWords(caption), m) {
      ChunksUncut(SplitWords(caption), m);
    }
  }
}

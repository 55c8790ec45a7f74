/** The header of a markdown table is the head of the table, so splitting the table loses nothing: what
    app/pipeline/chunking.py needs of a table's header, app/implementations/parsers/text_parser.py provides. */
module MarkdownTables {
  import opened Text
  import opened Tokens
  import opened Blocks
  import opened Procedures
  import opened Splitting
  import opened Chunking
  import opened Conservation
  import opened CeilingExact
  import opened MarkdownLines
  import opened Markdown

  // ---------------------------------------------------------------- stripping the first and last line

  /** Lines that hold text, one by one. */
  ghost predicate Rows(rows: seq<string>) {
    forall i :: 0 <= i < |rows| ==> BreakFree(rows[i]) && !Blank(rows[i])
  }

  lemma RestIsText(rows: seq<string>)
    requires Rows(rows) && rows != []
    ensures !Blank(Join(rows, "\n"))
  {
    JoinsToText(rows, 0);
    WordsStrip(Join(rows, "\n"));
  }

  /** The first line of joined rows, stripped at the end, has text. */
  lemma FirstLineHasText(rows: seq<string>)
    requires Rows(rows) && rows != []
    ensures var lines := Lines(RStrip(Join(rows, "\n"))); lines != [] && !Blank(lines[0])
  {
    hide RStrip, Strip, Lines;
    var r := rows[0];
    if |rows| == 1 {
      RStripLast("", r);
      StripKeepsBreakFree(r);
      LinesOfLine(RStrip(r));
    } else {
      var rest := Join(rows[1..], "\n");
      RestIsText(rows[1..]);
      RStripLast(r + "\n", rest);
      assert Join(rows, "\n") == (r + "\n") + rest;
      LinesOfMore(r, RStrip(rest));
    }
  }

  lemma JoinFirst(rows: seq<string>)
    requires |rows| >= 2
    ensures Join(rows, "\n") == rows[0] + ("\n" + Join(rows[1..], "\n"))
  {
  }

  /** The first two lines of a table's text have text. */
  lemma FirstTwoLinesHaveText(rows: seq<string>)
    requires Rows(rows) && |rows| >= 2
    ensures var lines := Lines(Strip(Join(rows, "\n"))); |lines| >= 2 && !Blank(lines[0]) && !Blank(lines[1])
  {
    RowsRest(rows);
    JoinFirst(rows);
    hide *;
    RestIsText(rows[1..]);
    FirstLineHasText(rows[1..]);
    var r, rest := rows[0], Join(rows[1..], "\n");
    SecondLine(r, rest);
    BothHaveText(Lines(Strip(r + ("\n" + rest))), LStrip(r), Lines(RStrip(rest))[0]);
  }

  lemma BothHaveText(lines: seq<string>, a: string, b: string)
    requires TwoOrMore(lines, a, b) && !Blank(a) && !Blank(b)
    ensures |lines| >= 2 && !Blank(lines[0]) && !Blank(lines[1])
  {
  }

  lemma RowsRest(rows: seq<string>)
    requires Rows(rows) && rows != []
    ensures Rows(rows[1..]) && BreakFree(rows[0]) && !Blank(rows[0])
  {
    hide BreakFree, Blank;
  }

  lemma SecondLine(r: string, rest: string)
    requires BreakFree(r) && !Blank(r) && !Blank(rest)
    requires Lines(RStrip(rest)) != []
    ensures !Blank(LStrip(r)) && TwoOrMore(Lines(Strip(r + ("\n" + rest))), LStrip(r), Lines(RStrip(rest))[0])
  {
    hide LStrip, RStrip, Lines, BreakFree;
    var m := LStrip(r);
    LStripFirst(r, "\n" + rest);
    StripKeepsBreakFree(r);
    Assoc(m, "\n", rest);
    RStripLast(m + "\n", rest);
    LinesOfMore(m, RStrip(rest));
  }

  ghost predicate TwoOrMore(lines: seq<string>, a: string, b: string) {
    |lines| >= 2 && lines[0] == a && lines[1] == b
  }

  lemma {:induction false} FirstTwoAreKept(lines: seq<string>)
    requires |lines| >= 2 && !Blank(lines[0]) && !Blank(lines[1])
    ensures var kept := NonBlank(lines); |kept| >= 2 && kept[0] == lines[0] && kept[1] == lines[1]
  {
    hide Strip;
    if |lines| == 2 {
      assert lines[..1] == [lines[0]] && [lines[0]][..0] == [];
      assert NonBlank([]) == [];
      assert NonBlank([lines[0]]) == [lines[0]];
    } else {
      FirstTwoAreKept(lines[..|lines| - 1]);
    }
  }

  // ---------------------------------------------------------------- the header

  /** A table made of rows with text begins with its header, word for word. */
  lemma HeaderIsTheHead(rows: seq<string>)
    requires Rows(rows) && rows != []
    ensures var text := Strip(Join(rows, "\n")); ExtractTableHeader(text).Some? ==>
      Words(ExtractTableHeader(text).value) == WordsAll(TableHead(text, ExtractTableHeader(text).value))
  {
    var text := Strip(Join(rows, "\n"));
    if |rows| == 1 {
      OneRowHasNoHeader(rows[0]);
      assert rows == [rows[0]];
    } else {
      FirstTwoLinesHaveText(rows);
      hide Strip, Join, Words, ExtractTableHeader, Rows, TableHead;
      HeaderOfTwoLines(text);
    }
  }

  lemma HeaderOfTwoLines(text: string)
    requires |Lines(text)| >= 2 && !Blank(Lines(text)[0]) && !Blank(Lines(text)[1])
    ensures ExtractTableHeader(text).Some? ==>
      Words(ExtractTableHeader(text).value) == WordsAll(TableHead(text, ExtractTableHeader(text).value))
  {
    hide *;
    var lines := Lines(text);
    FirstTwoAreKept(lines);
    TwoLinesAreFree(text);
    HeaderIsFirstTwo(text, lines[0], lines[1]);
    TwoLineHeader(lines[0], lines[1]);
    HeadIsTwoLines(text, lines[0] + "\n" + lines[1]);
  }

  lemma TwoLinesAreFree(text: string)
    requires |Lines(text)| >= 2 && !Blank(Lines(text)[1])
    ensures BreakFree(Lines(text)[0]) && BreakFree(Lines(text)[1]) && Lines(text)[1] != ""
  {
    NotEmpty(Lines(text)[1]);
    LinesAreBreakFree(text, 0, 0);
    hide Strip, BreakFree;
  }

  lemma HeaderIsFirstTwo(text: string, a: string, b: string)
    requires var kept := NonBlank(Lines(text)); |kept| >= 2 && kept[0] == a && kept[1] == b
    ensures ExtractTableHeader(text).Some? ==> ExtractTableHeader(text).value == a + "\n" + b
  {
    hide NonBlank, Lines, Strip, Unruled;
  }

  lemma OneRowHasNoHeader(row: string)
    requires BreakFree(row) && !Blank(row)
    ensures ExtractTableHeader(Strip(Join([row], "\n"))).None?
  {
    var l, r := StripParts(row);
    assert BreakFree(Strip(row)) by {
      forall i | 0 <= i < |Strip(row)| ensures !IsLineBreak(Strip(row)[i]) {
        assert Strip(row)[i] == row[|l| + i];
      }
    }
    LinesOfLine(Strip(row));
    assert Join([row], "\n") == row;
    hide Strip, Join, Unruled;
    assert |NonBlank([Strip(row)])| <= 1;
  }

  lemma TwoLineHeader(a: string, b: string)
    requires BreakFree(a) && BreakFree(b) && b != ""
    ensures Lines(a + "\n" + b) == [a, b]
    ensures Words(a + "\n" + b) == WordsAll([a, b])
  {
    LinesOfMore(a, b);
    LinesOfLine(b);
    WordsBetween(a, "\n", b);
    assert [a, b][1..] == [b];
    WordsAllOne(b);
  }

  lemma HeadIsTwoLines(text: string, header: string)
    requires header != "" && |Lines(header)| == 2 <= |Lines(text)|
    ensures TableHead(text, header) == [Lines(text)[0], Lines(text)[1]]
  {
  }

  lemma SpanRows(lines: seq<string>, at: Span)
    requires at.lo < at.hi <= |lines| && at.kind == TABLE && IsBlock(MARKDOWN, lines, at)
    requires forall i :: 0 <= i < |lines| ==> BreakFree(lines[i])
    ensures Rows(lines[at.lo..at.hi])
  {
    hide IsTableRow, IsFence, HeadingOf, Blank, BreakFree;
    forall i | 0 <= i < at.hi - at.lo ensures BreakFree(lines[at.lo..at.hi][i]) && !Blank(lines[at.lo..at.hi][i]) {
      assert Plain(MARKDOWN, lines[at.lo + i]);
    }
  }

  /** Every table block of a markdown file meets what the chunker needs of its header. */
  lemma MarkdownHeadersLead(lines: seq<string>, b: Block)
    requires (forall i :: 0 <= i < |lines| ==> BreakFree(lines[i])) && b in MarkdownBlocks(MARKDOWN, lines)
    ensures HeaderLeads(b) && b.slideIndex == None
  {
    hide MarkdownBlocks, ExtractTableHeader, Strip, Join, Words, TableHead, TableBody, BreakFree, Rows, IsBlock, Titles, Open;
    MarkdownFencesHaveText();
    MarkdownFindsBlocks(MARKDOWN, lines);
    var at := BlockHasSpan(MARKDOWN, lines, 0, b);
    if at.kind == TABLE {
      SpanRows(lines, at);
      HeaderIsTheHead(lines[at.lo..at.hi]);
    }
  }

  /** From a markdown file to its chunks nothing is lost, with no condition on the file: the new words of the
      chunks, in order, are the words of its blocks, and what a chunk repeats is carried overlap, the
      continuation marker or a table header. */
  lemma MarkdownIsConserved(lines: seq<string>, s: Setup) returns (ledger: seq<Segment>)
    requires forall i :: 0 <= i < |lines| ==> BreakFree(lines[i])
    ensures var blocks := MarkdownBlocks(MARKDOWN, lines);
      && Contents(Chunks(blocks, s)) == AllChunks(ledger)
      && AllFresh(ledger) == BlockWords(blocks)
      && Sound(ledger, Repeats(blocks) + {[]})
      && TextWords(blocks) == BodyWords(MARKDOWN, lines, 0)
  {
    var blocks := MarkdownBlocks(MARKDOWN, lines);
    hide MarkdownBlocks, HeaderLeads, BreakFree, Chunks, RouteOf, Contents, AllChunks, AllFresh, BlockWords, Sound, Repeats;
    forall b | b in blocks ensures HeaderLeads(b) && b.slideIndex == None {
      MarkdownHeadersLead(lines, b);
    }
    KeptAreBlocks(blocks);
    ledger := NothingLost(blocks, s);
    MarkdownFencesHaveText();
    BodyIsKept(MARKDOWN, lines);
  }

  lemma {:induction false} KeptAreBlocks(blocks: seq<Block>)
    ensures forall i :: 0 <= i < |Kept(blocks)| ==> Kept(blocks)[i] in blocks
  {
    hide Strip;
    if blocks != [] { KeptAreBlocks(blocks[..|blocks| - 1]); }
  }

  // ---------------------------------------------------------------- headers of tables from other parsers

  lemma {:induction false} NonBlankAppend(a: seq<string>, b: seq<string>)
    ensures NonBlank(a + b) == NonBlank(a) + NonBlank(b)
  {
    hide Strip;
    if b == [] {
      assert a + b == a;
    } else {
      assert (a + b)[..|a + b| - 1] == a + b[..|b| - 1];
      NonBlankAppend(a, b[..|b| - 1]);
    }
  }

  lemma NonBlankPair(a: string, b: string)
    ensures NonBlank([a, b]) == (if Blank(a) then [] else [a]) + if Blank(b) then [] else [b]
  {
    hide Strip;
    assert [a, b][..1] == [a] && [a][..0] == [];
    assert NonBlank([a]) == if Blank(a) then [] else [a];
  }

  /** The first two of `pair + tail`: the words of `pair` and those of as much of `tail` as is needed. */
  lemma FirstTwoWords(pair: seq<string>, tail: seq<string>)
    requires |pair| <= 2 <= |pair| + |tail| && forall i :: 0 <= i < |tail| ==> Words(tail[i]) != []
    ensures var k, both := 2 - |pair|, pair + tail;
      WordsAll([both[0], both[1]]) == WordsAll(pair) + WordsAll(tail[..k]) && (WordsAll(tail[..k]) == [] <==> k == 0)
  {
    hide Words;
    var k, both := 2 - |pair|, pair + tail;
    assert [both[0], both[1]] == pair + tail[..k];
    WordsAllAppend(pair, tail[..k]);
    if k > 0 { assert tail[..k][0] == tail[0]; }
  }

  lemma Prefixed<T>(a: seq<T>, b: seq<T>, c: seq<T>)
    requires c == a + b
    ensures a <= c && (c == a <==> b == [])
  {
  }

  /** What an extracted header repeats. The lines it replaces are the first two of the text, so the words they
      lose are always among the header's, and the header has no more words than they exactly when both hold text.
      When one of them is blank, the header's own lines come again in the body. */
  lemma ExtractedHeaderCovers(text: string)
    requires ExtractTableHeader(text).Some?
    ensures var header, lines := ExtractTableHeader(text).value, Lines(text);
      && |lines| >= 2 && WordsAll(TableHead(text, header)) <= Words(header)
      && (Words(header) == WordsAll(TableHead(text, header)) <==> !Blank(lines[0]) && !Blank(lines[1]))
  {
    var lines, kept := Lines(text), NonBlank(Lines(text));
    var a, b := kept[0], kept[1];
    KeptLines(text, lines, kept);
    TwoLineHeader(a, b);
    hide ExtractTableHeader, Words, NonBlank, Lines, BreakFree;
    var header := a + "\n" + b;
    HeadIsTwoLines(text, header);
    var pair, tail := NonBlank([lines[0], lines[1]]), NonBlank(lines[2..]);
    FirstTwoWords(pair, tail);
    WordsNonBlank([lines[0], lines[1]]);
    NonBlankPair(lines[0], lines[1]);
    Prefixed(WordsAll(pair), WordsAll(tail[..2 - |pair|]), Words(header));
  }

  lemma KeptLines(text: string, lines: seq<string>, kept: seq<string>)
    requires lines == Lines(text) && kept == NonBlank(lines) && |kept| >= 2
    ensures |lines| >= 2 && kept == NonBlank([lines[0], lines[1]]) + NonBlank(lines[2..]) && |NonBlank([lines[0], lines[1]])| <= 2
    ensures forall i :: 0 <= i < |NonBlank(lines[2..])| ==> Words(NonBlank(lines[2..])[i]) != []
    ensures BreakFree(kept[0]) && BreakFree(kept[1]) && kept[1] != ""
  {
    hide *;
    NonBlankMembers(lines);
    KeptText(text, kept[0]);
    KeptText(text, kept[1]);
    NoneBlank(lines[2..]);
    NonBlankMembers([lines[0], lines[1]]);
    FirstTwo(lines);
    NonBlankAppend([lines[0], lines[1]], lines[2..]);
  }

  lemma FirstTwo<T>(xs: seq<T>)
    requires |xs| >= 2
    ensures xs == [xs[0], xs[1]] + xs[2..]
  {
  }

  lemma KeptText(text: string, l: string)
    requires l in NonBlank(Lines(text))
    ensures BreakFree(l) && l != ""
  {
    hide NonBlank, BreakFree, Strip;
    NonBlankMembers(Lines(text));
    LinesAreBreakFree(text, 0, 0);
    EmptyIsBlank();
  }

  lemma EmptyIsBlank()
    ensures Blank("")
  {
  }

  lemma {:induction false} NonBlankMembers(lines: seq<string>)
    ensures |NonBlank(lines)| <= |lines| && forall l :: l in NonBlank(lines) ==> l in lines && Strip(l) != ""
  {
    hide Strip;
    if lines != [] { NonBlankMembers(lines[..|lines| - 1]); }
  }

  /** A block whose header was extracted from its own text: the header reads every word the split takes off. */
  lemma ExtractedReadsAll(b: Block)
    requires b.tableHeader == ExtractTableHeader(b.text)
    ensures HeaderCovers(b)
  {
    if b.tableHeader.Some? { ExtractedHeaderCovers(b.text); }
    hide Words, ExtractTableHeader, TableHead, TableBody;
  }

  /** A table with a blank line under its first row, as a converter may export it: the header is the first row and
      the separator, but only the row is taken off the body, so every split repeats the separator in it. */
  lemma SeparatorIsRepeated(first: string, blank: string, separator: string, tail: string)
    requires BreakFree(first) && BreakFree(blank) && BreakFree(separator) && !Blank(first) && Blank(blank) && !Blank(separator)
    requires '|' in first && '-' in separator && Strip(Unruled(separator)) == ""
    ensures var text := first + "\n" + (blank + "\n" + (separator + "\n" + tail));
      && ExtractTableHeader(text) == Some(first + "\n" + separator)
      && TableBody(text, first + "\n" + separator) == [separator] + Lines(tail)
  {
    hide *;
    var text, header, rest := first + "\n" + (blank + "\n" + (separator + "\n" + tail)), first + "\n" + separator, Lines(tail);
    GappedLines(first, blank, separator, tail);
    NotEmpty(separator);
    TwoLineHeader(first, separator);
    GapDropped(first, blank, separator, rest);
    HeaderOf(text, first, separator, NonBlank(rest));
    BodyAfterTwo(text, header, first, blank, separator, rest);
  }

  lemma NotEmpty(line: string)
    requires !Blank(line)
    ensures line != ""
  {
    NothingToStrip();
  }

  lemma HeaderOf(text: string, first: string, separator: string, rest: seq<string>)
    requires NonBlank(Lines(text)) == [first, separator] + rest
    requires '|' in first && '-' in separator && Strip(Unruled(separator)) == ""
    ensures ExtractTableHeader(text) == Some(first + "\n" + separator)
  {
    hide NonBlank, Lines, Strip, Unruled;
  }

  lemma BodyAfterTwo(text: string, header: string, first: string, blank: string, separator: string, rest: seq<string>)
    requires Lines(text) == [first, blank, separator] + rest && Lines(header) == [first, separator] && header != ""
    ensures TableBody(text, header) == [separator] + rest
  {
    hide Lines;
    assert ([first, blank, separator] + rest)[2..] == [separator] + rest;
  }

  lemma GappedLines(first: string, blank: string, separator: string, tail: string)
    requires BreakFree(first) && BreakFree(blank) && BreakFree(separator)
    ensures Lines(first + "\n" + (blank + "\n" + (separator + "\n" + tail))) == [first, blank, separator] + Lines(tail)
  {
    LinesOfMore(separator, tail);
    LinesOfMore(blank, separator + "\n" + tail);
    LinesOfMore(first, blank + "\n" + (separator + "\n" + tail));
    hide Lines, BreakFree;
  }

  lemma GapDropped(first: string, blank: string, separator: string, rest: seq<string>)
    requires !Blank(first) && Blank(blank) && !Blank(separator)
    ensures NonBlank([first, blank, separator] + rest) == [first, separator] + NonBlank(rest)
  {
    hide Strip, NonBlank;
    NonBlankPair(first, blank);
    NonBlankOne(separator);
    NonBlankAppend([first, blank], [separator]);
    NonBlankAppend([first, blank] + [separator], rest);
    assert [first, blank] + [separator] == [first, blank, separator];
  }

  lemma NonBlankOne(a: string)
    ensures NonBlank([a]) == if Blank(a) then [] else [a]
  {
    hide Strip;
    assert [a][..0] == [];
  }
}

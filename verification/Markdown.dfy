/** app/implementations/parsers/text_parser.py `markdown_to_blocks`: one pass over the lines of a file, against
    the division of the file into blocks that it stands for. */
module Markdown {
  import opened Text
  import opened Blocks
  import opened MarkdownLines

  // ---------------------------------------------------------------- the scan

  /** The locals of the loop; `stack` pairs `levels` with `section_path`. */
  datatype Scan = Scan(blocks: seq<Block>, stack: seq<Head>, buffer: seq<string>, kind: BlockKind, inFence: bool)

  const START := Scan([], [], [], TEXT, false)

  function Titles(heads: seq<Head>): seq<string> {
    seq(|heads|, i requires 0 <= i < |heads| => heads[i].title)
  }

  function Levels(heads: seq<Head>): seq<nat> {
    seq(|heads|, i requires 0 <= i < |heads| => heads[i].level)
  }

  function TextOf(buffer: seq<string>): string {
    Strip(Join(buffer, "\n"))
  }

  function TextBlock(g: Grammar, buffer: seq<string>, kind: BlockKind, path: seq<string>): Block {
    var text := TextOf(buffer);
    Block(kind, text, sectionPath := path, tableHeader := if kind == TABLE then g.header(text) else None)
  }

  function HeadingBlock(head: Head, path: seq<string>): Block {
    Block(HEADING, head.title, sectionPath := path, level := Some(head.level))
  }

  function Flushed(g: Grammar, s: Scan, kind: BlockKind): Scan {
    if TextOf(s.buffer) == "" then s.(buffer := [])
    else s.(blocks := s.blocks + [TextBlock(g, s.buffer, kind, Titles(s.stack))], buffer := [])
  }

  /** The stack without its top entries of level `level` or deeper. */
  function Popped(stack: seq<Head>, level: nat): (r: seq<Head>)
    ensures |r| <= |stack| && r == stack[..|r|]
  {
    if stack != [] && stack[|stack| - 1].level >= level then Popped(stack[..|stack| - 1], level) else stack
  }

  function Pushed(s: Scan, head: Head): Scan {
    var stack := Popped(s.stack, head.level) + [head];
    s.(stack := stack, blocks := s.blocks + [HeadingBlock(head, Titles(stack))], kind := TEXT)
  }

  /** A change between table rows and other lines ends the block. */
  function Switched(g: Grammar, s: Scan, row: bool): Scan {
    if row && s.kind != TABLE then Flushed(g, s, s.kind).(kind := TABLE)
    else if !row && s.kind == TABLE then Flushed(g, s, TABLE).(kind := TEXT)
    else s
  }

  function Step(g: Grammar, s: Scan, line: string): Scan {
    if g.fence(line) then
      if s.inFence then Flushed(g, s.(buffer := s.buffer + [line]), CODE).(inFence := false)
      else Flushed(g, s, s.kind).(inFence := true, buffer := [line])
    else if s.inFence then s.(buffer := s.buffer + [line])
    else if g.heading(line).Some? then Pushed(Flushed(g, s, s.kind), g.heading(line).value)
    else
      var t := Switched(g, s, g.row(line));
      if Blank(line) then Flushed(g, t, t.kind).(kind := TEXT) else t.(buffer := t.buffer + [line])
  }

  /** The blocks once the lines from `i` on have been scanned too. */
  function Finished(g: Grammar, s: Scan, lines: seq<string>, i: nat): seq<Block>
    requires i <= |lines|
    decreases |lines| - i
  {
    if i == |lines| then Flushed(g, s, if s.inFence then CODE else s.kind).blocks
    else Finished(g, Step(g, s, lines[i]), lines, i + 1)
  }

  function MarkdownBlocks(g: Grammar, lines: seq<string>): seq<Block> {
    Finished(g, START, lines, 0)
  }

  // ---------------------------------------------------------------- the code

  method Flush(g: Grammar, buffer: seq<string>, kind: BlockKind, sectionPath: seq<string>, blocks: seq<Block>) returns (blocks': seq<Block>)
    ensures blocks' == if TextOf(buffer) == "" then blocks else blocks + [TextBlock(g, buffer, kind, sectionPath)]
  {
    var text := Strip(Join(buffer, "\n"));
    if text == "" { return blocks; }
    var header := if kind == TABLE then g.header(text) else None;
    blocks' := blocks + [Block(kind, text, sectionPath := sectionPath, tableHeader := header)];
  }

  method PopSections(levels: seq<nat>, sectionPath: seq<string>, level: nat, ghost stack: seq<Head>) returns (levels': seq<nat>, sectionPath': seq<string>)
    requires levels == Levels(stack) && sectionPath == Titles(stack)
    ensures levels' == Levels(Popped(stack, level)) && sectionPath' == Titles(Popped(stack, level))
  {
    levels', sectionPath' := levels, sectionPath;
    ghost var rest := stack;
    while levels' != [] && levels'[|levels'| - 1] >= level
      invariant levels' == Levels(rest) && sectionPath' == Titles(rest) && Popped(rest, level) == Popped(stack, level)
      decreases |levels'|
    {
      rest := rest[..|rest| - 1];
      levels', sectionPath' := levels'[..|levels'| - 1], sectionPath'[..|sectionPath'| - 1];
    }
  }

  lemma TitlesOfMore(stack: seq<Head>, head: Head)
    ensures Titles(stack + [head]) == Titles(stack) + [head.title] && Levels(stack + [head]) == Levels(stack) + [head.level]
  {
  }

  method MarkdownToBlocks(g: Grammar, lines: seq<string>) returns (blocks: seq<Block>)
    ensures blocks == MarkdownBlocks(g, lines)
  {
    hide TextOf, TextBlock, Blank;
    blocks := [];
    var sectionPath: seq<string>, levels: seq<nat>, buffer: seq<string> := [], [], [];
    var kind, inFence := TEXT, false;
    ghost var s := START;
    for i := 0 to |lines|
      invariant Finished(g, s, lines, i) == MarkdownBlocks(g, lines)
      invariant s.blocks == blocks && s.buffer == buffer && s.kind == kind && s.inFence == inFence
      invariant levels == Levels(s.stack) && sectionPath == Titles(s.stack)
    {
      var line := lines[i];
      ghost var before := s;
      s := Step(g, s, line);
      if g.fence(line) {
        if inFence {
          buffer := buffer + [line];
          blocks := Flush(g, buffer, CODE, sectionPath, blocks);
          buffer, inFence := [], false;
        } else {
          blocks := Flush(g, buffer, kind, sectionPath, blocks);
          buffer, inFence := [line], true;
        }
        continue;
      }
      if inFence {
        buffer := buffer + [line];
        continue;
      }
      var heading := g.heading(line);
      if heading.Some? {
        blocks := Flush(g, buffer, kind, sectionPath, blocks);
        buffer, kind := [], TEXT;
        levels, sectionPath := PopSections(levels, sectionPath, heading.value.level, before.stack);
        TitlesOfMore(Popped(before.stack, heading.value.level), heading.value);
        levels, sectionPath := levels + [heading.value.level], sectionPath + [heading.value.title];
        blocks := blocks + [Block(HEADING, heading.value.title, sectionPath := sectionPath, level := Some(heading.value.level))];
        continue;
      }
      var isTableRow := g.row(line);
      if isTableRow && kind != TABLE {
        blocks := Flush(g, buffer, kind, sectionPath, blocks);
        buffer, kind := [], TABLE;
      } else if !isTableRow && kind == TABLE {
        blocks := Flush(g, buffer, TABLE, sectionPath, blocks);
        buffer, kind := [], TEXT;
      }
      if Blank(line) {
        blocks := Flush(g, buffer, kind, sectionPath, blocks);
        buffer, kind := [], TEXT;
        continue;
      }
      buffer := buffer + [line];
    }
    blocks := Flush(g, buffer, if inFence then CODE else kind, sectionPath, blocks);
  }

  // ---------------------------------------------------------------- the section rule

  /** An odd number of fence lines before line `n` leaves a fence open there. */
  predicate InFence(g: Grammar, lines: seq<string>, n: nat)
    requires n <= |lines|
  {
    n > 0 && InFence(g, lines, n - 1) != g.fence(lines[n - 1])
  }

  /** Line `i` looks like a heading and stands outside a fence. */
  predicate IsHeading(g: Grammar, lines: seq<string>, i: nat)
    requires i < |lines|
  {
    !InFence(g, lines, i) && !g.fence(lines[i]) && g.heading(lines[i]).Some?
  }

  /** The headings among the first `n` lines, in order. */
  function Headings(g: Grammar, lines: seq<string>, n: nat): seq<Head>
    requires n <= |lines|
  {
    if n == 0 then []
    else if IsHeading(g, lines, n - 1) then Headings(g, lines, n - 1) + [g.heading(lines[n - 1]).value]
    else Headings(g, lines, n - 1)
  }

  /** No later heading is of the same or a higher rank. */
  predicate StillOpen(heads: seq<Head>, i: nat)
    requires i < |heads|
  {
    forall k :: i < k < |heads| ==> heads[k].level > heads[i].level
  }

  /** The headings not followed by one of equal or smaller level. */
  function OpenFrom(heads: seq<Head>, i: nat): seq<Head>
    requires i <= |heads|
    decreases |heads| - i
  {
    if i == |heads| then [] else (if StillOpen(heads, i) then [heads[i]] else []) + OpenFrom(heads, i + 1)
  }

  function Open(heads: seq<Head>): seq<Head> {
    OpenFrom(heads, 0)
  }

  ghost predicate Increasing(stack: seq<Head>) {
    forall i, k :: 0 <= i < k < |stack| ==> stack[i].level < stack[k].level
  }

  /** The entries above `level`. */
  function Above(heads: seq<Head>, level: nat): seq<Head> {
    if heads == [] then [] else (if heads[0].level < level then [heads[0]] else []) + Above(heads[1..], level)
  }

  lemma {:induction false} OpenAfter(heads: seq<Head>, head: Head, i: nat)
    requires i <= |heads|
    ensures OpenFrom(heads + [head], i) == Above(OpenFrom(heads, i), head.level) + [head]
    decreases |heads| - i
  {
    var more := heads + [head];
    if i == |heads| {
      assert OpenFrom(more, i + 1) == [];
      assert more[i] == head && StillOpen(more, i);
    } else {
      OpenAfter(heads, head, i + 1);
      assert more[i] == heads[i] && more[|heads|] == head;
      assert StillOpen(more, i) <==> StillOpen(heads, i) && heads[i].level < head.level by {
        if StillOpen(heads, i) && heads[i].level < head.level {
          forall k | i < k < |more| ensures more[k].level > more[i].level {
            if k < |heads| { assert more[k] == heads[k]; }
          }
        }
        if StillOpen(more, i) {
          forall k | i < k < |heads| ensures heads[k].level > heads[i].level {
            assert more[k] == heads[k];
          }
        }
      }
      AboveSplit(if StillOpen(heads, i) then [heads[i]] else [], OpenFrom(heads, i + 1), head.level);
    }
  }

  lemma {:induction false} AboveSplit(a: seq<Head>, b: seq<Head>, level: nat)
    requires |a| <= 1
    ensures Above(a + b, level) == Above(a, level) + Above(b, level)
  {
    if a == [] {
      assert a + b == b;
    } else {
      assert (a + b)[1..] == b && a[1..] == [];
    }
  }

  /** On an increasing stack, popping from the top keeps exactly the entries above the level. */
  lemma {:induction false} PoppedIsAbove(stack: seq<Head>, level: nat)
    requires Increasing(stack)
    ensures Popped(stack, level) == Above(stack, level)
    ensures Increasing(Popped(stack, level)) && forall i :: 0 <= i < |Popped(stack, level)| ==> Popped(stack, level)[i].level < level
  {
    if stack != [] {
      var n := |stack| - 1;
      var init := stack[..n];
      AboveLast(init, stack[n], level);
      assert stack == init + [stack[n]];
      if stack[n].level >= level {
        PoppedIsAbove(init, level);
      } else {
        AllAbove(stack, level);
      }
    }
  }

  lemma {:induction false} AboveLast(heads: seq<Head>, last: Head, level: nat)
    ensures Above(heads + [last], level) == Above(heads, level) + if last.level < level then [last] else []
  {
    if heads != [] {
      AboveLast(heads[1..], last, level);
      assert (heads + [last])[1..] == heads[1..] + [last];
    }
  }

  lemma {:induction false} AllAbove(heads: seq<Head>, level: nat)
    requires forall i :: 0 <= i < |heads| ==> heads[i].level < level
    ensures Above(heads, level) == heads
  {
    if heads != [] { AllAbove(heads[1..], level); }
  }

  /** Pushing a heading on the open ones, after popping, gives the open ones after it. */
  lemma PushOpens(stack: seq<Head>, heads: seq<Head>, head: Head)
    requires stack == Open(heads) && Increasing(stack)
    ensures Popped(stack, head.level) + [head] == Open(heads + [head]) && Increasing(Popped(stack, head.level) + [head])
  {
    PoppedIsAbove(stack, head.level);
    OpenAfter(heads, head, 0);
    hide Popped, Above, OpenFrom, StillOpen;
  }

  // ---------------------------------------------------------------- the blocks of a file

  /** The lines from `lo` up to `hi`, as one block of kind `kind`. */
  datatype Span = Span(kind: BlockKind, lo: nat, hi: nat)

  /** Neither fence, heading nor blank. */
  predicate Plain(g: Grammar, line: string) {
    !g.fence(line) && g.heading(line).None? && !Blank(line)
  }

  /** Where a run of plain lines ends: table rows if `row`, other lines if not. */
  function RunEnd(g: Grammar, lines: seq<string>, i: nat, row: bool): (n: nat)
    requires i <= |lines|
    ensures i <= n <= |lines|
    decreases |lines| - i
  {
    if i < |lines| && Plain(g, lines[i]) && g.row(lines[i]) == row then RunEnd(g, lines, i + 1, row) else i
  }

  /** Just past the closing fence, or the end of the file. */
  function FenceEnd(g: Grammar, lines: seq<string>, i: nat): (n: nat)
    requires i <= |lines|
    ensures i <= n <= |lines|
    decreases |lines| - i
  {
    if i == |lines| then i else if g.fence(lines[i]) then i + 1 else FenceEnd(g, lines, i + 1)
  }

  /** Belongs to no block. */
  predicate Idle(g: Grammar, line: string) {
    !g.fence(line) && g.heading(line).None? && Blank(line)
  }

  /** The block that starts at line `i`. */
  function SpanAt(g: Grammar, lines: seq<string>, i: nat): (at: Span)
    requires i < |lines|
    ensures at.lo == i < at.hi <= |lines|
  {
    if g.fence(lines[i]) then Span(CODE, i, FenceEnd(g, lines, i + 1))
    else if g.heading(lines[i]).Some? then Span(HEADING, i, i + 1)
    else if g.row(lines[i]) then Span(TABLE, i, RunEnd(g, lines, i + 1, true))
    else Span(TEXT, i, RunEnd(g, lines, i + 1, false))
  }

  /** The block of a span: its text, under the sections open there. */
  function BlockAt(g: Grammar, lines: seq<string>, at: Span): Block
    requires at.lo < at.hi <= |lines|
  {
    var path := Titles(Open(Headings(g, lines, at.hi)));
    if at.kind == HEADING && g.heading(lines[at.lo]).Some? then
      var head := g.heading(lines[at.lo]).value;
      Block(HEADING, head.title, sectionPath := path, level := Some(head.level))
    else
      var text := Strip(Join(lines[at.lo..at.hi], "\n"));
      Block(at.kind, text, sectionPath := path, tableHeader := if at.kind == TABLE then g.header(text) else None)
  }

  /** The blocks of the lines from `i` on. */
  function BlocksFrom(g: Grammar, lines: seq<string>, i: nat): seq<Block>
    requires i <= |lines|
    decreases |lines| - i
  {
    if i == |lines| then []
    else if Idle(g, lines[i]) then BlocksFrom(g, lines, i + 1)
    else [BlockAt(g, lines, SpanAt(g, lines, i))] + BlocksFrom(g, lines, SpanAt(g, lines, i).hi)
  }

  // ---------------------------------------------------------------- one pass finds them

  lemma BlankJoin()
    ensures TextOf([]) == ""
  {
  }

  /** Lines that are not all blank join to text. */
  lemma JoinsToText(lines: seq<string>, i: nat)
    requires i < |lines| && !Blank(lines[i])
    ensures TextOf(lines) != ""
  {
    hide Strip, Join, Words, WordsAll;
    WordsStrip(lines[i]);
    WordsJoin(lines, "\n");
    WordsStrip(Join(lines, "\n"));
    WordsAllHolds(lines, i);
  }

  lemma {:induction false} WordsAllHolds(lines: seq<string>, i: nat)
    requires i < |lines| && Words(lines[i]) != []
    ensures WordsAll(lines) != []
  {
    hide Words;
    if i > 0 { WordsAllHolds(lines[1..], i - 1); }
  }

  /** The scan stands at line `i` with nothing buffered, outside a fence, with the open sections on its stack. */
  ghost predicate Clean(g: Grammar, s: Scan, lines: seq<string>, i: nat)
    requires i <= |lines|
  {
    && s.buffer == [] && !s.inFence && (s.kind == TEXT || s.kind == TABLE)
    && !InFence(g, lines, i) && s.stack == Open(Headings(g, lines, i)) && Increasing(s.stack)
  }

  /** The scan stands at line `j` with the block that began at `lo` buffered. */
  ghost predicate Within(g: Grammar, s: Scan, lines: seq<string>, lo: nat, j: nat)
    requires lo < j <= |lines|
  {
    && s.buffer == lines[lo..j] && !Blank(lines[lo]) && s.inFence == InFence(g, lines, j)
    && (s.kind == TEXT || s.kind == TABLE)
    && s.stack == Open(Headings(g, lines, j)) && Increasing(s.stack)
  }

  lemma FlushesBlock(g: Grammar, s: Scan, lines: seq<string>, lo: nat, j: nat, kind: BlockKind)
    requires lo < j <= |lines| && Within(g, s, lines, lo, j) && kind != HEADING
    ensures Flushed(g, s, kind) == s.(blocks := s.blocks + [BlockAt(g, lines, Span(kind, lo, j))], buffer := [])
  {
    JoinsToText(lines[lo..j], 0);
    hide Open, Headings, InFence, Blank, Increasing, Titles, Strip, Join;
  }

  lemma Appends(lines: seq<string>, lo: nat, j: nat)
    requires lo < j < |lines|
    ensures lines[lo..j] + [lines[j]] == lines[lo..j + 1]
  {
  }

  /** Inside a fence the scan buffers everything up to the closing fence or the end of the file. */
  lemma {:induction false} FenceScanned(g: Grammar, s: Scan, lines: seq<string>, lo: nat, j: nat)
    requires FencesHaveText(g) && lo < j <= |lines| && Within(g, s, lines, lo, j) && s.inFence
    ensures var hi := FenceEnd(g, lines, j); Finished(g, s, lines, j) == s.blocks + [BlockAt(g, lines, Span(CODE, lo, hi))] + BlocksFrom(g, lines, hi)
    decreases |lines| - j, 1
  {
    hide Open, TextOf, Blank, Increasing, Titles, BlockAt, Flushed, FencesHaveText;
    if j == |lines| {
      FlushesBlock(g, s, lines, lo, j, CODE);
      EmptyFirst(s.blocks + [BlockAt(g, lines, Span(CODE, lo, j))]);
    } else {
      Appends(lines, lo, j);
      var t := s.(buffer := s.buffer + [lines[j]]);
      if g.fence(lines[j]) {
        FlushesBlock(g, t.(inFence := false), lines, lo, j + 1, CODE);
        FlushKeepsFence(g, t);
        Scanned(g, Step(g, s, lines[j]), lines, j + 1);
      } else {
        FenceScanned(g, t, lines, lo, j + 1);
      }
    }
  }

  lemma FlushKeepsFence(g: Grammar, s: Scan)
    ensures Flushed(g, s, CODE).(inFence := false) == Flushed(g, s.(inFence := false), CODE)
  {
    hide TextOf, TextBlock;
  }

  /** A line that does not go on with the run has the buffer flushed before anything else. */
  lemma FlushedFirst(g: Grammar, s: Scan, line: string)
    requires !s.inFence && (s.kind == TEXT || s.kind == TABLE)
    requires !(Plain(g, line) && g.row(line) == (s.kind == TABLE))
    ensures Step(g, s, line) == Step(g, Flushed(g, s, s.kind), line)
  {
    BlankJoin();
    hide TextOf, TextBlock, Blank, Popped, Titles;
  }

  /** A run of table rows, or of other plain lines, is buffered to its end. */
  lemma {:induction false} RunScanned(g: Grammar, s: Scan, lines: seq<string>, lo: nat, j: nat)
    requires FencesHaveText(g) && lo < j <= |lines| && Within(g, s, lines, lo, j) && !s.inFence
    ensures var hi := RunEnd(g, lines, j, s.kind == TABLE);
      Finished(g, s, lines, j) == s.blocks + [BlockAt(g, lines, Span(s.kind, lo, hi))] + BlocksFrom(g, lines, hi)
    decreases |lines| - j, 1
  {
    hide Open, TextOf, Blank, Increasing, Titles, BlockAt, Flushed, FencesHaveText;
    if j < |lines| && Plain(g, lines[j]) && g.row(lines[j]) == (s.kind == TABLE) {
      Appends(lines, lo, j);
      RunScanned(g, Step(g, s, lines[j]), lines, lo, j + 1);
    } else {
      FlushesBlock(g, s, lines, lo, j, s.kind);
      var t := Flushed(g, s, s.kind);
      if j == |lines| {
        EmptyFirst(t.blocks);
      } else {
        FlushedFirst(g, s, lines[j]);
        assert Clean(g, t, lines, j);
        Scanned(g, t, lines, j);
      }
    }
  }

  /** A block's first line is buffered. */
  lemma FirstBuffered(g: Grammar, s: Scan, lines: seq<string>, i: nat, t: Scan)
    requires i < |lines| && t == Step(g, s, lines[i])
    requires FencesHaveText(g) && Clean(g, s, lines, i) && (g.fence(lines[i]) || Plain(g, lines[i]))
    ensures t.blocks == s.blocks && t.inFence == g.fence(lines[i]) && (!t.inFence ==> (t.kind == TABLE <==> g.row(lines[i])))
    ensures Within(g, t, lines, i, i + 1)
  {
    BlankJoin();
    hide Open, TextOf, Increasing, Titles, TextBlock, Blank;
    assert [] + [lines[i]] == lines[i..i + 1] == [lines[i]];
  }

  lemma HeadingPushed(g: Grammar, s: Scan, lines: seq<string>, i: nat)
    requires i < |lines| && Clean(g, s, lines, i) && !g.fence(lines[i]) && g.heading(lines[i]).Some?
    ensures Clean(g, Step(g, s, lines[i]), lines, i + 1)
    ensures Step(g, s, lines[i]).blocks == s.blocks + [BlockAt(g, lines, Span(HEADING, i, i + 1))]
  {
    BlankJoin();
    hide Open, TextOf, Increasing, Titles, TextBlock, Blank, Popped;
    PushOpens(s.stack, Headings(g, lines, i), g.heading(lines[i]).value);
  }

  lemma BlankSkipped(g: Grammar, s: Scan, lines: seq<string>, i: nat)
    requires i < |lines| && Clean(g, s, lines, i) && Idle(g, lines[i])
    ensures Clean(g, Step(g, s, lines[i]), lines, i + 1) && Step(g, s, lines[i]).blocks == s.blocks
  {
    BlankJoin();
    hide Open, TextOf, Increasing, Titles, TextBlock, Blank;
  }

  /** From a clean state the scan finds exactly the blocks of the rest of the file. */
  lemma {:induction false} Scanned(g: Grammar, s: Scan, lines: seq<string>, i: nat)
    requires FencesHaveText(g) && i <= |lines| && Clean(g, s, lines, i)
    ensures Finished(g, s, lines, i) == s.blocks + BlocksFrom(g, lines, i)
    decreases |lines| - i, 0
  {
    EmptyFirst(s.blocks);
    if i == |lines| {
      BlankJoin();
      hide TextOf, Open;
    } else {
      hide Step, BlockAt, Blank, FencesHaveText, Within, Clean;
      var line, t, at := lines[i], Step(g, s, lines[i]), SpanAt(g, lines, i);
      Assoc(s.blocks, [BlockAt(g, lines, at)], BlocksFrom(g, lines, at.hi));
      if Idle(g, line) {
        BlankSkipped(g, s, lines, i);
        Scanned(g, t, lines, i + 1);
      } else if !g.fence(line) && g.heading(line).Some? {
        HeadingPushed(g, s, lines, i);
        Scanned(g, t, lines, i + 1);
      } else {
        FirstBuffered(g, s, lines, i, t);
        if t.inFence { FenceScanned(g, t, lines, i, i + 1); } else { RunIsTextOrTable(g, t, lines, i); RunScanned(g, t, lines, i, i + 1); }
      }
    }
  }

  lemma RunIsTextOrTable(g: Grammar, s: Scan, lines: seq<string>, lo: nat)
    requires lo < |lines| && Within(g, s, lines, lo, lo + 1)
    ensures s.kind == TEXT || s.kind == TABLE
  {
  }

  lemma NoHeadings()
    ensures Open([]) == []
  {
  }

  /** The one pass with its buffer, its flags and its stack finds the blocks of the file: fenced code up to its
      closing fence, table rows and text as maximal runs, headings one by one, each under the headings before it
      that no heading of equal or smaller level follows. */
  lemma MarkdownFindsBlocks(g: Grammar, lines: seq<string>)
    requires FencesHaveText(g)
    ensures MarkdownBlocks(g, lines) == BlocksFrom(g, lines, 0)
  {
    NoHeadings();
    Scanned(g, START, lines, 0);
    EmptyFirst(BlocksFrom(g, lines, 0));
  }

  // ---------------------------------------------------------------- where a block begins and ends

  /** The span is one whole block. Fenced code holds no fence between its first line and its end, which is the
      closing fence or the end of the file. A table is a run of rows, a text a run of plain lines that are not
      rows, and neither could go on. */
  ghost predicate IsBlock(g: Grammar, lines: seq<string>, at: Span)
    requires at.lo < at.hi <= |lines|
  {
    match at.kind
    case CODE => g.fence(lines[at.lo]) && Fenced(g, lines, at.lo + 1, at.hi)
    case HEADING => at.hi == at.lo + 1 && !g.fence(lines[at.lo]) && g.heading(lines[at.lo]).Some?
    case TABLE => Run(g, lines, at.lo, at.hi, true)
    case TEXT => Run(g, lines, at.lo, at.hi, false)
    case _ => false
  }

  /** No fence from line `i` to the closing one, just before `hi`, or to the end of the file. */
  ghost predicate Fenced(g: Grammar, lines: seq<string>, i: nat, hi: nat)
    requires i <= hi <= |lines|
  {
    && (forall k :: i <= k < hi - 1 ==> !g.fence(lines[k]))
    && ((hi > i && g.fence(lines[hi - 1])) || (hi == |lines| && (hi > i ==> !g.fence(lines[hi - 1]))))
  }

  /** A run that could not go on. */
  ghost predicate Run(g: Grammar, lines: seq<string>, lo: nat, hi: nat, row: bool)
    requires lo <= hi <= |lines|
  {
    && (forall k :: lo <= k < hi ==> Plain(g, lines[k]) && g.row(lines[k]) == row)
    && (hi == |lines| || !(Plain(g, lines[hi]) && g.row(lines[hi]) == row))
  }

  lemma {:induction false} RunEndIff(g: Grammar, lines: seq<string>, i: nat, n: nat, row: bool)
    requires i <= n <= |lines|
    ensures RunEnd(g, lines, i, row) == n <==> Run(g, lines, i, n, row)
    decreases n - i
  {
    hide Plain;
    if i < n && Plain(g, lines[i]) && g.row(lines[i]) == row { RunEndIff(g, lines, i + 1, n, row); }
  }

  lemma {:induction false} FenceEndIff(g: Grammar, lines: seq<string>, i: nat, n: nat)
    requires i <= n <= |lines|
    ensures FenceEnd(g, lines, i) == n <==> Fenced(g, lines, i, n)
    decreases n - i
  {
    if i < n && !g.fence(lines[i]) { FenceEndIff(g, lines, i + 1, n); }
  }

  /** A span is a whole block exactly when it is the one the division starts at its first line, so a file has
      only one division into whole blocks. */
  lemma IsBlockIffSpanAt(g: Grammar, lines: seq<string>, at: Span)
    requires at.lo < at.hi <= |lines|
    ensures IsBlock(g, lines, at) <==> !Idle(g, lines[at.lo]) && at == SpanAt(g, lines, at.lo)
  {
    hide RunEnd, FenceEnd, Blank, Run, Fenced;
    var row := g.row(lines[at.lo]);
    FirstOfRun(g, lines, at.lo, at.hi, true);
    FirstOfRun(g, lines, at.lo, at.hi, false);
    RunEndIff(g, lines, at.lo + 1, at.hi, row);
    FenceEndIff(g, lines, at.lo + 1, at.hi);
    if g.fence(lines[at.lo]) {
      assert IsBlock(g, lines, at) <==> at.kind == CODE && Fenced(g, lines, at.lo + 1, at.hi);
    } else if g.heading(lines[at.lo]).Some? {
      assert IsBlock(g, lines, at) <==> at.kind == HEADING && at.hi == at.lo + 1;
    } else if Blank(lines[at.lo]) {
      assert !IsBlock(g, lines, at);
    } else {
      assert IsBlock(g, lines, at) <==> at.kind == (if row then TABLE else TEXT) && Run(g, lines, at.lo + 1, at.hi, row);
    }
  }

  lemma FirstOfRun(g: Grammar, lines: seq<string>, lo: nat, hi: nat, row: bool)
    requires lo < hi <= |lines|
    ensures Run(g, lines, lo, hi, row) <==> Plain(g, lines[lo]) && g.row(lines[lo]) == row && Run(g, lines, lo + 1, hi, row)
  {
    hide Plain;
  }

  /** Every block of a file comes from one whole span of its lines. */
  lemma {:induction false} BlockHasSpan(g: Grammar, lines: seq<string>, i: nat, b: Block) returns (at: Span)
    requires i <= |lines| && b in BlocksFrom(g, lines, i)
    ensures i <= at.lo < at.hi <= |lines| && IsBlock(g, lines, at) && b == BlockAt(g, lines, at)
    decreases |lines| - i
  {
    hide IsBlock, BlockAt, Idle;
    at := SpanAt(g, lines, i);
    if Idle(g, lines[i]) {
      at := BlockHasSpan(g, lines, i + 1, b);
    } else if b == BlockAt(g, lines, at) {
      IsBlockIffSpanAt(g, lines, at);
    } else {
      at := BlockHasSpan(g, lines, at.hi, b);
    }
  }

  // ---------------------------------------------------------------- words

  /** The words of the lines from `i` on that are not headings. */
  function BodyWords(g: Grammar, lines: seq<string>, i: nat): seq<string>
    requires i <= |lines|
    decreases |lines| - i
  {
    if i == |lines| then []
    else (if IsHeading(g, lines, i) then [] else Words(lines[i])) + BodyWords(g, lines, i + 1)
  }

  /** The words of the blocks that are not headings. */
  function TextWords(blocks: seq<Block>): seq<string> {
    if blocks == [] then []
    else (if blocks[0].kind == HEADING then [] else Words(blocks[0].text)) + TextWords(blocks[1..])
  }

  lemma {:induction false} NoHeadingWords(g: Grammar, lines: seq<string>, i: nat, j: nat)
    requires i <= j <= |lines| && forall k :: i <= k < j ==> !IsHeading(g, lines, k)
    ensures BodyWords(g, lines, i) == WordsAll(lines[i..j]) + BodyWords(g, lines, j)
    decreases j - i
  {
    hide Words, IsHeading;
    if i < j {
      NoHeadingWords(g, lines, i + 1, j);
      assert lines[i..j][1..] == lines[i + 1..j];
      Assoc(Words(lines[i]), WordsAll(lines[i + 1..j]), BodyWords(g, lines, j));
    } else {
      EmptyFirst(BodyWords(g, lines, j));
    }
  }

  lemma {:induction false} QuietRun(g: Grammar, lines: seq<string>, i: nat, j: nat)
    requires i <= j <= |lines| && !InFence(g, lines, i) && forall k :: i <= k < j ==> Plain(g, lines[k])
    ensures !InFence(g, lines, j) && forall k :: i <= k < j ==> !IsHeading(g, lines, k)
    decreases j - i
  {
    if i < j { QuietRun(g, lines, i + 1, j); }
  }

  lemma {:induction false} QuietFence(g: Grammar, lines: seq<string>, i: nat)
    requires i <= |lines| && InFence(g, lines, i)
    ensures var n := FenceEnd(g, lines, i); (forall k :: i <= k < n ==> !IsHeading(g, lines, k)) && (n < |lines| ==> !InFence(g, lines, n))
    decreases |lines| - i
  {
    if i < |lines| && !g.fence(lines[i]) { QuietFence(g, lines, i + 1); }
  }

  lemma TextOfKeepsWords(buffer: seq<string>)
    ensures Words(TextOf(buffer)) == WordsAll(buffer)
  {
    WordsStrip(Join(buffer, "\n"));
    WordsJoin(buffer, "\n");
  }

  /** No line of a block but a heading is a heading, and the scan is outside a fence after it. */
  lemma SpanIsQuiet(g: Grammar, lines: seq<string>, i: nat)
    requires i < |lines| && !InFence(g, lines, i) && !Idle(g, lines[i])
    ensures var at := SpanAt(g, lines, i);
      && (at.hi < |lines| ==> !InFence(g, lines, at.hi))
      && if at.kind == HEADING then IsHeading(g, lines, i) else forall k :: i <= k < at.hi ==> !IsHeading(g, lines, k)
  {
    var at := SpanAt(g, lines, i);
    IsBlockIffSpanAt(g, lines, at);
    if at.kind == CODE { QuietFence(g, lines, i + 1); } else if at.kind != HEADING { QuietRun(g, lines, i, at.hi); }
    hide Blank, FenceEnd, RunEnd;
  }

  /** The words of a block are those of its lines that are not headings. */
  lemma SpanWords(g: Grammar, lines: seq<string>, i: nat)
    requires i < |lines| && !InFence(g, lines, i) && !Idle(g, lines[i])
    ensures var at := SpanAt(g, lines, i); var b := BlockAt(g, lines, at);
      BodyWords(g, lines, i) == (if b.kind == HEADING then [] else Words(b.text)) + BodyWords(g, lines, at.hi)
  {
    var at := SpanAt(g, lines, i);
    SpanIsQuiet(g, lines, i);
    TextOfKeepsWords(lines[i..at.hi]);
    hide Words, TextOf, Open, Titles, FenceEnd, RunEnd, WordsAll, Headings, InFence, Idle;
    if at.kind == HEADING { EmptyFirst(BodyWords(g, lines, i + 1)); } else { NoHeadingWords(g, lines, i, at.hi); }
  }

  lemma {:induction false} BlocksKeepWords(g: Grammar, lines: seq<string>, i: nat)
    requires i <= |lines| && (i < |lines| ==> !InFence(g, lines, i))
    ensures TextWords(BlocksFrom(g, lines, i)) == BodyWords(g, lines, i)
    decreases |lines| - i
  {
    if i < |lines| {
      var at := SpanAt(g, lines, i);
      if Idle(g, lines[i]) {
        WordsStrip(lines[i]);
        BlocksKeepWords(g, lines, i + 1);
        EmptyFirst(BodyWords(g, lines, i + 1));
      } else {
        SpanWords(g, lines, i);
        SpanIsQuiet(g, lines, i);
        hide SpanAt, BlockAt, Words, BodyWords, InFence;
        BlocksKeepWords(g, lines, at.hi);
        assert ([BlockAt(g, lines, at)] + BlocksFrom(g, lines, at.hi))[1..] == BlocksFrom(g, lines, at.hi);
      }
    }
  }

  /** The words of the lines that are not headings reach the blocks that are not headings, once and in order. */
  lemma BodyIsKept(g: Grammar, lines: seq<string>)
    requires FencesHaveText(g)
    ensures TextWords(MarkdownBlocks(g, lines)) == BodyWords(g, lines, 0)
  {
    MarkdownFindsBlocks(g, lines);
    BlocksKeepWords(g, lines, 0);
  }
}

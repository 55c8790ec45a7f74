/** A numbered procedure that fits the ceiling and is torn by the overlap carried in front of it, for every overlap and
    every ceiling a procedure can meet: "never split mid-sequence" is false of the code. */
module TornProcedure {
  import opened Text
  import opened Tokens
  import opened Blocks
  import opened Packing
  import opened Procedures
  import opened Markers
  import opened Splitting
  import opened SentenceCuts
  import opened Chunking
  import opened Ceiling
  import opened Conservation
  import opened Wholeness
  import opened Crowding

  // ---------------------------------------------------------------- the document

  const PROSE := "X"
  const STEP1 := "1. A"

  /** The second step has one word, so long that the procedure just fits a ceiling of `maxTokens`. */
  function Step2(tail: string): string {
    "2. " + tail
  }

  function Procedure(tail: string): string {
    STEP1 + "\n" + Step2(tail)
  }

  /** A word of B's that brings the procedure to as many characters as `maxTokens` tokens allow. */
  ghost predicate Fills(tail: string, maxTokens: int) {
    && (forall i :: 0 <= i < |tail| ==> tail[i] == 'B')
    && 8 + |tail| == (3.5 * maxTokens as real).Floor
  }

  function Document(tail: string): seq<Block> {
    [Block(BlockKind.TEXT, PROSE), Block(BlockKind.LIST, STEP1), Block(BlockKind.LIST, Step2(tail))]
  }

  // ---------------------------------------------------------------- its sentences

  /** One cut: nothing before `i`, then a match that ends at `e`. */
  lemma PiecesCut(s: string, start: nat, i: nat, e: nat)
    requires start <= i < e <= |s| && CutEnd(s, i) == e
    requires forall k :: start <= k < i ==> CutEnd(s, k) == k
    ensures PiecesFrom(s, start, start) == [s[start..i]] + PiecesFrom(s, e, e)
  {
    PiecesSkip(s, start, start, i);
  }

  lemma PiecesEnd(s: string, start: nat)
    requires start <= |s| && forall k :: start <= k < |s| ==> CutEnd(s, k) == k
    ensures PiecesFrom(s, start, start) == [s[start..]]
  {
    PiecesSkip(s, start, start, |s|);
  }

  /** Where the procedure is cut: after each step's number. */
  lemma TornCuts(head: string, tail: string)
    requires head == "1. A\n2. " && tail != "" && forall i :: 0 <= i < |tail| ==> tail[i] == 'B'
    ensures |head| == 8
    ensures forall k :: 0 <= k < |head + tail| ==> CutEnd(head + tail, k) == if k == 2 then 3 else if k == 7 then 8 else k
  {
    var content := head + tail;
    assert content[0] == '1' && content[1] == '.' && content[2] == ' ' && content[3] == 'A' && content[4] == '\n'
           && content[5] == '2' && content[6] == '.' && content[7] == ' ' && content[8] == 'B';
    forall k | k in {0, 1, 3, 5, 6} || 8 <= k < |content| ensures CutEnd(content, k) == k {
      if k >= 8 { assert content[k] == tail[k - 8]; }
      NoCut(content, k);
    }
    assert SpaceEnd(content, 3) == 3 && SpaceEnd(content, 8) == 8;
    assert CutEnd(content, 2) == 3 && CutEnd(content, 4) == 4 && CutEnd(content, 7) == 8;
  }

  lemma TornSentences(head: string, tail: string)
    requires head == "1. A\n2. " && tail != "" && forall i :: 0 <= i < |tail| ==> tail[i] == 'B'
    ensures Sentences(head + tail) == ["1.", "A\n2.", tail]
  {
    TornPieces(head, tail, head + tail);
    TrimmedThree("1.", "A\n2.", tail);
    hide Trimmed, PiecesFrom, Edged;
  }

  lemma TornPieces(head: string, tail: string, content: string)
    requires head == "1. A\n2. " && tail != "" && (forall i :: 0 <= i < |tail| ==> tail[i] == 'B') && content == head + tail
    ensures PiecesFrom(content, 0, 0) == ["1."] + (["A\n2."] + [tail])
  {
    TornCuts(head, tail);
    hide *;
    TornSlices(head, tail, content);
    PiecesCut(content, 0, 2, 3);
    PiecesCut(content, 3, 7, 8);
    PiecesEnd(content, 8);
  }

  lemma TornSlices(head: string, tail: string, content: string)
    requires head == "1. A\n2. " && content == head + tail
    ensures |head| == 8 && content[0..2] == "1." && content[3..7] == "A\n2." && content[8..] == tail
  {
    assert content[..8] == head;
    assert head[0..2] == "1." && head[3..7] == "A\n2.";
  }

  lemma TrimmedThree(a: string, b: string, c: string)
    requires Edged(a) && Edged(b) && Edged(c)
    ensures Trimmed([a] + ([b] + [c])) == [a, b, c]
  {
    NothingTrimmed();
    hide *;
    TrimmedCons(a, [b] + [c]);
    TrimmedCons(b, [c]);
    TrimmedCons(c, []);
    EmptyFirst([c]);
  }

  // ---------------------------------------------------------------- its sizes

  /** The five words of the last chunk, glued as they are. */
  lemma TornSizes(x: string, a: string, b: string, c: string, tail: string, maxTokens: int)
    requires Solid(x) && Solid(a) && Solid(b) && Solid(c) && Solid(tail)
    requires |a| == |c| == 2 && |b| == |x| == 1 && maxTokens >= 6 && 8 + |tail| == (3.5 * maxTokens as real).Floor
    ensures var procedure := a + " " + (b + "\n" + (c + " " + tail));
      && EstimateTokens(procedure) == maxTokens && EstimateTokens(x + "\n\n" + procedure) > maxTokens
    ensures EstimateTokens(x) == EstimateTokens(a) == 2 && EstimateTokens(b + "\n" + c) == 3
    ensures maxTokens - 2 <= EstimateTokens(tail) <= maxTokens
  {
    var last := c + " " + tail;
    var rest := b + "\n" + last;
    var procedure := a + " " + rest;
    var content := x + "\n\n" + procedure;
    WordOfSolid(x); WordOfSolid(a); WordOfSolid(b); WordOfSolid(c); WordOfSolid(tail);
    WordsBetween(b, "\n", c);
    WordsBetween(c, " ", tail);
    WordsBetween(b, "\n", last);
    WordsBetween(a, " ", rest);
    WordsBetween(x, "\n\n", procedure);
    hide Words, EstimateTokens, Solid;
    EstimateBy(x, 1, 1);
    EstimateBy(a, 2, 1);
    EstimateBy(b + "\n" + c, 4, 2);
    EstimateBy(tail, |tail|, 1);
    EstimateBy(procedure, 8 + |tail|, 4);
    EstimateBy(content, 11 + |tail|, 5);
  }

  lemma CostOfThree(u: string, v: string, w: string, count: Counter)
    ensures Cost([u], " ", count) == count(u) + count(" ")
    ensures Cost([u, v], " ", count) == count(u) + count(v) + 2 * count(" ")
    ensures Cost([u, v, w], " ", count) == count(u) + count(v) + count(w) + 3 * count(" ")
  {
    assert [u, v, w][..2] == [u, v] && [u, v][..1] == [u] && [u][..0] == [];
  }

  lemma LoneUnit(u: string, limit: int, count: Counter)
    ensures Packed([u], limit, " ", count) == [u] && Join([u], " ") == u
  {
    EmptyFirst([u]);
    PackedStep([u], [], limit, " ", count);
    assert Packed([], limit, " ", count) == [] && Join([u], " ") == u;
    hide Packed, Join;
  }

  /** The backstop's groups: the long word is always alone in the last one. */
  lemma TornPacking(u: string, v: string, w: string, tail: string, maxTokens: int, count: Counter)
    requires maxTokens >= 6 && count(u) == count(v) == 2 && count(w) == 3 && count(" ") == 1 && maxTokens - 2 <= count(tail)
    ensures Packed([u, v, w, tail], maxTokens, " ", count) ==
      if maxTokens >= 10 then [Join([u, v, w], " "), tail] else [Join([u, v], " "), w, tail]
  {
    CostOfThree(u, v, w, count);
    CostOfThree(w, tail, u, count);
    LoneUnit(tail, maxTokens, count);
    LoneUnit(w, maxTokens, count);
    hide Packed, Join, Cost;
    if maxTokens >= 10 {
      assert [u, v, w] + [tail] == [u, v, w, tail];
      PackedStep([u, v, w], [tail], maxTokens, " ", count);
    } else {
      assert [u, v] + [w, tail] == [u, v, w, tail] && [w] + [tail] == [w, tail];
      PackedStep([u, v], [w, tail], maxTokens, " ", count);
      PackedStep([w], [tail], maxTokens, " ", count);
    }
  }

  /** Every part is shorter than the procedure. */
  lemma TornParts(content: string, u: string, v: string, w: string, tail: string, maxTokens: int, count: Counter)
    requires Sentences(content) == [u, v, w, tail] && |u| == 1 && |v| == 2 && |w| == 4 && |tail| >= 13
    requires maxTokens >= 6 && count(u) == count(v) == 2 && count(w) == 3 && count(" ") == 1 && maxTokens - 2 <= count(tail) <= maxTokens
    ensures forall p :: p in SentenceParts(content, maxTokens, count) ==> |p| < 8 + |tail|
  {
    hide Sentences;
    var units := [u, v, w, tail];
    forall t | t in units ensures count(t) <= maxTokens {
      assert t == u || t == v || t == w || t == tail;
    }
    RefineNothing(units, maxTokens, count, WordBreak(maxTokens, count));
    TornPacking(u, v, w, tail, maxTokens, count);
    JoinTwo(u, v, " ");
    assert [u, v] + [w] == [u, v, w];
    JoinAppend([u, v], w, " ");
    hide Join, Packed, Refine;
  }

  lemma JoinTwo(a: string, b: string, sep: string)
    ensures Join([a, b], sep) == a + sep + b
  {
    assert [a] + [b] == [a, b];
    JoinAppend([a], b, sep);
  }

  // ---------------------------------------------------------------- its steps

  /** A passed-through block, then two steps that form one procedure. */
  lemma TornGrouping(x: Block, p: Block, q: Block, marker: Marker)
    requires Continuable(x) && Continuable(p) && Continuable(q)
    requires marker(x.text).None? && marker(p.text) == Some(1) && marker(q.text) == Some(2)
    ensures Runs([x, p, q], 0, marker) == [[x], [p, q]] && Grouped([x, p, q], marker) == [x, Merged([p, q])]
  {
    var blocks := [x, p, q];
    assert blocks[1..3] == [p, q] && [p, q][1..] == [q] && [q][1..] == [];
    assert Numbers([q], marker) == [2];
    assert Numbers([p, q], marker) == [1, 2];
    assert RunEnd(blocks, 3, 2, marker) == 3;
    assert RunEnd(blocks, 2, 1, marker) == 3;
    assert Taken(blocks, 1, marker) == 2;
    assert Taken(blocks, 0, marker) == 1;
    MergeRunsStep(blocks, 0, marker);
    MergeRunsStep(blocks, 1, marker);
    hide Taken, Merged;
    assert blocks[0..1] == [x];
    assert Runs(blocks, 3, marker) == [];
    assert Runs(blocks, 1, marker) == [[p, q]];
  }

  lemma TornKept(x: Block, p: Block, q: Block)
    requires Strip(x.text) != "" && Strip(p.text) != "" && Strip(q.text) != ""
    ensures Kept([x, p, q]) == [x, p, q]
  {
    hide Strip;
    assert [x, p, q][..2] == [x, p] && [x, p][..1] == [x] && [x][..0] == [];
    assert Kept([x]) == [x];
    assert Kept([x, p]) == [x, p];
  }

  /** A one-line text with nothing to strip. */
  lemma OneLine(text: string)
    requires Edged(text) && BreakFree(text)
    ensures LStrip(text) == text && Lines(LStrip(text)) == [text] && Strip(text) != ""
  {
    LinesOfLine(text);
    StripOf(text);
    hide IsSpace, Lines, Strip;
  }

  lemma DotCloses(rest: string, end: string)
    requires rest == ". " + end && end != "" && !IsSpace(end[0])
    ensures Closed(rest, ".)]")
  {
    var gap := " ";
    assert rest[1..] == gap + end && rest[1] == ' ';
    LStripAfterSpace(gap, end);
    LStripAfterSpace("", rest);
    assert "" + rest == rest;
    hide LStrip;
  }

  lemma OneDigit(text: string, digit: char, rest: string)
    requires IsDigit(digit) && text == [digit] + rest && rest != "" && !IsDigit(rest[0])
    ensures DigitRun(text) == 1 && text[1..] == rest && Number(text) == Some(digit as int - '0' as int)
  {
    var one := [digit];
    assert text[1..] == rest && text[..1] == one && text[0] == digit;
    assert one[..0] == "" && Value("") == 0;
  }

  /** "1. A" and "2. B" open steps; "X" does not. */
  lemma StepAt(text: string, digit: char, rest: string, end: string)
    requires IsDigit(digit) && text == [digit] + rest && rest == ". " + end && end != "" && !IsSpace(end[0])
    requires Edged(text) && BreakFree(text)
    ensures StepNumber(text) == Some(digit as int - '0' as int)
  {
    hide Closed, Number, DigitRun, Lines, LStrip, Strip, IsSpace, IsLineBreak, Named, Parenthesised, IsDigit;
    OneLine(text);
    NotADigit();
    OneDigit(text, digit, rest);
    DotCloses(rest, end);
  }

  lemma NotADigit()
    ensures !IsDigit('.')
  {
  }

  /** One word is not a marker with something after it. */
  lemma NoStepAt(text: string)
    requires Solid(text)
    ensures StepNumber(text).None?
  {
    hide *;
    WordOfSolid(text);
    if StepNumber(text).Some? { StepHasTwoWords(text); }
  }

  lemma TornSteps(x: string, p: string, q: string, tail: string)
    requires x == PROSE && p == STEP1 && q == Step2(tail) && tail != "" && forall i :: 0 <= i < |tail| ==> tail[i] == 'B'
    ensures StepNumber(x).None? && StepNumber(p) == Some(1) && StepNumber(q) == Some(2)
    ensures Edged(x) && Edged(p) && Edged(q)
  {
    hide StepNumber;
    var end := "A";
    assert p == ['1'] + (". " + end) && q == ['2'] + (". " + tail);
    assert Edged(q) && BreakFree(q) by {
      forall i | 0 <= i < |q| ensures !IsLineBreak(q[i]) { if i >= 3 { assert q[i] == tail[i - 3]; } }
      assert q[|q| - 1] == tail[|tail| - 1];
    }
    StepAt(p, '1', ". " + end, end);
    StepAt(q, '2', ". " + tail, tail);
    NoStepAt(x);
  }

  // ---------------------------------------------------------------- the run

  /** The prose block is one part, whether or not it is over the target. */
  lemma ProseIsOnePart(x: Block, s: Setup)
    requires x.kind.TEXT? && !x.atomic && Sentences(x.text) == [x.text] == Words(x.text)
    ensures Processed(EMPTY, x, s) == Added(EMPTY, x, x.text, s)
  {
    hide Sentences, Words, Added;
    OneUnit(x.text, s.config.targetTokens, s.count);
    assert SentenceParts(x.text, s.config.targetTokens, s.count) == [x.text];
    assert [x.text][..0] == [];
    assert AddedAll(EMPTY, x, [], s) == EMPTY;
    assert AddedAll(EMPTY, x, [x.text], s) == Added(EMPTY, x, x.text, s);
  }

  lemma OneUnit(x: string, limit: int, count: Counter)
    requires Words(x) == [x]
    ensures Packed([x], limit, " ", count) == [x] && Refine([x], limit, count, WordBreak(limit, count)) == [x]
  {
    EmptyFirst([x]);
    PackedStep([x], [], limit, " ", count);
    assert Packed([], limit, " ", count) == [] && Join([x], " ") == x;
    hide Words, Packed, Join;
    assert [x][..0] == [] && [x][1..] == [];
  }

  /** The prose block is flushed before the procedure, which is buffered behind the overlap. */
  lemma TornRun(x: Block, p: Block, s: Setup)
    requires s.config.OverlapTokens() > 0
    requires x.kind.TEXT? && !x.atomic && Sentences(x.text) == [x.text] == Words(x.text) && Strip(x.text) == x.text != ""
    requires RouteOf(p, s).Whole? && Strip(p.text) != "" && s.count(x.text) <= s.config.maxTokens
    requires s.count(x.text) + s.count(p.text) > s.config.targetTokens
    ensures var a := ProcessedAll([x, p], s);
            a.buffer == [x.text, p.text] && |a.drafts| == 1 && a.drafts[0].content == x.text
  {
    hide *;
    TwoProcessed(x, p, s);
    ProseIsOnePart(x, s);
    ProseBuffered(x, s);
    ProcedureBuffered(Added(EMPTY, x, x.text, s), p, x.text, s);
  }

  lemma TwoProcessed(x: Block, p: Block, s: Setup)
    ensures ProcessedAll([x, p], s) == Processed(Processed(EMPTY, x, s), p, s)
  {
    hide Processed;
    assert [x, p][..1] == [x] && [x][..0] == [];
    assert ProcessedAll([x], s) == Processed(EMPTY, x, s);
  }

  lemma ProseBuffered(x: Block, s: Setup)
    requires Strip(x.text) != ""
    ensures var a := Added(EMPTY, x, x.text, s); a.buffer == [x.text] && a.tokens == s.count(x.text) && a.drafts == []
  {
    hide Strip;
    EmptyFirst([x.text]);
  }

  lemma BufferedBehind(a: Assembly, f: Assembly, p: Block, x: string, s: Setup)
    requires f == Flushed(a, true, s) && f.buffer == [] && f.pendingOverlap == x != ""
    requires a.buffer != [] && a.tokens + s.count(p.text) > s.config.targetTokens && RouteOf(p, s).Whole? && Strip(p.text) != ""
    ensures var b := Processed(a, p, s); b.buffer == [x] + [p.text] && b.drafts == f.drafts
  {
    hide Strip, Flushed, RouteOf;
  }

  lemma ProcedureBuffered(a: Assembly, p: Block, x: string, s: Setup)
    requires a.buffer == [x] && a.drafts == [] && a.tokens == s.count(x) && Strip(x) == x != "" && Sentences(x) == [x]
    requires s.config.OverlapTokens() > 0 && RouteOf(p, s).Whole? && Strip(p.text) != "" && s.count(x) <= s.config.maxTokens
    requires s.count(x) + s.count(p.text) > s.config.targetTokens
    ensures var b := Processed(a, p, s); b.buffer == [x, p.text] && |b.drafts| == 1 && b.drafts[0].content == x
  {
    hide *;
    TornFlush(a, x, s);
    BufferedBehind(a, Flushed(a, true, s), p, x, s);
    assert [x] + [p.text] == [x, p.text];
  }

  lemma TornFlush(a: Assembly, x: string, s: Setup)
    requires a.buffer == [x] && a.drafts == [] && Strip(x) == x != "" && Sentences(x) == [x]
    requires s.config.OverlapTokens() > 0 && s.count(x) <= s.config.maxTokens
    ensures var b := Flushed(a, true, s);
            b.buffer == [] && b.tokens == 0 && b.pendingOverlap == x && |b.drafts| == 1 && b.drafts[0].content == x
  {
    var overlap := s.config.OverlapTokens();
    assert TailStart([x], 1, 0, overlap, s.count) == 0;
    EmptyFirst([x]);
    hide Strip, Sentences, TailStart;
    assert Join([x], " ") == x && Content([x]) == x;
  }

  lemma TornEnd(a: Assembly, x: string, p: string, content: string, parts: seq<string>, s: Setup)
    requires a.buffer == [x, p] && content == x + "\n\n" + p && Strip(content) == content != ""
    requires s.count(content) > s.config.maxTokens && SentenceParts(content, s.config.maxTokens, s.count) == parts
    ensures Contents(Flushed(a, true, s).drafts) == Contents(a.drafts) + parts
  {
    hide Strip, SentenceParts, Join, Drafted, Contents;
    JoinTwo(x, p, "\n\n");
    ContentsOfMore(a.drafts, parts, a.sectionPath, a.page, a.slide, s.count);
  }

  /** The prose is one chunk; the text after it is cut, with the prose carried in front. */
  lemma TornDrafts(x: Block, m: Block, content: string, s: Setup)
    requires s.config.OverlapTokens() > 0 && x.kind.TEXT? && !x.atomic && RouteOf(m, s).Whole?
    requires Sentences(x.text) == [x.text] == Words(x.text) && Strip(x.text) == x.text != "" && Strip(m.text) == m.text != ""
    requires content == x.text + "\n\n" + m.text && Strip(content) == content
    requires s.count(x.text) <= s.config.maxTokens < s.count(content) && s.count(x.text) + s.count(m.text) > s.config.targetTokens
    ensures Contents(Flushed(ProcessedAll([x, m], s), true, s).drafts) == [x.text] + SentenceParts(content, s.config.maxTokens, s.count)
  {
    hide Sentences, Words, Strip, SentenceParts, ProcessedAll, Flushed, RouteOf, Drafted;
    TornRun(x, m, s);
    var a := ProcessedAll([x, m], s);
    assert Contents(a.drafts) == [x.text];
    TornEnd(a, x.text, m.text, content, SentenceParts(content, s.config.maxTokens, s.count), s);
  }

  /** A text is in no chunk when every chunk is shorter. */
  lemma TooShort(drafts: seq<ChunkDraft>, text: string)
    requires (forall p :: p in Contents(drafts) ==> |p| < |text|) && Strip(text) == text
    ensures !InOneDraft(drafts, text)
  {
    hide Strip;
    forall i | 0 <= i < |drafts| ensures !Contains(drafts[i].content, text) {
      assert Contents(drafts)[i] in Contents(drafts);
    }
  }

  /** What the last chunk's content is made of and measures. */
  ghost predicate Overflows(tail: string, maxTokens: int, count: Counter) {
    var m, content := Procedure(tail), PROSE + "\n\n" + Procedure(tail);
    && |tail| >= 13 && |m| == 8 + |tail| && Strip(m) == m && Strip(content) == content
    && count(m) == maxTokens < count(content) && count(PROSE) == 2 && count("\n\n") == 1
    && Words(PROSE) == [PROSE] && Sentences(PROSE) == [PROSE] && Strip(PROSE) == PROSE
    && forall p :: p in SentenceParts(content, maxTokens, count) ==> |p| < 8 + |tail|
  }

  lemma TornTexts(tail: string, maxTokens: int)
    requires maxTokens >= 6 && Fills(tail, maxTokens)
    ensures Overflows(tail, maxTokens, EstimateTokens)
  {
    hide EstimateTokens, Words, Edged, Solid, Procedure, Sentences, SentenceParts, Strip;
    var x, a, b, c, head := "X", "1.", "A", "2.", "1. A\n2. ";
    assert |tail| >= 13;
    TornStrings(x, a, b, c, head, tail);
    WordOfSolid(x);
    OneSentence(x);
    TornSizes(x, a, b, c, tail, maxTokens);
    TornSentences(head, tail);
    EstimateOfSpace(" ");
    EstimateOfSpace("\n\n");
    SentencesJoin(x, head + tail);
    Assoc(x, "\n\n", head + tail);
    TornParts(x + "\n\n" + (head + tail), x, a, b + "\n" + c, tail, maxTokens, EstimateTokens);
    StripOf(x);
    StripOf(Procedure(tail));
    StripOf(x + "\n\n" + Procedure(tail));
  }

  lemma TornStrings(x: string, a: string, b: string, c: string, head: string, tail: string)
    requires x == "X" && a == "1." && b == "A" && c == "2." && head == "1. A\n2. "
    requires tail != "" && forall i :: 0 <= i < |tail| ==> tail[i] == 'B'
    ensures Solid(x) && Solid(a) && Solid(b) && Solid(c) && Solid(tail)
    ensures Procedure(tail) == a + " " + (b + "\n" + (c + " " + tail)) && |Procedure(tail)| == 8 + |tail|
    ensures x == PROSE && Procedure(tail) == head + tail
    ensures Edged(x) && Edged(Procedure(tail)) && Edged(x + "\n\n" + Procedure(tail)) && b + "\n" + c == "A\n2." && |b + "\n" + c| == 4
  {
    assert tail[|tail| - 1] == 'B';
  }

  /** Entry `i` of the grouped document is a procedure of several blocks, and within the ceiling. */
  predicate IsFitting(blocks: seq<Block>, i: int, s: Setup) {
    && 0 <= i < |Grouped(Kept(blocks), s.marker)| == |Runs(Kept(blocks), 0, s.marker)|
    && |Runs(Kept(blocks), 0, s.marker)[i]| > 1
    && s.count(Grouped(Kept(blocks), s.marker)[i].text) <= s.config.maxTokens
  }

  /** Entry `i` is such a procedure, and it is in no chunk. */
  ghost predicate Torn(blocks: seq<Block>, i: int, s: Setup) {
    && !HasSlides(Kept(blocks)) && IsFitting(blocks, i, s)
    && !InOneDraft(Chunks(blocks, s), Grouped(Kept(blocks), s.marker)[i].text)
  }

  lemma TornFrom(x: Block, p: Block, q: Block, s: Setup)
    requires Kept([x, p, q]) == [x, p, q] && !HasSlides([x, p, q])
    requires Runs([x, p, q], 0, s.marker) == [[x], [p, q]] && Grouped([x, p, q], s.marker) == [x, Merged([p, q])]
    requires s.count(Merged([p, q]).text) <= s.config.maxTokens
    requires !InOneDraft(Flushed(ProcessedAll([x, Merged([p, q])], s), true, s).drafts, Merged([p, q]).text)
    ensures Torn([x, p, q], 1, s)
  {
    hide Kept, Runs, Grouped, Merged, ProcessedAll, Flushed, InOneDraft, HasSlides;
  }

  /** With any overlap, and any ceiling a procedure can meet that the target does not exceed, the document's procedure
      fits the ceiling and is in no chunk. */
  lemma ProcedureIsTorn(tail: string, s: Setup)
    requires s.count == EstimateTokens && s.marker == StepNumber && s.config.targetTokens < s.config.maxTokens + 2
    requires s.config.OverlapTokens() > 0 && s.config.maxTokens >= 6 && Fills(tail, s.config.maxTokens)
    ensures Torn(Document(tail), 1, s)
  {
    hide EstimateTokens, StepNumber, Words, Sentences, SentenceParts, Strip, Edged, Overflows, Procedure, Fills, Torn, Step2, Continuable, Merged;
    var x, p, q := Document(tail)[0], Document(tail)[1], Document(tail)[2];
    TornTexts(tail, s.config.maxTokens);
    TailIsText(tail, s.config.maxTokens);
    TornSteps(x.text, p.text, q.text, tail);
    TornBlocks(x, p, q, tail, s);
    assert Document(tail) == [x, p, q];
  }

  /** The block is plain: continuable, unnumbered by its place, and on no slide. */
  lemma TornBlocks(x: Block, p: Block, q: Block, tail: string, s: Setup)
    requires x == Block(BlockKind.TEXT, PROSE) && p == Block(BlockKind.LIST, STEP1) && q == Block(BlockKind.LIST, Step2(tail))
    requires s.marker(x.text).None? && s.marker(p.text) == Some(1) && s.marker(q.text) == Some(2)
    requires Edged(x.text) && Edged(p.text) && Edged(q.text) && s.config.targetTokens < s.config.maxTokens + 2 && s.config.OverlapTokens() > 0
    requires s.config.maxTokens >= 6 && Overflows(tail, s.config.maxTokens, s.count)
    ensures Torn([x, p, q], 1, s)
  {
    hide Words, Sentences, SentenceParts, Strip, Edged, Kept, Runs, Grouped, Procedure, Torn, InOneDraft, HasSlides, ProcessedAll, Flushed, Step2;
    MergedText(p, q, tail);
    TornDocument(x, p, q, s.marker);
    TornChunks(x, Merged([p, q]), PROSE + "\n\n" + Procedure(tail), s);
    TornFrom(x, p, q, s);
  }

  lemma TailIsText(tail: string, maxTokens: int)
    requires maxTokens >= 6 && Fills(tail, maxTokens)
    ensures tail != "" && forall i :: 0 <= i < |tail| ==> tail[i] == 'B'
  {
  }

  lemma MergedText(p: Block, q: Block, tail: string)
    requires p.text == STEP1 && q.text == Step2(tail)
    ensures Merged([p, q]).text == Procedure(tail)
  {
    assert Texts([p, q]) == [p.text, q.text];
    JoinTwo(p.text, q.text, "\n");
  }

  /** Prose, then two numbered blocks: two runs, kept as they are. */
  lemma TornDocument(x: Block, p: Block, q: Block, marker: Marker)
    requires Edged(x.text) && Edged(p.text) && Edged(q.text) && Continuable(x) && Continuable(p) && Continuable(q)
    requires marker(x.text).None? && marker(p.text) == Some(1) && marker(q.text) == Some(2)
    requires x.slideIndex.None? && p.slideIndex.None? && q.slideIndex.None?
    ensures Kept([x, p, q]) == [x, p, q] && !HasSlides([x, p, q])
    ensures Runs([x, p, q], 0, marker) == [[x], [p, q]] && Grouped([x, p, q], marker) == [x, Merged([p, q])]
  {
    hide *;
    EdgedHasText(x.text);
    EdgedHasText(p.text);
    EdgedHasText(q.text);
    NoSlides(x, p, q);
    TornKept(x, p, q);
    TornGrouping(x, p, q, marker);
  }

  lemma NoSlides(x: Block, p: Block, q: Block)
    requires x.slideIndex.None? && p.slideIndex.None? && q.slideIndex.None?
    ensures !HasSlides([x, p, q])
  {
  }

  lemma EdgedHasText(t: string)
    requires Edged(t)
    ensures Strip(t) != ""
  {
    StripOf(t);
    hide Strip;
  }

  lemma TornChunks(x: Block, m: Block, content: string, s: Setup)
    requires s.config.OverlapTokens() > 0 && x.kind.TEXT? && !x.atomic && m.kind.LIST? && m.atomic
    requires Sentences(x.text) == [x.text] == Words(x.text) && Strip(x.text) == x.text != "" && Strip(m.text) == m.text != ""
    requires content == x.text + "\n\n" + m.text && Strip(content) == content
    requires s.count(x.text) <= s.config.maxTokens && s.count(m.text) <= s.config.maxTokens < s.count(content)
    requires s.count(x.text) + s.count(m.text) > s.config.targetTokens && |x.text| < |m.text|
    requires forall p :: p in SentenceParts(content, s.config.maxTokens, s.count) ==> |p| < |m.text|
    ensures !InOneDraft(Flushed(ProcessedAll([x, m], s), true, s).drafts, m.text)
  {
    hide *;
    AtomicIsWhole(m, s);
    TornDrafts(x, m, content, s);
    TooShort(Flushed(ProcessedAll([x, m], s), true, s).drafts, m.text);
  }

  lemma AtomicIsWhole(m: Block, s: Setup)
    requires m.kind.LIST? && m.atomic && s.count(m.text) <= s.config.maxTokens
    ensures RouteOf(m, s).Whole?
  {
  }

  lemma Filling(maxTokens: int) returns (tail: string)
    requires maxTokens >= 6
    ensures Fills(tail, maxTokens)
  {
    var n := (3.5 * maxTokens as real).Floor - 8;
    tail := seq(n, i => 'B');
  }
}

/** Exactly which settings keep every table within the target in one chunk, header row and all, under the default counter
    and recogniser; and a document whose last row is in a chunk without the header. The "table always carries its header
    row" is kept by the splitting of an oversized table, and lost by the backstop on one that fits. */
module TornTable {
  import opened Text
  import opened Tokens
  import opened Blocks
  import opened Packing
  import opened Procedures
  import opened Markers
  import opened Splitting
  import opened SentenceCuts
  import opened Chunking
  import opened Ceiling
  import opened Conservation
  import opened Slides
  import opened CeilingExact
  import opened Wholeness
  import opened Crowding
  import opened TornProcedure
  import opened CrowdedProcedure

  // ---------------------------------------------------------------- the promise

  /** Entry `i` of the grouped document is a table with a header, and within the target. */
  predicate IsTable(blocks: seq<Block>, i: int, s: Setup) {
    && 0 <= i < |Grouped(Kept(blocks), s.marker)|
    && Grouped(Kept(blocks), s.marker)[i].kind.TABLE? && Header(Grouped(Kept(blocks), s.marker)[i]) != ""
    && s.count(Grouped(Kept(blocks), s.marker)[i].text) <= s.config.targetTokens
  }

  /** Every such table is in one chunk as it is, from its header to its last row. */
  ghost predicate TablesStayWhole(s: Setup) {
    forall blocks, i {:trigger IsTable(blocks, i, s)} :: !HasSlides(Kept(blocks)) && IsTable(blocks, i, s) ==>
      InOneDraft(Chunks(blocks, s), Grouped(Kept(blocks), s.marker)[i].text)
  }

  /** The settings that keep it: no table of two words meets the target, or no overlap is carried and no buffer that holds
      a table can be over the ceiling. */
  predicate KeepsTables(c: ChunkingConfig) {
    c.targetTokens < 3 || (c.OverlapTokens() <= 0 && Crowd(c.targetTokens, 3) <= c.maxTokens)
  }

  // ---------------------------------------------------------------- where it is kept

  lemma TableHasText(blocks: seq<Block>, i: nat, s: Setup)
    requires IsTable(blocks, i, s)
    ensures Words(Grouped(Kept(blocks), s.marker)[i].text) != [] && RouteOf(Grouped(Kept(blocks), s.marker)[i], s).Whole? && WithinItsLimit(Grouped(Kept(blocks), s.marker)[i], s)
  {
    hide Words, Kept, Grouped;
    var b := Grouped(Kept(blocks), s.marker)[i];
    GroupedHeaders(Kept(blocks), s.marker);
    KeptNotBlank(blocks);
    assert b in Grouped(Kept(blocks), s.marker);
  }

  /** A word is written out in its text. */
  lemma {:induction false} WordIsInside(t: string, w: string)
    requires w in Words(t)
    ensures Contains(t, w)
  {
    NoWords();
    hide Words, IsSpace, Contains;
    var init, c := t[..|t| - 1], t[|t| - 1];
    assert t == init + [c];
    WordsStep(t, init, c);
    if w in Words(init) {
      WordIsInside(init, w);
      ContainsMore(init, w, c);
    } else {
      LastWordEnds(t);
      EndContains(t, w);
    }
  }

  lemma ContainsMore(init: string, w: string, c: char)
    requires Contains(init, w)
    ensures Contains(init + [c], w)
  {
    var k: nat :| OccursAt(init, w, k);
    assert (init + [c])[k..k + |w|] == init[k..k + |w|];
    assert OccursAt(init + [c], w, k);
  }

  lemma EndContains(t: string, w: string)
    requires IsSuffix(w, t)
    ensures Contains(t, w)
  {
    assert t[|t| - |w|..|t| - |w| + |w|] == w;
    assert OccursAt(t, w, |t| - |w|);
  }

  /** A text of one word is that word. */
  lemma OneWordText(t: string)
    requires Edged(t) && |Words(t)| == 1
    ensures Words(t) == [t]
  {
    if i :| 0 <= i < |t| && IsSpace(t[i]) {
      TwoWordsAt(t, 0, i, |t| - 1);
    } else {
      assert Solid(t);
      WordOfSolid(t);
    }
  }

  lemma {:induction false} CarriedMember(blocks: seq<Block>, i: nat, s: Setup, w: string)
    requires i < |blocks| && w in CarriedWords(blocks[i], s)
    ensures w in CarriedAll(blocks, s)
  {
    hide CarriedWords;
    if i < |blocks| - 1 { CarriedMember(blocks[..|blocks| - 1], i, s, w); }
  }

  lemma WholeCarriesWords(b: Block, s: Setup)
    requires RouteOf(b, s).Whole?
    ensures CarriedWords(b, s) == Words(b.text)
  {
    hide Words, RouteOf;
  }

  lemma StripIsWord(t: string)
    requires |Words(t)| == 1
    ensures Words(t) == [Strip(t)]
  {
    WordsStrip(t);
    var l, r := StripParts(t);
    hide Words, Strip, IsSpace;
    OneWordText(Strip(t));
  }

  lemma InsideOne(drafts: seq<ChunkDraft>, k: nat, text: string)
    requires k < |drafts| && Contains(drafts[k].content, Strip(text))
    ensures InOneDraft(drafts, text)
  {
    hide Strip, Contains;
  }

  /** One word is never split. */
  lemma OneWordStays(blocks: seq<Block>, i: nat, s: Setup)
    requires !HasSlides(Kept(blocks)) && i < |Grouped(Kept(blocks), s.marker)|
    requires RouteOf(Grouped(Kept(blocks), s.marker)[i], s).Whole? && |Words(Grouped(Kept(blocks), s.marker)[i].text)| == 1
    ensures InOneDraft(Chunks(blocks, s), Grouped(Kept(blocks), s.marker)[i].text)
  {
    hide *;
    var grouped := Grouped(Kept(blocks), s.marker);
    var text := grouped[i].text;
    StripIsWord(text);
    WholeCarriesWords(grouped[i], s);
    CarriedMember(grouped, i, s, Strip(text));
    var ledger := CarriedIsConserved(blocks, s);
    var k := NovelWordIsInChunk(ledger, Repeats(blocks) + {[]}, Strip(text));
    ContentAt(Chunks(blocks, s), k);
    WordIsInside(Chunks(blocks, s)[k].content, Strip(text));
    InsideOne(Chunks(blocks, s), k, text);
  }

  lemma ContentAt(drafts: seq<ChunkDraft>, k: nat)
    requires k < |Contents(drafts)|
    ensures k < |drafts| && Contents(drafts)[k] == drafts[k].content
  {
  }

  lemma TwoWordsCost(t: string)
    requires |Words(t)| >= 2
    ensures EstimateTokens(t) >= 3
  {
    hide Words, EstimateTokens;
    EstimateAtMost(t, 2);
    assert EstimateTokens(t) > 2;
  }

  lemma TableStaysWhole(blocks: seq<Block>, i: nat, s: Setup)
    requires s.count == EstimateTokens && KeepsTables(s.config) && !HasSlides(Kept(blocks)) && IsTable(blocks, i, s)
    ensures InOneDraft(Chunks(blocks, s), Grouped(Kept(blocks), s.marker)[i].text)
  {
    hide EstimateTokens, Words, Grouped, Kept, Chunks, InOneDraft, HasSlides, Crowd, Bearable, Lawful, RouteOf, WithinItsLimit;
    TableHasText(blocks, i, s);
    var text := Grouped(Kept(blocks), s.marker)[i].text;
    if |Words(text)| == 1 {
      OneWordStays(blocks, i, s);
    } else {
      EstimateIsLawful();
      TwoWordsCost(text);
      CrowdIsLeast(s.config.targetTokens, 3, s.config.maxTokens);
      CrowdBears(text, 3, s);
      WholeWithoutOverlap(blocks, i, s);
    }
  }

  // ---------------------------------------------------------------- a table of two rows

  /** A header row that ends a sentence, and one more row. */
  function TwoRows(head: string, row: string): string {
    head + "\n" + row
  }

  function TwoRowTable(head: string, row: string): Block {
    Block(BlockKind.TABLE, TwoRows(head, row), tableHeader := Some(head))
  }

  ghost predicate Heads(head: string) {
    Solid(head) && head[|head| - 1] == '.'
  }

  lemma RowCuts(head: string, row: string)
    requires Heads(head) && AllB(row)
    ensures forall k :: 0 <= k < |TwoRows(head, row)| ==> CutEnd(TwoRows(head, row), k) == if k == |head| then |head| + 1 else k
  {
    var s, n := TwoRows(head, row), |head|;
    assert s[n] == '\n' && s[n - 1] == '.' && s[n + 1] == 'B' && |s| == n + 1 + |row|;
    forall k | 0 <= k < |s| && k != n ensures CutEnd(s, k) == k {
      if k < n { assert s[k] == head[k]; } else { assert s[k] == row[k - n - 1]; }
      NoCut(s, k);
    }
    assert IsSpace('\n') && SpaceEnd(s, n + 1) == n + 1;
    assert SpaceEnd(s, n) == n + 1;
  }

  lemma RowPieces(head: string, row: string)
    requires Heads(head) && AllB(row)
    ensures PiecesFrom(TwoRows(head, row), 0, 0) == [head] + [row]
  {
    RowCuts(head, row);
    assert |TwoRows(head, row)| == |head| + 1 + |row|;
    assert TwoRows(head, row)[0..|head|] == head && TwoRows(head, row)[|head| + 1..] == row;
    hide CutEnd, TwoRows, Heads, AllB;
    PiecesCut(TwoRows(head, row), 0, |head|, |head| + 1);
    PiecesEnd(TwoRows(head, row), |head| + 1);
  }

  lemma RowsEdged(head: string, row: string)
    requires Heads(head) && AllB(row)
    ensures Solid(head) && Solid(row) && Edged(TwoRows(head, row)) && '\n' in TwoRows(head, row)
  {
    var s := TwoRows(head, row);
    assert s[|head|] == '\n' && s[0] == head[0] && |s| == |head| + 1 + |row| && s[|head| + |row|] == row[|row| - 1];
    assert !IsSpace('B');
    hide IsSpace, TwoRows;
  }

  lemma RowSentences(head: string, row: string)
    requires Heads(head) && AllB(row)
    ensures Sentences(TwoRows(head, row)) == [head, row]
  {
    RowPieces(head, row);
    RowsEdged(head, row);
    SolidIsEdged(head);
    SolidIsEdged(row);
    hide PiecesFrom, TwoRows, Heads, AllB, IsSpace, Solid, Edged;
    TrimmedTwo(head, row);
    hide Trimmed;
  }

  lemma TrimmedTwo(a: string, b: string)
    requires Edged(a) && Edged(b)
    ensures Trimmed([a] + [b]) == [a, b]
  {
    NothingTrimmed();
    hide *;
    TrimmedCons(a, [b]);
    TrimmedCons(b, []);
    EmptyFirst([b]);
  }

  /** The table is no step. */
  lemma NoStepInTable(head: string, row: string)
    requires Heads(head) && BreakFree(head)
    ensures StepNumber(TwoRows(head, row)).None?
  {
    SolidIsEdged(head);
    StripOf(head);
    NoStepAt(head);
    hide StepNumber, Strip, IsSpace;
    FirstLineDecides(head, row);
  }

  lemma SolidIsEdged(t: string)
    requires Solid(t)
    ensures Edged(t)
  {
  }

  lemma RowSizes(head: string, row: string)
    requires Heads(head) && AllB(row)
    ensures |Words(TwoRows(head, row))| == 2 && |TwoRows(head, row)| == |head| + 1 + |row|
  {
    RowsEdged(head, row);
    hide IsSpace, AllB;
    WordOfSolid(head);
    WordOfSolid(row);
    hide Words, Solid;
    WordsBetween(head, "\n", row);
  }

  // ---------------------------------------------------------------- parts without a line break

  lemma {:induction false} SolidUnits(units: seq<string>, limit: int, count: Counter)
    requires forall u :: u in units ==> Solid(u)
    ensures Refine(units, limit, count, WordBreak(limit, count)) == units
  {
    hide Solid, WordParts;
    if units != [] {
      var init, last := units[..|units| - 1], units[|units| - 1];
      assert last in units;
      SolidUnits(init, limit, count);
      SolidIsOnePart(last, limit, count);
    }
  }

  lemma SolidIsOnePart(u: string, limit: int, count: Counter)
    requires Solid(u)
    ensures WordParts(u, limit, count) == [u]
  {
    WordOfSolid(u);
    hide Words, Solid;
    OneUnit(u, limit, count);
    hide Packed, Refine;
  }

  /** Content cut into single words has no line break left. */
  lemma PartsLackBreaks(content: string, units: seq<string>, limit: int, count: Counter)
    requires Sentences(content) == units != [] && forall u :: u in units ==> Solid(u)
    ensures forall p :: p in SentenceParts(content, limit, count) ==> Lacks(p, '\n')
  {
    SolidUnits(units, limit, count);
    PackDivides(units, limit, " ", count);
    forall u | u in units ensures Lacks(u, '\n') { SolidLacks(u); }
    hide Sentences, Solid, Lacks, WordBreak, Refine;
    PackedLacks(units, limit, count, '\n');
    hide Packed;
  }

  lemma SolidLacks(u: string)
    requires Solid(u)
    ensures Lacks(u, '\n')
  {
    assert IsSpace('\n');
  }

  lemma LacksOutside(part: string, text: string, c: char)
    requires Lacks(part, c) && c in text
    ensures !Contains(part, text)
  {
    var k :| 0 <= k < |text| && text[k] == c;
    forall i: nat ensures !OccursAt(part, text, i) {
      if i + |text| <= |part| { assert part[i..i + |text|][k] == part[i + k]; }
    }
  }

  /** A table is in no chunk when no chunk has a line break. */
  lemma NoneHoldsTable(drafts: seq<ChunkDraft>, text: string)
    requires (forall p :: p in Contents(drafts) ==> Lacks(p, '\n')) && Edged(text) && '\n' in text
    ensures !InOneDraft(drafts, text)
  {
    StripOf(text);
    hide Strip, Contains, Lacks, Edged;
    forall p | p in Contents(drafts) ensures !Contains(p, text) { LacksOutside(p, text, '\n'); }
    OutOfAll(drafts, text);
  }

  // ---------------------------------------------------------------- a crowded table

  function CrowdedTable(h: nat, head: string, row: string): seq<Block> {
    Fillers(h) + [TwoRowTable(head, row)]
  }

  /** The paragraphs and the table are within the target and, joined, over the ceiling. */
  ghost predicate CrowdsTable(h: nat, head: string, row: string, s: Setup) {
    && Heads(head) && AllB(row) && BreakFree(head)
    && 2 * h + EstimateTokens(TwoRows(head, row)) <= s.config.targetTokens && 2 <= s.config.targetTokens
    && 2 * (9 * h + |head| + 1 + |row|) > 7 * s.config.maxTokens
  }

  lemma TableTexts(h: nat, head: string, row: string)
    ensures var blocks, texts := CrowdedTable(h, head, row), FillTexts(h) + [TwoRows(head, row)];
      && Texts(blocks) == texts != [] && |blocks| == h + 1 && blocks != [] && blocks[h] == TwoRowTable(head, row)
      && forall b :: b in blocks ==> b == TwoRowTable(head, row) || b == Block(BlockKind.TEXT, FILLER)
  {
    hide TwoRows;
  }

  lemma TableEdged(h: nat, head: string, row: string)
    requires Heads(head) && AllB(row)
    ensures AllEdged(FillTexts(h) + [TwoRows(head, row)])
  {
    hide *;
    FillEdged(h);
    RowsEdged(head, row);
    AllEdgedMore(FillTexts(h), TwoRows(head, row));
  }

  lemma TableSentences(h: nat, head: string, row: string)
    requires Heads(head) && AllB(row)
    ensures Sentences(Join(FillTexts(h) + [TwoRows(head, row)], "\n\n")) == FillTexts(h) + [head, row] != []
    ensures forall u :: u in FillTexts(h) + [head, row] ==> Solid(u)
  {
    hide *;
    FillerSize();
    RowsEdged(head, row);
    RowSentences(head, row);
    TableEdged(h, head, row);
    var texts := FillTexts(h) + [TwoRows(head, row)];
    SentencesOfJoin(texts);
    SentencesAllAppend(FillTexts(h), [TwoRows(head, row)]);
    OneText(TwoRows(head, row));
    FillSentences(h);
    UnitsSolid(h, head, row);
  }

  lemma OneText(x: string)
    ensures SentencesAll([x]) == Sentences(x)
  {
    hide Sentences;
    assert [x][1..] == [];
    EmptyFirst(Sentences(x));
  }

  lemma UnitsSolid(h: nat, head: string, row: string)
    requires Solid(head) && Solid(row) && Solid(FILLER)
    ensures forall u :: u in FillTexts(h) + [head, row] ==> Solid(u)
  {
    hide Solid;
    forall u | u in FillTexts(h) + [head, row] ensures Solid(u) {
      assert u == FILLER || u == head || u == row;
    }
  }

  lemma TableSizes(h: nat, head: string, row: string, s: Setup)
    requires s.count == EstimateTokens && CrowdsTable(h, head, row, s)
    ensures Total(FillTexts(h) + [TwoRows(head, row)], s.count) <= s.config.targetTokens
    ensures EstimateTokens(Join(FillTexts(h) + [TwoRows(head, row)], "\n\n")) > s.config.maxTokens
  {
    var t := TwoRows(head, row);
    var texts := FillTexts(h) + [t];
    RowSizes(head, row);
    hide TwoRows, EstimateTokens, AllB, Heads, Join, Words;
    FillTotal(h);
    TotalAppend(FillTexts(h), [t], EstimateTokens);
    OneTotal(t);
    JoinLength(texts);
    hide Total, Chars;
    if s.config.maxTokens >= 1 { EstimateAtMost(Join(texts, "\n\n"), s.config.maxTokens); }
  }

  lemma TableRoutes(head: string, row: string, s: Setup)
    requires Heads(head) && s.count(TwoRows(head, row)) <= s.config.targetTokens && s.count(FILLER) <= s.config.targetTokens
    ensures RouteOf(TwoRowTable(head, row), s).Whole? && RouteOf(Block(BlockKind.TEXT, FILLER), s).Whole?
  {
    hide TwoRows;
  }

  lemma TableKept(h: nat, head: string, row: string)
    requires Heads(head) && AllB(row) && BreakFree(head)
    ensures var blocks := CrowdedTable(h, head, row);
      Kept(blocks) == blocks && !HasSlides(blocks) && Grouped(blocks, StepNumber) == blocks && blocks != []
  {
    hide *;
    FillerSize();
    NoStepAt(FILLER);
    NoStepInTable(head, row);
    RowsEdged(head, row);
    TableTexts(h, head, row);
    TableBlocksPlain(CrowdedTable(h, head, row), head, row);
    PlainAreKept(CrowdedTable(h, head, row));
    PlainGrouping(CrowdedTable(h, head, row), StepNumber);
  }

  lemma TableBlocksPlain(blocks: seq<Block>, head: string, row: string)
    requires forall b :: b in blocks ==> b == TwoRowTable(head, row) || b == Block(BlockKind.TEXT, FILLER)
    requires Edged(FILLER) && Edged(TwoRows(head, row)) && StepNumber(FILLER).None? && StepNumber(TwoRows(head, row)).None?
    ensures (forall b :: b in blocks ==> Edged(b.text) && b.slideIndex.None?) && Unnumbered(blocks, StepNumber)
  {
    hide Edged, StepNumber, TwoRows;
    forall i | 0 <= i < |blocks| ensures StepNumber(blocks[i].text).None? { assert blocks[i] in blocks; }
  }

  /** Entry `i` is such a table, and it is in no chunk as it is. */
  ghost predicate TableTorn(blocks: seq<Block>, i: int, s: Setup) {
    !HasSlides(Kept(blocks)) && IsTable(blocks, i, s) && !InOneDraft(Chunks(blocks, s), Grouped(Kept(blocks), s.marker)[i].text)
  }

  lemma TableTornAt(blocks: seq<Block>, i: nat, head: string, row: string, s: Setup)
    requires Kept(blocks) == blocks && !HasSlides(blocks) && Grouped(blocks, s.marker) == blocks && i < |blocks|
    requires blocks[i] == TwoRowTable(head, row) && head != "" && s.count(TwoRows(head, row)) <= s.config.targetTokens
    requires !InOneDraft(Flushed(ProcessedAll(blocks, s), true, s).drafts, TwoRows(head, row))
    ensures TableTorn(blocks, i, s)
  {
    hide Kept, HasSlides, Grouped, InOneDraft, Flushed, ProcessedAll, TwoRows;
  }

  lemma CrowdsTableMeans(h: nat, head: string, row: string, s: Setup)
    requires s.count == EstimateTokens && CrowdsTable(h, head, row, s)
    ensures Heads(head) && AllB(row) && BreakFree(head) && head != ""
    ensures s.count(TwoRows(head, row)) <= s.config.targetTokens && s.count(FILLER) <= s.config.targetTokens
  {
    FillerSize();
    hide EstimateTokens, TwoRows, AllB;
  }

  /** Whatever the overlap: with paragraphs enough before it, the table fits the target and its rows run together. */
  lemma CrowdedTableIsTorn(h: nat, head: string, row: string, s: Setup)
    requires s.count == EstimateTokens && s.marker == StepNumber && CrowdsTable(h, head, row, s)
    ensures TableTorn(CrowdedTable(h, head, row), h, s)
  {
    hide *;
    var blocks, texts := CrowdedTable(h, head, row), FillTexts(h) + [TwoRows(head, row)];
    var content := Join(texts, "\n\n");
    CrowdsTableMeans(h, head, row, s);
    TableTexts(h, head, row);
    TableKept(h, head, row);
    TableSizes(h, head, row, s);
    TableEdged(h, head, row);
    TableRoutes(head, row, s);
    GathersFrom(blocks, texts, TwoRowTable(head, row), Block(BlockKind.TEXT, FILLER), s);
    GatheredIsCut(blocks, content, s);
    TableSentences(h, head, row);
    PartsLackBreaks(content, FillTexts(h) + [head, row], s.config.maxTokens, s.count);
    RowsEdged(head, row);
    NoneHoldsTable(Flushed(ProcessedAll(blocks, s), true, s).drafts, TwoRows(head, row));
    TableTornAt(blocks, h, head, row, s);
  }

  // ---------------------------------------------------------------- a table behind an overlap

  /** One long word, then the table. */
  function BehindWord(x: string, head: string, row: string): seq<Block> {
    [Block(BlockKind.TEXT, x), TwoRowTable(head, row)]
  }

  ghost predicate Overtakes(x: string, head: string, row: string, s: Setup) {
    && AllB(x) && Heads(head) && AllB(row) && BreakFree(head) && s.config.OverlapTokens() > 0
    && EstimateTokens(x) <= s.config.maxTokens && EstimateTokens(TwoRows(head, row)) <= s.config.targetTokens
    && EstimateTokens(x) + EstimateTokens(TwoRows(head, row)) > s.config.targetTokens
    && 2 * (|x| + 2 + |head| + 1 + |row|) > 7 * s.config.maxTokens
  }

  lemma OvertakesMeans(x: string, head: string, row: string, s: Setup)
    requires s.count == EstimateTokens && Overtakes(x, head, row, s)
    ensures AllB(x) && Heads(head) && AllB(row) && BreakFree(head) && head != "" && s.config.OverlapTokens() > 0
    ensures s.count(x) <= s.config.maxTokens && s.count(TwoRows(head, row)) <= s.config.targetTokens < s.count(x) + s.count(TwoRows(head, row))
  {
    hide EstimateTokens, TwoRows, AllB;
  }

  lemma BIsSolid(x: string)
    requires AllB(x)
    ensures Solid(x) && Edged(x) && Words(x) == [x] && Sentences(x) == [x] && Strip(x) == x && StepNumber(x).None? && x != ""
  {
    assert Solid(x);
    SolidIsEdged(x);
    hide AllB, IsSpace, StepNumber;
    WordOfSolid(x);
    OneSentence(x);
    StripOf(x);
    NoStepAt(x);
    hide Words, Sentences, Strip;
  }

  lemma BehindContent(x: string, head: string, row: string, s: Setup)
    requires s.count == EstimateTokens && Overtakes(x, head, row, s)
    ensures var content := x + "\n\n" + TwoRows(head, row);
      && Sentences(content) == [x] + [head, row] && Strip(content) == content && s.count(content) > s.config.maxTokens
  {
    OvertakesMeans(x, head, row, s);
    BIsSolid(x);
    RowsEdged(head, row);
    RowSentences(head, row);
    RowSizes(head, row);
    hide TwoRows, AllB, Heads, EstimateTokens, Words, Sentences, Edged, Solid, Strip;
    var t := TwoRows(head, row);
    var content := x + "\n\n" + t;
    Assoc(x, "\n\n", t);
    SentencesJoin(x, t);
    BothEdged(x, t);
    StripOf(content);
    if s.config.maxTokens >= 1 { EstimateAtMost(content, s.config.maxTokens); }
  }

  lemma BothEdged(x: string, t: string)
    requires Edged(x) && Edged(t)
    ensures Edged(x + "\n\n" + t)
  {
    hide IsSpace;
  }

  lemma BehindKept(x: string, head: string, row: string)
    requires AllB(x) && Heads(head) && AllB(row) && BreakFree(head)
    ensures var blocks := BehindWord(x, head, row); Kept(blocks) == blocks && !HasSlides(blocks) && Grouped(blocks, StepNumber) == blocks
  {
    hide *;
    BIsSolid(x);
    RowsEdged(head, row);
    NoStepInTable(head, row);
    var blocks := BehindWord(x, head, row);
    BehindPlain(x, head, row);
    PlainAreKept(blocks);
    PlainGrouping(blocks, StepNumber);
  }

  lemma BehindPlain(x: string, head: string, row: string)
    requires Edged(x) && Edged(TwoRows(head, row)) && StepNumber(x).None? && StepNumber(TwoRows(head, row)).None?
    ensures (forall b :: b in BehindWord(x, head, row) ==> Edged(b.text) && b.slideIndex.None?) && Unnumbered(BehindWord(x, head, row), StepNumber)
  {
    hide Edged, StepNumber, TwoRows;
  }

  /** The drafts of the document: the word, then what its content is cut into with the word in front again. */
  lemma BehindDrafts(x: string, head: string, row: string, s: Setup)
    requires s.count == EstimateTokens && Overtakes(x, head, row, s)
    ensures Contents(Flushed(ProcessedAll(BehindWord(x, head, row), s), true, s).drafts)
         == [x] + SentenceParts(x + "\n\n" + TwoRows(head, row), s.config.maxTokens, s.count)
  {
    hide *;
    OvertakesMeans(x, head, row, s);
    BIsSolid(x);
    RowsEdged(head, row);
    StripOf(TwoRows(head, row));
    BehindContent(x, head, row, s);
    TableIsWhole(head, row, s);
    BehindIs(x, head, row);
    TornDrafts(Block(BlockKind.TEXT, x), TwoRowTable(head, row), x + "\n\n" + TwoRows(head, row), s);
  }

  lemma BehindIs(x: string, head: string, row: string)
    ensures BehindWord(x, head, row) == [Block(BlockKind.TEXT, x), TwoRowTable(head, row)] && TwoRowTable(head, row).text == TwoRows(head, row)
    ensures TwoRows(head, row) != ""
  {
  }

  lemma TableIsWhole(head: string, row: string, s: Setup)
    requires Heads(head) && s.count(TwoRows(head, row)) <= s.config.targetTokens
    ensures RouteOf(TwoRowTable(head, row), s).Whole?
  {
    hide TwoRows;
  }

  lemma BehindIsTorn(x: string, head: string, row: string, s: Setup)
    requires s.count == EstimateTokens && s.marker == StepNumber && Overtakes(x, head, row, s)
    ensures TableTorn(BehindWord(x, head, row), 1, s)
  {
    hide *;
    OvertakesMeans(x, head, row, s);
    BehindKept(x, head, row);
    BehindIs(x, head, row);
    BehindContent(x, head, row, s);
    BehindDrafts(x, head, row, s);
    RowsEdged(head, row);
    BIsSolid(x);
    SolidLacks(x);
    ThreeSolid(x, head, row);
    PartsLackBreaks(x + "\n\n" + TwoRows(head, row), [x] + [head, row], s.config.maxTokens, s.count);
    NoneHoldsTable(Flushed(ProcessedAll(BehindWord(x, head, row), s), true, s).drafts, TwoRows(head, row));
    TableTornAt(BehindWord(x, head, row), 1, head, row, s);
  }

  lemma ThreeSolid(x: string, head: string, row: string)
    requires Solid(x) && Solid(head) && Solid(row)
    ensures [x] + [head, row] != [] && forall u :: u in [x] + [head, row] ==> Solid(u)
  {
    hide Solid;
  }

  // ---------------------------------------------------------------- exactly when

  const HEAD := "A."

  lemma HeadIs()
    ensures Heads(HEAD) && BreakFree(HEAD) && |HEAD| == 2
  {
  }

  lemma SmallTable(row: string)
    requires AllB(row) && (|row| == 7 || |row| == 11)
    ensures EstimateTokens(TwoRows(HEAD, row)) == if |row| == 7 then 3 else 4
  {
    HeadIs();
    RowSizes(HEAD, row);
    hide Words, EstimateTokens, TwoRows, AllB;
    EstimateBy(TwoRows(HEAD, row), 3 + |row|, 2);
  }

  lemma TablePositions(target: int, max: int, h: int)
    requires target >= 3 && h == (target - 3) / 2 && 7 * max < 2 * CrowdChars(target, 3)
    ensures 2 * h + (if target % 2 == 1 then 3 else 4) <= target && 2 * (9 * h + 3 + (if target % 2 == 1 then 7 else 11)) > 7 * max
  {
    var k := target / 2;
    if target % 2 == 0 {
      assert target == 2 * k && h == k - 2 && 7 * target / 2 == 7 * k;
    } else {
      assert target == 2 * k + 1 && h == k - 1 && 7 * target / 2 == 7 * k + 3;
    }
  }

  lemma OvercrowdedTable(s: Setup) returns (h: nat, row: string)
    requires s.count == EstimateTokens && s.config.targetTokens >= 3 && s.config.maxTokens < Crowd(s.config.targetTokens, 3)
    ensures CrowdsTable(h, HEAD, row, s)
  {
    var target, max := s.config.targetTokens, s.config.maxTokens;
    CrowdIsLeast(target, 3, max);
    h := (target - 3) / 2;
    row := BTail(if target % 2 == 1 then 7 else 11);
    TablePositions(target, max, h);
    HeadIs();
    hide Crowd, CrowdChars, EstimateTokens, AllB, TwoRows, Heads;
    SmallTable(row);
  }

  lemma WordMeasures(x: string, n: int)
    requires AllB(x) && n >= 2 && |x| == 7 * n / 2
    ensures EstimateTokens(x) == n
  {
    BIsSolid(x);
    hide AllB, EstimateTokens, Sentences, Strip, StepNumber, Solid;
    EstimateAtMost(x, n);
    EstimateAtMost(x, n - 1);
    hide Words;
    assert EstimateTokens(x) > n - 1;
  }

  lemma OvertakenTable(s: Setup) returns (x: string, row: string)
    requires s.count == EstimateTokens && s.config.OverlapTokens() > 0 && 3 <= s.config.targetTokens <= s.config.maxTokens
    ensures Overtakes(x, HEAD, row, s)
  {
    var max := s.config.maxTokens;
    x := BTail(7 * max / 2);
    row := BTail(7);
    HeadIs();
    hide EstimateTokens, AllB, TwoRows, Heads;
    SmallTable(row);
    WordMeasures(x, max);
  }

  lemma TableBreaksPromise(blocks: seq<Block>, i: nat, s: Setup)
    requires TableTorn(blocks, i, s)
    ensures !TablesStayWhole(s)
  {
    hide Kept, Grouped, Chunks, InOneDraft, HasSlides, IsTable;
    assert IsTable(blocks, i, s);
  }

  lemma SomeTableIsTorn(s: Setup)
    requires s.count == EstimateTokens && s.marker == StepNumber && !KeepsTables(s.config)
    ensures !TablesStayWhole(s)
  {
    hide EstimateTokens, StepNumber, TableTorn, TablesStayWhole, CrowdedTable, CrowdsTable, BehindWord, Overtakes;
    var target, max := s.config.targetTokens, s.config.maxTokens;
    CrowdIsLeast(target, 3, max);
    if max < Crowd(target, 3) {
      var h, row := OvercrowdedTable(s);
      CrowdedTableIsTorn(h, HEAD, row, s);
      TableBreaksPromise(CrowdedTable(h, HEAD, row), h, s);
    } else {
      var x, row := OvertakenTable(s);
      BehindIsTorn(x, HEAD, row, s);
      TableBreaksPromise(BehindWord(x, HEAD, row), 1, s);
    }
  }

  /** For every configuration, under the default counter and recogniser. */
  lemma TablesStayWholeIff(s: Setup)
    requires s.count == EstimateTokens && s.marker == StepNumber
    ensures TablesStayWhole(s) <==> KeepsTables(s.config)
  {
    hide EstimateTokens, StepNumber, KeepsTables, Kept, Grouped, Chunks, InOneDraft, HasSlides;
    if KeepsTables(s.config) {
      forall blocks, i | !HasSlides(Kept(blocks)) && IsTable(blocks, i, s)
        ensures InOneDraft(Chunks(blocks, s), Grouped(Kept(blocks), s.marker)[i].text)
      {
        TableStaysWhole(blocks, i, s);
      }
    } else {
      SomeTableIsTorn(s);
    }
  }

  // ---------------------------------------------------------------- the header is lost

  const LONGHEAD := "AAAAAA."

  lemma LongHeadIs()
    ensures Heads(LONGHEAD) && BreakFree(LONGHEAD) && |LONGHEAD| == 7 && LONGHEAD[0] == 'A'
  {
  }

  lemma LongTable(row: string)
    requires AllB(row) && |row| == 6
    ensures EstimateTokens(TwoRows(LONGHEAD, row)) == 4 && EstimateTokens(LONGHEAD) == EstimateTokens(row) == 2
  {
    LongHeadIs();
    RowSizes(LONGHEAD, row);
    RowsEdged(LONGHEAD, row);
    WordOfSolid(LONGHEAD);
    WordOfSolid(row);
    hide Words, EstimateTokens, TwoRows, AllB, Heads, Solid;
    EstimateBy(TwoRows(LONGHEAD, row), 14, 2);
    EstimateBy(LONGHEAD, 7, 1);
    EstimateBy(row, 6, 1);
  }

  /** The row is alone in the last part. */
  lemma RowIsAlone(x: string, head: string, row: string, max: int, count: Counter)
    requires count(x) == max - 4 && count(head) == count(row) == 2 && count(" ") == 1
    ensures Packed([x, head, row], max, " ", count) == [Join([x, head], " "), row]
  {
    CostOfThree(x, head, row, count);
    CostOfThree(row, head, x, count);
    EmptyFirst([row]);
    PackedStep([row], [], max, " ", count);
    assert Join([row], " ") == row && Packed([], max, " ", count) == [];
    assert [x, head] + [row] == [x, head, row];
    hide Packed, Join, Cost;
    PackedStep([x, head], [row], max, " ", count);
  }

  /** What the witness shows: a table within the target, and a last chunk that is a row of it without the header. */
  ghost predicate LosesHeader(blocks: seq<Block>, i: nat, s: Setup) {
    && !HasSlides(Kept(blocks)) && IsTable(blocks, i, s) && Chunks(blocks, s) != []
    && var table, last := Grouped(Kept(blocks), s.marker)[i], Chunks(blocks, s)[|Chunks(blocks, s)| - 1].content;
       last != "" && Contains(table.text, last) && !Contains(last, Header(table))
  }

  lemma LosesAt(blocks: seq<Block>, head: string, row: string, front: seq<string>, s: Setup)
    requires Kept(blocks) == blocks && !HasSlides(blocks) && Grouped(blocks, s.marker) == blocks && |blocks| == 2 && blocks[1] == TwoRowTable(head, row)
    requires head != "" && s.count(TwoRows(head, row)) <= s.config.targetTokens && row != "" && Contains(TwoRows(head, row), row) && !Contains(row, head)
    requires Contents(Flushed(ProcessedAll(blocks, s), true, s).drafts) == front + [row]
    ensures LosesHeader(blocks, 1, s)
  {
    var drafts := Flushed(ProcessedAll(blocks, s), true, s).drafts;
    assert |drafts| == |front| + 1 && Contents(drafts)[|front|] == row;
    hide Kept, HasSlides, Grouped, Flushed, ProcessedAll, TwoRows, Contains;
  }

  lemma RowInTable(head: string, row: string)
    requires AllB(row) && head != "" && head[0] == 'A'
    ensures Contains(TwoRows(head, row), row) && !Contains(row, head)
  {
    var s := TwoRows(head, row);
    assert s[|head| + 1..|head| + 1 + |row|] == row;
    assert OccursAt(s, row, |head| + 1);
    assert Lacks(row, 'A');
    hide TwoRows, AllB;
    LacksOutside(row, head, 'A');
  }

  /** With any overlap, a target of four or more and a ceiling above it and of at least six: a table within the target
      whose last row is a chunk of its own, without the header. */
  lemma HeaderIsLost(s: Setup) returns (blocks: seq<Block>)
    requires s.count == EstimateTokens && s.marker == StepNumber && s.config.OverlapTokens() > 0
    requires 4 <= s.config.targetTokens < s.config.maxTokens && s.config.maxTokens >= 6
    ensures LosesHeader(blocks, 1, s)
  {
    hide *;
    var max := s.config.maxTokens;
    var x := BTail(7 * (max - 4) / 2);
    var row := BTail(6);
    LongHeadIs();
    LongTable(row);
    WordMeasures(x, max - 4);
    blocks := BehindWord(x, LONGHEAD, row);
    LongOvertakes(x, row, s);
    RowAlone(x, row, s);
    BehindKept(x, LONGHEAD, row);
    BehindIs(x, LONGHEAD, row);
    RowInTable(LONGHEAD, row);
    FromB(row);
    BehindDrafts(x, LONGHEAD, row, s);
    LosesAt(blocks, LONGHEAD, row, [x] + [Join([x, LONGHEAD], " ")], s);
  }

  lemma LongOvertakes(x: string, row: string, s: Setup)
    requires AllB(x) && AllB(row) && |row| == 6 && |x| == 7 * (s.config.maxTokens - 4) / 2 && s.config.OverlapTokens() > 0
    requires EstimateTokens(x) == s.config.maxTokens - 4 && EstimateTokens(TwoRows(LONGHEAD, row)) == 4
    requires 4 <= s.config.targetTokens < s.config.maxTokens
    ensures Overtakes(x, LONGHEAD, row, s)
  {
    LongHeadIs();
    hide EstimateTokens, AllB, TwoRows, Heads;
  }

  lemma RowAlone(x: string, row: string, s: Setup)
    requires s.count == EstimateTokens && Overtakes(x, LONGHEAD, row, s) && EstimateTokens(x) == s.config.maxTokens - 4 && s.config.maxTokens >= 6
    requires EstimateTokens(LONGHEAD) == EstimateTokens(row) == 2
    ensures [x] + SentenceParts(x + "\n\n" + TwoRows(LONGHEAD, row), s.config.maxTokens, s.count) == ([x] + [Join([x, LONGHEAD], " ")]) + [row]
  {
    hide *;
    EstimateOfSpace1();
    BehindContent(x, LONGHEAD, row, s);
    RowIsAlone(x, LONGHEAD, row, s.config.maxTokens, s.count);
    ThreeFit(x, LONGHEAD, row, s.config.maxTokens, s.count);
    PartsArePacked(x + "\n\n" + TwoRows(LONGHEAD, row), [x, LONGHEAD, row], s.config.maxTokens, s.count);
  }

  lemma EstimateOfSpace1()
    ensures EstimateTokens(" ") == 1
  {
    hide EstimateTokens;
    EstimateOfSpace(" ");
  }

  lemma ThreeFit(x: string, head: string, row: string, max: int, count: Counter)
    requires count(x) <= max && count(head) <= max && count(row) <= max
    ensures AllWithin([x, head, row], max, count) && [x] + [head, row] == [x, head, row]
  {
  }
}

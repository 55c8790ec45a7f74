/** What the soft target of app/pipeline/chunking.py:5 promises of prose: how far a chunk can exceed it, whatever the ceiling
    is. Only the separators and the overlap in front are not counted, so nothing else can push a chunk over. */
module TargetBound {
  import opened Text
  import opened Tokens
  import opened Blocks
  import opened Packing
  import opened Procedures
  import opened Splitting
  import opened Parts
  import opened Chunking
  import opened Ceiling
  import opened CeilingExact
  import opened Slides
  import opened Wholeness
  import opened Crowding
  import opened CarriedOverlap

  // ---------------------------------------------------------------- the backstop never makes a piece larger

  ghost predicate NoLarger(parts: seq<string>, most: int, count: Counter) {
    forall p :: p in parts ==> count(p) <= most
  }

  lemma WordPartsNoLarger(piece: string, limit: int, most: int, count: Counter)
    requires Lawful(count) && limit <= most && count(piece) <= most
    ensures NoLarger(WordParts(piece, limit, count), most, count)
  {
    hide Words, Lawful;
    var words := Words(piece);
    PackKeepsWords(words, limit, " ", count);
    forall i | 0 <= i < |Packed(words, limit, " ", count)| ensures count(Packed(words, limit, " ", count)[i]) <= most {
      PackMeasured(words, limit, " ", count, i);
      forall w | w in words ensures count(w) <= most { WordCountsLess(piece, w, count); }
    }
  }

  lemma {:induction false} RefineNoLarger(pieces: seq<string>, limit: int, most: int, count: Counter)
    requires Lawful(count) && limit <= most && NoLarger(pieces, most, count)
    ensures NoLarger(Refine(pieces, limit, count, WordBreak(limit, count)), most, count)
  {
    hide Lawful, WordParts;
    if pieces != [] {
      var init, last := pieces[..|pieces| - 1], pieces[|pieces| - 1];
      assert last in pieces;
      RefineNoLarger(init, limit, most, count);
      WordPartsNoLarger(last, limit, most, count);
    }
  }

  /** A sentence counts at most what the text counts. */
  lemma {:induction false} TrimmedCountLess(s: string, start: nat, i: nat, count: Counter)
    requires Lawful(count) && start <= i <= |s|
    ensures NoLarger(Trimmed(PiecesFrom(s, start, i)), count(s), count)
    decreases |s| - i
  {
    hide *;
    if i == |s| {
      AllButStart(s, start);
      SliceCounts(s, start, |s|, count);
      NoneTrimmed(count(s), count);
      TrimmedNoLarger(s[start..|s|], [], count(s), count);
      EmptyFirst([s[start..|s|]]);
    } else {
      PiecesStep(s, start, i);
      var e := CutEnd(s, i);
      SliceCounts(s, start, i, count);
      if e > i {
        TrimmedCountLess(s, e, e, count);
        TrimmedNoLarger(s[start..i], PiecesFrom(s, e, e), count(s), count);
      } else {
        NeverBack(s, i);
        TrimmedCountLess(s, start, i + 1, count);
      }
    }
  }

  lemma AllButStart(s: string, start: nat)
    requires start <= |s|
    ensures PiecesFrom(s, start, |s|) == [s[start..|s|]]
  {
    assert s[start..] == s[start..|s|];
  }

  lemma NeverBack(s: string, i: nat)
    requires i < |s|
    ensures CutEnd(s, i) >= i
  {
  }

  lemma NoneTrimmed(most: int, count: Counter)
    ensures NoLarger(Trimmed([]), most, count)
  {
  }

  lemma SliceCounts(s: string, start: nat, i: nat, count: Counter)
    requires Lawful(count) && start <= i <= |s|
    ensures count(s[start..i]) <= count(s)
  {
    var tail := s[start..];
    assert tail[..i - start] == s[start..i];
    SuffixCounts(s, start, count);
    PrefixCounts(tail, i - start, count);
  }

  lemma TrimmedNoLarger(x: string, rest: seq<string>, most: int, count: Counter)
    requires Lawful(count) && count(x) <= most && NoLarger(Trimmed(rest), most, count)
    ensures NoLarger(Trimmed([x] + rest), most, count)
  {
    StripCountsLess(count, x);
    hide Lawful, Strip;
    assert ([x] + rest)[1..] == rest;
  }

  /** What the backstop cuts is no larger than what it cuts from. */
  lemma PiecesNoLarger(content: string, s: Setup)
    requires Lawful(s.count)
    ensures NoLarger(Pieces(content, s), s.count(content), s.count)
  {
    var limit, most := s.config.maxTokens, s.count(content);
    if most > limit {
      hide Lawful, Words, Refine, PackGroups;
      TrimmedCountLess(content, 0, 0, s.count);
      RefineNoLarger(Sentences(content), limit, most, s.count);
      var units := SentenceUnits(content, limit, s.count);
      forall i | 0 <= i < |Packed(units, limit, " ", s.count)| ensures s.count(Packed(units, limit, " ", s.count)[i]) <= most {
        PackMeasured(units, limit, " ", s.count, i);
      }
    }
  }

  // ---------------------------------------------------------------- the buffer near the target

  /** Prose: not a procedure, not a table with a header, and every word of it within the target. */
  ghost predicate Prose(b: Block, s: Setup) {
    !b.atomic && !(b.kind.TABLE? && Header(b) != "") && AllWithin(Words(b.text), s.config.targetTokens, s.count)
  }

  /** `most` bounds every buffer whose texts add up to the target at most. */
  ghost predicate HoldsTarget(most: int, s: Setup) {
    forall buffer: seq<string> :: buffer != [] && NoBlank(buffer) && Total(buffer, s.count) <= s.config.targetTokens ==>
      s.count(Content(buffer)) <= most
  }

  /** The bound with overlap: what is carried, a separator, and one text within the target. */
  ghost predicate HoldsCarried(most: int, c: nat, s: Setup) {
    s.config.OverlapTokens() > 0 ==> c + s.count("\n\n") + s.config.targetTokens <= most
  }

  /** The buffered texts add up to the target, or are one text within it behind the overlap. */
  ghost predicate NearTarget(buffer: seq<string>, c: nat, s: Setup) {
    || buffer == []
    || Total(buffer, s.count) <= s.config.targetTokens
    || (s.config.OverlapTokens() > 0 && |buffer| == 2 && s.count(buffer[0]) <= c && s.count(buffer[1]) <= s.config.targetTokens)
  }

  ghost predicate Near(a: Assembly, c: nat, most: int, s: Setup) {
    && Short(a, c, s)
    && NearTarget(a.buffer, c, s)
    && (s.config.OverlapTokens() <= 0 ==> a.pendingOverlap == "")
    && NoLarger(Conservation.Contents(a.drafts), most, s.count)
  }

  lemma NearContent(buffer: seq<string>, c: nat, most: int, s: Setup)
    requires Lawful(s.count) && buffer != [] && NoBlank(buffer) && NearTarget(buffer, c, s)
    requires HoldsTarget(most, s) && HoldsCarried(most, c, s)
    ensures s.count(Content(buffer)) <= most
  {
    hide Lawful, Content, Words, Total;
    if Total(buffer, s.count) > s.config.targetTokens {
      CarriedContent(buffer, s);
    }
  }

  lemma CarriedContent(buffer: seq<string>, s: Setup)
    requires Lawful(s.count) && |buffer| == 2
    ensures s.count(Content(buffer)) <= s.count(buffer[0]) + s.count("\n\n") + s.count(buffer[1])
  {
    hide *;
    ContentMeasured(buffer, s);
    BulkOfTwo(buffer, s.count);
  }

  lemma BulkOfTwo(buffer: seq<string>, count: Counter)
    requires |buffer| == 2
    ensures Bulk(buffer, count) == count(buffer[0]) + count("\n\n") + count(buffer[1])
  {
    assert buffer[1..][1..] == [];
    assert Total(buffer[1..], count) == count(buffer[1]);
  }

  lemma MoreContents(a: Assembly, content: string, most: int, s: Setup)
    requires Lawful(s.count) && s.count(content) <= most && NoLarger(Conservation.Contents(a.drafts), most, s.count)
    ensures var more := Drafted(Pieces(content, s), |a.drafts|, a.sectionPath, a.page, a.slide, s.count);
      NoLarger(Conservation.Contents(a.drafts + more), most, s.count)
  {
    PiecesNoLarger(content, s);
    hide Pieces, Lawful, Drafted;
    Conservation.ContentsOfMore(a.drafts, Pieces(content, s), a.sectionPath, a.page, a.slide, s.count);
  }

  lemma FlushNear(a: Assembly, c: nat, most: int, s: Setup)
    requires Lawful(s.count) && CoversOverlap(c, s) && HoldsTarget(most, s) && HoldsCarried(most, c, s) && Near(a, c, most, s)
    ensures Near(Flushed(a, true, s), c, most, s)
  {
    FlushShort(a, true, c, s);
    hide HoldsTarget, HoldsCarried, Lawful, CoversOverlap, Content, Drafted, NoLarger;
    if a.buffer != [] {
      NearContent(a.buffer, c, most, s);
      MoreContents(a, Content(a.buffer), most, s);
    }
    hide Short, Pieces, Conservation.Contents;
  }

  lemma ReadiedNear(b: Assembly, block: Block, body: string, c: nat, most: int, s: Setup)
    requires Near(b, c, most, s) && !MustFlush(b, body, s) && s.count(body) <= s.config.targetTokens
    ensures var ready := Started(b, block, s); NearTarget(ready.buffer + [body], c, s) && ready.drafts == b.drafts
    ensures s.config.OverlapTokens() <= 0 ==> Started(b, block, s).pendingOverlap == ""
  {
    TotalSnoc(b.buffer, body, s.count);
    hide NoLarger, Conservation.Contents;
    if b.buffer == [] && b.pendingOverlap == "" {
      EmptyFirst([body]);
      assert Total([], s.count) == 0;
    }
    hide Total;
  }

  lemma AddNear(a: Assembly, block: Block, body: string, c: nat, most: int, s: Setup)
    requires Lawful(s.count) && CoversOverlap(c, s) && HoldsTarget(most, s) && HoldsCarried(most, c, s) && Near(a, c, most, s)
    requires s.config.targetTokens <= c && (Strip(body) != "" ==> s.count(body) <= s.config.targetTokens)
    ensures Near(Added(a, block, body, s), c, most, s)
  {
    AddShort(a, block, body, c, s);
    FlushNear(a, c, most, s);
    FlushLeavesRoom(a, body, s);
    hide HoldsTarget, HoldsCarried, Lawful, CoversOverlap, Flushed, NoLarger, Conservation.Contents, Strip, NearTarget, Short;
    if Strip(body) != "" {
      var b := if MustFlush(a, body, s) then Flushed(a, true, s) else a;
      ReadiedNear(b, block, body, c, most, s);
    }
  }

  lemma FlushLeavesRoom(a: Assembly, body: string, s: Setup)
    ensures !MustFlush(Flushed(a, true, s), body, s)
  {
    hide Content, Drafted, Pieces;
  }

  lemma {:induction false} AddAllNear(a: Assembly, block: Block, parts: seq<string>, c: nat, most: int, s: Setup)
    requires Lawful(s.count) && CoversOverlap(c, s) && HoldsTarget(most, s) && HoldsCarried(most, c, s) && Near(a, c, most, s)
    requires s.config.targetTokens <= c && forall p :: p in parts && Strip(p) != "" ==> s.count(p) <= s.config.targetTokens
    ensures Near(AddedAll(a, block, parts, s), c, most, s)
  {
    hide Added, Near, Lawful, CoversOverlap, HoldsTarget, HoldsCarried, Strip;
    if parts != [] {
      var init, last := parts[..|parts| - 1], parts[|parts| - 1];
      AddAllNear(a, block, init, c, most, s);
      assert last in parts;
      AddNear(AddedAll(a, block, init, s), block, last, c, most, s);
    }
  }

  lemma ProseNear(a: Assembly, b: Block, c: nat, most: int, s: Setup)
    requires Lawful(s.count) && CoversOverlap(c, s) && HoldsTarget(most, s) && HoldsCarried(most, c, s) && Near(a, c, most, s)
    requires s.config.targetTokens <= c && Prose(b, s)
    ensures Near(Processed(a, b, s), c, most, s)
  {
    RouteByLimit(b, s);
    hide Added, AddedAll, Near, Lawful, CoversOverlap, HoldsTarget, HoldsCarried, SentenceParts, Words, Strip, RouteOf;
    if s.count(b.text) <= s.config.targetTokens {
      AddNear(a, b, b.text, c, most, s);
    } else {
      ProseIsShort(b.text, s.config.targetTokens, s);
      AddAllNear(a, b, SentenceParts(b.text, s.config.targetTokens, s.count), c, most, s);
    }
  }

  lemma NothingNear(c: nat, most: int, s: Setup)
    ensures Near(EMPTY, c, most, s)
  {
    NoContents();
  }

  lemma {:induction false} AllProseNear(blocks: seq<Block>, c: nat, most: int, s: Setup)
    requires Lawful(s.count) && CoversOverlap(c, s) && HoldsTarget(most, s) && HoldsCarried(most, c, s)
    requires s.config.targetTokens <= c && forall b :: b in blocks ==> Prose(b, s)
    ensures Near(ProcessedAll(blocks, s), c, most, s)
  {
    hide Processed, Near, Lawful, CoversOverlap, HoldsTarget, HoldsCarried, Prose;
    if blocks == [] {
      NothingNear(c, most, s);
    } else {
      var init, last := blocks[..|blocks| - 1], blocks[|blocks| - 1];
      AllProseNear(init, c, most, s);
      assert last in blocks;
      ProseNear(ProcessedAll(init, s), last, c, most, s);
    }
  }

  // ---------------------------------------------------------------- the bound

  /** The bound for any counter and any bounds on a full buffer and on what is carried. */
  lemma ProseIsNear(blocks: seq<Block>, c: nat, most: int, s: Setup)
    requires Lawful(s.count) && CoversOverlap(c, s) && HoldsTarget(most, s) && HoldsCarried(most, c, s)
    requires s.config.targetTokens <= c && !HasSlides(Kept(blocks))
    requires forall b :: b in Grouped(Kept(blocks), s.marker) ==> Prose(b, s)
    ensures forall d :: d in Chunks(blocks, s) ==> s.count(d.content) <= most
  {
    var grouped := Grouped(Kept(blocks), s.marker);
    hide Lawful, CoversOverlap, HoldsTarget, HoldsCarried, Prose, Grouped, Kept, Flushed, ProcessedAll, HasSlides;
    AllProseNear(grouped, c, most, s);
    FlushNear(ProcessedAll(grouped, s), c, most, s);
    NearDrafts(Flushed(ProcessedAll(grouped, s), true, s), c, most, s);
  }

  lemma NearDrafts(a: Assembly, c: nat, most: int, s: Setup)
    requires Near(a, c, most, s)
    ensures forall d :: d in a.drafts ==> s.count(d.content) <= most
  {
    hide Short, NearTarget;
    forall d | d in a.drafts ensures s.count(d.content) <= most {
      var i :| 0 <= i < |a.drafts| && a.drafts[i] == d;
      assert Conservation.Contents(a.drafts)[i] in Conservation.Contents(a.drafts);
    }
  }

  lemma CrowdHoldsTarget(s: Setup, most: int)
    requires s.count == EstimateTokens && Crowd(s.config.targetTokens, 2) <= most
    ensures HoldsTarget(most, s)
  {
    hide EstimateTokens, Words, Content, Crowd, Total;
    forall buffer: seq<string> | buffer != [] && NoBlank(buffer) && Total(buffer, s.count) <= s.config.targetTokens
      ensures s.count(Content(buffer)) <= most
    {
      assert buffer[0] in buffer && Words(buffer[0]) != [];
      SomeWordsMeasure(buffer[0]);
      CrowdedBuffer(buffer, buffer[0], s.config.targetTokens, 2);
    }
  }

  /** What the overlap setting lets a chunk begin with, at most: a text within the target, or sentences within the overlap
      budget and the spaces between them. */
  function CarriedMost(config: ChunkingConfig): int {
    Max(config.targetTokens, 2 * config.OverlapTokens() - 1)
  }

  lemma MostHoldsCrowd(s: Setup, most: int)
    requires most == if s.config.OverlapTokens() <= 0 then Crowd(s.config.targetTokens, 2)
                     else Max(Crowd(s.config.targetTokens, 2), CarriedMost(s.config) + 1 + s.config.targetTokens)
    ensures Crowd(s.config.targetTokens, 2) <= most
  {
    hide Crowd, CarriedMost;
  }

  lemma CarriedHolds(s: Setup, most: int) returns (c: nat)
    requires s.count == EstimateTokens
    requires most == if s.config.OverlapTokens() <= 0 then Crowd(s.config.targetTokens, 2)
                     else Max(Crowd(s.config.targetTokens, 2), CarriedMost(s.config) + 1 + s.config.targetTokens)
    ensures CoversOverlap(c, s) && HoldsCarried(most, c, s) && s.config.targetTokens <= c
  {
    EstimateOfSpace("\n\n");
    EstimateOfSpace(" ");
    hide EstimateTokens, Crowd;
    c := Max(0, CarriedMost(s.config));
  }

  lemma ProseBlocks(grouped: seq<Block>, s: Setup)
    requires s.count == EstimateTokens
    requires forall b :: b in grouped ==>
      !b.atomic && !(b.kind.TABLE? && Header(b) != "") && AllWithin(Words(b.text), s.config.targetTokens, EstimateTokens)
    ensures forall b :: b in grouped ==> Prose(b, s)
  {
    hide Words, EstimateTokens, AllWithin;
  }

  /** Prose stays near the target, whatever the ceiling. Take a document without slides, tables with headers and procedures,
      whose words fit the target. Without overlap every chunk measures, under the default counter, at most what texts
      within the target can measure once joined; with overlap, at most that, or what is carried, a separator and a text
      within the target. */
  lemma ProseStaysNearTarget(blocks: seq<Block>, s: Setup)
    requires s.count == EstimateTokens && !HasSlides(Kept(blocks))
    requires forall b :: b in Grouped(Kept(blocks), s.marker) ==>
      !b.atomic && !(b.kind.TABLE? && Header(b) != "") && AllWithin(Words(b.text), s.config.targetTokens, EstimateTokens)
    ensures var target := s.config.targetTokens;
      forall d :: d in Chunks(blocks, s) ==>
        EstimateTokens(d.content) <= if s.config.OverlapTokens() <= 0 then Crowd(target, 2)
                                     else Max(Crowd(target, 2), CarriedMost(s.config) + 1 + target)
  {
    var config := s.config;
    var target := config.targetTokens;
    var most := if config.OverlapTokens() <= 0 then Crowd(target, 2) else Max(Crowd(target, 2), CarriedMost(config) + 1 + target);
    hide *;
    EstimateIsLawful();
    var c := CarriedHolds(s, most);
    MostHoldsCrowd(s, most);
    CrowdHoldsTarget(s, most);
    ProseBlocks(Grouped(Kept(blocks), s.marker), s);
    ProseIsNear(blocks, c, most, s);
  }

  // ---------------------------------------------------------------- nothing is split before it must be

  lemma {:induction false} TotalHoldsEach(texts: seq<string>, i: nat, count: Counter)
    requires i < |texts|
    ensures count(texts[i]) <= Total(texts, count)
  {
    if i > 0 { TotalHoldsEach(texts[1..], i - 1, count); }
  }

  /** Blocks that fit the target together, each of them one that may be in one piece. */
  ghost predicate Together(blocks: seq<Block>, s: Setup) {
    && Total(Texts(blocks), s.count) <= s.config.targetTokens
    && forall b :: b in blocks ==> Words(b.text) != [] && (b.atomic ==> s.count(b.text) <= s.config.maxTokens)
  }

  lemma TogetherInit(blocks: seq<Block>, init: seq<Block>, last: Block, s: Setup)
    requires blocks == init + [last] && Together(blocks, s)
    ensures Together(init, s) && WithinItsLimit(last, s) && Strip(last.text) != "" && Texts(blocks) == Texts(init) + [last.text]
    ensures Total(Texts(blocks), s.count) == Total(Texts(init), s.count) + s.count(last.text) <= s.config.targetTokens
  {
    assert blocks[|init|] == last && last in blocks;
    WordsStrip(last.text);
    hide Words, Strip;
    TextsOfMore(init, last);
    TotalSnoc(Texts(init), last.text, s.count);
    hide Total;
    assert forall b :: b in init ==> b in blocks;
  }

  lemma TextsOfMore(init: seq<Block>, last: Block)
    ensures Texts(init + [last]) == Texts(init) + [last.text]
  {
  }

  lemma {:induction false} AllGathered(blocks: seq<Block>, s: Setup)
    requires Together(blocks, s)
    ensures var a := ProcessedAll(blocks, s);
      a.buffer == Texts(blocks) && a.tokens == Total(Texts(blocks), s.count) && a.drafts == [] && a.pendingOverlap == ""
  {
    hide Together, Processed, Total, WithinItsLimit, RouteOf, Strip;
    if blocks == [] {
      NothingGathered(blocks, s);
    } else {
      var n := |blocks| - 1;
      InitLast(blocks, n);
      TogetherInit(blocks, blocks[..n], blocks[n], s);
      AllGathered(blocks[..n], s);
      RouteByLimit(blocks[n], s);
      GatherOne(ProcessedAll(blocks[..n], s), blocks[n], Texts(blocks[..n]), s);
    }
  }

  lemma {:induction false} MergedHaveWords(runs: seq<seq<Block>>)
    requires AllNonEmpty(runs) && forall b :: b in Flatten(runs) ==> Words(b.text) != []
    ensures forall b :: b in MergeRuns(runs) ==> Words(b.text) != []
  {
    hide Words, Merged;
    if runs != [] {
      var run := runs[0];
      assert forall b :: b in run ==> b in Flatten(runs);
      assert forall b :: b in Flatten(runs[1..]) ==> b in Flatten(runs);
      MergedHaveWords(runs[1..]);
      MergedHasWords(run);
    }
  }

  lemma MergedHasWords(run: seq<Block>)
    requires run != [] && Words(run[0].text) != []
    ensures Words(Merged(run).text) != []
  {
    hide Words;
    WordsJoin(Texts(run), "\n");
    assert Texts(run)[0] == run[0].text;
  }

  /** What is grouped has words in it. */
  lemma GroupedHasWords(blocks: seq<Block>, marker: Marker)
    ensures forall b :: b in Grouped(Kept(blocks), marker) ==> Words(b.text) != []
  {
    hide Words, Runs, MergeRuns, Kept;
    KeptNotBlank(blocks);
    RunsNonEmpty(Kept(blocks), 0, marker);
    EmptyFirst(Kept(blocks));
    MergedHaveWords(Runs(Kept(blocks), 0, marker));
  }

  /** A document within the target is one chunk, its texts with blank lines between them, unless those push it over the
      ceiling: then it is cut as prose is. */
  lemma SmallDocumentIsOneChunk(blocks: seq<Block>, s: Setup)
    requires !HasSlides(Kept(blocks)) && Grouped(Kept(blocks), s.marker) != []
    requires Total(Texts(Grouped(Kept(blocks), s.marker)), s.count) <= s.config.targetTokens
    requires forall b :: b in Grouped(Kept(blocks), s.marker) && b.atomic ==> s.count(b.text) <= s.config.maxTokens
    ensures var content := Strip(Join(Texts(Grouped(Kept(blocks), s.marker)), "\n\n"));
      Conservation.Contents(Chunks(blocks, s))
      == if s.count(content) <= s.config.maxTokens then [content] else SentenceParts(content, s.config.maxTokens, s.count)
  {
    var grouped := Grouped(Kept(blocks), s.marker);
    GroupedHasWords(blocks, s.marker);
    assert Words(grouped[0].text) != [] by { assert grouped[0] in grouped; }
    TextsHaveWords(grouped);
    hide Grouped, Kept, Flushed, ProcessedAll, HasSlides, Words, Content, Strip, Join, Total;
    AllGathered(grouped, s);
    FlushedOnce(ProcessedAll(grouped, s), Texts(grouped), s);
  }

  lemma TextsHaveWords(grouped: seq<Block>)
    requires grouped != [] && Words(grouped[0].text) != []
    ensures Texts(grouped) != [] && Content(Texts(grouped)) != ""
  {
    assert Texts(grouped)[0] in Texts(grouped);
    hide Words, Content;
    ContentHolds(Texts(grouped), grouped[0].text);
  }

  lemma FlushedOnce(a: Assembly, texts: seq<string>, s: Setup)
    requires a.buffer == texts != [] && a.drafts == [] && Content(texts) != ""
    ensures Conservation.Contents(Flushed(a, true, s).drafts) == Pieces(Content(texts), s)
  {
    hide Content, Pieces, Drafted, TailOverlap;
    Conservation.ContentsOfMore([], Pieces(Content(texts), s), a.sectionPath, a.page, a.slide, s.count);
    NoContents();
    EmptyFirst(Pieces(Content(texts), s));
  }
}

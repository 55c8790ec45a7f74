/** No chunk exceeds the embedder's input limit. */
module Ceiling {
  import opened Text
  import opened Tokens
  import opened Blocks
  import opened Procedures
  import opened Splitting
  import opened Chunking

  /** Every whitespace-free word that can reach a chunk is within the ceiling by itself. */
  ghost predicate WordsFit(blocks: seq<Block>, s: Setup) {
    && AllWithin(BlockWords(blocks), s.config.maxTokens, s.count)
    && (forall b :: b in blocks ==> AllWithin(Words(Header(b)), s.config.maxTokens, s.count))
    && AllWithin(Words(CONTINUED), s.config.maxTokens, s.count)
  }

  /** Drafts carry dense ordinals and their own, legal, size. */
  ghost predicate Legal(drafts: seq<ChunkDraft>, s: Setup) {
    forall i :: 0 <= i < |drafts| ==>
      drafts[i].ordinal == i && drafts[i].tokenCount == s.count(drafts[i].content) <= s.config.maxTokens
  }

  ghost predicate WordsWithin(text: string, s: Setup) {
    AllWithin(Words(text), s.config.maxTokens, s.count)
  }

  ghost predicate Fit(a: Assembly, s: Setup) {
    && Legal(a.drafts, s)
    && (forall t :: t in a.buffer ==> WordsWithin(t, s))
    && WordsWithin(a.pendingOverlap, s)
  }

  lemma PiecesWithin(content: string, s: Setup)
    requires Lawful(s.count) && Words(content) != [] && WordsWithin(content, s)
    ensures forall p :: p in Pieces(content, s) ==> s.count(p) <= s.config.maxTokens
  {
    if s.count(content) > s.config.maxTokens {
      SentencePartsWithin(content, s.config.maxTokens, s.count);
    }
  }

  lemma DraftedLegal(drafts: seq<ChunkDraft>, pieces: seq<string>, path: seq<string>, page: Option<int>, slide: Option<int>, s: Setup)
    requires Legal(drafts, s) && forall p :: p in pieces ==> s.count(p) <= s.config.maxTokens
    ensures Legal(drafts + Drafted(pieces, |drafts|, path, page, slide, s.count), s)
  {
  }

  lemma {:induction false} WordsAllSource(parts: seq<string>, w: string) returns (i: nat)
    requires w in WordsAll(parts)
    ensures i < |parts| && w in Words(parts[i])
  {
    if w in Words(parts[0]) {
      i := 0;
    } else {
      i := WordsAllSource(parts[1..], w);
      i := i + 1;
    }
  }

  lemma ContentWithin(buffer: seq<string>, s: Setup)
    requires forall t :: t in buffer ==> WordsWithin(t, s)
    ensures WordsWithin(Content(buffer), s) && Words(Content(buffer)) == WordsAll(buffer)
    ensures Content(buffer) == "" <==> WordsAll(buffer) == []
  {
    JoinedWords(buffer);
    forall w | w in WordsAll(buffer) ensures s.count(w) <= s.config.maxTokens {
      var i := WordsAllSource(buffer, w);
      assert buffer[i] in buffer;
    }
  }

  lemma WithContentFits(a: Assembly, content: string, carry: bool, s: Setup)
    requires Lawful(s.count) && Fit(a, s) && WordsWithin(content, s)
    requires content == "" <==> Words(content) == []
    ensures Fit(WithContent(a, content, carry, s), s)
  {
    if content != "" {
      PiecesWithin(content, s);
      DraftedLegal(a.drafts, Pieces(content, s), a.sectionPath, a.page, a.slide, s);
      OverlapIsSuffix(content, s.config.OverlapTokens(), s.count);
    }
  }

  lemma FlushedFits(a: Assembly, carry: bool, s: Setup)
    requires Lawful(s.count) && Fit(a, s)
    ensures Fit(Flushed(a, carry, s), s)
  {
    if a.buffer != [] {
      ContentWithin(a.buffer, s);
      WithContentFits(a.(buffer := [], tokens := 0), Content(a.buffer), carry, s);
    }
  }

  lemma AddedFits(a: Assembly, block: Block, body: string, s: Setup)
    requires Lawful(s.count) && Fit(a, s) && WordsWithin(body, s)
    ensures Fit(Added(a, block, body, s), s)
  {
    hide Strip, Flushed;
    FlushedFits(a, true, s);
  }

  lemma EmittedFits(a: Assembly, block: Block, text: string, s: Setup)
    requires Lawful(s.count) && Fit(a, s) && WordsWithin(text, s)
    ensures Fit(Emitted(a, block, text, s), s)
  {
    FlushedFits(a, false, s);
    var ready := Started(Flushed(a, false, s).(pendingOverlap := ""), block, s);
    FlushedFits(Extended(ready, text, s.count(text)), false, s);
  }

  lemma {:induction false} AllFit(a: Assembly, block: Block, parts: seq<string>, s: Setup)
    requires Lawful(s.count) && Fit(a, s) && forall p :: p in parts ==> WordsWithin(p, s)
    ensures Fit(AddedAll(a, block, parts, s), s) && Fit(EmittedAll(a, block, parts, s), s)
  {
    if parts != [] {
      var init, last := parts[..|parts| - 1], parts[|parts| - 1];
      AllFit(a, block, init, s);
      AddedFits(AddedAll(a, block, init, s), block, last, s);
      EmittedFits(EmittedAll(a, block, init, s), block, last, s);
    }
  }

  lemma PartsWithin(block: Block, s: Setup)
    requires WordsWithin(block.text, s) && WordsWithin(Header(block), s) && WordsWithin(CONTINUED, s)
    ensures forall p :: p in SentenceParts(block.text, s.config.targetTokens, s.count) ==> WordsWithin(p, s)
    ensures forall p :: p in ProcedureParts(block.text, s.config.maxTokens, s.marker, s.count) ==> WordsWithin(p, s)
    ensures Header(block) != "" ==>
              forall p :: p in TableParts(block.text, Header(block), s.config.targetTokens, s.count) ==> WordsWithin(p, s)
  {
    var target, max := s.config.targetTokens, s.config.maxTokens;
    SentencePartsKeepWords(block.text, target, s.count);
    WordOfPart(SentenceParts(block.text, target, s.count), block.text, max, s.count);
    ProcedureWordsWithin(block.text, s);
    if Header(block) != "" { TableWordsWithin(block.text, Header(block), s); }
  }

  lemma ProcedureWordsWithin(text: string, s: Setup)
    requires WordsWithin(text, s) && WordsWithin(CONTINUED, s)
    ensures forall p :: p in ProcedureParts(text, s.config.maxTokens, s.marker, s.count) ==> WordsWithin(p, s)
  {
    var max := s.config.maxTokens;
    if |Steps(text, s.marker)| <= 1 {
      SentencePartsKeepWords(text, max, s.count);
      WordOfPart(SentenceParts(text, max, s.count), text, max, s.count);
    } else {
      var parts := ProcedureBodies(text, max, s.marker, s.count);
      ProcedureUnitsKeepWords(text, max, s.marker, s.count);
      WordOfPart(parts, text, max, s.count);
      forall i | 0 <= i < |parts| ensures WordsWithin(MarkContinued(parts)[i], s) {
        assert parts[i] in parts;
        WordsBetween(CONTINUED, "\n", parts[i]);
      }
    }
  }

  lemma TableWordsWithin(text: string, header: string, s: Setup)
    requires header != "" && WordsWithin(text, s) && WordsWithin(header, s)
    ensures forall p :: p in TableParts(text, header, s.config.targetTokens, s.count) ==> WordsWithin(p, s)
  {
    var target := s.config.targetTokens;
    if TableBody(text, header) != [] {
      TablePartsWords(text, header, target, s.count);
      var groups := TableGroups(text, header, target, s.count);
      forall i, w | 0 <= i < |groups| && w in Words(groups[i]) ensures s.count(w) <= s.config.maxTokens {
        WordsAllMember(groups, i, w);
        TableLines(text, header);
      }
    }
  }

  lemma ProcessedFits(a: Assembly, block: Block, s: Setup)
    requires Lawful(s.count) && Fit(a, s)
    requires WordsWithin(block.text, s) && WordsWithin(Header(block), s) && WordsWithin(CONTINUED, s)
    ensures Fit(Processed(a, block, s), s)
  {
    PartsWithin(block, s);
    match RouteOf(block, s)
    case Whole => AddedFits(a, block, block.text, s);
    case AsTable => AllFit(a, block, TableParts(block.text, Header(block), s.config.targetTokens, s.count), s);
    case AsProcedure => AllFit(a, block, ProcedureParts(block.text, s.config.maxTokens, s.marker, s.count), s);
    case AsProse => AllFit(a, block, SentenceParts(block.text, s.config.targetTokens, s.count), s);
  }

  lemma {:induction false} ProcessedAllFits(blocks: seq<Block>, s: Setup)
    requires Lawful(s.count) && WordsWithin(CONTINUED, s)
    requires forall b :: b in blocks ==> WordsWithin(b.text, s) && WordsWithin(Header(b), s)
    ensures Fit(ProcessedAll(blocks, s), s)
  {
    if blocks != [] {
      ProcessedAllFits(blocks[..|blocks| - 1], s);
      ProcessedFits(ProcessedAll(blocks[..|blocks| - 1], s), blocks[|blocks| - 1], s);
    }
  }

  /** A word of a block is a word of the document. */
  lemma BlockWordsWithin(blocks: seq<Block>, s: Setup)
    requires AllWithin(BlockWords(blocks), s.config.maxTokens, s.count)
    ensures forall b :: b in blocks ==> WordsWithin(b.text, s)
  {
    forall b, w | b in blocks && w in Words(b.text) ensures s.count(w) <= s.config.maxTokens {
      var i :| 0 <= i < |blocks| && blocks[i] == b;
      WordsAllMember(Texts(blocks), i, w);
    }
  }

  lemma {:induction false} KeptWords(blocks: seq<Block>)
    ensures BlockWords(Kept(blocks)) == BlockWords(blocks)
    ensures forall b :: b in Kept(blocks) ==> b in blocks
  {
    if blocks != [] {
      var init, last := blocks[..|blocks| - 1], blocks[|blocks| - 1];
      assert blocks == init + [last];
      KeptWords(init);
      BlockWordsAppend(init, [last]);
      BlockWordsOne(last);
      if Strip(last.text) != "" {
        BlockWordsAppend(Kept(init), [last]);
      } else {
        WordsStrip(last.text);
        EmptyFirst(Kept(init));
        EmptyFirst(BlockWords(init));
      }
    }
  }

  lemma GroupedHeaders(blocks: seq<Block>, marker: Marker)
    ensures forall b :: b in Grouped(blocks, marker) ==> b in blocks || Header(b) == ""
  {
    forall b | b in Grouped(blocks, marker) ensures b in blocks || Header(b) == "" {
      var k :| 0 <= k < |Grouped(blocks, marker)| && Grouped(blocks, marker)[k] == b;
      RunsNonEmpty(blocks, 0, marker);
      MergeKeepsLength(Runs(blocks, 0, marker));
      GroupingIsSound(blocks, k, marker);
    }
  }

  lemma {:induction false} MergeKeepsLength(runs: seq<seq<Block>>)
    requires AllNonEmpty(runs)
    ensures |MergeRuns(runs)| == |runs|
  {
    if runs != [] { MergeKeepsLength(runs[1..]); }
  }

  lemma {:induction false} SlidesLegal(blocks: seq<Block>, order: seq<int>, s: Setup)
    requires Lawful(s.count) && AllWithin(BlockWords(blocks), s.config.maxTokens, s.count)
    ensures Legal(SlideDrafts(blocks, order, s), s)
  {
    if order != [] {
      var key := order[|order| - 1];
      var here := OnSlide(blocks, key);
      SlidesLegal(blocks, order[..|order| - 1], s);
      BlockWordsWithin(blocks, s);
      OnSlideMember(blocks, key);
      SlideContentWords(here);
      var content := SlideContent(here);
      forall w | w in Words(content) ensures s.count(w) <= s.config.maxTokens {
        var i := WordsAllSource(Texts(here), w);
        assert here[i] in here;
      }
      WordsStrip(content);
      if content != "" {
        PiecesWithin(content, s);
        DraftedLegal(SlideDrafts(blocks, order[..|order| - 1], s), Pieces(content, s), FirstPath(here), Some(key), Some(key), s);
      }
    }
  }

  lemma {:induction false} OnSlideMember(blocks: seq<Block>, key: int)
    ensures forall b :: b in OnSlide(blocks, key) <==> b in blocks && SlideKey(b) == key
  {
    if blocks != [] { OnSlideMember(blocks[..|blocks| - 1], key); }
  }

  lemma SlideContentWords(here: seq<Block>)
    ensures Words(SlideContent(here)) == BlockWords(here)
    ensures SlideContent(here) == "" <==> BlockWords(here) == []
  {
    WordsNonBlank(Texts(here));
    JoinedWords(NonBlank(Texts(here)));
  }

  lemma JoinedWords(parts: seq<string>)
    ensures Words(Strip(Join(parts, "\n\n"))) == WordsAll(parts)
    ensures Strip(Join(parts, "\n\n")) == "" <==> WordsAll(parts) == []
  {
    WordsStrip(Join(parts, "\n\n"));
    WordsJoin(parts, "\n\n");
  }

  /** The hard ceiling: for every document and configuration, if every word fits the ceiling then every
      chunk does, its recorded size is its real size, and ordinals count up from zero. */
  lemma EveryChunkWithinCeiling(blocks: seq<Block>, s: Setup)
    requires Lawful(s.count) && WordsFit(blocks, s)
    ensures Legal(Chunks(blocks, s), s)
  {
    var kept := Kept(blocks);
    KeptWords(blocks);
    if kept != [] && HasSlides(kept) {
      SlidesLegal(kept, SlideOrder(kept), s);
    } else if kept != [] {
      var grouped := Grouped(kept, s.marker);
      GroupingKeepsWords(kept, s.marker);
      GroupedHeaders(kept, s.marker);
      BlockWordsWithin(grouped, s);
      ProcessedAllFits(grouped, s);
      FlushedFits(ProcessedAll(grouped, s), true, s);
    }
  }
}

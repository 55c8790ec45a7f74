/** When the hard ceiling holds: exactly when no word of the document is over it. */
module CeilingExact {
  import opened Text
  import opened Tokens
  import opened Blocks
  import opened Procedures
  import opened Splitting
  import opened Chunking
  import opened Ceiling
  import opened Conservation
  import opened Slides

  lemma {:induction false} LastWordEnds(s: string)
    requires !EndsOpen(s)
    ensures Words(s) != [] && IsSuffix(Words(s)[|Words(s)| - 1], s)
  {
    hide Words, IsSpace;
    var init, c := s[..|s| - 1], s[|s| - 1];
    assert s == init + [c];
    if !EndsOpen(init) { LastWordEnds(init); }
    WordsStep(s, init, c);
  }

  /** A word counts at most what its text counts. */
  lemma {:induction false} WordCountsLess(text: string, w: string, count: Counter)
    requires Lawful(count) && w in Words(text)
    ensures count(w) <= count(text)
  {
    NoWords();
    hide Words, IsSpace;
    var init, c := text[..|text| - 1], text[|text| - 1];
    assert text == init + [c];
    assert count(init) <= count(init + [c]);
    WordsStep(text, init, c);
    if w in Words(init) {
      WordCountsLess(init, w, count);
    } else {
      LastWordEnds(text);
      assert text == text[..|text| - |w|] + w;
      assert count(w) <= count(text[..|text| - |w|] + w);
    }
  }

  /** Every new word of a ledger is in one of its chunks. */
  lemma {:induction false} NovelWordIsInChunk(ledger: seq<Segment>, repeats: set<WordSeq>, w: string) returns (i: nat)
    requires Sound(ledger, repeats) && w in AllFresh(ledger)
    ensures i < |AllChunks(ledger)| && w in Words(AllChunks(ledger)[i])
  {
    var n := |ledger| - 1;
    var init, seg := ledger[..n], ledger[n];
    hide Words, MayRepeat;
    if w in seg.novel {
      assert w in WordsAll(seg.chunks);
      i := WordsAllSource(seg.chunks, w);
      i := |AllChunks(init)| + i;
    } else {
      assert Sound(init, repeats) by {
        forall k | 0 <= k < n
          ensures WordsAll(init[k].chunks) == init[k].repeated + init[k].novel && MayRepeat(init[k].repeated, init[..k], repeats)
        {
          assert init[..k] == ledger[..k] && init[k] == ledger[k];
        }
      }
      i := NovelWordIsInChunk(init, repeats, w);
    }
  }

  /** The header of a table reads every word of the lines it stands for; it may read more. */
  ghost predicate HeaderCovers(b: Block) {
    Header(b) == "" || TableBody(b.text, Header(b)) == [] || forall w :: w in WordsAll(TableHead(b.text, Header(b))) ==> w in Words(Header(b))
  }

  lemma CoveredWord(b: Block, s: Setup, w: string)
    requires w in Words(b.text) && (RouteOf(b, s).AsTable? ==> HeaderCovers(b))
    ensures w in CarriedWords(b, s)
  {
    hide Words, TableBody, TableHead;
    TableLines(b.text, Header(b));
  }

  lemma {:induction false} CoveredWords(blocks: seq<Block>, s: Setup, w: string)
    requires w in BlockWords(blocks) && forall b :: b in blocks && RouteOf(b, s).AsTable? ==> HeaderCovers(b)
    ensures w in CarriedAll(blocks, s)
  {
    hide Words, RouteOf, HeaderCovers, CarriedWords, BlockWords;
    if blocks == [] {
      assert Texts([]) == [];
      assert BlockWords([]) == [] by { NoBlocks(); }
    } else {
      var init, last := blocks[..|blocks| - 1], blocks[|blocks| - 1];
      assert blocks == init + [last] && last in blocks;
      BlockWordsAppend(init, [last]);
      BlockWordsOne(last);
      if w in BlockWords(init) { CoveredWords(init, s, w); } else { CoveredWord(last, s, w); }
    }
  }

  lemma NoBlocks()
    ensures BlockWords([]) == []
  {
  }

  /** Every word of the document is in one of its chunks. */
  lemma WordReachesChunk(blocks: seq<Block>, s: Setup, w: string) returns (i: nat)
    requires w in BlockWords(blocks) && forall b :: b in blocks && RouteOf(b, s).AsTable? ==> HeaderCovers(b)
    ensures i < |Chunks(blocks, s)| && w in Words(Chunks(blocks, s)[i].content)
  {
    hide Words, Chunks, Kept, Grouped, BlockWords, HeaderCovers, HasSlides, SlideBlocks, SlideOrder, CarriedAll;
    var kept := Kept(blocks);
    KeptWords(blocks);
    if HasSlides(kept) {
      var _ := DeckChunks(blocks, s);
      SameWords(kept, SlideBlocks(kept, SlideOrder(kept)), w);
      i := WordsAllSource(Contents(Chunks(blocks, s)), w);
    } else {
      var ledger := CarriedIsConserved(blocks, s);
      GroupingKeepsWords(kept, s.marker);
      GroupedHeaders(kept, s.marker);
      CoveredWords(Grouped(kept, s.marker), s, w);
      i := NovelWordIsInChunk(ledger, Repeats(blocks) + {[]}, w);
      assert Contents(Chunks(blocks, s))[i] == AllChunks(ledger)[i];
    }
  }

  /** Rearranged blocks have the same words. */
  lemma SameWords(xs: seq<Block>, ys: seq<Block>, w: string)
    requires multiset(xs) == multiset(ys) && w in BlockWords(xs)
    ensures w in BlockWords(ys)
  {
    hide Words;
    var i := WordsAllSource(Texts(xs), w);
    assert xs[i] in multiset(ys);
    var j :| 0 <= j < |ys| && ys[j] == xs[i];
    WordsAllMember(Texts(ys), j, w);
  }

  /** Every chunk is within the ceiling if and only if every word of the document is, given that what the chunker
      itself repeats (the marker and table headers) is, and that the header of a table that is split reads every word
      it stands for. */
  lemma ChunksFitIffWordsFit(blocks: seq<Block>, s: Setup)
    requires Lawful(s.count) && AllWithin(Words(CONTINUED), s.config.maxTokens, s.count)
    requires forall b :: b in blocks ==> AllWithin(Words(Header(b)), s.config.maxTokens, s.count) && (RouteOf(b, s).AsTable? ==> HeaderCovers(b))
    ensures (forall i :: 0 <= i < |Chunks(blocks, s)| ==> s.count(Chunks(blocks, s)[i].content) <= s.config.maxTokens)
       <==> AllWithin(BlockWords(blocks), s.config.maxTokens, s.count)
  {
    hide Chunks, Words, BlockWords, HeaderCovers, RouteOf, HasSlides, Kept;
    if AllWithin(BlockWords(blocks), s.config.maxTokens, s.count) {
      EveryChunkWithinCeiling(blocks, s);
    } else {
      var w :| w in BlockWords(blocks) && s.count(w) > s.config.maxTokens;
      var i := WordReachesChunk(blocks, s, w);
      WordCountsLess(Chunks(blocks, s)[i].content, w, s.count);
    }
  }
}

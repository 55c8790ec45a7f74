/** Slide decks: one chunk per slide, every block on exactly one slide. */
module Slides {
  import opened Text
  import opened Tokens
  import opened Blocks
  import opened Procedures
  import opened Splitting
  import opened Chunking
  import opened Ceiling
  import opened Conservation

  ghost predicate Distinct<T>(xs: seq<T>) {
    forall i, j :: 0 <= i < j < |xs| ==> xs[i] != xs[j]
  }

  /** The blocks of the slides in `order`, slide by slide. */
  function SlideBlocks(blocks: seq<Block>, order: seq<int>): seq<Block> {
    if order == [] then []
    else SlideBlocks(blocks, order[..|order| - 1]) + OnSlide(blocks, order[|order| - 1])
  }

  lemma {:induction false} OrderDistinct(blocks: seq<Block>)
    ensures Distinct(SlideOrder(blocks))
    ensures forall b :: b in blocks ==> SlideKey(b) in SlideOrder(blocks)
  {
    if blocks != [] {
      var init, last := blocks[..|blocks| - 1], blocks[|blocks| - 1];
      OrderDistinct(init);
      assert forall b :: b in blocks ==> b in init || b == last;
    }
  }

  lemma OneMoreOnSlide(blocks: seq<Block>, b: Block, key: int)
    ensures OnSlide(blocks + [b], key) == OnSlide(blocks, key) + (if SlideKey(b) == key then [b] else [])
  {
    assert (blocks + [b])[..|blocks|] == blocks;
  }

  lemma {:induction false} OneMoreBlock(blocks: seq<Block>, b: Block, order: seq<int>)
    requires Distinct(order)
    ensures multiset(SlideBlocks(blocks + [b], order))
            == multiset(SlideBlocks(blocks, order)) + (if SlideKey(b) in order then multiset{b} else multiset{})
  {
    hide SlideKey, OnSlide;
    if order != [] {
      var init, key := order[..|order| - 1], order[|order| - 1];
      OneMoreOnSlide(blocks, b, key);
      OneMoreBlock(blocks, b, init);
      hide SlideBlocks;
      LastIsNew(order);
      assert SlideKey(b) in order <==> SlideKey(b) in init || SlideKey(b) == key by { assert order == init + [key]; }
    }
  }

  lemma LastIsNew(order: seq<int>)
    requires order != [] && Distinct(order)
    ensures order[|order| - 1] !in order[..|order| - 1]
  {
  }

  /** Grouping by slide keeps every block exactly once. */
  lemma {:induction false} SlidesPartition(blocks: seq<Block>)
    ensures multiset(SlideBlocks(blocks, SlideOrder(blocks))) == multiset(blocks)
  {
    if blocks != [] {
      var init, last := blocks[..|blocks| - 1], blocks[|blocks| - 1];
      var order := SlideOrder(init);
      assert blocks == init + [last];
      SlidesPartition(init);
      OrderDistinct(init);
      OrderDistinct(blocks);
      OneMoreBlock(init, last, SlideOrder(blocks));
      if SlideKey(last) !in order {
        OrderCoversSlides(init, SlideKey(last));
        assert SlideOrder(blocks)[..|order|] == order;
        EmptyFirst(SlideBlocks(init, order));
      }
    }
  }

  /** The chunks of a deck hold exactly the words of its slides, slide by slide and in order. */
  lemma {:induction false} SlidesKeepWords(blocks: seq<Block>, order: seq<int>, s: Setup)
    ensures WordsAll(Contents(SlideDrafts(blocks, order, s))) == BlockWords(SlideBlocks(blocks, order))
  {
    if order != [] {
      var init, key := order[..|order| - 1], order[|order| - 1];
      var before, here := SlideDrafts(blocks, init, s), OnSlide(blocks, key);
      SlidesKeepWords(blocks, init, s);
      BlockWordsAppend(SlideBlocks(blocks, init), here);
      SlideContentWords(here);
      SlideAddsWords(before, key, here, s);
    }
  }

  lemma SlideAddsWords(before: seq<ChunkDraft>, key: int, here: seq<Block>, s: Setup)
    ensures WordsAll(Contents(WithSlide(before, key, here, s))) == WordsAll(Contents(before)) + BlockWords(here)
  {
    SlideContentWords(here);
    var content := SlideContent(here);
    if content == "" {
      EmptyFirst(WordsAll(Contents(before)));
    } else {
      PiecesKeepWords(content, s);
      ContentsOfMore(before, Pieces(content, s), FirstPath(here), Some(key), Some(key), s.count);
      WordsAllAppend(Contents(before), Pieces(content, s));
    }
  }

  // ---------------------------------------------------------------- the chunks of each slide

  /** The first section path that is not empty, or the empty one when there is none. */
  ghost predicate IsFirstPath(path: seq<string>, here: seq<Block>) {
    || (path == [] && forall k :: 0 <= k < |here| ==> here[k].sectionPath == [])
    || (path != [] && exists k :: 0 <= k < |here| && here[k].sectionPath == path && forall m :: 0 <= m < k ==> here[m].sectionPath == [])
  }

  lemma {:induction false} FirstPathIs(here: seq<Block>)
    ensures IsFirstPath(FirstPath(here), here)
  {
    if here != [] && here[0].sectionPath == [] {
      FirstPathIs(here[1..]);
      if FirstPath(here) != [] {
        var k :| 0 <= k < |here[1..]| && here[1..][k].sectionPath == FirstPath(here) && forall m :: 0 <= m < k ==> here[1..][m].sectionPath == [];
        assert here[k + 1].sectionPath == FirstPath(here);
        assert forall m :: 0 < m < k + 1 ==> here[m] == here[1..][m - 1];
      } else {
        assert forall k :: 0 < k < |here| ==> here[k] == here[1..][k - 1];
      }
    } else if here != [] {
      assert here[0].sectionPath == FirstPath(here);
    }
  }

  /** The chunks of one slide: its texts with blank lines between them, whole when that fits the ceiling and cut as prose is
      otherwise, and each labelled with the slide's number and the first section path on it. */
  ghost predicate OfSlide(drafts: seq<ChunkDraft>, key: int, here: seq<Block>, s: Setup) {
    var content := Strip(Join(Texts(here), "\n\n"));
    && Contents(drafts) == (if s.count(content) <= s.config.maxTokens then [content] else SentenceParts(content, s.config.maxTokens, s.count))
    && forall d :: d in drafts ==> d.page == Some(key) && d.slideIndex == Some(key) && IsFirstPath(d.sectionPath, here)
  }

  lemma {:induction false} NoneDropped(parts: seq<string>)
    requires forall p :: p in parts ==> Words(p) != []
    ensures NonBlank(parts) == parts
  {
    hide Words, Strip;
    if parts != [] {
      var n := |parts| - 1;
      InitLast(parts, n);
      assert parts[n] in parts;
      WordsStrip(parts[n]);
      NoneDropped(parts[..n]);
    }
  }

  lemma SlideAdds(before: seq<ChunkDraft>, key: int, here: seq<Block>, s: Setup) returns (more: seq<ChunkDraft>)
    requires here != [] && forall b :: b in here ==> Words(b.text) != []
    ensures WithSlide(before, key, here, s) == before + more && OfSlide(more, key, here, s)
  {
    hide *;
    SlideHasContent(here);
    NoneDropped(Texts(here));
    FirstPathIs(here);
    more := SlideDrafted(before, key, here, s);
    SlideContentIs(here);
    OfSlideIs(more, key, here, SlideContent(here), s);
  }

  lemma SlideContentIs(here: seq<Block>)
    requires NonBlank(Texts(here)) == Texts(here)
    ensures SlideContent(here) == Strip(Join(Texts(here), "\n\n"))
  {
  }

  lemma SlideDrafted(before: seq<ChunkDraft>, key: int, here: seq<Block>, s: Setup) returns (more: seq<ChunkDraft>)
    requires SlideContent(here) != ""
    ensures WithSlide(before, key, here, s) == before + more && Contents(more) == Pieces(SlideContent(here), s)
    ensures forall d :: d in more ==> d.page == Some(key) && d.slideIndex == Some(key) && d.sectionPath == FirstPath(here)
  {
    hide SlideContent, Pieces, FirstPath;
    more := Drafted(Pieces(SlideContent(here), s), |before|, FirstPath(here), Some(key), Some(key), s.count);
  }

  lemma OfSlideIs(drafts: seq<ChunkDraft>, key: int, here: seq<Block>, content: string, s: Setup)
    requires content == Strip(Join(Texts(here), "\n\n")) && Contents(drafts) == Pieces(content, s)
    requires IsFirstPath(FirstPath(here), here)
    requires forall d :: d in drafts ==> d.page == Some(key) && d.slideIndex == Some(key) && d.sectionPath == FirstPath(here)
    ensures OfSlide(drafts, key, here, s)
  {
    hide Strip, Join, Texts, FirstPath, IsFirstPath, SentenceParts, Contents;
  }

  lemma SlideHasContent(here: seq<Block>)
    requires here != [] && forall b :: b in here ==> Words(b.text) != []
    ensures SlideContent(here) != "" && forall p :: p in Texts(here) ==> Words(p) != []
  {
    hide Words;
    assert here[0] in here && Texts(here)[0] == here[0].text;
    SlideContentWords(here);
    forall p | p in Texts(here) ensures Words(p) != [] {
      var i :| 0 <= i < |here| && Texts(here)[i] == p;
      assert here[i] in here;
    }
  }

  /** Slide by slide, in the order given. */
  lemma {:induction false} SlideGroups(blocks: seq<Block>, order: seq<int>, s: Setup) returns (groups: seq<seq<ChunkDraft>>)
    requires forall b :: b in blocks ==> Words(b.text) != []
    requires forall key :: key in order ==> OnSlide(blocks, key) != []
    ensures SlideDrafts(blocks, order, s) == Flatten(groups) && |groups| == |order|
    ensures forall i :: 0 <= i < |order| ==> OfSlide(groups[i], order[i], OnSlide(blocks, order[i]), s)
  {
    hide Words, OnSlide, WithSlide, OfSlide;
    groups := [];
    if order != [] {
      var n := |order| - 1;
      var here := OnSlide(blocks, order[n]);
      assert order[n] in order && forall k :: k in order[..n] ==> k in order;
      OnSlideMember(blocks, order[n]);
      var init := SlideGroups(blocks, order[..n], s);
      var more := SlideAdds(SlideDrafts(blocks, order[..n], s), order[n], here, s);
      groups := init + [more];
      FlattenAppend(init, [more]);
      FlattenLast(more);
    }
  }

  lemma FlattenLast<T>(more: seq<T>)
    ensures Flatten([more]) == more
  {
    EmptyFirst(more);
    assert [more][1..] == [];
  }

  /** The blocks of a slide are those of the document with its number, in their order. */
  lemma {:induction false} OnSlideSplits(xs: seq<Block>, ys: seq<Block>, key: int)
    ensures OnSlide(xs + ys, key) == OnSlide(xs, key) + OnSlide(ys, key)
  {
    if ys == [] {
      EmptyFirst(xs);
      EmptyFirst(OnSlide(xs, key));
    } else {
      var n := |ys| - 1;
      InitLast(ys, n);
      Assoc(xs, ys[..n], [ys[n]]);
      OnSlideSplits(xs, ys[..n], key);
      OneMoreOnSlide(xs + ys[..n], ys[n], key);
      OneMoreOnSlide(ys[..n], ys[n], key);
      Assoc(OnSlide(xs, key), OnSlide(ys[..n], key), if SlideKey(ys[n]) == key then [ys[n]] else []);
    }
  }

  lemma OnSlideOne(b: Block, key: int)
    ensures OnSlide([b], key) == if (if b.slideIndex.Some? then b.slideIndex.value else 0) == key then [b] else []
  {
    OneMoreOnSlide([], b, key);
    EmptyFirst([b]);
  }

  /** Slide `a` has a block before the first one of slide `b`. */
  ghost predicate Precedes(blocks: seq<Block>, a: int, b: int) {
    exists n :: 0 <= n <= |blocks| && OnSlide(blocks[..n], a) != [] && OnSlide(blocks[..n], b) == []
  }

  ghost predicate ByFirstAppearance(blocks: seq<Block>, order: seq<int>) {
    forall i, j :: 0 <= i < j < |order| ==> Precedes(blocks, order[i], order[j])
  }

  lemma PrecedesMore(blocks: seq<Block>, m: nat, a: int, b: int)
    requires m <= |blocks| && Precedes(blocks[..m], a, b)
    ensures Precedes(blocks, a, b)
  {
    hide OnSlide;
    var n :| 0 <= n <= m && OnSlide(blocks[..m][..n], a) != [] && OnSlide(blocks[..m][..n], b) == [];
    assert blocks[..m][..n] == blocks[..n];
  }

  lemma PrecedesNew(blocks: seq<Block>, m: nat, a: int, b: int)
    requires m <= |blocks| && a in SlideOrder(blocks[..m]) && b !in SlideOrder(blocks[..m])
    ensures Precedes(blocks, a, b)
  {
    hide OnSlide, SlideOrder;
    ListedIsThere(blocks[..m], a);
    OrderCoversSlides(blocks[..m], b);
  }

  /** Slides come in the order in which they first appear. */
  lemma {:induction false} OrderByAppearance(blocks: seq<Block>)
    ensures ByFirstAppearance(blocks, SlideOrder(blocks))
  {
    hide OnSlide, SlideKey, Precedes;
    if blocks != [] {
      var m := |blocks| - 1;
      var order, longer := SlideOrder(blocks[..m]), SlideOrder(blocks);
      OrderByAppearance(blocks[..m]);
      forall i, j | 0 <= i < j < |longer| ensures Precedes(blocks, longer[i], longer[j]) {
        if j < |order| { PrecedesMore(blocks, m, order[i], order[j]); } else { PrecedesNew(blocks, m, order[i], longer[j]); }
      }
    }
  }

  lemma ListedIsThere(blocks: seq<Block>, key: int)
    requires key in SlideOrder(blocks)
    ensures OnSlide(blocks, key) != []
  {
    ListedSlideHasBlock(blocks, key);
  }

  lemma {:induction false} KeptNotBlank(blocks: seq<Block>)
    ensures forall b :: b in Kept(blocks) ==> Words(b.text) != []
  {
    if blocks != [] {
      KeptNotBlank(blocks[..|blocks| - 1]);
      WordsStrip(blocks[|blocks| - 1].text);
    }
  }

  /** Every listed slide has something on it. */
  lemma {:induction false} ListedSlideHasBlock(blocks: seq<Block>, key: int)
    requires key in SlideOrder(blocks)
    ensures exists b :: b in OnSlide(blocks, key)
  {
    var init, last := blocks[..|blocks| - 1], blocks[|blocks| - 1];
    if SlideKey(last) == key {
      assert last in OnSlide(blocks, key);
    } else {
      ListedSlideHasBlock(init, key);
      var b :| b in OnSlide(init, key);
      assert b in OnSlide(blocks, key);
    }
  }

  /** The rule for slide decks, end to end: slides come in the order of first appearance, no block is lost or shared, and the
      chunks of each slide are made of that slide alone. */
  lemma DeckChunks(blocks: seq<Block>, s: Setup) returns (groups: seq<seq<ChunkDraft>>)
    requires HasSlides(Kept(blocks))
    ensures var kept, order := Kept(blocks), SlideOrder(Kept(blocks));
            && Distinct(order) && ByFirstAppearance(kept, order) && multiset(SlideBlocks(kept, order)) == multiset(kept)
            && WordsAll(Contents(Chunks(blocks, s))) == BlockWords(SlideBlocks(kept, order))
            && Chunks(blocks, s) == Flatten(groups) && |groups| == |order|
            && forall i :: 0 <= i < |order| ==> OfSlide(groups[i], order[i], OnSlide(kept, order[i]), s)
  {
    var kept, order := Kept(blocks), SlideOrder(Kept(blocks));
    OrderDistinct(kept);
    OrderByAppearance(kept);
    SlidesPartition(kept);
    SlidesKeepWords(kept, order, s);
    KeptNotBlank(blocks);
    hide OnSlide, SlideOrder, Words, Contents, OfSlide, ByFirstAppearance, Distinct, SlideBlocks, Flatten;
    forall key | key in order ensures OnSlide(kept, key) != [] { ListedIsThere(kept, key); }
    groups := SlideGroups(kept, order, s);
  }

  /** So a deck whose slides all fit the ceiling has exactly one chunk for each slide. */
  lemma OneChunkPerSlide(blocks: seq<Block>, s: Setup)
    requires HasSlides(Kept(blocks))
    requires forall key :: key in SlideOrder(Kept(blocks)) ==> s.count(Strip(Join(Texts(OnSlide(Kept(blocks), key)), "\n\n"))) <= s.config.maxTokens
    ensures var kept, order, chunks := Kept(blocks), SlideOrder(Kept(blocks)), Chunks(blocks, s);
            && |chunks| == |order|
            && forall i :: 0 <= i < |order| ==>
                 && chunks[i].content == Strip(Join(Texts(OnSlide(kept, order[i])), "\n\n"))
                 && chunks[i].slideIndex == Some(order[i])
  {
    hide Chunks, Kept, OnSlide, SlideOrder, HasSlides, Strip, Join, Texts, SentenceParts, IsFirstPath, ByFirstAppearance, Distinct, SlideBlocks, BlockWords;
    var groups: seq<seq<ChunkDraft>> := DeckChunks(blocks, s);
    var order := SlideOrder(Kept(blocks));
    forall i | 0 <= i < |order|
      ensures |groups[i]| == 1 && groups[i][0].content == Strip(Join(Texts(OnSlide(Kept(blocks), order[i])), "\n\n")) && groups[i][0].slideIndex == Some(order[i])
    {
      assert order[i] in order;
      LoneDraft(groups[i], order[i], OnSlide(Kept(blocks), order[i]), s);
    }
    FlattenOnes(groups);
  }

  lemma LoneDraft(drafts: seq<ChunkDraft>, key: int, here: seq<Block>, s: Setup)
    requires OfSlide(drafts, key, here, s) && s.count(Strip(Join(Texts(here), "\n\n"))) <= s.config.maxTokens
    ensures |drafts| == 1 && drafts[0].content == Strip(Join(Texts(here), "\n\n")) && drafts[0].slideIndex == Some(key)
  {
    hide Strip, Join, Texts, IsFirstPath, SentenceParts;
    assert |Contents(drafts)| == 1;
    assert drafts[0] in drafts && Contents(drafts)[0] == drafts[0].content;
  }

  lemma {:induction false} FlattenOnes<T>(groups: seq<seq<T>>)
    requires forall i :: 0 <= i < |groups| ==> |groups[i]| == 1
    ensures |Flatten(groups)| == |groups| && forall i :: 0 <= i < |groups| ==> Flatten(groups)[i] == groups[i][0]
  {
    if groups != [] { FlattenOnes(groups[1..]); }
  }
}

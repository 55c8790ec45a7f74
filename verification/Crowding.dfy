/** How large the texts buffered within a target can grow once they are joined, under the default counter: every separator
    adds two characters that the running total does not count. */
module Crowding {
  import opened Text
  import opened Tokens
  import opened Blocks
  import opened Packing
  import opened Procedures
  import opened Splitting
  import opened SentenceCuts
  import opened Chunking
  import opened Ceiling
  import opened Conservation
  import opened Wholeness

  // ---------------------------------------------------------------- the default counter in whole numbers

  /** What it means to measure at most `n`. */
  lemma EstimateAtMost(t: string, n: nat)
    requires n >= 1
    ensures EstimateTokens(t) <= n <==> 2 * |t| <= 7 * n && 13 * |Words(t)| <= 10 * n
  {
    if t == "" {
      NoWords();
    } else {
      hide Words;
      CeilAtMost(RealMax(|t| as real / 3.5, |Words(t)| as real * 1.3), n);
      assert |t| as real / 3.5 <= n as real <==> 2 * |t| <= 7 * n;
      assert |Words(t)| as real * 1.3 <= n as real <==> 13 * |Words(t)| <= 10 * n;
    }
  }

  lemma CeilAtMost(x: real, n: int)
    ensures Ceil(x) <= n <==> x <= n as real
  {
  }

  /** A text with words measures at least two. */
  lemma SomeWordsMeasure(t: string)
    requires Words(t) != []
    ensures EstimateTokens(t) >= 2 && 2 * |t| <= 7 * EstimateTokens(t) && 13 * |Words(t)| <= 10 * EstimateTokens(t)
  {
    NoWords();
    assert EstimateTokens(t) >= 1;
    EstimateAtMost(t, EstimateTokens(t));
    hide EstimateTokens, Words;
    EstimateAtMost(t, 1);
  }

  // ---------------------------------------------------------------- sizes of joined texts

  function Chars(texts: seq<string>): nat {
    if texts == [] then 0 else |texts[0]| + Chars(texts[1..])
  }

  lemma {:induction false} JoinLength(texts: seq<string>)
    requires texts != []
    ensures |Join(texts, "\n\n")| == Chars(texts) + 2 * (|texts| - 1)
  {
    if |texts| == 1 {
      assert texts[1..] == [];
    } else {
      JoinLength(texts[1..]);
    }
  }

  /** The totals bound characters and words, and count two for each text but the largest. */
  lemma {:induction false} TotalsBound(texts: seq<string>)
    requires NoBlank(texts)
    ensures 2 * Chars(texts) <= 7 * Total(texts, EstimateTokens) && 13 * |WordsAll(texts)| <= 10 * Total(texts, EstimateTokens)
    ensures Total(texts, EstimateTokens) >= 2 * |texts|
  {
    hide EstimateTokens, Words;
    if texts != [] {
      assert texts[0] in texts;
      SomeWordsMeasure(texts[0]);
      TotalsBound(texts[1..]);
    }
  }

  lemma {:induction false} TotalHolds(texts: seq<string>, text: string)
    requires NoBlank(texts) && text in texts
    ensures Total(texts, EstimateTokens) >= EstimateTokens(text) + 2 * (|texts| - 1)
  {
    hide EstimateTokens, Words;
    if text == texts[0] {
      TotalsBound(texts[1..]);
    } else {
      assert texts[0] in texts;
      SomeWordsMeasure(texts[0]);
      TotalHolds(texts[1..], text);
    }
  }

  /** The most characters texts within `target` can have once joined, one of them measuring at least `least`. */
  function CrowdChars(target: int, least: int): int {
    7 * target / 2 + 2 * ((target - least) / 2)
  }

  /** What that measures. */
  function Crowd(target: int, least: int): int {
    (2 * CrowdChars(target, least) + 6) / 7
  }

  lemma CrowdIsLeast(target: int, least: int, n: int)
    ensures Crowd(target, least) <= n <==> 2 * CrowdChars(target, least) <= 7 * n
    ensures target >= least ==> Crowd(target, least) >= target
  {
  }

  /** No buffer within the target measures more. */
  lemma CrowdedBuffer(buffer: seq<string>, text: string, target: int, least: nat)
    requires NoBlank(buffer) && text in buffer && Total(buffer, EstimateTokens) <= target && EstimateTokens(text) >= least >= 2
    ensures EstimateTokens(Content(buffer)) <= Crowd(target, least) && target >= least + 2 * (|buffer| - 1)
  {
    hide EstimateTokens, Words, Strip, Join, CrowdChars;
    var joined := Join(buffer, "\n\n");
    TotalsBound(buffer);
    TotalHolds(buffer, text);
    JoinLength(buffer);
    WordsJoin(buffer, "\n\n");
    var n := Crowd(target, least);
    CrowdIsLeast(target, least, n);
    CrowdRoom(Chars(buffer), |buffer|, target, least, n);
    EstimateAtMost(joined, n);
    EstimateIsLawful();
    hide Crowd;
    StripCountsLess(EstimateTokens, joined);
  }

  lemma CrowdRoom(chars: nat, texts: nat, target: int, least: nat, n: int)
    requires 2 * chars <= 7 * target && target >= least + 2 * (texts - 1) && 2 * CrowdChars(target, least) <= 7 * n
    ensures 2 * (chars + 2 * (texts - 1)) <= 7 * n
  {
    var most, between := 7 * target / 2, (target - least) / 2;
    assert chars <= most && texts - 1 <= between;
    assert CrowdChars(target, least) == most + 2 * between;
    hide CrowdChars;
  }

  /** A ceiling that holds the fullest buffer bears any text of the size. */
  lemma CrowdBears(text: string, least: nat, s: Setup)
    requires s.count == EstimateTokens && EstimateTokens(text) >= least >= 2
    requires s.config.targetTokens < least + 2 || Crowd(s.config.targetTokens, least) <= s.config.maxTokens
    ensures Bearable(text, s)
  {
    hide EstimateTokens, Words, Content, Crowd, Total;
    forall buffer: seq<string> | |buffer| >= 2 && text in buffer && NoBlank(buffer) && Total(buffer, s.count) <= s.config.targetTokens
      ensures s.count(Content(buffer)) <= s.config.maxTokens
    {
      CrowdedBuffer(buffer, text, s.config.targetTokens, least);
    }
  }

  // ---------------------------------------------------------------- the sentences of joined texts

  /** No sentence spans two texts. */
  lemma SentencesJoin(a: string, rest: string)
    requires Edged(a) && Edged(rest)
    ensures Sentences(a + ("\n\n" + rest)) == Sentences(a) + Sentences(rest)
  {
    BlankLineParts();
    CutAtBoundary(a, "\n\n", rest);
    Assoc(a, "\n\n", rest);
    hide *;
  }

  lemma BlankLineParts()
    ensures AllSpace("\n\n") && Contains("\n\n", "\n\n")
  {
    assert OccursAt("\n\n", "\n\n", 0);
  }

  ghost predicate AllEdged(texts: seq<string>) {
    forall i :: 0 <= i < |texts| ==> Edged(texts[i])
  }

  lemma {:induction false} JoinEdged(texts: seq<string>)
    requires texts != [] && AllEdged(texts)
    ensures Edged(Join(texts, "\n\n"))
  {
    hide IsSpace;
    if |texts| > 1 { JoinEdged(texts[1..]); }
  }

  function SentencesAll(texts: seq<string>): seq<string> {
    if texts == [] then [] else Sentences(texts[0]) + SentencesAll(texts[1..])
  }

  /** The sentences of the buffered content are those of the texts. */
  lemma {:induction false} SentencesOfJoin(texts: seq<string>)
    requires texts != [] && AllEdged(texts)
    ensures Sentences(Join(texts, "\n\n")) == SentencesAll(texts)
  {
    hide Sentences, Edged;
    if |texts| == 1 {
      assert texts[1..] == [];
      EmptyFirst(Sentences(texts[0]));
    } else {
      var rest := texts[1..];
      JoinEdged(rest);
      SentencesOfJoin(rest);
      SentencesJoin(texts[0], Join(rest, "\n\n"));
      Assoc(texts[0], "\n\n", Join(rest, "\n\n"));
    }
  }

  // ---------------------------------------------------------------- a document buffered as a whole

  /** Blocks that are all buffered, one after another, within the target. */
  ghost predicate Gathers(blocks: seq<Block>, s: Setup) {
    && (forall i :: 0 <= i < |blocks| ==> RouteOf(blocks[i], s).Whole? && Edged(blocks[i].text))
    && Total(Texts(blocks), s.count) <= s.config.targetTokens
  }

  lemma GathersInit(blocks: seq<Block>, init: seq<Block>, last: Block, s: Setup)
    requires blocks == init + [last] && Gathers(blocks, s)
    ensures Gathers(init, s) && RouteOf(last, s).Whole? && Strip(last.text) != ""
    ensures Total(Texts(blocks), s.count) == Total(Texts(init), s.count) + s.count(last.text) <= s.config.targetTokens
    ensures Texts(blocks) == Texts(init) + [last.text]
  {
    assert blocks[|init|] == last;
    StripOf(last.text);
    hide Strip, IsSpace, RouteOf;
    assert Texts(blocks) == Texts(init) + [last.text];
    TotalSnoc(Texts(init), last.text, s.count);
    forall i | 0 <= i < |init| ensures Edged(init[i].text) { assert blocks[i] == init[i]; }
    forall i | 0 <= i < |init| ensures RouteOf(init[i], s).Whole? { assert blocks[i] == init[i]; }
  }

  lemma GatherOne(a: Assembly, last: Block, texts: seq<string>, s: Setup)
    requires a.buffer == texts && a.tokens == Total(texts, s.count) && a.drafts == [] && a.pendingOverlap == ""
    requires RouteOf(last, s).Whole? && Strip(last.text) != "" && Total(texts, s.count) + s.count(last.text) <= s.config.targetTokens
    ensures var b := Processed(a, last, s);
      b.buffer == texts + [last.text] && b.tokens == Total(texts, s.count) + s.count(last.text) && b.drafts == [] && b.pendingOverlap == ""
  {
    hide Total, Strip, RouteOf, Flushed;
  }

  lemma {:induction false} Gathered(blocks: seq<Block>, s: Setup)
    requires Gathers(blocks, s)
    ensures var a := ProcessedAll(blocks, s);
      a.buffer == Texts(blocks) && a.tokens == Total(Texts(blocks), s.count) && a.drafts == [] && a.pendingOverlap == ""
  {
    hide Gathers, Processed, Total;
    if blocks == [] {
      NothingGathered(blocks, s);
    } else {
      var n := |blocks| - 1;
      InitLast(blocks, n);
      GathersInit(blocks, blocks[..n], blocks[n], s);
      Gathered(blocks[..n], s);
      GatherOne(ProcessedAll(blocks[..n], s), blocks[n], Texts(blocks[..n]), s);
    }
  }

  lemma NothingGathered(blocks: seq<Block>, s: Setup)
    requires blocks == []
    ensures ProcessedAll(blocks, s) == EMPTY && Texts(blocks) == [] && Total(Texts(blocks), s.count) == 0
  {
  }

  /** The buffered document is one chunk too large, and is cut. */
  lemma GatheredIsCut(blocks: seq<Block>, content: string, s: Setup)
    requires blocks != [] && Gathers(blocks, s) && content == Join(Texts(blocks), "\n\n") && s.count(content) > s.config.maxTokens
    ensures Contents(Flushed(ProcessedAll(blocks, s), true, s).drafts) == SentenceParts(content, s.config.maxTokens, s.count)
  {
    TextsEdged(blocks, s);
    Gathered(blocks, s);
    JoinEdged(Texts(blocks));
    StripOf(content);
    hide Gathers, Processed, ProcessedAll, Total, Strip, SentenceParts, Join, IsSpace, Drafted, Contents;
    var a, parts := ProcessedAll(blocks, s), SentenceParts(content, s.config.maxTokens, s.count);
    assert Content(a.buffer) == content != "";
    ContentsOfMore([], parts, a.sectionPath, a.page, a.slide, s.count);
    NoContents();
    EmptyFirst(parts);
  }

  lemma NoContents()
    ensures Contents([]) == []
  {
  }

  lemma TextsEdged(blocks: seq<Block>, s: Setup)
    requires Gathers(blocks, s)
    ensures AllEdged(Texts(blocks))
  {
    hide IsSpace, RouteOf;
  }

  // ---------------------------------------------------------------- blocks without numbers

  ghost predicate Unnumbered(blocks: seq<Block>, marker: Marker) {
    forall i :: 0 <= i < |blocks| ==> marker(blocks[i].text).None?
  }

  /** Blocks without a number at the end of a document are passed through. */
  lemma {:induction false} PlainTail(blocks: seq<Block>, i: nat, marker: Marker)
    requires i <= |blocks| && Unnumbered(blocks[i..], marker)
    ensures TailOf(blocks, i, marker) == blocks[i..] && |Runs(blocks, i, marker)| == |blocks| - i
    decreases |blocks| - i
  {
    if i == |blocks| {
      assert blocks[i..] == [];
    } else {
      assert blocks[i] == blocks[i..][0];
      assert Taken(blocks, i, marker) == 1;
      TailAfter(blocks, i, marker);
      MergeRunsStep(blocks, i, marker);
      hide Taken, Merged;
      PlainTail(blocks, i + 1, marker);
      assert blocks[i..] == [blocks[i]] + blocks[i + 1..];
    }
  }

  lemma TailAfter(blocks: seq<Block>, i: nat, marker: Marker)
    requires i < |blocks| && Unnumbered(blocks[i..], marker)
    ensures Unnumbered(blocks[i + 1..], marker)
  {
    var whole, tail := blocks[i..], blocks[i + 1..];
    forall k | 0 <= k < |tail| ensures marker(tail[k].text).None? {
      assert tail[k] == whole[k + 1];
    }
  }

  lemma PlainGrouping(blocks: seq<Block>, marker: Marker)
    requires Unnumbered(blocks, marker)
    ensures Grouped(blocks, marker) == blocks && |Runs(blocks, 0, marker)| == |blocks|
  {
    EmptyFirst(blocks);
    PlainTail(blocks, 0, marker);
  }

  lemma {:induction false} AllKept(blocks: seq<Block>)
    requires AllEdged(Texts(blocks))
    ensures Kept(blocks) == blocks
  {
    hide IsSpace, Strip;
    if blocks != [] {
      var n := |blocks| - 1;
      InitLast(blocks, n);
      assert Texts(blocks)[n] == blocks[n].text;
      assert forall k :: 0 <= k < n ==> Texts(blocks[..n])[k] == Texts(blocks)[k];
      AllKept(blocks[..n]);
      StripOf(blocks[n].text);
    }
  }

  // ---------------------------------------------------------------- fillers

  const FILLER := "CCCCCCC"

  /** Seven characters in one word: as much as two tokens hold. */
  function Fillers(n: nat): seq<Block> {
    seq(n, i => Block(BlockKind.TEXT, FILLER))
  }

  function FillTexts(n: nat): seq<string> {
    seq(n, i => FILLER)
  }

  lemma FillerSize()
    ensures EstimateTokens(FILLER) == 2 && Solid(FILLER) && Edged(FILLER) && |FILLER| == 7
  {
    var x := FILLER;
    assert Solid(x);
    WordOfSolid(x);
    hide Words;
    EstimateBy(x, 7, 1);
  }

  lemma {:induction false} FillTotal(n: nat)
    ensures Total(FillTexts(n), EstimateTokens) == 2 * n && Chars(FillTexts(n)) == 7 * n
  {
    if n > 0 {
      FillTotal(n - 1);
      FillerSize();
      FillMore(n - 1);
      hide EstimateTokens;
    }
  }

  lemma FillMore(n: nat)
    ensures FillTexts(n + 1)[0] == FILLER && FillTexts(n + 1)[1..] == FillTexts(n) && FillTexts(n + 1) == [FILLER] + FillTexts(n)
  {
  }

  lemma {:induction false} TotalAppend(xs: seq<string>, ys: seq<string>, count: Counter)
    ensures Total(xs + ys, count) == Total(xs, count) + Total(ys, count) && Chars(xs + ys) == Chars(xs) + Chars(ys)
  {
    if xs == [] {
      EmptyFirst(ys);
    } else {
      assert (xs + ys)[1..] == xs[1..] + ys;
      TotalAppend(xs[1..], ys, count);
    }
  }

  lemma {:induction false} SentencesAllAppend(xs: seq<string>, ys: seq<string>)
    ensures SentencesAll(xs + ys) == SentencesAll(xs) + SentencesAll(ys)
  {
    hide Sentences;
    if xs == [] {
      EmptyFirst(SentencesAll(ys));
      EmptyFirst(ys);
    } else {
      assert (xs + ys)[1..] == xs[1..] + ys;
      SentencesAllAppend(xs[1..], ys);
      Assoc(Sentences(xs[0]), SentencesAll(xs[1..]), SentencesAll(ys));
    }
  }

  lemma SentencesAllCons(x: string, xs: seq<string>)
    ensures SentencesAll([x] + xs) == Sentences(x) + SentencesAll(xs)
  {
    hide Sentences;
    assert ([x] + xs)[1..] == xs;
  }

  lemma NoFillers()
    ensures FillTexts(0) == [] && SentencesAll([]) == []
  {
  }

  lemma {:induction false} FillSentences(n: nat)
    ensures SentencesAll(FillTexts(n)) == FillTexts(n)
  {
    hide *;
    if n > 0 {
      FillSentences(n - 1);
      FillerSize();
      OneSentence(FILLER);
      FillMore(n - 1);
      SentencesAllCons(FILLER, FillTexts(n - 1));
    } else {
      NoFillers();
    }
  }

  lemma FillEdged(n: nat)
    ensures AllEdged(FillTexts(n))
  {
    FillerSize();
    hide Edged;
  }

  lemma AllEdgedMore(texts: seq<string>, x: string)
    requires AllEdged(texts) && Edged(x)
    ensures AllEdged(texts + [x])
  {
    hide Edged;
    forall i | 0 <= i < |texts + [x]| ensures Edged((texts + [x])[i]) {
      if i < |texts| { assert (texts + [x])[i] == texts[i]; }
    }
  }
}

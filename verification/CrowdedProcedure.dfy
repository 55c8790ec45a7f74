/** Exactly which settings keep every procedure in one chunk, under the default counter and recogniser: a ceiling below
    anything a procedure measures, or no overlap together with a ceiling that holds the fullest buffer a procedure can be
    in. Below that ceiling the separators of a crowded buffer push it over, and the procedure in its middle is torn. */
module CrowdedProcedure {
  import opened Text
  import opened Tokens
  import opened Blocks
  import opened Packing
  import opened Procedures
  import opened Markers
  import opened Splitting
  import opened SentenceCuts
  import opened Chunking
  import opened Ceiling
  import opened Conservation
  import opened Wholeness
  import opened Crowding
  import opened TornProcedure

  // ---------------------------------------------------------------- the document

  /** Short paragraphs before and after a procedure of two steps. */
  function Crowded(f: nat, g: nat, tail: string): seq<Block> {
    Fillers(f) + [Block(BlockKind.LIST, STEP1), Block(BlockKind.LIST, Step2(tail))] + Fillers(g)
  }

  function CrowdTexts(f: nat, g: nat, tail: string): seq<string> {
    FillTexts(f) + ([Procedure(tail)] + FillTexts(g))
  }

  ghost predicate AllB(tail: string) {
    tail != "" && forall i :: 0 <= i < |tail| ==> tail[i] == 'B'
  }

  // ---------------------------------------------------------------- its runs

  /** Blocks without a number, two steps, blocks without a number: the steps are one run. */
  ghost predicate Between(blocks: seq<Block>, n: nat, marker: Marker) {
    && n + 2 <= |blocks| && Unnumbered(blocks[..n], marker) && Unnumbered(blocks[n + 2..], marker)
    && Continuable(blocks[n]) && Continuable(blocks[n + 1]) && marker(blocks[n].text) == Some(1) && marker(blocks[n + 1].text) == Some(2)
  }

  lemma PairTaken(blocks: seq<Block>, n: nat, marker: Marker)
    requires Between(blocks, n, marker)
    ensures Taken(blocks, n, marker) == 2
  {
    var run := blocks[n..n + 2];
    assert run[1..][1..] == [] && run[0] == blocks[n] && run[1..][0] == blocks[n + 1];
    assert Numbers(run[1..], marker) == [2];
    assert Numbers(run, marker) == [1, 2];
    if n + 2 < |blocks| { assert blocks[n + 2] == blocks[n + 2..][0]; }
    if n + 3 < |blocks| { assert blocks[n + 3] == blocks[n + 2..][1]; }
    assert !Extends(blocks, n + 2, 2, marker);
    assert RunEnd(blocks, n + 2, 2, marker) == n + 2;
    assert RunEnd(blocks, n + 1, 1, marker) == n + 2;
  }

  lemma PairHere(blocks: seq<Block>, n: nat, marker: Marker)
    requires Between(blocks, n, marker)
    ensures |Runs(blocks, n, marker)| == |blocks| - n - 1 && Runs(blocks, n, marker)[0] == blocks[n..n + 2]
    ensures TailOf(blocks, n, marker) == [Merged(blocks[n..n + 2])] + blocks[n + 2..]
  {
    PairTaken(blocks, n, marker);
    MergeRunsStep(blocks, n, marker);
    hide Taken, Merged, Numbers;
    PlainTail(blocks, n + 2, marker);
  }

  lemma OneMoreBefore(blocks: seq<Block>, n: nat, i: nat, marker: Marker)
    requires Between(blocks, n, marker) && i < n
    ensures Runs(blocks, i, marker) == [[blocks[i]]] + Runs(blocks, i + 1, marker) && TailOf(blocks, i, marker) == [blocks[i]] + TailOf(blocks, i + 1, marker)
  {
    assert blocks[i] == blocks[..n][i];
    assert Taken(blocks, i, marker) == 1;
    MergeRunsStep(blocks, i, marker);
    hide Taken, Merged, Between;
    assert blocks[i..i + 1] == [blocks[i]];
  }

  lemma {:induction false} PairGrouping(blocks: seq<Block>, n: nat, i: nat, marker: Marker)
    requires Between(blocks, n, marker) && i <= n <= |blocks| - 2
    ensures |Runs(blocks, i, marker)| == |blocks| - i - 1 && Runs(blocks, i, marker)[n - i] == blocks[n..n + 2]
    ensures TailOf(blocks, i, marker) == blocks[i..n] + ([Merged(blocks[n..n + 2])] + blocks[n + 2..])
    decreases n - i
  {
    hide *;
    var rest := [Merged(blocks[n..n + 2])] + blocks[n + 2..];
    if i == n {
      PairHere(blocks, n, marker);
      EmptyFirst(rest);
      NoneBetween(blocks, n);
    } else {
      PairGrouping(blocks, n, i + 1, marker);
      OneMoreBefore(blocks, n, i, marker);
      FirstOff(blocks, i, n);
      Assoc([blocks[i]], blocks[i + 1..n], rest);
      SecondOn([blocks[i]], Runs(blocks, i + 1, marker), n - i - 1);
    }
  }

  lemma NoneBetween<T>(xs: seq<T>, n: nat)
    requires n <= |xs|
    ensures xs[n..n] == []
  {
  }

  lemma FirstOff<T>(xs: seq<T>, i: nat, n: nat)
    requires i < n <= |xs|
    ensures xs[i..n] == [xs[i]] + xs[i + 1..n]
  {
  }

  lemma SecondOn<T>(x: T, xs: seq<T>, k: nat)
    requires k < |xs|
    ensures ([x] + xs)[k + 1] == xs[k] && |[x] + xs| == |xs| + 1
  {
  }

  // ---------------------------------------------------------------- what no part can hold

  ghost predicate Lacks(t: string, c: char) {
    c !in t
  }

  lemma {:induction false} JoinLacks(texts: seq<string>, c: char)
    requires c != ' ' && forall t :: t in texts ==> Lacks(t, c)
    ensures Lacks(Join(texts, " "), c)
  {
    if |texts| > 1 {
      assert texts[0] in texts;
      JoinLacks(texts[1..], c);
    } else if |texts| == 1 {
      assert texts[0] in texts;
    }
  }

  lemma PackedLacks(units: seq<string>, limit: int, count: Counter, c: char)
    requires c != ' ' && forall u :: u in units ==> Lacks(u, c)
    ensures forall p :: p in Packed(units, limit, " ", count) ==> Lacks(p, c)
  {
    hide Lacks, Join, PackGroups;
    var groups := PackGroups(units, limit, " ", count);
    PackDivides(units, limit, " ", count);
    forall p | p in Packed(units, limit, " ", count) ensures Lacks(p, c) {
      var k :| 0 <= k < |groups| && p == Join(groups[k], " ");
      forall u | u in groups[k] ensures Lacks(u, c) {
        FlattenMember(groups, u);
      }
      JoinLacks(groups[k], c);
    }
  }

  /** A text whose first character occurs in `part` only shortly before its end is not in `part`. */
  lemma NotInside(part: string, head: string, text: string)
    requires part == head + "1." && Lacks(head, '1') && |text| > 2 && text[0] == '1'
    ensures !Contains(part, text)
  {
    forall i: nat ensures !OccursAt(part, text, i) {
      if i + |text| <= |part| {
        assert part[i..i + |text|][0] == part[i];
        assert i < |head| ==> part[i] == head[i];
      }
    }
  }

  lemma LacksMeansOutside(part: string, text: string)
    requires Lacks(part, '1') && text != "" && text[0] == '1'
    ensures !Contains(part, text)
  {
    forall i: nat ensures !OccursAt(part, text, i) {
      if i + |text| <= |part| { assert part[i..i + |text|][0] == part[i]; }
    }
  }

  // ---------------------------------------------------------------- the parts

  lemma {:induction false} FillCost(f: nat, u: string, count: Counter)
    requires count(FILLER) == 2 && count(" ") == 1
    ensures Cost(FillTexts(f), " ", count) == 3 * f && Cost(FillTexts(f) + [u], " ", count) == 3 * f + count(u) + 1
  {
    if f == 0 {
      assert FillTexts(0) + [u] == [u] && [u][..0] == [];
    } else {
      FillCost(f - 1, u, count);
      assert FillTexts(f)[..f - 1] == FillTexts(f - 1) && FillTexts(f)[f - 1] == FILLER;
      assert (FillTexts(f) + [u])[..f] == FillTexts(f);
    }
  }

  /** The first part ends between the first step's number and its text. */
  lemma FirstPart(f: nat, rest: seq<string>, maxTokens: int, count: Counter)
    requires count(FILLER) == 2 && count(" ") == 1 && count("1.") == 2 && rest != [] && count(rest[0]) == 3
    requires 3 * f + 3 <= maxTokens <= 3 * f + 6
    ensures Packed((FillTexts(f) + ["1."]) + rest, maxTokens, " ", count)
         == [Join(FillTexts(f) + ["1."], " ")] + Packed(rest, maxTokens, " ", count)
  {
    FillCost(f, "1.", count);
    hide Packed, Join, Cost;
    PackedStep(FillTexts(f) + ["1."], rest, maxTokens, " ", count);
  }

  lemma FirstPartEnds(f: nat) returns (head: string)
    ensures Join(FillTexts(f) + ["1."], " ") == head + "1." && Lacks(head, '1')
  {
    if f == 0 {
      head := "";
      assert FillTexts(0) + ["1."] == ["1."];
      EmptyFirst("1.");
    } else {
      head := Join(FillTexts(f), " ") + " ";
      JoinAppend(FillTexts(f), "1.", " ");
      hide Join;
      JoinLacks(FillTexts(f), '1');
    }
  }

  /** No part of the crowded content holds the procedure. */
  lemma PartsLackProcedure(f: nat, g: nat, tail: string, maxTokens: int, count: Counter, text: string)
    requires count(FILLER) == 2 && count(" ") == 1 && count("1.") == 2 && count("A\n2.") == 3 && AllB(tail)
    requires 3 * f + 3 <= maxTokens <= 3 * f + 6 && |text| > 2 && text[0] == '1'
    ensures forall p :: p in Packed((FillTexts(f) + ["1."]) + (["A\n2.", tail] + FillTexts(g)), maxTokens, " ", count) ==> !Contains(p, text)
  {
    var rest := ["A\n2.", tail] + FillTexts(g);
    assert rest[0] == "A\n2.";
    forall u | u in rest ensures Lacks(u, '1') {
      assert u == "A\n2." || u == tail || u == FILLER;
    }
    hide Packed, Join, Contains, Lacks, AllB;
    FirstPart(f, rest, maxTokens, count);
    PackedLacks(rest, maxTokens, count, '1');
    var head := FirstPartEnds(f);
    NotInside(Join(FillTexts(f) + ["1."], " "), head, text);
    forall p | p in Packed(rest, maxTokens, " ", count) ensures !Contains(p, text) {
      LacksMeansOutside(p, text);
    }
  }

  // ---------------------------------------------------------------- the content

  /** What is needed of the numbers: `f` paragraphs reach just below the ceiling, and all of them with the procedure are
      within the target and, joined, over the ceiling. */
  ghost predicate Crowds(f: nat, g: nat, tail: string, s: Setup) {
    && AllB(tail) && 13 <= |tail| && EstimateTokens(Procedure(tail)) <= s.config.maxTokens
    && 3 * f + 3 <= s.config.maxTokens <= 3 * f + 6
    && 2 * (f + g) + EstimateTokens(Procedure(tail)) <= s.config.targetTokens
    && 2 * (8 + |tail| + 9 * (f + g)) > 7 * s.config.maxTokens
  }

  lemma CrowdSentences(f: nat, g: nat, tail: string)
    requires AllB(tail)
    ensures Sentences(Join(CrowdTexts(f, g, tail), "\n\n")) == (FillTexts(f) + ["1."]) + (["A\n2.", tail] + FillTexts(g))
    ensures AllEdged(CrowdTexts(f, g, tail))
  {
    var m, a, b := Procedure(tail), FillTexts(f), FillTexts(g);
    TornStrings("X", "1.", "A", "2.", "1. A\n2. ", tail);
    FillerSize();
    hide Procedure, Sentences, Edged, EstimateTokens, Solid;
    TornSentences("1. A\n2. ", tail);
    CrowdEdged(f, g, tail);
    hide *;
    SentencesOfJoin(a + ([m] + b));
    SentencesAllAppend(a, [m] + b);
    SentencesAllCons(m, b);
    FillSentences(f);
    FillSentences(g);
    Regroup(a, "1.", "A\n2.", tail, b);
  }

  lemma Regroup(a: seq<string>, u: string, v: string, w: string, b: seq<string>)
    ensures a + ([u, v, w] + b) == (a + [u]) + ([v, w] + b)
  {
  }

  lemma CrowdEdged(f: nat, g: nat, tail: string)
    requires Edged(Procedure(tail)) && Edged(FILLER)
    ensures AllEdged(CrowdTexts(f, g, tail)) && CrowdTexts(f, g, tail) != []
  {
    hide Edged, Procedure;
    var texts := CrowdTexts(f, g, tail);
    forall i | 0 <= i < |texts| ensures Edged(texts[i]) {
      assert texts[i] == FILLER || texts[i] == Procedure(tail);
    }
  }

  lemma CrowdSizes(f: nat, g: nat, tail: string, s: Setup)
    requires s.count == EstimateTokens && Crowds(f, g, tail, s) && |Procedure(tail)| == 8 + |tail|
    ensures Total(CrowdTexts(f, g, tail), s.count) <= s.config.targetTokens
    ensures EstimateTokens(Join(CrowdTexts(f, g, tail), "\n\n")) > s.config.maxTokens
  {
    var m, a, b := Procedure(tail), FillTexts(f), FillTexts(g);
    var texts := CrowdTexts(f, g, tail);
    hide Procedure, EstimateTokens, AllB, Join;
    FillTotal(f);
    FillTotal(g);
    TotalAppend(a, [m] + b, EstimateTokens);
    TotalAppend([m], b, EstimateTokens);
    OneTotal(m);
    JoinLength(texts);
    hide Total, Chars;
    if s.config.maxTokens >= 1 { EstimateAtMost(Join(texts, "\n\n"), s.config.maxTokens); }
  }

  lemma OneTotal(m: string)
    ensures Total([m], EstimateTokens) == EstimateTokens(m) && Chars([m]) == |m|
  {
    hide EstimateTokens;
    assert [m][1..] == [];
  }

  /** The tokens of the procedure's pieces. */
  lemma StepSizes(tail: string, maxTokens: int)
    requires AllB(tail) && 13 <= |tail| && EstimateTokens(Procedure(tail)) <= maxTokens
    ensures EstimateTokens("1.") == 2 && EstimateTokens("A\n2.") == 3 && EstimateTokens(tail) <= maxTokens && EstimateTokens(" ") == 1
    ensures |Procedure(tail)| == 8 + |tail| && maxTokens >= 6 && Strip(Procedure(tail)) == Procedure(tail)
  {
    var a, b, c := "1.", "A", "2.";
    TornStrings("X", a, b, c, "1. A\n2. ", tail);
    hide AllB, Procedure, EstimateTokens, Edged, Strip;
    EstimateOfSpace(" ");
    StripOf(Procedure(tail));
    PieceSizes(a, b, c, tail, maxTokens);
  }

  lemma PieceSizes(a: string, b: string, c: string, tail: string, maxTokens: int)
    requires Solid(a) && Solid(b) && Solid(c) && Solid(tail) && |a| == |c| == 2 && |b| == 1 && |tail| >= 13
    requires EstimateTokens(a + " " + (b + "\n" + (c + " " + tail))) <= maxTokens
    ensures EstimateTokens(a) == 2 && EstimateTokens(b + "\n" + c) == 3 && EstimateTokens(tail) <= maxTokens && maxTokens >= 6
  {
    var last := c + " " + tail;
    var rest := b + "\n" + last;
    WordOfSolid(a); WordOfSolid(b); WordOfSolid(c); WordOfSolid(tail);
    WordsBetween(b, "\n", c);
    WordsBetween(c, " ", tail);
    WordsBetween(b, "\n", last);
    WordsBetween(a, " ", rest);
    hide Words, EstimateTokens, Solid;
    EstimateBy(a, 2, 1);
    EstimateBy(b + "\n" + c, 4, 2);
    EstimateBy(tail, |tail|, 1);
    EstimateBy(a + " " + rest, 8 + |tail|, 4);
  }

  lemma UnitsFit(f: nat, g: nat, tail: string, max: int, count: Counter)
    requires count(FILLER) <= max && count("1.") <= max && count("A\n2.") <= max && count(tail) <= max
    ensures AllWithin((FillTexts(f) + ["1."]) + (["A\n2.", tail] + FillTexts(g)), max, count)
  {
    forall u | u in (FillTexts(f) + ["1."]) + (["A\n2.", tail] + FillTexts(g)) ensures count(u) <= max {
      assert u == FILLER || u == "1." || u == "A\n2." || u == tail;
    }
  }

  /** Sentences that fit are packed as they are. */
  lemma PartsArePacked(content: string, units: seq<string>, limit: int, count: Counter)
    requires Sentences(content) == units != [] && AllWithin(units, limit, count)
    ensures SentenceParts(content, limit, count) == Packed(units, limit, " ", count)
  {
    RefineNothing(units, limit, count, WordBreak(limit, count));
    PackDivides(units, limit, " ", count);
    hide Sentences, Refine, WordBreak, AllWithin;
  }

  lemma NotNothing(xs: seq<string>, x: string, ys: seq<string>)
    ensures (xs + [x]) + ys != []
  {
    assert ((xs + [x]) + ys)[|xs|] == x;
  }

  lemma CrowdParts(f: nat, g: nat, tail: string, s: Setup)
    requires s.count == EstimateTokens && Crowds(f, g, tail, s)
    ensures SentenceParts(Join(CrowdTexts(f, g, tail), "\n\n"), s.config.maxTokens, s.count)
         == Packed((FillTexts(f) + ["1."]) + (["A\n2.", tail] + FillTexts(g)), s.config.maxTokens, " ", s.count)
  {
    hide *;
    CrowdHasB(f, g, tail, s);
    StepSizes(tail, s.config.maxTokens);
    FillerSize();
    CrowdSentences(f, g, tail);
    UnitsFit(f, g, tail, s.config.maxTokens, s.count);
    NotNothing(FillTexts(f), "1.", ["A\n2.", tail] + FillTexts(g));
    PartsArePacked(Join(CrowdTexts(f, g, tail), "\n\n"), (FillTexts(f) + ["1."]) + (["A\n2.", tail] + FillTexts(g)), s.config.maxTokens, s.count);
  }

  /** No part of the crowded content, cut at its sentences, holds the procedure. */
  lemma CrowdIsTorn(f: nat, g: nat, tail: string, s: Setup)
    requires s.count == EstimateTokens && Crowds(f, g, tail, s)
    ensures forall p :: p in SentenceParts(Join(CrowdTexts(f, g, tail), "\n\n"), s.config.maxTokens, s.count) ==> !Contains(p, Procedure(tail))
  {
    StepSizes(tail, s.config.maxTokens);
    FillerSize();
    assert Procedure(tail)[0] == '1';
    hide EstimateTokens, Procedure, SentenceParts, Contains, Packed, AllB, FillTexts, CrowdTexts;
    CrowdParts(f, g, tail, s);
    PartsLackProcedure(f, g, tail, s.config.maxTokens, s.count, Procedure(tail));
  }

  // ---------------------------------------------------------------- the run

  lemma PairSlices<T>(before: seq<T>, p: T, q: T, after: seq<T>)
    ensures var xs, n := before + [p, q] + after, |before|;
      |xs| == n + 2 + |after| && xs[..n] == before && xs[n + 2..] == after && xs[n..n + 2] == [p, q] && xs[n] == p && xs[n + 1] == q
  {
  }

  lemma FillersPlain(n: nat)
    ensures Unnumbered(Fillers(n), StepNumber) && |Fillers(n)| == n
  {
    FillerSize();
    NoStepAt(FILLER);
    hide StepNumber, EstimateTokens, Solid, Edged;
  }

  /** Texts with nothing to strip, on no slide, are all kept. */
  lemma PlainAreKept(blocks: seq<Block>)
    requires forall b :: b in blocks ==> Edged(b.text) && b.slideIndex.None?
    ensures Kept(blocks) == blocks && !HasSlides(blocks)
  {
    hide Edged;
    assert AllEdged(Texts(blocks));
    AllKept(blocks);
    hide Kept;
  }

  lemma CrowdMembers(f: nat, g: nat, p: Block, q: Block)
    ensures forall b :: b in Fillers(f) + [p, q] + Fillers(g) ==> b == p || b == q || b == Block(BlockKind.TEXT, FILLER)
  {
  }

  lemma PairBetween(before: seq<Block>, p: Block, q: Block, after: seq<Block>, blocks: seq<Block>, marker: Marker)
    requires blocks == before + [p, q] + after && Unnumbered(before, marker) && Unnumbered(after, marker)
    requires Continuable(p) && Continuable(q) && marker(p.text) == Some(1) && marker(q.text) == Some(2)
    ensures Between(blocks, |before|, marker)
  {
    PairSlices(before, p, q, after);
    hide Unnumbered, Continuable;
  }

  lemma CrowdBlocks(f: nat, g: nat, tail: string)
    requires AllB(tail)
    ensures var blocks := Crowded(f, g, tail);
      && |blocks| == f + 2 + g && Between(blocks, f, StepNumber) && Kept(blocks) == blocks && !HasSlides(blocks)
      && blocks[..f] == Fillers(f) && blocks[f + 2..] == Fillers(g)
      && blocks[f..f + 2] == [Block(BlockKind.LIST, STEP1), Block(BlockKind.LIST, Step2(tail))]
  {
    hide *;
    var p, q, blocks := Block(BlockKind.LIST, STEP1), Block(BlockKind.LIST, Step2(tail)), Crowded(f, g, tail);
    FromB(tail);
    TornSteps(PROSE, p.text, q.text, tail);
    FillerSize();
    FillersPlain(f);
    FillersPlain(g);
    CrowdedIs(f, g, tail);
    BothContinuable(p, q);
    PairSlices(Fillers(f), p, q, Fillers(g));
    PairBetween(Fillers(f), p, q, Fillers(g), blocks, StepNumber);
    CrowdMembers(f, g, p, q);
    PlainAreKept(blocks);
  }

  lemma FromB(tail: string)
    requires AllB(tail)
    ensures tail != "" && forall i :: 0 <= i < |tail| ==> tail[i] == 'B'
  {
  }

  lemma CrowdedIs(f: nat, g: nat, tail: string)
    ensures Crowded(f, g, tail) == Fillers(f) + [Block(BlockKind.LIST, STEP1), Block(BlockKind.LIST, Step2(tail))] + Fillers(g)
  {
  }

  lemma BothContinuable(p: Block, q: Block)
    requires p.kind.LIST? && q.kind.LIST?
    ensures Continuable(p) && Continuable(q)
  {
  }

  lemma CrowdGrouped(f: nat, g: nat, tail: string)
    requires AllB(tail)
    ensures var blocks := Crowded(f, g, tail);
      && |Runs(blocks, 0, StepNumber)| == f + 1 + g && |Runs(blocks, 0, StepNumber)[f]| == 2
      && Grouped(blocks, StepNumber) == Fillers(f) + ([Merged(blocks[f..f + 2])] + Fillers(g))
      && Merged(blocks[f..f + 2]).text == Procedure(tail)
  {
    CrowdBlocks(f, g, tail);
    hide StepNumber, Merged, Procedure, Step2, AllB, Between, Kept, HasSlides, Runs, Crowded, Fillers;
    var blocks := Crowded(f, g, tail);
    PairGrouping(blocks, f, 0, StepNumber);
    MergedText(Block(BlockKind.LIST, STEP1), Block(BlockKind.LIST, Step2(tail)), tail);
    assert blocks[0..f] == blocks[..f];
  }

  lemma RoutesWhole(m: Block, s: Setup)
    requires m.kind.LIST? && m.atomic && s.count(m.text) <= s.config.maxTokens && s.count(FILLER) <= s.config.targetTokens
    ensures RouteOf(m, s).Whole? && RouteOf(Block(BlockKind.TEXT, FILLER), s).Whole?
  {
  }

  lemma GathersFrom(grouped: seq<Block>, texts: seq<string>, m: Block, x: Block, s: Setup)
    requires Texts(grouped) == texts && AllEdged(texts) && Total(texts, s.count) <= s.config.targetTokens
    requires (forall b :: b in grouped ==> b == m || b == x) && RouteOf(m, s).Whole? && RouteOf(x, s).Whole?
    ensures Gathers(grouped, s)
  {
    hide RouteOf, Edged, Total;
    forall i | 0 <= i < |grouped| ensures Edged(grouped[i].text) && RouteOf(grouped[i], s).Whole? {
      assert texts[i] == grouped[i].text && grouped[i] in grouped;
    }
  }

  lemma GroupedMembers(f: nat, g: nat, m: Block, tail: string)
    requires m.text == Procedure(tail)
    ensures var grouped := Fillers(f) + ([m] + Fillers(g));
      && Texts(grouped) == CrowdTexts(f, g, tail) && grouped != [] && grouped[f] == m && |grouped| == f + 1 + g
      && forall b :: b in grouped ==> b == m || b == Block(BlockKind.TEXT, FILLER)
  {
    hide Procedure;
  }

  lemma CrowdGathers(f: nat, g: nat, m: Block, tail: string, s: Setup)
    requires s.count == EstimateTokens && Crowds(f, g, tail, s) && m.kind.LIST? && m.atomic && m.text == Procedure(tail)
    ensures var grouped := Fillers(f) + ([m] + Fillers(g));
      Gathers(grouped, s) && Texts(grouped) == CrowdTexts(f, g, tail) && grouped != [] && grouped[f] == m && |grouped| == f + 1 + g
  {
    hide *;
    CrowdHasB(f, g, tail, s);
    StepSizes(tail, s.config.maxTokens);
    FillerSize();
    FillerFits(f, g, tail, s);
    CrowdSentences(f, g, tail);
    CrowdSizes(f, g, tail, s);
    RoutesWhole(m, s);
    GroupedMembers(f, g, m, tail);
    GathersFrom(Fillers(f) + ([m] + Fillers(g)), CrowdTexts(f, g, tail), m, Block(BlockKind.TEXT, FILLER), s);
  }

  lemma FillerFits(f: nat, g: nat, tail: string, s: Setup)
    requires s.count == EstimateTokens && Crowds(f, g, tail, s)
    ensures EstimateTokens(FILLER) <= s.config.targetTokens
  {
    FillerSize();
    StepSizes(tail, s.config.maxTokens);
    assert EstimateTokens(Procedure(tail)) >= 2 by { ProcedureMeasures(tail); }
    hide EstimateTokens, Procedure;
  }

  lemma ProcedureMeasures(tail: string)
    requires |Procedure(tail)| >= 8
    ensures EstimateTokens(Procedure(tail)) >= 2
  {
    hide EstimateTokens;
    EstimateAtMost(Procedure(tail), 1);
    assert EstimateTokens(Procedure(tail)) > 1;
  }

  lemma OutOfAll(drafts: seq<ChunkDraft>, text: string)
    requires (forall p :: p in Contents(drafts) ==> !Contains(p, text)) && Strip(text) == text
    ensures !InOneDraft(drafts, text)
  {
    hide Strip, Contains;
    forall i | 0 <= i < |drafts| ensures !Contains(drafts[i].content, text) {
      assert Contents(drafts)[i] in Contents(drafts);
    }
  }

  /** Whatever the overlap: with paragraphs enough around it, the document's procedure fits the ceiling and is torn between
      its first step's number and its text. */
  lemma CrowdedIsTorn(f: nat, g: nat, tail: string, s: Setup)
    requires s.count == EstimateTokens && s.marker == StepNumber && Crowds(f, g, tail, s)
    ensures Torn(Crowded(f, g, tail), f, s)
  {
    hide *;
    var blocks := Crowded(f, g, tail);
    CrowdHasB(f, g, tail, s);
    CrowdBlocks(f, g, tail);
    CrowdGrouped(f, g, tail);
    StepSizes(tail, s.config.maxTokens);
    var m := Merged(blocks[f..f + 2]);
    MergedIsAtomic(blocks[f..f + 2]);
    var grouped := Fillers(f) + ([m] + Fillers(g));
    CrowdGathers(f, g, m, tail, s);
    CrowdSizes(f, g, tail, s);
    GatheredIsCut(grouped, Join(CrowdTexts(f, g, tail), "\n\n"), s);
    CrowdIsTorn(f, g, tail, s);
    OutOfAll(Flushed(ProcessedAll(grouped, s), true, s).drafts, Procedure(tail));
    TornAt(blocks, f, grouped, Procedure(tail), s);
  }

  lemma CrowdHasB(f: nat, g: nat, tail: string, s: Setup)
    requires Crowds(f, g, tail, s)
    ensures AllB(tail) && 13 <= |tail| && EstimateTokens(Procedure(tail)) <= s.config.maxTokens
  {
    hide EstimateTokens, Procedure, AllB;
  }

  lemma MergedIsAtomic(run: seq<Block>)
    requires run != []
    ensures Merged(run).atomic && Merged(run).kind.LIST?
  {
  }

  lemma TornAt(blocks: seq<Block>, f: nat, grouped: seq<Block>, text: string, s: Setup)
    requires Kept(blocks) == blocks && blocks != [] && !HasSlides(blocks) && Grouped(blocks, s.marker) == grouped
    requires |grouped| == |Runs(blocks, 0, s.marker)| && f < |grouped| && |Runs(blocks, 0, s.marker)[f]| > 1
    requires grouped[f].text == text && s.count(text) <= s.config.maxTokens
    requires !InOneDraft(Flushed(ProcessedAll(grouped, s), true, s).drafts, text)
    ensures Torn(blocks, f, s)
  {
    hide Kept, HasSlides, Grouped, Runs, InOneDraft, Flushed, ProcessedAll;
  }

  // ---------------------------------------------------------------- exactly when

  /** The promise: every merged procedure within the ceiling is in one chunk, from its first step to its last. */
  ghost predicate ProceduresStayWhole(s: Setup) {
    forall blocks, i {:trigger IsFitting(blocks, i, s)} :: !HasSlides(Kept(blocks)) && IsFitting(blocks, i, s) ==>
      InOneDraft(Chunks(blocks, s), Grouped(Kept(blocks), s.marker)[i].text)
  }

  /** The settings that keep it: no procedure meets the ceiling, or no overlap is carried and no buffer that holds a
      procedure and something else can be over the ceiling. */
  predicate KeepsProcedures(c: ChunkingConfig) {
    c.maxTokens < 6 || (c.OverlapTokens() <= 0 && (c.targetTokens < 8 || Crowd(c.targetTokens, 6) <= c.maxTokens))
  }

  /** A merged procedure is atomic and reads at least two markers with something after each. */
  lemma MergedHasFourWords(blocks: seq<Block>, k: nat)
    requires k < |Runs(blocks, 0, StepNumber)| && |Runs(blocks, 0, StepNumber)[k]| > 1
    ensures k < |Grouped(blocks, StepNumber)|
    ensures var m := Grouped(blocks, StepNumber)[k]; m.atomic && m.kind.LIST? && |Words(m.text)| >= 4
  {
    hide StepNumber, Words, Grouped, Runs, RunStart, Numbers;
    var run := Runs(blocks, 0, StepNumber)[k];
    GroupingIsSound(blocks, k, StepNumber);
    assert Grouped(blocks, StepNumber)[k] == Merged(run);
    StepHasTwoWords(run[0].text);
    StepHasTwoWords(run[|run| - 1].text);
    MergedWords(run);
  }

  lemma MergedWords(run: seq<Block>)
    requires |run| > 1
    ensures |Words(Merged(run).text)| >= |Words(run[0].text)| + |Words(run[|run| - 1].text)|
  {
    hide Words;
    var parts, n := Texts(run), |run| - 1;
    WordsJoin(parts, "\n");
    assert parts == [run[0].text] + parts[1..n] + [run[n].text];
    WordsAllSnoc([run[0].text] + parts[1..n], run[n].text);
    WordsAllAppend([run[0].text], parts[1..n]);
    WordsAllOne(run[0].text);
  }

  lemma FourWordsCost(t: string)
    requires |Words(t)| >= 4
    ensures EstimateTokens(t) >= 6
  {
    hide Words, EstimateTokens;
    EstimateAtMost(t, 5);
    assert EstimateTokens(t) > 5;
  }

  lemma FittingStaysWhole(blocks: seq<Block>, i: nat, s: Setup)
    requires s.count == EstimateTokens && s.marker == StepNumber && KeepsProcedures(s.config)
    requires !HasSlides(Kept(blocks)) && IsFitting(blocks, i, s)
    ensures InOneDraft(Chunks(blocks, s), Grouped(Kept(blocks), s.marker)[i].text)
  {
    hide EstimateTokens, StepNumber, Words, Grouped, Kept, Runs, Chunks, InOneDraft, HasSlides, Crowd, Bearable, Lawful;
    EstimateIsLawful();
    MergedHasFourWords(Kept(blocks), i);
    var m := Grouped(Kept(blocks), s.marker)[i];
    FourWordsCost(m.text);
    CrowdBears(m.text, 6, s);
    AtomicIsWhole(m, s);
    hide RouteOf;
    WholeWithoutOverlap(blocks, i, s);
  }

  /** Enough paragraphs: as many as the target leaves room for beside the procedure, cut where the ceiling falls. */
  lemma Overcrowded(s: Setup) returns (f: nat, g: nat, tail: string)
    requires s.count == EstimateTokens && s.config.maxTokens >= 6 && s.config.targetTokens >= 8
    requires s.config.maxTokens < Crowd(s.config.targetTokens, 6)
    ensures Crowds(f, g, tail, s)
  {
    var target, max := s.config.targetTokens, s.config.maxTokens;
    var h := (target - 6) / 2;
    CrowdIsLeast(target, 6, max);
    var odd := target % 2 == 1 && 2 * (21 + 9 * h) <= 7 * max;
    tail := BTail(if odd then 16 else 13);
    Positions(target, max, h, odd);
    f := if max / 3 - 1 <= h then max / 3 - 1 else h;
    g := h - f;
    hide Crowd, CrowdChars, EstimateTokens, AllB;
    ProcedureSize(tail);
  }

  lemma Positions(target: int, max: int, h: int, odd: bool)
    requires target >= 8 && max >= 6 && h == (target - 6) / 2 && 7 * max < 2 * CrowdChars(target, 6)
    requires odd <==> target % 2 == 1 && 2 * (21 + 9 * h) <= 7 * max
    ensures var f := if max / 3 - 1 <= h then max / 3 - 1 else h;
      && 0 <= f <= h && 3 * f + 3 <= max <= 3 * f + 6
    ensures 2 * h + (if odd then 7 else 6) <= target && (if odd then 7 else 6) <= max
    ensures 2 * ((if odd then 24 else 21) + 9 * h) > 7 * max
  {
    var k := target / 2;
    if target % 2 == 0 {
      assert target == 2 * k && h == k - 3 && 7 * target / 2 == 7 * k;
    } else {
      assert target == 2 * k + 1 && h == k - 3 && 7 * target / 2 == 7 * k + 3;
    }
  }

  lemma BTail(n: nat) returns (tail: string)
    requires n > 0
    ensures AllB(tail) && |tail| == n
  {
    tail := seq(n, i => 'B');
  }

  lemma ProcedureSize(tail: string)
    requires AllB(tail) && (|tail| == 13 || |tail| == 16)
    ensures EstimateTokens(Procedure(tail)) == if |tail| == 13 then 6 else 7
  {
    var a, b, c := "1.", "A", "2.";
    TornStrings(PROSE, a, b, c, "1. A\n2. ", tail);
    hide AllB, Procedure, EstimateTokens, Edged;
    ProcedureWords(a, b, c, tail);
  }

  lemma ProcedureWords(a: string, b: string, c: string, tail: string)
    requires Solid(a) && Solid(b) && Solid(c) && Solid(tail) && |a| == |c| == 2 && |b| == 1 && (|tail| == 13 || |tail| == 16)
    ensures EstimateTokens(a + " " + (b + "\n" + (c + " " + tail))) == if |tail| == 13 then 6 else 7
  {
    var last := c + " " + tail;
    var rest := b + "\n" + last;
    WordOfSolid(a); WordOfSolid(b); WordOfSolid(c); WordOfSolid(tail);
    WordsBetween(c, " ", tail);
    WordsBetween(b, "\n", last);
    WordsBetween(a, " ", rest);
    hide Words, EstimateTokens, Solid;
    EstimateBy(a + " " + rest, 8 + |tail|, 4);
  }

  lemma TornBreaksPromise(blocks: seq<Block>, i: nat, s: Setup)
    requires Torn(blocks, i, s)
    ensures !ProceduresStayWhole(s)
  {
    hide Kept, Runs, Grouped, Chunks, InOneDraft, HasSlides, IsFitting;
    assert IsFitting(blocks, i, s);
  }

  lemma SomeProcedureIsTorn(s: Setup)
    requires s.count == EstimateTokens && s.marker == StepNumber && !KeepsProcedures(s.config)
    ensures !ProceduresStayWhole(s)
  {
    hide EstimateTokens, StepNumber, Torn, ProceduresStayWhole, Crowded, Document, Fills, Crowds;
    var target, max := s.config.targetTokens, s.config.maxTokens;
    if target >= 8 && max < Crowd(target, 6) {
      var f, g, tail := Overcrowded(s);
      CrowdedIsTorn(f, g, tail, s);
      TornBreaksPromise(Crowded(f, g, tail), f, s);
    } else {
      if target >= 8 { CrowdIsLeast(target, 6, max); }
      var tail := Filling(max);
      ProcedureIsTorn(tail, s);
      TornBreaksPromise(Document(tail), 1, s);
    }
  }

  /** For every configuration, under the default counter and recogniser. */
  lemma ProceduresStayWholeIff(s: Setup)
    requires s.count == EstimateTokens && s.marker == StepNumber
    ensures ProceduresStayWhole(s) <==> KeepsProcedures(s.config)
  {
    hide EstimateTokens, StepNumber, KeepsProcedures, Kept, Grouped, Runs, Chunks, InOneDraft, HasSlides;
    if KeepsProcedures(s.config) {
      forall blocks, i | !HasSlides(Kept(blocks)) && IsFitting(blocks, i, s)
        ensures InOneDraft(Chunks(blocks, s), Grouped(Kept(blocks), s.marker)[i].text)
      {
        FittingStaysWhole(blocks, i, s);
      }
    } else {
      SomeProcedureIsTorn(s);
    }
  }
}

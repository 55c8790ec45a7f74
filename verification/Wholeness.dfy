/** When a block that fits the ceiling stays in one piece. */
module Wholeness {
  import opened Text
  import opened Tokens
  import opened Blocks
  import opened Packing
  import opened Procedures
  import opened Splitting
  import opened Chunking
  import opened Ceiling
  import opened Conservation

  /** The running total is the total of the buffer, and nothing blank is ever buffered or carried. */
  ghost predicate Metered(a: Assembly, s: Setup) {
    && a.tokens == Total(a.buffer, s.count)
    && (forall t :: t in a.buffer ==> Words(t) != [])
    && (a.pendingOverlap == "" || Words(a.pendingOverlap) != [])
  }

  /** What the buffer can measure once joined, separators included. */
  function Bulk(buffer: seq<string>, count: Counter): int {
    Total(buffer, count) + (|buffer| - 1) * count("\n\n")
  }

  /** `text` is in one draft, end to end. */
  ghost predicate InOneDraft(drafts: seq<ChunkDraft>, text: string) {
    exists i :: 0 <= i < |drafts| && Contains(drafts[i].content, Strip(text))
  }

  /** `text` is already in one draft, or is buffered where the backstop cannot reach it. */
  ghost predicate Intact(a: Assembly, text: string, s: Setup) {
    || InOneDraft(a.drafts, text)
    || (text in a.buffer && s.count(Content(a.buffer)) <= s.config.maxTokens)
  }

  /** Whatever is buffered together with `text` within the target stays within the ceiling once joined. */
  ghost predicate Bearable(text: string, s: Setup) {
    forall buffer: seq<string> :: |buffer| >= 2 && text in buffer && NoBlank(buffer) && Total(buffer, s.count) <= s.config.targetTokens ==>
      s.count(Content(buffer)) <= s.config.maxTokens
  }

  /** The ceiling leaves room for a full target and its separators. */
  ghost predicate Roomy(s: Setup) {
    (1 + s.count("\n\n")) * s.config.targetTokens <= s.config.maxTokens
  }

  lemma ContentMeasured(buffer: seq<string>, s: Setup)
    requires Lawful(s.count) && buffer != []
    ensures s.count(Content(buffer)) <= Bulk(buffer, s.count)
  {
    JoinTotal(buffer, "\n\n", s.count);
    StripCountsLess(s.count, Join(buffer, "\n\n"));
  }

  lemma MoreDrafts(drafts: seq<ChunkDraft>, more: seq<ChunkDraft>, text: string)
    requires InOneDraft(drafts, text)
    ensures InOneDraft(drafts + more, text)
  {
    var i :| 0 <= i < |drafts| && Contains(drafts[i].content, Strip(text));
    assert (drafts + more)[i] == drafts[i];
  }

  lemma FlushIntact(a: Assembly, text: string, carry: bool, s: Setup)
    requires Metered(a, s) && Intact(a, text, s) && Words(text) != []
    ensures InOneDraft(Flushed(a, carry, s).drafts, text)
  {
    if a.buffer != [] {
      var content := Content(a.buffer);
      var more := if content == "" then [] else Drafted(Pieces(content, s), |a.drafts|, a.sectionPath, a.page, a.slide, s.count);
      EmptyFirst(a.drafts);
      assert Flushed(a, carry, s).drafts == a.drafts + more;
      if InOneDraft(a.drafts, text) {
        MoreDrafts(a.drafts, more, text);
      } else {
        ContentHolds(a.buffer, text);
        assert (a.drafts + more)[|a.drafts|].content == content;
      }
    }
  }

  lemma ContentHolds(buffer: seq<string>, text: string)
    requires text in buffer && Words(text) != []
    ensures Contains(Content(buffer), Strip(text)) && Content(buffer) != ""
  {
    var i :| 0 <= i < |buffer| && buffer[i] == text;
    JoinContains(buffer, i, "\n\n");
    StripContains(Join(buffer, "\n\n"), text);
    WordsStrip(text);
  }

  lemma FlushMetered(a: Assembly, carry: bool, s: Setup)
    requires Metered(a, s)
    ensures Metered(Flushed(a, carry, s), s)
  {
    if a.buffer != [] {
      JoinedWords(a.buffer);
      if Content(a.buffer) != "" {
        OverlapNotBlank(Content(a.buffer), s.config.OverlapTokens(), s.count);
      }
    }
  }

  lemma ExtendMetered(a: Assembly, body: string, s: Setup)
    requires Metered(a, s) && Words(body) != []
    ensures Metered(Extended(a, body, a.tokens + s.count(body)), s)
  {
    TotalSnoc(a.buffer, body, s.count);
  }

  lemma StartMetered(a: Assembly, block: Block, s: Setup)
    requires Metered(a, s)
    ensures Metered(Started(a, block, s), s)
  {
  }

  lemma AddMetered(a: Assembly, block: Block, body: string, s: Setup)
    requires Metered(a, s)
    ensures Metered(Added(a, block, body, s), s)
  {
    hide Words, Strip, Flushed, Total;
    FlushMetered(a, true, s);
    WordsStrip(body);
    var b := if MustFlush(a, body, s) then Flushed(a, true, s) else a;
    StartMetered(b, block, s);
    if Strip(body) != "" { ExtendMetered(Readied(a, block, body, s), body, s); }
  }

  lemma EmitMetered(a: Assembly, block: Block, text: string, s: Setup)
    requires Metered(a, s)
    ensures Metered(Emitted(a, block, text, s), s)
  {
  }

  /** A buffer extended within the target keeps clear of the ceiling. */
  lemma WithinTarget(buffer: seq<string>, s: Setup)
    requires Lawful(s.count) && Roomy(s) && buffer != [] && Total(buffer, s.count) <= s.config.targetTokens
    requires forall t :: t in buffer ==> Words(t) != []
    ensures Bulk(buffer, s.count) <= s.config.maxTokens
  {
    forall t | t in buffer ensures s.count(t) >= 1 {
      assert Words(t) != [];
    }
    TotalAtLeast(buffer, s.count);
    var c, target := s.count("\n\n"), s.config.targetTokens;
    TimesMonotone(|buffer| - 1, target, c);
    assert (1 + c) * target == target + target * c;
  }

  predicate MustFlush(a: Assembly, body: string, s: Setup) {
    a.buffer != [] && a.tokens + s.count(body) > s.config.targetTokens
  }

  lemma StartKeepsDrafts(a: Assembly, block: Block, s: Setup)
    ensures Started(a, block, s).drafts == a.drafts
    ensures a.buffer != [] ==> Started(a, block, s) == a
  {
  }

  lemma AddedDrafts(a: Assembly, block: Block, body: string, s: Setup)
    requires Strip(body) != ""
    ensures MustFlush(a, body, s) ==> Added(a, block, body, s).drafts == Flushed(a, true, s).drafts
    ensures !MustFlush(a, body, s) ==> Added(a, block, body, s).drafts == a.drafts
    ensures a.buffer != [] && !MustFlush(a, body, s) ==> Added(a, block, body, s).buffer == a.buffer + [body]
  {
    if MustFlush(a, body, s) {
      StartKeepsDrafts(Flushed(a, true, s), block, s);
    } else {
      StartKeepsDrafts(a, block, s);
    }
  }

  lemma AddIntact(a: Assembly, block: Block, body: string, text: string, s: Setup)
    requires Bearable(text, s) && Metered(a, s) && Intact(a, text, s) && Words(text) != []
    ensures Intact(Added(a, block, body, s), text, s)
  {
    hide Words, Content, Strip, Flushed, Bearable, InOneDraft;
    if Strip(body) != "" {
      AddedDrafts(a, block, body, s);
      if MustFlush(a, body, s) {
        FlushIntact(a, text, true, s);
      } else if text in a.buffer {
        ExtendedIsBearable(a, body, text, s);
      }
      hide Added, Metered, MustFlush;
    }
  }

  lemma ExtendedIsBearable(a: Assembly, body: string, text: string, s: Setup)
    requires Bearable(text, s) && Metered(a, s) && Strip(body) != "" && (text in a.buffer || text == body)
    requires a.buffer != [] && !MustFlush(a, body, s)
    ensures s.count(Content(a.buffer + [body])) <= s.config.maxTokens
  {
    WordsStrip(body);
    TotalSnoc(a.buffer, body, s.count);
    hide Content, Words, Total;
    assert text in a.buffer + [body] && NoBlank(a.buffer + [body]);
  }

  /** A ceiling with room for a full target and its separators bears any text. */
  lemma RoomyBears(text: string, s: Setup)
    requires Lawful(s.count) && Roomy(s)
    ensures Bearable(text, s)
  {
    hide Lawful, Roomy, Content, Words, Total;
    forall buffer: seq<string> | |buffer| >= 2 && text in buffer && NoBlank(buffer) && Total(buffer, s.count) <= s.config.targetTokens
      ensures s.count(Content(buffer)) <= s.config.maxTokens
    {
      WithinTarget(buffer, s);
      ContentMeasured(buffer, s);
    }
  }

  lemma EmitIntact(a: Assembly, block: Block, part: string, text: string, s: Setup)
    requires Metered(a, s) && Intact(a, text, s) && Words(text) != []
    ensures Intact(Emitted(a, block, part, s), text, s)
  {
    FlushIntact(a, text, false, s);
    var before := Flushed(a, false, s);
    var full := Extended(Started(before.(pendingOverlap := ""), block, s), part, s.count(part));
    if Content(full.buffer) != "" {
      MoreDrafts(before.drafts, Drafted(Pieces(Content(full.buffer), s), |full.drafts|, full.sectionPath, full.page, full.slide, s.count), text);
    }
  }

  lemma {:induction false} AllIntact(a: Assembly, block: Block, parts: seq<string>, text: string, s: Setup)
    requires Bearable(text, s) && Metered(a, s) && Intact(a, text, s) && Words(text) != []
    ensures Intact(AddedAll(a, block, parts, s), text, s) && Intact(EmittedAll(a, block, parts, s), text, s)
  {
    if parts != [] {
      var init, last := parts[..|parts| - 1], parts[|parts| - 1];
      AllIntact(a, block, init, text, s);
      AllMetered(a, block, init, s);
      AddIntact(AddedAll(a, block, init, s), block, last, text, s);
      EmitIntact(EmittedAll(a, block, init, s), block, last, text, s);
    }
  }

  lemma {:induction false} AllMetered(a: Assembly, block: Block, parts: seq<string>, s: Setup)
    requires Metered(a, s)
    ensures Metered(AddedAll(a, block, parts, s), s) && Metered(EmittedAll(a, block, parts, s), s)
  {
    if parts != [] {
      var init, last := parts[..|parts| - 1], parts[|parts| - 1];
      AllMetered(a, block, init, s);
      AddMetered(AddedAll(a, block, init, s), block, last, s);
      EmitMetered(EmittedAll(a, block, init, s), block, last, s);
    }
  }

  function RouteParts(block: Block, s: Setup): seq<string> {
    match RouteOf(block, s)
    case Whole => [block.text]
    case AsTable => TableParts(block.text, Header(block), s.config.targetTokens, s.count)
    case AsProcedure => ProcedureParts(block.text, s.config.maxTokens, s.marker, s.count)
    case AsProse => SentenceParts(block.text, s.config.targetTokens, s.count)
  }

  lemma ProcessedIs(a: Assembly, block: Block, s: Setup)
    ensures Processed(a, block, s) == AddedAll(a, block, RouteParts(block, s), s)
            || Processed(a, block, s) == EmittedAll(a, block, RouteParts(block, s), s)
  {
    if RouteOf(block, s).Whole? {
      assert [block.text][..0] == [];
    }
  }

  lemma {:induction false} ProcessedAllMetered(blocks: seq<Block>, s: Setup)
    ensures Metered(ProcessedAll(blocks, s), s)
  {
    if blocks != [] {
      var init, last := blocks[..|blocks| - 1], blocks[|blocks| - 1];
      ProcessedAllMetered(init, s);
      ProcessedIs(ProcessedAll(init, s), last, s);
      AllMetered(ProcessedAll(init, s), last, RouteParts(last, s), s);
    }
  }

  lemma {:induction false} StaysIntact(blocks: seq<Block>, i: nat, text: string, s: Setup)
    requires Bearable(text, s) && Words(text) != []
    requires i <= |blocks| && Intact(ProcessedAll(blocks[..i], s), text, s)
    ensures Intact(ProcessedAll(blocks, s), text, s)
    decreases |blocks|
  {
    hide Intact, Processed, AddedAll, EmittedAll, RouteParts, Bearable;
    if i < |blocks| {
      var init, last := blocks[..|blocks| - 1], blocks[|blocks| - 1];
      assert init[..i] == blocks[..i];
      StaysIntact(init, i, text, s);
      ProcessedAllMetered(init, s);
      ProcessedIs(ProcessedAll(init, s), last, s);
      AllIntact(ProcessedAll(init, s), last, RouteParts(last, s), text, s);
    } else {
      assert blocks[..i] == blocks;
    }
  }

  /** The overlap, separator included, that would be put in front of a block added to `a`. */
  function CarriedInto(a: Assembly, body: string, s: Setup): nat {
    CarriedBy(if MustFlush(a, body, s) then Flushed(a, true, s) else a, s)
  }

  function CarriedBy(a: Assembly, s: Setup): nat {
    if a.buffer == [] && a.pendingOverlap != "" then s.count(a.pendingOverlap) + s.count("\n\n") else 0
  }

  lemma AddMakesIntact(a: Assembly, block: Block, body: string, s: Setup)
    requires Lawful(s.count) && Bearable(body, s) && Metered(a, s) && Words(body) != []
    requires s.count(body) + CarriedInto(a, body, s) <= s.config.maxTokens
    ensures Intact(Added(a, block, body, s), body, s)
  {
    WordsStrip(body);
    if a.buffer != [] && !MustFlush(a, body, s) {
      AddedDrafts(a, block, body, s);
      ExtendedIsBearable(a, body, body, s);
    } else {
      FlushEmpties(a, true, s);
      var b := if MustFlush(a, body, s) then Flushed(a, true, s) else a;
      StartedBulk(b, block, body, s);
      ContentMeasured(Started(b, block, s).buffer + [body], s);
    }
  }

  lemma StartedBulk(b: Assembly, block: Block, body: string, s: Setup)
    requires b.buffer == []
    ensures Bulk(Started(b, block, s).buffer + [body], s.count)
            == s.count(body) + (if b.pendingOverlap != "" then s.count(b.pendingOverlap) + s.count("\n\n") else 0)
  {
    assert Total([], s.count) == 0;
    TotalSnoc([], b.pendingOverlap, s.count);
    EmptyFirst([b.pendingOverlap]);
    TotalSnoc(Started(b, block, s).buffer, body, s.count);
  }

  /** No larger than its kind may be in one piece: a procedure up to the ceiling, a table with a header or prose up to the
      target. */
  ghost predicate WithinItsLimit(b: Block, s: Setup) {
    s.count(b.text) <= if b.atomic && !(b.kind.TABLE? && Header(b) != "") then s.config.maxTokens else s.config.targetTokens
  }

  lemma RouteByLimit(block: Block, s: Setup)
    ensures RouteOf(block, s).Whole? <==> WithinItsLimit(block, s)
    ensures RouteOf(block, s).AsProse? <==> !WithinItsLimit(block, s) && !block.atomic && !(block.kind.TABLE? && Header(block) != "")
  {
  }

  /** A block within the limit of its kind stays in one chunk, end to end, whenever it fits the ceiling together with the
      overlap carried in front of it and whatever is buffered with it within the target. */
  lemma BlockStaysWhole(blocks: seq<Block>, i: nat, s: Setup)
    requires Lawful(s.count) && !HasSlides(Kept(blocks))
    requires i < |Grouped(Kept(blocks), s.marker)|
    requires var grouped := Grouped(Kept(blocks), s.marker);
             && WithinItsLimit(grouped[i], s) && Words(grouped[i].text) != [] && Bearable(grouped[i].text, s)
             && s.count(grouped[i].text) + CarriedInto(ProcessedAll(grouped[..i], s), grouped[i].text, s) <= s.config.maxTokens
    ensures InOneDraft(Chunks(blocks, s), Grouped(Kept(blocks), s.marker)[i].text)
  {
    GroupedStaysWhole(Grouped(Kept(blocks), s.marker), i, s);
    KeptNotEmpty(blocks, s.marker);
  }

  lemma GroupedStaysWhole(grouped: seq<Block>, i: nat, s: Setup)
    requires Lawful(s.count) && i < |grouped| && Bearable(grouped[i].text, s)
    requires WithinItsLimit(grouped[i], s) && Words(grouped[i].text) != []
    requires s.count(grouped[i].text) + CarriedInto(ProcessedAll(grouped[..i], s), grouped[i].text, s) <= s.config.maxTokens
    ensures InOneDraft(Flushed(ProcessedAll(grouped, s), true, s).drafts, grouped[i].text)
  {
    RouteByLimit(grouped[i], s);
    hide Bearable, Lawful, Content, Words, RouteOf, WithinItsLimit;
    var text := grouped[i].text;
    ProcessedAllMetered(grouped[..i], s);
    AddMakesIntact(ProcessedAll(grouped[..i], s), grouped[i], text, s);
    assert grouped[..i + 1][..i] == grouped[..i];
    StaysIntact(grouped, i + 1, text, s);
    ProcessedAllMetered(grouped, s);
    FlushIntact(ProcessedAll(grouped, s), text, true, s);
  }

  lemma KeptNotEmpty(blocks: seq<Block>, marker: Marker)
    requires Grouped(Kept(blocks), marker) != []
    ensures Kept(blocks) != []
  {
  }

  lemma {:induction false} NeverCarries(blocks: seq<Block>, s: Setup)
    requires s.config.OverlapTokens() <= 0
    ensures ProcessedAll(blocks, s).pendingOverlap == ""
  {
    if blocks != [] {
      var init, last := blocks[..|blocks| - 1], blocks[|blocks| - 1];
      NeverCarries(init, s);
      ProcessedIs(ProcessedAll(init, s), last, s);
      AllNeverCarry(ProcessedAll(init, s), last, RouteParts(last, s), s);
    }
  }

  lemma StepNeverCarries(a: Assembly, block: Block, text: string, s: Setup)
    requires s.config.OverlapTokens() <= 0 && a.pendingOverlap == ""
    ensures Added(a, block, text, s).pendingOverlap == "" && Emitted(a, block, text, s).pendingOverlap == ""
  {
    hide Content, Pieces, Drafted, Strip;
  }

  lemma {:induction false} AllNeverCarry(a: Assembly, block: Block, parts: seq<string>, s: Setup)
    requires s.config.OverlapTokens() <= 0 && a.pendingOverlap == ""
    ensures AddedAll(a, block, parts, s).pendingOverlap == "" && EmittedAll(a, block, parts, s).pendingOverlap == ""
  {
    hide Added, Emitted;
    if parts != [] {
      var init, last := parts[..|parts| - 1], parts[|parts| - 1];
      AllNeverCarry(a, block, init, s);
      StepNeverCarries(AddedAll(a, block, init, s), block, last, s);
      StepNeverCarries(EmittedAll(a, block, init, s), block, last, s);
    }
  }

  /** Without overlap the condition is the block's own size, and what is buffered with it. */
  lemma WholeWithoutOverlap(blocks: seq<Block>, i: nat, s: Setup)
    requires Lawful(s.count) && !HasSlides(Kept(blocks)) && s.config.OverlapTokens() <= 0
    requires i < |Grouped(Kept(blocks), s.marker)|
    requires var b := Grouped(Kept(blocks), s.marker)[i];
             WithinItsLimit(b, s) && Words(b.text) != [] && s.count(b.text) <= s.config.maxTokens && Bearable(b.text, s)
    ensures InOneDraft(Chunks(blocks, s), Grouped(Kept(blocks), s.marker)[i].text)
  {
    hide Grouped, Kept, ProcessedAll, Words, Chunks, WithinItsLimit, Bearable, HasSlides;
    NeverCarries(Grouped(Kept(blocks), s.marker)[..i], s);
    BlockStaysWhole(blocks, i, s);
  }

  /** So in a ceiling with room for a full target every numbered procedure within the ceiling is in one chunk from its
      first step to its last. */
  lemma ProceduresStayWholeWithoutOverlap(blocks: seq<Block>, i: nat, s: Setup)
    requires Lawful(s.count) && Roomy(s) && !HasSlides(Kept(blocks)) && s.config.OverlapTokens() <= 0
    requires i < |Grouped(Kept(blocks), s.marker)|
    requires var b := Grouped(Kept(blocks), s.marker)[i];
             b.atomic && b.kind.LIST? && Words(b.text) != [] && s.count(b.text) <= s.config.maxTokens
    ensures InOneDraft(Chunks(blocks, s), Grouped(Kept(blocks), s.marker)[i].text)
  {
    hide Grouped, Kept, Words, Chunks, Bearable, Roomy, HasSlides;
    RoomyBears(Grouped(Kept(blocks), s.marker)[i].text, s);
    WholeWithoutOverlap(blocks, i, s);
  }

  // ---------------------------------------------------------------- parts left alone by the backstop

  /** A part that is within the ceiling once stripped is emitted as exactly one chunk. */
  lemma EmittedUntouched(a: Assembly, block: Block, text: string, s: Setup)
    requires Words(text) != [] && s.count(Strip(text)) <= s.config.maxTokens
    ensures Emitted(a, block, text, s).buffer == []
    ensures Emitted(a, block, text, s).drafts == Flushed(a, false, s).drafts +
            Drafted([Strip(text)], |Flushed(a, false, s).drafts|, block.sectionPath, block.page, block.slideIndex, s.count)
  {
    WordsStrip(text);
    FlushEmpties(a, false, s);
    StandaloneDraft(Flushed(a, false, s).(pendingOverlap := ""), block, text, s);
  }

  lemma StandaloneDraft(clean: Assembly, block: Block, text: string, s: Setup)
    requires clean.buffer == [] && clean.pendingOverlap == ""
    requires Strip(text) != "" && s.count(Strip(text)) <= s.config.maxTokens
    ensures var after := Flushed(Extended(Started(clean, block, s), text, s.count(text)), false, s);
            && after.buffer == []
            && after.drafts == clean.drafts + Drafted([Strip(text)], |clean.drafts|, block.sectionPath, block.page, block.slideIndex, s.count)
  {
    var full := Extended(Started(clean, block, s), text, s.count(text));
    assert full.buffer == [text] && Join([text], "\n\n") == text;
  }

  function StripEach(parts: seq<string>): seq<string> {
    if parts == [] then [] else StripEach(parts[..|parts| - 1]) + [Strip(parts[|parts| - 1])]
  }

  lemma {:induction false} EmittedAllUntouched(a: Assembly, block: Block, parts: seq<string>, s: Setup)
    requires parts != [] && NoBlank(parts) && forall p :: p in parts ==> s.count(Strip(p)) <= s.config.maxTokens
    ensures EmittedAll(a, block, parts, s).buffer == []
    ensures Contents(EmittedAll(a, block, parts, s).drafts) == Contents(Flushed(a, false, s).drafts) + StripEach(parts)
  {
    var init, last := parts[..|parts| - 1], parts[|parts| - 1];
    var before := EmittedAll(a, block, init, s);
    assert last in parts;
    EmittedUntouched(before, block, last, s);
    ContentsOfMore(Flushed(before, false, s).drafts, [Strip(last)], block.sectionPath, block.page, block.slideIndex, s.count);
    if init == [] {
      EmptyFirst([Strip(last)]);
    } else {
      EmittedAllUntouched(a, block, init, s);
      Assoc(Contents(Flushed(a, false, s).drafts), StripEach(init), [Strip(last)]);
    }
  }

  /** An oversized table whose header and words leave room is chunked into exactly its parts: one chunk per
      part, each leading with the header's words, none touched by the backstop. */
  lemma TableChunkedIntoParts(a: Assembly, block: Block, s: Setup)
    requires Lawful(s.count) && s.config.targetTokens <= s.config.maxTokens
    requires block.kind.TABLE? && s.count(block.text) > s.config.targetTokens
    requires Words(Header(block)) != [] && TableBody(block.text, Header(block)) != []
    requires s.count(Header(block) + "\n") < s.config.targetTokens
    requires AllWithin(Words(block.text), s.config.targetTokens - s.count(Header(block) + "\n"), s.count)
    ensures var parts := TableParts(block.text, Header(block), s.config.targetTokens, s.count);
            && Contents(Processed(a, block, s).drafts) == Contents(Flushed(a, false, s).drafts) + StripEach(parts)
            && forall p :: p in parts ==> Words(Header(block)) <= Words(Strip(p))
  {
    hide Words, TableParts, EmittedAll, Flushed, Strip, TableBody;
    NoWords();
    var header, target := Header(block), s.config.targetTokens;
    var parts := TableParts(block.text, header, target, s.count);
    TablePartsWithin(block.text, header, target, s.count);
    TablePartsWords(block.text, header, target, s.count);
    forall p | p in parts ensures Words(header) <= Words(p) == Words(Strip(p)) && Words(p) != [] {
      WordsStrip(p);
    }
    EmittedAllUntouched(a, block, parts, s);
  }

  /** An oversized procedure whose words leave room is chunked into exactly its parts. */
  lemma ProcedureChunkedIntoParts(a: Assembly, block: Block, s: Setup)
    requires Lawful(s.count) && block.atomic && !(block.kind.TABLE? && Header(block) != "") && s.count(block.text) > s.config.maxTokens
    requires s.count("\n") <= 1 && s.config.maxTokens >= s.count(CONTINUED) + 2
    requires |Steps(block.text, s.marker)| > 1
    requires AllWithin(Words(block.text), s.config.maxTokens - s.count(CONTINUED) - 1, s.count)
    ensures var parts := ProcedureParts(block.text, s.config.maxTokens, s.marker, s.count);
            Contents(Processed(a, block, s).drafts) == Contents(Flushed(a, false, s).drafts) + StripEach(parts)
  {
    hide Words, Steps, ProcedureParts, EmittedAll, Flushed, Strip, ProcedureUnits;
    var max := s.config.maxTokens;
    var parts := ProcedureParts(block.text, max, s.marker, s.count);
    ProcedurePartsWithin(block.text, max, s.marker, s.count);
    ProcedurePartsNotBlank(block.text, max, s.marker, s.count);
    forall p | p in parts ensures s.count(Strip(p)) <= max {
      StripCountsLess(s.count, p);
    }
    EmittedAllUntouched(a, block, parts, s);
  }
}

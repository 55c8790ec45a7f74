/** app/pipeline/chunking.py: pack blocks into chunks under a soft target and a hard ceiling. */
module Chunking {
  import opened Text
  import opened Tokens
  import opened Blocks
  import opened Packing
  import opened Procedures
  import opened Splitting

  datatype ChunkingConfig = ChunkingConfig(targetTokens: int, overlapRatio: real, maxTokens: int) {
    /** The overlap budget: a share of the target, truncated toward zero. */
    function OverlapTokens(): int {
      var x := targetTokens as real * overlapRatio;
      if x >= 0.0 then x.Floor else -((-x).Floor)
    }
  }

  /** The configuration together with the installed counter and the step recogniser. */
  datatype Setup = Setup(config: ChunkingConfig, count: Counter, marker: Marker)

  /** The fields of `_Assembler`. */
  datatype Assembly = Assembly(
    drafts: seq<ChunkDraft>,
    buffer: seq<string>,
    tokens: nat,
    sectionPath: seq<string>,
    page: Option<int>,
    slide: Option<int>,
    pendingOverlap: string)

  const EMPTY := Assembly([], [], 0, [], None, None, "")

  function Drafted(pieces: seq<string>, first: nat, path: seq<string>, page: Option<int>, slide: Option<int>, count: Counter): seq<ChunkDraft> {
    seq(|pieces|, i requires 0 <= i < |pieces| => ChunkDraft(first + i, pieces[i], path, count(pieces[i]), page, slide))
  }

  // ---------------------------------------------------------------- what each method does

  function Content(buffer: seq<string>): string {
    Strip(Join(buffer, "\n\n"))
  }

  /** The ceiling backstop: content over the limit is cut at sentence boundaries. */
  function Pieces(content: string, s: Setup): seq<string> {
    if s.count(content) <= s.config.maxTokens then [content] else SentenceParts(content, s.config.maxTokens, s.count)
  }

  function Flushed(a: Assembly, carry: bool, s: Setup): Assembly {
    if a.buffer == [] then a
    else WithContent(a.(buffer := [], tokens := 0), Content(a.buffer), carry, s)
  }

  function WithContent(a: Assembly, content: string, carry: bool, s: Setup): Assembly {
    if content == "" then a
    else a.(
      drafts := a.drafts + Drafted(Pieces(content, s), |a.drafts|, a.sectionPath, a.page, a.slide, s.count),
      pendingOverlap := if carry then TailOverlap(content, s.config.OverlapTokens(), s.count) else "")
  }

  function Started(a: Assembly, block: Block, s: Setup): Assembly {
    if a.buffer != [] then a
    else
      var placed := a.(sectionPath := block.sectionPath, page := block.page, slide := block.slideIndex);
      if a.pendingOverlap == "" then placed
      else placed.(buffer := [a.pendingOverlap], tokens := a.tokens + s.count(a.pendingOverlap), pendingOverlap := "")
  }

  /** The assembly `add` extends: flushed first when the block would overshoot the target. */
  function Readied(a: Assembly, block: Block, body: string, s: Setup): Assembly {
    Started(if a.buffer != [] && a.tokens + s.count(body) > s.config.targetTokens then Flushed(a, true, s) else a, block, s)
  }

  function Extended(a: Assembly, body: string, tokens: nat): Assembly {
    a.(buffer := a.buffer + [body], tokens := tokens)
  }

  function Added(a: Assembly, block: Block, body: string, s: Setup): Assembly {
    if Strip(body) == "" then a
    else
      var ready := Readied(a, block, body, s);
      Extended(ready, body, ready.tokens + s.count(body))
  }

  function Emitted(a: Assembly, block: Block, text: string, s: Setup): Assembly {
    var ready := Started(Flushed(a, false, s).(pendingOverlap := ""), block, s);
    Flushed(Extended(ready, text, s.count(text)), false, s)
  }

  function AddedAll(a: Assembly, block: Block, parts: seq<string>, s: Setup): Assembly {
    if parts == [] then a
    else Added(AddedAll(a, block, parts[..|parts| - 1], s), block, parts[|parts| - 1], s)
  }

  function EmittedAll(a: Assembly, block: Block, parts: seq<string>, s: Setup): Assembly {
    if parts == [] then a
    else Emitted(EmittedAll(a, block, parts[..|parts| - 1], s), block, parts[|parts| - 1], s)
  }

  datatype Route = Whole | AsTable | AsProcedure | AsProse

  /** How `chunk_blocks` treats a block: kept whole, or split in one of three ways. */
  function RouteOf(block: Block, s: Setup): Route {
    var tokens := s.count(block.text);
    if block.kind.TABLE? && Header(block) != "" then
      if tokens > s.config.targetTokens then AsTable else Whole
    else if block.atomic then
      if tokens > s.config.maxTokens then AsProcedure else Whole
    else if tokens > s.config.targetTokens then AsProse else Whole
  }

  function Processed(a: Assembly, block: Block, s: Setup): Assembly {
    match RouteOf(block, s)
    case Whole => Added(a, block, block.text, s)
    case AsTable => EmittedAll(a, block, TableParts(block.text, Header(block), s.config.targetTokens, s.count), s)
    case AsProcedure => EmittedAll(a, block, ProcedureParts(block.text, s.config.maxTokens, s.marker, s.count), s)
    case AsProse => AddedAll(a, block, SentenceParts(block.text, s.config.targetTokens, s.count), s)
  }

  function ProcessedAll(blocks: seq<Block>, s: Setup): Assembly {
    if blocks == [] then EMPTY
    else Processed(ProcessedAll(blocks[..|blocks| - 1], s), blocks[|blocks| - 1], s)
  }

  // ---------------------------------------------------------------- slides

  /** A block without a slide number belongs to slide 0. */
  function SlideKey(b: Block): int {
    if b.slideIndex.Some? then b.slideIndex.value else 0
  }

  function SlideOrder(blocks: seq<Block>): seq<int> {
    if blocks == [] then []
    else
      var order, key := SlideOrder(blocks[..|blocks| - 1]), SlideKey(blocks[|blocks| - 1]);
      if key in order then order else order + [key]
  }

  function OnSlide(blocks: seq<Block>, key: int): seq<Block> {
    if blocks == [] then []
    else
      var last := blocks[|blocks| - 1];
      OnSlide(blocks[..|blocks| - 1], key) + (if SlideKey(last) == key then [last] else [])
  }

  function FirstPath(blocks: seq<Block>): seq<string> {
    if blocks == [] then []
    else if blocks[0].sectionPath != [] then blocks[0].sectionPath
    else FirstPath(blocks[1..])
  }

  function SlideContent(blocks: seq<Block>): string {
    Strip(Join(NonBlank(Texts(blocks)), "\n\n"))
  }

  /** The drafts after the slides listed in `order`. */
  function SlideDrafts(blocks: seq<Block>, order: seq<int>, s: Setup): seq<ChunkDraft> {
    if order == [] then []
    else
      var key := order[|order| - 1];
      WithSlide(SlideDrafts(blocks, order[..|order| - 1], s), key, OnSlide(blocks, key), s)
  }

  function WithSlide(drafts: seq<ChunkDraft>, key: int, here: seq<Block>, s: Setup): seq<ChunkDraft> {
    var content := SlideContent(here);
    if content == "" then drafts
    else drafts + Drafted(Pieces(content, s), |drafts|, FirstPath(here), Some(key), Some(key), s.count)
  }

  // ---------------------------------------------------------------- chunk_blocks

  function Kept(blocks: seq<Block>): seq<Block> {
    if blocks == [] then []
    else
      var last := blocks[|blocks| - 1];
      Kept(blocks[..|blocks| - 1]) + (if Strip(last.text) != "" then [last] else [])
  }

  predicate HasSlides(blocks: seq<Block>) {
    exists i :: 0 <= i < |blocks| && blocks[i].slideIndex.Some?
  }

  function Chunks(blocks: seq<Block>, s: Setup): seq<ChunkDraft> {
    var kept := Kept(blocks);
    if kept == [] then []
    else if HasSlides(kept) then SlideDrafts(kept, SlideOrder(kept), s)
    else Flushed(ProcessedAll(Grouped(kept, s.marker), s), true, s).drafts
  }

  method BuildPieces(content: string, s: Setup) returns (pieces: seq<string>)
    ensures pieces == Pieces(content, s)
  {
    pieces := [content];
    if s.count(content) > s.config.maxTokens {
      pieces := BuildSentenceParts(content, s.config.maxTokens, s.count);
    }
  }

  /** `_Assembler`: accumulates blocks into chunks and emits drafts in order. */
  class Assembler {
    const setup: Setup
    var drafts: seq<ChunkDraft>
    var buffer: seq<string>
    var tokens: nat
    var sectionPath: seq<string>
    var page: Option<int>
    var slide: Option<int>
    var pendingOverlap: string

    function View(): Assembly
      reads this
    {
      Assembly(drafts, buffer, tokens, sectionPath, page, slide, pendingOverlap)
    }

    constructor (setup: Setup)
      ensures View() == EMPTY && this.setup == setup
    {
      this.setup := setup;
      drafts, buffer, tokens := [], [], 0;
      sectionPath, page, slide, pendingOverlap := [], None, None, "";
    }

    method Start(block: Block)
      modifies this
      ensures View() == Started(old(View()), block, setup)
    {
      if buffer == [] {
        sectionPath, page, slide := block.sectionPath, block.page, block.slideIndex;
        if pendingOverlap != "" {
          buffer := buffer + [pendingOverlap];
          tokens := tokens + setup.count(pendingOverlap);
          pendingOverlap := "";
        }
      }
    }

    method Add(block: Block, body: string)
      modifies this
      ensures View() == Added(old(View()), block, body, setup)
    {
      hide Flushed, Strip;
      if Strip(body) == "" { return; }
      var bodyTokens := setup.count(body);
      if buffer != [] && tokens + bodyTokens > setup.config.targetTokens {
        Flush(true);
      }
      Start(block);
      buffer := buffer + [body];
      tokens := tokens + bodyTokens;
    }

    method EmitStandalone(block: Block, text: string)
      modifies this
      ensures View() == Emitted(old(View()), block, text, setup)
    {
      Flush(false);
      pendingOverlap := "";
      Start(block);
      buffer := buffer + [text];
      tokens := setup.count(text);
      Flush(false);
    }

    method Flush(carryOverlap: bool)
      modifies this
      ensures View() == Flushed(old(View()), carryOverlap, setup)
    {
      hide Content, WithContent;
      if buffer == [] { return; }
      var content := Content(buffer);
      buffer, tokens := [], 0;
      EmitContent(content, carryOverlap);
    }

    method EmitContent(content: string, carryOverlap: bool)
      modifies this`drafts, this`pendingOverlap
      ensures View() == WithContent(old(View()), content, carryOverlap, setup)
    {
      if content == "" { return; }
      var pieces := BuildPieces(content, setup);
      AppendDrafts(pieces);
      if carryOverlap {
        pendingOverlap := BuildTailOverlap(content, setup.config.OverlapTokens(), setup.count);
      } else {
        pendingOverlap := "";
      }
    }

    method AppendDrafts(pieces: seq<string>)
      modifies this`drafts
      ensures drafts == old(drafts) + Drafted(pieces, |old(drafts)|, sectionPath, page, slide, setup.count)
    {
      for i := 0 to |pieces|
        invariant drafts == old(drafts) + Drafted(pieces[..i], |old(drafts)|, sectionPath, page, slide, setup.count)
      {
        drafts := drafts + [ChunkDraft(|drafts|, pieces[i], sectionPath, setup.count(pieces[i]), page, slide)];
      }
      assert pieces[..|pieces|] == pieces;
    }

    method AddAll(block: Block, parts: seq<string>)
      modifies this
      ensures View() == AddedAll(old(View()), block, parts, setup)
    {
      for i := 0 to |parts|
        invariant View() == AddedAll(old(View()), block, parts[..i], setup)
      {
        assert parts[..i + 1][..i] == parts[..i];
        Add(block, parts[i]);
      }
      assert parts[..|parts|] == parts;
    }

    method EmitAll(block: Block, parts: seq<string>)
      modifies this
      ensures View() == EmittedAll(old(View()), block, parts, setup)
    {
      for i := 0 to |parts|
        invariant View() == EmittedAll(old(View()), block, parts[..i], setup)
      {
        assert parts[..i + 1][..i] == parts[..i];
        EmitStandalone(block, parts[i]);
      }
      assert parts[..|parts|] == parts;
    }

    /** One iteration of the loop of `chunk_blocks`. */
    method Process(block: Block)
      modifies this
      ensures View() == Processed(old(View()), block, setup)
    {
      hide Added, EmittedAll, AddedAll, TableParts, SentenceParts, ProcedureParts;
      var blockTokens := setup.count(block.text);
      if block.kind.TABLE? && Header(block) != "" {
        if blockTokens > setup.config.targetTokens {
          var parts := BuildTableParts(block.text, Header(block), setup.config.targetTokens, setup.count);
          EmitAll(block, parts);
        } else {
          Add(block, block.text);
        }
      } else if block.atomic {
        if blockTokens > setup.config.maxTokens {
          var parts := BuildProcedureParts(block.text, setup.config.maxTokens, setup.marker, setup.count);
          EmitAll(block, parts);
        } else {
          Add(block, block.text);
        }
      } else if blockTokens > setup.config.targetTokens {
        var parts := BuildSentenceParts(block.text, setup.config.targetTokens, setup.count);
        AddAll(block, parts);
      } else {
        Add(block, block.text);
      }
    }
  }

  method KeepText(blocks: seq<Block>) returns (kept: seq<Block>)
    ensures kept == Kept(blocks)
  {
    kept := [];
    for i := 0 to |blocks|
      invariant kept == Kept(blocks[..i])
    {
      assert blocks[..i + 1][..i] == blocks[..i];
      if Strip(blocks[i].text) != "" { kept := kept + [blocks[i]]; }
    }
    assert blocks[..|blocks|] == blocks;
  }

  lemma {:induction false} OrderCoversSlides(blocks: seq<Block>, key: int)
    ensures key !in SlideOrder(blocks) ==> OnSlide(blocks, key) == []
  {
    if blocks != [] { OrderCoversSlides(blocks[..|blocks| - 1], key); }
  }

  method GroupBySlide(blocks: seq<Block>) returns (order: seq<int>, grouped: map<int, seq<Block>>)
    ensures order == SlideOrder(blocks) && (forall k :: k in order <==> k in grouped)
    ensures forall k :: k in order ==> grouped[k] == OnSlide(blocks, k)
  {
    order, grouped := [], map[];
    for i := 0 to |blocks|
      invariant order == SlideOrder(blocks[..i])
      invariant forall k :: k in order <==> k in grouped
      invariant forall k :: k in order ==> grouped[k] == OnSlide(blocks[..i], k)
    {
      var key := SlideKey(blocks[i]);
      assert blocks[..i + 1][..i] == blocks[..i];
      if key !in grouped {
        OrderCoversSlides(blocks[..i], key);
        grouped := grouped[key := []];
        order := order + [key];
      }
      grouped := grouped[key := grouped[key] + [blocks[i]]];
    }
    assert blocks[..|blocks|] == blocks;
  }

  method AppendSlide(before: seq<ChunkDraft>, slide: int, here: seq<Block>, s: Setup) returns (drafts: seq<ChunkDraft>)
    ensures drafts == WithSlide(before, slide, here, s)
  {
    var content := SlideContent(here);
    if content == "" { return before; }
    var parts := BuildPieces(content, s);
    drafts := before + Drafted(parts, |before|, FirstPath(here), Some(slide), Some(slide), s.count);
  }

  /** `_chunk_slides` */
  method ChunkSlides(blocks: seq<Block>, s: Setup) returns (drafts: seq<ChunkDraft>)
    ensures drafts == SlideDrafts(blocks, SlideOrder(blocks), s)
  {
    hide WithSlide, OnSlide, SlideOrder;
    var order, grouped := GroupBySlide(blocks);
    drafts := [];
    for i := 0 to |order|
      invariant drafts == SlideDrafts(blocks, order[..i], s)
    {
      assert order[..i + 1][..i] == order[..i];
      drafts := AppendSlide(drafts, order[i], grouped[order[i]], s);
    }
    assert order[..|order|] == order;
  }

  /** `chunk_blocks` */
  method ChunkBlocks(blocks: seq<Block>, s: Setup) returns (drafts: seq<ChunkDraft>)
    ensures drafts == Chunks(blocks, s)
  {
    hide Grouped, Kept, Processed, Flushed, SlideDrafts, SlideOrder;
    var kept := KeepText(blocks);
    if kept == [] { return []; }
    if HasSlides(kept) {
      drafts := ChunkSlides(kept, s);
      return;
    }
    var grouped := GroupNumberedProcedures(kept, s.marker);
    var assembler := new Assembler(s);
    for i := 0 to |grouped|
      invariant assembler.setup == s && fresh(assembler)
      invariant assembler.View() == ProcessedAll(grouped[..i], s)
    {
      assert grouped[..i + 1][..i] == grouped[..i];
      assembler.Process(grouped[i]);
    }
    assert grouped[..|grouped|] == grouped;
    assembler.Flush(true);
    drafts := assembler.drafts;
  }
}

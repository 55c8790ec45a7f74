/** How much overlap can be carried in front of a block: no more than the longest text before it, so a block that leaves
    room for that stays in one chunk whatever the overlap setting. */
module CarriedOverlap {
  import opened Text
  import opened Tokens
  import opened Blocks
  import opened Packing
  import opened Procedures
  import opened Splitting
  import opened Chunking
  import opened Ceiling
  import opened Wholeness

  // ---------------------------------------------------------------- the last sentence

  /** The last piece runs to the end of the text, and has text in it when the text ends in some. */
  lemma {:induction false} LastPiece(s: string, start: nat, i: nat) returns (k: nat)
    requires start <= i <= |s| && start < |s| && !IsSpace(s[|s| - 1])
    ensures start <= k < |s| && PiecesFrom(s, start, i) != []
    ensures PiecesFrom(s, start, i)[|PiecesFrom(s, start, i)| - 1] == s[k..]
    decreases |s| - i
  {
    hide IsSpace, CutEnd, SpaceEnd, NewlineEnd;
    if i == |s| {
      k := start;
    } else if CutEnd(s, i) > i {
      var e := CutEnd(s, i);
      assert IsSpace(s[e - 1]);
      k := LastPiece(s, e, e);
      LastOfMore(s[start..i], PiecesFrom(s, e, e));
    } else {
      k := LastPiece(s, start, i + 1);
    }
  }

  lemma LastOfMore(x: string, xs: seq<string>)
    requires xs != []
    ensures ([x] + xs)[|[x] + xs| - 1] == xs[|xs| - 1]
  {
  }

  /** No sentence match stops inside a blank line, and one starts there at the latest. */
  lemma CutPast(s: string, i: nat, n: nat)
    requires i <= n && n + 1 < |s| && s[n] == s[n + 1] == '\n'
    ensures CutEnd(s, i) <= n || n + 2 <= CutEnd(s, i)
    ensures i == n ==> n + 2 <= CutEnd(s, i)
  {
    SpaceEndPast(s, i, n);
    NewlineEndPast(s, i, n);
    assert IsSpace('\n');
  }

  lemma {:induction false} SpaceEndPast(s: string, i: nat, n: nat)
    requires i <= n + 2 <= |s| && s[n] == s[n + 1] == '\n'
    ensures SpaceEnd(s, i) < n || n + 2 <= SpaceEnd(s, i)
    decreases n + 2 - i
  {
    if i < n + 2 { SpaceEndPast(s, i + 1, n); }
  }

  lemma {:induction false} NewlineEndPast(s: string, i: nat, n: nat)
    requires i <= n + 2 <= |s| && s[n] == s[n + 1] == '\n'
    ensures NewlineEnd(s, i) < n || n + 2 <= NewlineEnd(s, i)
    decreases n + 2 - i
  {
    if i < n + 2 { NewlineEndPast(s, i + 1, n); }
  }

  /** After a blank line, the last piece starts behind it. */
  lemma {:induction false} LastPieceAfter(s: string, start: nat, i: nat, n: nat) returns (k: nat)
    requires start <= i <= n && n + 2 < |s| && s[n] == s[n + 1] == '\n' && !IsSpace(s[|s| - 1])
    ensures n + 2 <= k < |s| && PiecesFrom(s, start, i) != []
    ensures PiecesFrom(s, start, i)[|PiecesFrom(s, start, i)| - 1] == s[k..]
    decreases |s| - i
  {
    hide *;
    var e := CutEnd(s, i);
    CutPast(s, i, n);
    CutEndsInside(s, i);
    PiecesStep(s, start, i);
    if e == i {
      k := LastPieceAfter(s, start, i + 1, n);
    } else {
      if e <= n { k := LastPieceAfter(s, e, e, n); } else { k := LastPiece(s, e, e); }
      LastOfMore(s[start..i], PiecesFrom(s, e, e));
    }
  }

  /** A match stops before a last character that is not whitespace. */
  lemma CutEndsInside(s: string, i: nat)
    requires i < |s| && !IsSpace(s[|s| - 1])
    ensures i <= CutEnd(s, i) < |s|
  {
    var e := CutEnd(s, i);
    assert e > i ==> IsSpace(s[e - 1]);
    hide IsSpace, CutEnd;
  }

  lemma {:induction false} TrimmedLast(parts: seq<string>)
    requires parts != [] && Strip(parts[|parts| - 1]) != ""
    ensures Trimmed(parts) != [] && Trimmed(parts)[|Trimmed(parts)| - 1] == Strip(parts[|parts| - 1])
  {
    hide Strip;
    if |parts| > 1 { TrimmedLast(parts[1..]); }
  }

  lemma BlankLineAt(a: string, b: string, content: string)
    requires b != "" && content == a + "\n\n" + b
    ensures |content| == |a| + 2 + |b| && content[|a|] == content[|a| + 1] == '\n' && content[|a| + 2..] == b
  {
  }

  /** The last sentence after a blank line measures no more than what follows the line. */
  lemma LastAfterBlankLine(content: string, n: nat, b: string, count: Counter)
    requires Lawful(count) && b != "" && !IsSpace(b[|b| - 1])
    requires n + 2 < |content| && content[n] == content[n + 1] == '\n' && content[n + 2..] == b
    ensures var all := Sentences(content); all != [] && count(all[|all| - 1]) <= count(b)
  {
    hide *;
    assert content[|content| - 1] == b[|b| - 1];
    var k := LastPieceAfter(content, 0, 0, n);
    assert content[k..] == b[k - n - 2..];
    LastTrimmed(content, PiecesFrom(content, 0, 0), b[k - n - 2..], count);
    SuffixCounts(b, k - n - 2, count);
  }

  lemma SuffixCounts(b: string, k: nat, count: Counter)
    requires Lawful(count) && k <= |b|
    ensures count(b[k..]) <= count(b)
  {
    assert b == b[..k] + b[k..];
    assert count(b[k..]) <= count(b[..k] + b[k..]);
  }

  lemma LastTrimmed(text: string, pieces: seq<string>, last: string, count: Counter)
    requires Lawful(count) && pieces == PiecesFrom(text, 0, 0) && pieces != [] && pieces[|pieces| - 1] == last
    requires last != "" && !IsSpace(last[|last| - 1])
    ensures var all := Sentences(text); all != [] && count(all[|all| - 1]) <= count(last)
  {
    HasText(last);
    hide Strip, Lawful, IsSpace, PiecesFrom;
    TrimmedLast(pieces);
    StripCountsLess(count, last);
  }

  lemma HasText(s: string)
    requires s != "" && !IsSpace(s[|s| - 1])
    ensures Strip(s) != ""
  {
    assert Words(s) != [];
    hide Words;
    WordsStrip(s);
  }

  /** Without a blank line: the last sentence measures no more than the text. */
  lemma LastSentenceOfOne(b: string, count: Counter)
    requires Lawful(count) && b != "" && !IsSpace(b[|b| - 1])
    ensures var all := Sentences(b); all != [] && count(all[|all| - 1]) <= count(b)
  {
    hide Lawful, IsSpace;
    var k := LastPiece(b, 0, 0);
    LastTrimmed(b, PiecesFrom(b, 0, 0), b[k..], count);
    SuffixCounts(b, k, count);
  }

  // ---------------------------------------------------------------- what a flush carries

  lemma StripSides(a: string, gap: string, b: string)
    requires Strip(a) != "" && Strip(b) != ""
    ensures Strip(a + gap + b) == LStrip(a) + gap + RStrip(b) && RStrip(b) != ""
  {
    LStripFirst(a, gap + b);
    RStripLast(LStrip(a) + gap, b);
    hide Strip, LStrip, RStrip, IsSpace;
    Assoc(a, gap, b);
    Assoc(LStrip(a), gap, b);
    StripIs(a + gap + b);
  }

  lemma StripIs(s: string)
    ensures Strip(s) == RStrip(LStrip(s))
  {
  }

  /** The last sentence of the buffered content measures no more than the last text buffered. */
  lemma LastSentenceIsLast(buffer: seq<string>, count: Counter)
    requires Lawful(count) && buffer != [] && forall t :: t in buffer ==> Words(t) != []
    ensures var all := Sentences(Content(buffer)); all != [] && count(all[|all| - 1]) <= count(buffer[|buffer| - 1])
  {
    hide Lawful, Sentences, Words, Strip;
    var n := |buffer| - 1;
    WordsStrip(buffer[n]);
    if n == 0 {
      assert buffer == [buffer[0]] && Join([buffer[0]], "\n\n") == buffer[0];
      OneText(buffer[0], count);
    } else {
      JoinInitLast(buffer[..n], buffer[n], buffer);
      hide Join;
      JoinedText(buffer[..n]);
      TwoTexts(Join(buffer[..n], "\n\n"), buffer[n], count);
    }
  }

  lemma JoinInitLast(init: seq<string>, last: string, buffer: seq<string>)
    requires init != [] && buffer != [] && init == buffer[..|buffer| - 1] && last == buffer[|buffer| - 1]
    ensures Join(buffer, "\n\n") == Join(init, "\n\n") + "\n\n" + last
  {
    assert buffer == init + [last];
    JoinAppend(init, last, "\n\n");
  }

  lemma JoinedText(init: seq<string>)
    requires init != [] && forall t :: t in init ==> Words(t) != []
    ensures Strip(Join(init, "\n\n")) != ""
  {
    JoinedWords(init);
  }

  lemma OneText(last: string, count: Counter)
    requires Lawful(count) && Strip(last) != ""
    ensures var all := Sentences(Strip(last)); all != [] && count(all[|all| - 1]) <= count(last)
  {
    hide Lawful, Sentences;
    LastSentenceOfOne(Strip(last), count);
    StripCountsLess(count, last);
  }

  lemma TwoTexts(before: string, last: string, count: Counter)
    requires Lawful(count) && Strip(before) != "" && Strip(last) != ""
    ensures var all := Sentences(Strip(before + "\n\n" + last)); all != [] && count(all[|all| - 1]) <= count(last)
  {
    hide *;
    var a, b := LStrip(before), RStrip(last);
    StripSides(before, "\n\n", last);
    BlankLineAt(a, b, a + "\n\n" + b);
    LastAfterBlankLine(a + "\n\n" + b, |a|, b, count);
    PrefixCounts(last, |b|, count);
  }

  lemma PrefixCounts(b: string, k: nat, count: Counter)
    requires Lawful(count) && k <= |b|
    ensures count(b[..k]) <= count(b)
  {
    assert b == b[..k] + b[k..];
    assert count(b[..k]) <= count(b[..k] + b[k..]);
  }

  /** The overlap budget is the share of the target cut to a whole number, toward zero. */
  lemma OverlapTruncates(config: ChunkingConfig)
    ensures var share, n := config.targetTokens as real * config.overlapRatio, config.OverlapTokens() as real;
      if share >= 0.0 then 0.0 <= n <= share < n + 1.0 else n - 1.0 < share <= n <= 0.0
  {
  }

  /** `c` bounds what the settings let several sentences add up to. */
  ghost predicate CoversOverlap(c: nat, s: Setup) {
    var overlap := s.config.OverlapTokens();
    overlap > 0 ==> overlap + (overlap - 1) * s.count(" ") <= c
  }

  /** A flush carries at most `c` tokens when its last text measures at most `c`. */
  lemma CarriesAtMost(buffer: seq<string>, c: nat, s: Setup)
    requires Lawful(s.count) && CoversOverlap(c, s) && buffer != [] && forall t :: t in buffer ==> Words(t) != []
    requires s.count(buffer[|buffer| - 1]) <= c
    ensures var carried := TailOverlap(Content(buffer), s.config.OverlapTokens(), s.count); carried == "" || s.count(carried) <= c
  {
    hide Lawful, Sentences, Words, Content, TailStart;
    var overlap := s.config.OverlapTokens();
    if overlap > 0 {
      LastSentenceIsLast(buffer, s.count);
      SentencesKeepWords(Content(buffer));
      OverlapMeasured(Content(buffer), overlap, s.count);
      assert forall x: string :: Join([x], " ") == x;
    }
  }

  // ---------------------------------------------------------------- over the whole document

  /** Nothing over `c` is carried, and nothing over `c` is last in the buffer. */
  ghost predicate Short(a: Assembly, c: nat, s: Setup) {
    && Metered(a, s)
    && (a.pendingOverlap == "" || s.count(a.pendingOverlap) <= c)
    && (a.buffer != [] ==> s.count(a.buffer[|a.buffer| - 1]) <= c)
  }

  lemma FlushShort(a: Assembly, carry: bool, c: nat, s: Setup)
    requires Lawful(s.count) && CoversOverlap(c, s) && Short(a, c, s)
    ensures Short(Flushed(a, carry, s), c, s)
  {
    FlushMetered(a, carry, s);
    if a.buffer != [] { CarriesAtMost(a.buffer, c, s); }
    hide Content, Words, Lawful, Drafted, TailOverlap, Metered, CoversOverlap;
  }

  lemma AddShort(a: Assembly, block: Block, body: string, c: nat, s: Setup)
    requires Lawful(s.count) && CoversOverlap(c, s) && Short(a, c, s) && (Strip(body) != "" ==> s.count(body) <= c)
    ensures Short(Added(a, block, body, s), c, s)
  {
    AddMetered(a, block, body, s);
    FlushShort(a, true, c, s);
    hide Flushed, Metered, Lawful, CoversOverlap, Strip;
  }

  lemma EmitShort(a: Assembly, block: Block, text: string, c: nat, s: Setup)
    requires Metered(a, s)
    ensures Short(Emitted(a, block, text, s), c, s)
  {
    EmitMetered(a, block, text, s);
    hide Metered, Content, Pieces, Drafted;
  }

  /** A block that leaves nothing over `c` at the end of the buffer: one kept whole has at most `c` tokens, and prose
      split into sentences has words within the target and a target within `c`. */
  ghost predicate LeavesAtMost(block: Block, c: nat, s: Setup) {
    if WithinItsLimit(block, s) then s.count(block.text) <= c
    else !block.atomic && !(block.kind.TABLE? && Header(block) != "") ==>
      s.config.targetTokens <= c && AllWithin(Words(block.text), s.config.targetTokens, s.count)
  }

  lemma {:induction false} AddAllShort(a: Assembly, block: Block, parts: seq<string>, c: nat, s: Setup)
    requires Lawful(s.count) && CoversOverlap(c, s) && Short(a, c, s)
    requires forall p :: p in parts && Strip(p) != "" ==> s.count(p) <= c
    ensures Short(AddedAll(a, block, parts, s), c, s)
  {
    hide Added, Short, Lawful, CoversOverlap, Strip;
    if parts != [] {
      var init, last := parts[..|parts| - 1], parts[|parts| - 1];
      AddAllShort(a, block, init, c, s);
      assert last in parts;
      AddShort(AddedAll(a, block, init, s), block, last, c, s);
    }
  }

  lemma EmitAllShort(a: Assembly, block: Block, parts: seq<string>, c: nat, s: Setup)
    requires Short(a, c, s)
    ensures Short(EmittedAll(a, block, parts, s), c, s)
  {
    hide Emitted, Metered;
    if parts != [] {
      var init := parts[..|parts| - 1];
      AllMetered(a, block, init, s);
      EmitShort(EmittedAll(a, block, init, s), block, parts[|parts| - 1], c, s);
    }
  }

  lemma ProseIsShort(text: string, c: int, s: Setup)
    requires Lawful(s.count) && s.config.targetTokens <= c && AllWithin(Words(text), s.config.targetTokens, s.count)
    ensures forall p :: p in SentenceParts(text, s.config.targetTokens, s.count) && Strip(p) != "" ==> s.count(p) <= c
  {
    hide Words, Lawful, Packed, Refine, Strip, Sentences;
    WordsStrip(text);
    SentencesKeepWords(text);
    if Words(text) != [] { SentencePartsWithin(text, s.config.targetTokens, s.count); }
  }

  lemma ProcessedShort(a: Assembly, block: Block, c: nat, s: Setup)
    requires Lawful(s.count) && CoversOverlap(c, s) && Short(a, c, s) && LeavesAtMost(block, c, s)
    ensures Short(Processed(a, block, s), c, s)
  {
    hide Added, AddedAll, EmittedAll, Short, Lawful, CoversOverlap, SentenceParts, TableParts, ProcedureParts, Words, Strip, RouteOf, WithinItsLimit;
    RouteByLimit(block, s);
    match RouteOf(block, s)
    case Whole => AddShort(a, block, block.text, c, s);
    case AsTable => EmitAllShort(a, block, TableParts(block.text, Header(block), s.config.targetTokens, s.count), c, s);
    case AsProcedure => EmitAllShort(a, block, ProcedureParts(block.text, s.config.maxTokens, s.marker, s.count), c, s);
    case AsProse =>
      ProseIsShort(block.text, c, s);
      AddAllShort(a, block, SentenceParts(block.text, s.config.targetTokens, s.count), c, s);
  }

  lemma {:induction false} ProcessedAllShort(blocks: seq<Block>, c: nat, s: Setup)
    requires Lawful(s.count) && CoversOverlap(c, s) && forall b :: b in blocks ==> LeavesAtMost(b, c, s)
    ensures Short(ProcessedAll(blocks, s), c, s)
  {
    hide Processed, Lawful, CoversOverlap, LeavesAtMost;
    if blocks != [] {
      var init, last := blocks[..|blocks| - 1], blocks[|blocks| - 1];
      ProcessedAllShort(init, c, s);
      assert last in blocks;
      hide Short;
      ProcessedShort(ProcessedAll(init, s), last, c, s);
    }
  }

  lemma CarriedIsShort(a: Assembly, body: string, c: nat, s: Setup)
    requires Lawful(s.count) && CoversOverlap(c, s) && Short(a, c, s)
    ensures CarriedInto(a, body, s) <= c + s.count("\n\n")
  {
    FlushShort(a, true, c, s);
    hide Flushed, Lawful, Metered, CoversOverlap;
  }

  /** Whatever the overlap: a block that is not chosen to be split stays in one chunk when it leaves room in the ceiling
      for `c` and a separator, where `c` is at least the overlap budget and every block before it leaves at most `c`.
      With `c` the target: any procedure of at most `max_tokens` less the target and a separator stays whole when no
      earlier one exceeds the target. */
  lemma BlockWithRoomStaysWhole(blocks: seq<Block>, i: nat, c: nat, s: Setup)
    requires Lawful(s.count) && Roomy(s) && !HasSlides(Kept(blocks)) && CoversOverlap(c, s)
    requires i < |Grouped(Kept(blocks), s.marker)|
    requires forall k :: 0 <= k < i ==> LeavesAtMost(Grouped(Kept(blocks), s.marker)[k], c, s)
    requires var b := Grouped(Kept(blocks), s.marker)[i];
             WithinItsLimit(b, s) && Words(b.text) != [] && s.count(b.text) + c + s.count("\n\n") <= s.config.maxTokens
    ensures InOneDraft(Chunks(blocks, s), Grouped(Kept(blocks), s.marker)[i].text)
  {
    hide Grouped, Kept, ProcessedAll, Words, Chunks, Lawful, CoversOverlap, LeavesAtMost, WithinItsLimit, Short, CarriedInto, HasSlides;
    var before := Grouped(Kept(blocks), s.marker)[..i];
    ProcessedAllShort(before, c, s);
    CarriedIsShort(ProcessedAll(before, s), Grouped(Kept(blocks), s.marker)[i].text, c, s);
    RoomyBears(Grouped(Kept(blocks), s.marker)[i].text, s);
    hide Bearable, Roomy;
    BlockStaysWhole(blocks, i, s);
  }
}

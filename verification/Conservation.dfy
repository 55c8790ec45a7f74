/** Nothing is lost, duplicated or reordered between a document and its chunks, and every chunk is labelled with the place of
    its first new word. */
module Conservation {
  import opened Text
  import opened Tokens
  import opened Blocks
  import opened Procedures
  import opened Splitting
  import opened Chunking
  import opened Ceiling

  type WordSeq = seq<string>

  /** Where in a document something stands: what a chunk is labelled with. */
  datatype Place = Place(path: seq<string>, page: Option<int>, slide: Option<int>)

  function PlaceOf(b: Block): Place {
    Place(b.sectionPath, b.page, b.slideIndex)
  }

  /** What one flush wrote: the words it repeated, the words it carried for the first time, the chunks they went into, and
      what those are labelled with. */
  datatype Segment = Segment(repeated: WordSeq, novel: WordSeq, chunks: seq<string>, place: Place)

  function Contents(drafts: seq<ChunkDraft>): seq<string> {
    seq(|drafts|, i requires 0 <= i < |drafts| => drafts[i].content)
  }

  function AllChunks(ledger: seq<Segment>): seq<string> {
    if ledger == [] then [] else AllChunks(ledger[..|ledger| - 1]) + ledger[|ledger| - 1].chunks
  }

  function AllFresh(ledger: seq<Segment>): WordSeq {
    if ledger == [] then [] else AllFresh(ledger[..|ledger| - 1]) + ledger[|ledger| - 1].novel
  }

  function LastWords(ledger: seq<Segment>): WordSeq {
    if ledger == [] then [] else ledger[|ledger| - 1].repeated + ledger[|ledger| - 1].novel
  }

  /** Words a segment may repeat: a marker or table header in `repeats`, or the end of the segment before. */
  ghost predicate MayRepeat(repeated: WordSeq, before: seq<Segment>, repeats: set<WordSeq>) {
    repeated == [] || repeated in repeats || IsSuffix(repeated, LastWords(before))
  }

  ghost predicate Sound(ledger: seq<Segment>, repeats: set<WordSeq>) {
    forall i :: 0 <= i < |ledger| ==>
      && WordsAll(ledger[i].chunks) == ledger[i].repeated + ledger[i].novel
      && MayRepeat(ledger[i].repeated, ledger[..i], repeats)
  }

  /** The books of an assembly: its drafts are the chunks of a sound ledger, its buffer holds
      `repeated + novel`, and everything novel so far is `input`. */
  ghost predicate Balanced(a: Assembly, ledger: seq<Segment>, repeated: WordSeq, novel: WordSeq, input: WordSeq, repeats: set<WordSeq>) {
    && Sound(ledger, repeats)
    && Contents(a.drafts) == AllChunks(ledger)
    && WordsAll(a.buffer) == repeated + novel
    && AllFresh(ledger) + novel == input
    && MayRepeat(repeated, ledger, repeats)
    && IsSuffix(Words(a.pendingOverlap), LastWords(ledger))
    && (a.buffer != [] ==> a.pendingOverlap == "")
  }

  // ---------------------------------------------------------------- labels

  function Copies(place: Place, n: nat): seq<Place> {
    seq(n, _ => place)
  }

  /** The labels of drafts, one for each. */
  function Labels(drafts: seq<ChunkDraft>): seq<Place> {
    seq(|drafts|, i requires 0 <= i < |drafts| => Place(drafts[i].sectionPath, drafts[i].page, drafts[i].slideIndex))
  }

  /** The labels of the chunks of a ledger: each chunk has that of its segment. */
  function AllLabels(ledger: seq<Segment>): seq<Place> {
    if ledger == [] then []
    else
      var last := ledger[|ledger| - 1];
      AllLabels(ledger[..|ledger| - 1]) + Copies(last.place, |last.chunks|)
  }

  /** A segment is labelled with the place of its first new word; `places` holds those of all new words, in order. */
  ghost predicate Placed(ledger: seq<Segment>, places: seq<Place>) {
    forall i :: 0 <= i < |ledger| && ledger[i].novel != [] ==>
      |AllFresh(ledger[..i])| < |places| && ledger[i].place == places[|AllFresh(ledger[..i])|]
  }

  /** The labels of an assembly: those of its drafts are those of the ledger, and the buffer has that of its first new word. */
  ghost predicate Located(a: Assembly, ledger: seq<Segment>, novel: WordSeq, places: seq<Place>) {
    && Labels(a.drafts) == AllLabels(ledger)
    && Placed(ledger, places)
    && |places| == |AllFresh(ledger)| + |novel|
    && (novel != [] ==> places[|AllFresh(ledger)|] == Place(a.sectionPath, a.page, a.slide))
  }

  lemma LabelsOfMore(drafts: seq<ChunkDraft>, pieces: seq<string>, place: Place, count: Counter)
    ensures Labels(drafts + Drafted(pieces, |drafts|, place.path, place.page, place.slide, count)) == Labels(drafts) + Copies(place, |pieces|)
  {
  }

  lemma SegmentPlaced(ledger: seq<Segment>, seg: Segment, places: seq<Place>)
    requires Placed(ledger, places)
    requires seg.novel != [] ==> |AllFresh(ledger)| < |places| && seg.place == places[|AllFresh(ledger)|]
    ensures Placed(ledger + [seg], places)
    ensures AllLabels(ledger + [seg]) == AllLabels(ledger) + Copies(seg.place, |seg.chunks|)
    ensures AllFresh(ledger + [seg]) == AllFresh(ledger) + seg.novel
  {
    hide Copies;
    var longer := ledger + [seg];
    assert longer[..|ledger|] == ledger;
    forall i | 0 <= i < |longer| && longer[i].novel != []
      ensures |AllFresh(longer[..i])| < |places| && longer[i].place == places[|AllFresh(longer[..i])|]
    {
      if i < |ledger| { assert longer[..i] == ledger[..i] && longer[i] == ledger[i]; }
    }
  }

  /** Closing a segment labels its chunks. */
  lemma CloseLocated(a: Assembly, content: string, carry: bool, ledger: seq<Segment>, seg: Segment, places: seq<Place>, s: Setup)
    requires Located(a, ledger, seg.novel, places)
    requires content != "" && seg.chunks == Pieces(content, s) && seg.place == Place(a.sectionPath, a.page, a.slide)
    ensures Located(WithContent(a.(buffer := [], tokens := 0), content, carry, s), ledger + [seg], [], places)
  {
    SegmentPlaced(ledger, seg, places);
    LabelsOfMore(a.drafts, seg.chunks, seg.place, s.count);
    hide Pieces, TailOverlap, Drafted, Placed, Labels, AllLabels, AllFresh, Copies;
  }

  lemma CopiesOfMore(place: Place, m: nat, n: nat)
    ensures Copies(place, m) + Copies(place, n) == Copies(place, m + n)
  {
  }

  lemma MorePlaces(ledger: seq<Segment>, places: seq<Place>, more: seq<Place>)
    requires Placed(ledger, places)
    ensures Placed(ledger, places + more)
  {
    hide AllFresh;
  }

  /** Words of `block` go into the buffer, which stands at the block when it holds no new word yet. */
  lemma ExtendLocated(a: Assembly, block: Block, body: string, tokens: nat, ledger: seq<Segment>, novel: WordSeq, words: WordSeq, places: seq<Place>)
    requires Located(a, ledger, novel, places) && (novel == [] ==> Place(a.sectionPath, a.page, a.slide) == PlaceOf(block))
    ensures Located(Extended(a, body, tokens), ledger, novel + words, places + Copies(PlaceOf(block), |words|))
  {
    MorePlaces(ledger, places, Copies(PlaceOf(block), |words|));
    hide Labels, AllLabels, AllFresh, Placed;
  }

  // ---------------------------------------------------------------- the books, step by step

  lemma AppendSegment(ledger: seq<Segment>, seg: Segment, repeats: set<WordSeq>)
    requires Sound(ledger, repeats) && WordsAll(seg.chunks) == seg.repeated + seg.novel
    requires MayRepeat(seg.repeated, ledger, repeats)
    ensures Sound(ledger + [seg], repeats)
    ensures AllChunks(ledger + [seg]) == AllChunks(ledger) + seg.chunks
    ensures AllFresh(ledger + [seg]) == AllFresh(ledger) + seg.novel
    ensures LastWords(ledger + [seg]) == seg.repeated + seg.novel
  {
    var longer := ledger + [seg];
    assert longer[..|ledger|] == ledger;
    forall i | 0 <= i < |longer|
      ensures WordsAll(longer[i].chunks) == longer[i].repeated + longer[i].novel && MayRepeat(longer[i].repeated, longer[..i], repeats)
    {
      if i < |ledger| { assert longer[..i] == ledger[..i] && longer[i] == ledger[i]; }
    }
  }

  lemma PiecesKeepWords(content: string, s: Setup)
    ensures WordsAll(Pieces(content, s)) == Words(content)
  {
    SentencePartsKeepWords(content, s.config.maxTokens, s.count);
    WordsAllOne(content);
  }

  lemma ContentsOfMore(drafts: seq<ChunkDraft>, pieces: seq<string>, path: seq<string>, page: Option<int>, slide: Option<int>, count: Counter)
    ensures Contents(drafts + Drafted(pieces, |drafts|, path, page, slide, count)) == Contents(drafts) + pieces
  {
  }

  /** Closing a segment with non-blank content moves it from the buffer to the ledger. */
  lemma CloseSegment(a: Assembly, content: string, carry: bool, ledger: seq<Segment>, seg: Segment, input: WordSeq, repeats: set<WordSeq>, s: Setup)
    requires Balanced(a, ledger, seg.repeated, seg.novel, input, repeats)
    requires content != "" && Words(content) == WordsAll(a.buffer) && seg.chunks == Pieces(content, s)
    ensures Balanced(WithContent(a.(buffer := [], tokens := 0), content, carry, s), ledger + [seg], [], [], input, repeats)
  {
    hide Words, Pieces, TailOverlap, Drafted;
    var pieces := Pieces(content, s);
    PiecesKeepWords(content, s);
    OverlapIsSuffix(content, s.config.OverlapTokens(), s.count);
    NoWords();
    AppendSegment(ledger, seg, repeats);
    ContentsOfMore(a.drafts, pieces, a.sectionPath, a.page, a.slide, s.count);
    EmptyFirst(AllFresh(ledger + [seg]));
    hide Sound, AllFresh, AllChunks, LastWords, Contents;
    assert IsSuffix([], LastWords(ledger + [seg]));
  }

  /** A flush closes the open segment. */
  lemma FlushBalanced(a: Assembly, carry: bool,
        ledger: seq<Segment>, repeated: WordSeq, novel: WordSeq, input: WordSeq, places: seq<Place>,
        repeats: set<WordSeq>, s: Setup)
    returns (ledger': seq<Segment>)
    requires Balanced(a, ledger, repeated, novel, input, repeats) && Located(a, ledger, novel, places) && a.buffer != []
    ensures Balanced(Flushed(a, carry, s), ledger', [], [], input, repeats) && Located(Flushed(a, carry, s), ledger', [], places)
  {
    hide Content, Pieces, TailOverlap, Words, Sound, AllFresh, AllChunks, LastWords, Contents, Placed, Labels, AllLabels;
    var content := Content(a.buffer);
    ContentWords(a.buffer);
    if content == "" {
      ledger' := ledger;
    } else {
      var seg := Segment(repeated, novel, Pieces(content, s), Place(a.sectionPath, a.page, a.slide));
      CloseSegment(a, content, carry, ledger, seg, input, repeats, s);
      CloseLocated(a, content, carry, ledger, seg, places, s);
      ledger' := ledger + [seg];
    }
  }

  lemma ContentWords(buffer: seq<string>)
    ensures Words(Content(buffer)) == WordsAll(buffer)
    ensures Content(buffer) == "" <==> WordsAll(buffer) == []
  {
    JoinedWords(buffer);
  }

  /** Starting a buffer opens a segment that repeats the pending overlap. */
  lemma StartBalanced(a: Assembly, block: Block, ledger: seq<Segment>, input: WordSeq, repeats: set<WordSeq>, s: Setup)
    requires Balanced(a, ledger, [], [], input, repeats) && a.buffer == []
    ensures Balanced(Started(a, block, s), ledger, Words(a.pendingOverlap), [], input, repeats)
  {
    WordsAllOne(a.pendingOverlap);
  }

  lemma ExtendBalanced(a: Assembly, body: string, tokens: nat,
        ledger: seq<Segment>, repeated: WordSeq, novel: WordSeq, input: WordSeq, repeats: set<WordSeq>)
    requires Balanced(a, ledger, repeated, novel, input, repeats) && a.pendingOverlap == ""
    ensures Balanced(Extended(a, body, tokens), ledger, repeated, novel + Words(body), input + Words(body), repeats)
  {
    WordsAllSnoc(a.buffer, body);
    Assoc(repeated, novel, Words(body));
    Assoc(AllFresh(ledger), novel, Words(body));
  }

  /** Nothing open in an empty buffer, and a new word in any other. */
  ghost predicate Opened(a: Assembly, repeated: WordSeq, novel: WordSeq) {
    if a.buffer == [] then repeated == [] && novel == [] else novel != []
  }

  lemma AddBalanced(a: Assembly, block: Block, body: string,
        ledger: seq<Segment>, repeated: WordSeq, novel: WordSeq, input: WordSeq, places: seq<Place>,
        repeats: set<WordSeq>, s: Setup)
    returns (ledger': seq<Segment>, repeated': WordSeq, novel': WordSeq)
    requires Balanced(a, ledger, repeated, novel, input, repeats) && Located(a, ledger, novel, places) && Opened(a, repeated, novel)
    ensures Balanced(Added(a, block, body, s), ledger', repeated', novel', input + Words(body), repeats)
    ensures Located(Added(a, block, body, s), ledger', novel', places + Copies(PlaceOf(block), |Words(body)|))
    ensures Opened(Added(a, block, body, s), repeated', novel')
  {
    hide Words, Strip, Flushed;
    ledger', repeated', novel' := ledger, repeated, novel;
    WordsStrip(body);
    if Strip(body) == "" {
      EmptyFirst(input);
      EmptyFirst(places);
    } else {
      hide Balanced, Located, Opened, Started, Copies, PlaceOf;
      var b := a;
      if a.buffer != [] && a.tokens + s.count(body) > s.config.targetTokens {
        OpenedParts(a, repeated, novel);
        ledger' := FlushBalanced(a, true, ledger, repeated, novel, input, places, repeats, s);
        repeated', novel' := [], [];
        b := Flushed(a, true, s);
        FlushEmpties(a, true, s);
        OpenedParts(b, [], []);
      }
      repeated', novel' := ReadyBalanced(b, block, body, ledger', repeated', novel', input, places, repeats, s);
    }
  }

  lemma OpenedParts(a: Assembly, repeated: WordSeq, novel: WordSeq)
    ensures a.buffer == [] && repeated == [] && novel == [] ==> Opened(a, repeated, novel)
  {
  }

  /** A text added where nothing has to be flushed first. */
  lemma ReadyBalanced(b: Assembly, block: Block, body: string,
        ledger: seq<Segment>, repeated: WordSeq, novel: WordSeq, input: WordSeq, places: seq<Place>,
        repeats: set<WordSeq>, s: Setup)
    returns (repeated': WordSeq, novel': WordSeq)
    requires Balanced(b, ledger, repeated, novel, input, repeats) && Located(b, ledger, novel, places) && Opened(b, repeated, novel)
    requires Words(body) != []
    ensures var after := Extended(Started(b, block, s), body, Started(b, block, s).tokens + s.count(body));
      && Balanced(after, ledger, repeated', novel', input + Words(body), repeats)
      && Located(after, ledger, novel', places + Copies(PlaceOf(block), |Words(body)|))
      && Opened(after, repeated', novel')
  {
    hide Words;
    var ready := Started(b, block, s);
    ReadyLocated(b, block, ledger, novel, places, s);
    ExtendLocated(ready, block, body, ready.tokens + s.count(body), ledger, novel, Words(body), places);
    repeated' := repeated;
    if b.buffer == [] {
      StartBalanced(b, block, ledger, input, repeats, s);
      repeated' := Words(b.pendingOverlap);
    }
    hide Located, Sound, AllFresh, AllChunks, Contents, LastWords, Copies, MayRepeat;
    ExtendBalanced(ready, body, ready.tokens + s.count(body), ledger, repeated', novel, input, repeats);
    novel' := novel + Words(body);
  }

  lemma ReadyLocated(b: Assembly, block: Block, ledger: seq<Segment>, novel: WordSeq, places: seq<Place>, s: Setup)
    requires Located(b, ledger, novel, places) && (b.buffer == [] <==> novel == [])
    ensures var ready := Started(b, block, s);
      Located(ready, ledger, novel, places) && (novel == [] ==> Place(ready.sectionPath, ready.page, ready.slide) == PlaceOf(block))
  {
    hide Labels, AllLabels, AllFresh, Placed;
  }

  lemma FlushEmpties(a: Assembly, carry: bool, s: Setup)
    ensures Flushed(a, carry, s).buffer == []
  {
  }

  /** A lone text in the buffer, with nothing carried in front of it. */
  lemma LoneTextBalanced(b: Assembly, block: Block, text: string, rep: WordSeq, newly: WordSeq,
        ledger: seq<Segment>, input: WordSeq, repeats: set<WordSeq>, s: Setup)
    requires Balanced(b, ledger, [], [], input, repeats) && b.buffer == []
    requires Words(text) == rep + newly && (rep == [] || rep in repeats)
    ensures var full := Extended(Started(b.(pendingOverlap := ""), block, s), text, s.count(text));
      full.buffer == [text] && Balanced(full, ledger, rep, newly, input + newly, repeats)
  {
    NoWords();
    EmptyFirst([text]);
    hide Words, WordsAll, Sound, AllFresh, AllChunks, Contents, LastWords;
    WordsAllOne(text);
    EmptyFirst(AllFresh(ledger));
  }

  lemma EmitBalanced(a: Assembly, block: Block, text: string, rep: WordSeq, newly: WordSeq,
        ledger: seq<Segment>, repeated: WordSeq, novel: WordSeq, input: WordSeq, places: seq<Place>,
        repeats: set<WordSeq>, s: Setup)
    returns (ledger': seq<Segment>)
    requires Balanced(a, ledger, repeated, novel, input, repeats) && Located(a, ledger, novel, places) && Opened(a, repeated, novel)
    requires Words(text) == rep + newly && (rep == [] || rep in repeats)
    ensures Balanced(Emitted(a, block, text, s), ledger', [], [], input + newly, repeats)
    ensures Located(Emitted(a, block, text, s), ledger', [], places + Copies(PlaceOf(block), |newly|))
    ensures Emitted(a, block, text, s).buffer == []
  {
    hide Words, Balanced, Located, WithContent, Started, Content, Copies;
    ledger' := ledger;
    if a.buffer != [] {
      ledger' := FlushBalanced(a, false, ledger, repeated, novel, input, places, repeats, s);
    }
    FlushEmpties(a, false, s);
    FlushEmpties(Extended(Started(Flushed(a, false, s).(pendingOverlap := ""), block, s), text, s.count(text)), false, s);
    LoneTextBalanced(Flushed(a, false, s), block, text, rep, newly, ledger', input, repeats, s);
    LoneTextLocated(Flushed(a, false, s), block, text, newly, ledger', places, s);
    var full := Extended(Started(Flushed(a, false, s).(pendingOverlap := ""), block, s), text, s.count(text));
    ledger' := FlushBalanced(full, false, ledger', rep, newly, input + newly, places + Copies(PlaceOf(block), |newly|), repeats, s);
  }

  lemma LoneTextLocated(b: Assembly, block: Block, text: string, newly: WordSeq, ledger: seq<Segment>, places: seq<Place>, s: Setup)
    requires Located(b, ledger, [], places) && b.buffer == []
    ensures var full := Extended(Started(b.(pendingOverlap := ""), block, s), text, s.count(text));
      Located(full, ledger, newly, places + Copies(PlaceOf(block), |newly|))
  {
    hide Labels, AllLabels, AllFresh, Placed;
    var ready := Started(b.(pendingOverlap := ""), block, s);
    assert Located(ready, ledger, [], places);
    ExtendLocated(ready, block, text, s.count(text), ledger, [], newly, places);
    EmptyFirst(newly);
  }

  lemma {:induction false} AddAllBalanced(a: Assembly, block: Block, parts: seq<string>,
        ledger: seq<Segment>, repeated: WordSeq, novel: WordSeq, input: WordSeq, places: seq<Place>,
        repeats: set<WordSeq>, s: Setup)
    returns (ledger': seq<Segment>, repeated': WordSeq, novel': WordSeq)
    requires Balanced(a, ledger, repeated, novel, input, repeats) && Located(a, ledger, novel, places) && Opened(a, repeated, novel)
    ensures Balanced(AddedAll(a, block, parts, s), ledger', repeated', novel', input + WordsAll(parts), repeats)
    ensures Located(AddedAll(a, block, parts, s), ledger', novel', places + Copies(PlaceOf(block), |WordsAll(parts)|))
    ensures Opened(AddedAll(a, block, parts, s), repeated', novel')
  {
    hide Words, Added, Balanced, Located, Opened, Copies;
    if parts == [] {
      ledger', repeated', novel' := ledger, repeated, novel;
      EmptyFirst(input);
      NoCopies(PlaceOf(block), places);
    } else {
      var n := |parts| - 1;
      var init := parts[..n];
      ledger', repeated', novel' := AddAllBalanced(a, block, init, ledger, repeated, novel, input, places, repeats, s);
      ledger', repeated', novel' := AddBalanced(AddedAll(a, block, init, s), block, parts[n], ledger', repeated', novel',
        input + WordsAll(init), places + Copies(PlaceOf(block), |WordsAll(init)|), repeats, s);
      LastBody(input, parts, n);
      LastPlaces(places, PlaceOf(block), parts, n);
    }
  }

  lemma NoCopies(place: Place, places: seq<Place>)
    ensures places + Copies(place, 0) == places
  {
  }

  lemma LastPlaces(places: seq<Place>, place: Place, bodies: seq<string>, n: nat)
    requires |bodies| == n + 1
    ensures (places + Copies(place, |WordsAll(bodies[..n])|)) + Copies(place, |Words(bodies[n])|) == places + Copies(place, |WordsAll(bodies)|)
  {
    hide *;
    InitLast(bodies, n);
    WordsAllSnoc(bodies[..n], bodies[n]);
    var k, m := |WordsAll(bodies[..n])|, |Words(bodies[n])|;
    CopiesOfMore(place, k, m);
    Assoc(places, Copies(place, k), Copies(place, m));
  }

  /** Parts that each lead with allowed repeats: part `i` holds `reps[i]`, then the words of `bodies[i]`. */
  ghost predicate Led(parts: seq<string>, reps: seq<WordSeq>, bodies: seq<string>, repeats: set<WordSeq>) {
    && |parts| == |reps| == |bodies|
    && forall i :: 0 <= i < |parts| ==> Words(parts[i]) == reps[i] + Words(bodies[i]) && (reps[i] == [] || reps[i] in repeats)
  }

  lemma {:induction false} EmitAllBalanced(a: Assembly, block: Block, parts: seq<string>, reps: seq<WordSeq>, bodies: seq<string>,
        ledger: seq<Segment>, repeated: WordSeq, novel: WordSeq, input: WordSeq, places: seq<Place>,
        repeats: set<WordSeq>, s: Setup)
    returns (ledger': seq<Segment>, repeated': WordSeq, novel': WordSeq)
    requires Balanced(a, ledger, repeated, novel, input, repeats) && Located(a, ledger, novel, places) && Opened(a, repeated, novel)
    requires Led(parts, reps, bodies, repeats)
    ensures Balanced(EmittedAll(a, block, parts, s), ledger', repeated', novel', input + WordsAll(bodies), repeats)
    ensures Located(EmittedAll(a, block, parts, s), ledger', novel', places + Copies(PlaceOf(block), |WordsAll(bodies)|))
    ensures Opened(EmittedAll(a, block, parts, s), repeated', novel')
  {
    hide Words, Emitted, Balanced, Located, Copies;
    if parts == [] {
      ledger', repeated', novel' := ledger, repeated, novel;
      EmptyFirst(input);
      NoCopies(PlaceOf(block), places);
    } else {
      var n := |parts| - 1;
      var init, sum, more := parts[..n], input + WordsAll(bodies[..n]), places + Copies(PlaceOf(block), |WordsAll(bodies[..n])|);
      LastBody(input, bodies, n);
      LastPlaces(places, PlaceOf(block), bodies, n);
      ledger', repeated', novel' := EmitAllBalanced(a, block, init, reps[..n], bodies[..n], ledger, repeated, novel, input, places, repeats, s);
      ledger' := EmitBalanced(EmittedAll(a, block, init, s), block, parts[n], reps[n], Words(bodies[n]), ledger', repeated', novel', sum, more, repeats, s);
      repeated', novel' := [], [];
    }
  }

  lemma LastBody(input: WordSeq, bodies: seq<string>, n: nat)
    requires |bodies| == n + 1
    ensures (input + WordsAll(bodies[..n])) + Words(bodies[n]) == input + WordsAll(bodies)
  {
    hide *;
    InitLast(bodies, n);
    WordsAllSnoc(bodies[..n], bodies[n]);
    Assoc(input, WordsAll(bodies[..n]), Words(bodies[n]));
  }

  /** A table that will be split must begin with its header, word for word. */
  ghost predicate HeaderLeads(b: Block) {
    Header(b) == "" || TableBody(b.text, Header(b)) == [] || Words(Header(b)) == WordsAll(TableHead(b.text, Header(b)))
  }

  /** What a document's chunks may repeat besides carried overlap: the continuation marker and table headers. */
  function Repeats(blocks: seq<Block>): set<WordSeq> {
    {Words(CONTINUED)} + set b | b in blocks :: Words(Header(b))
  }

  /** What the chunks carry of a block: its words, with the header in place of the lines it stands for when a table is
      split. */
  function CarriedWords(b: Block, s: Setup): WordSeq {
    if RouteOf(b, s).AsTable? && TableBody(b.text, Header(b)) != [] then Words(Header(b)) + WordsAll(TableBody(b.text, Header(b)))
    else Words(b.text)
  }

  function CarriedAll(blocks: seq<Block>, s: Setup): WordSeq {
    if blocks == [] then [] else CarriedAll(blocks[..|blocks| - 1], s) + CarriedWords(blocks[|blocks| - 1], s)
  }

  /** Where each of those words stands: at its block. */
  function PlacesAll(blocks: seq<Block>, s: Setup): seq<Place> {
    if blocks == [] then []
    else
      var last := blocks[|blocks| - 1];
      PlacesAll(blocks[..|blocks| - 1], s) + Copies(PlaceOf(last), |CarriedWords(last, s)|)
  }

  /** When every split table leads with its header, that is every word. */
  lemma {:induction false} CarriedIsAll(blocks: seq<Block>, s: Setup)
    requires forall b :: b in blocks && RouteOf(b, s).AsTable? ==> HeaderLeads(b)
    ensures CarriedAll(blocks, s) == BlockWords(blocks)
  {
    hide Words, HeaderLeads, RouteOf, CarriedWords;
    if blocks != [] {
      var init, last := blocks[..|blocks| - 1], blocks[|blocks| - 1];
      CarriedIsAll(init, s);
      assert blocks == init + [last] && last in blocks;
      BlockWordsAppend(init, [last]);
      BlockWordsOne(last);
      CarriedIsWords(last, s);
    }
  }

  lemma CarriedIsWords(b: Block, s: Setup)
    requires RouteOf(b, s).AsTable? ==> HeaderLeads(b)
    ensures CarriedWords(b, s) == Words(b.text)
  {
    hide Words, TableBody, TableHead;
    TableLines(b.text, Header(b));
  }

  lemma TableLed(block: Block, s: Setup, repeats: set<WordSeq>) returns (reps: seq<WordSeq>, bodies: seq<string>)
    requires RouteOf(block, s).AsTable? && Words(Header(block)) in repeats
    ensures Led(TableParts(block.text, Header(block), s.config.targetTokens, s.count), reps, bodies, repeats)
    ensures WordsAll(bodies) == CarriedWords(block, s)
  {
    hide Words;
    var text, header, limit := block.text, Header(block), s.config.targetTokens;
    var parts := TableParts(text, header, limit, s.count);
    if TableBody(text, header) == [] {
      reps, bodies := [[]], [text];
      WordsAllOne(text);
      EmptyFirst(Words(text));
    } else {
      TablePartsWords(text, header, limit, s.count);
      reps, bodies := FirstLeads(parts, Words(header), TableGroups(text, header, limit, s.count), repeats);
    }
  }

  /** Parts that all lead with the same words: the first part carries them, the others repeat them. */
  lemma FirstLeads(parts: seq<string>, lead: WordSeq, groups: seq<string>, repeats: set<WordSeq>) returns (reps: seq<WordSeq>, bodies: seq<string>)
    requires |parts| == |groups| > 0 && lead in repeats
    requires forall i :: 0 <= i < |groups| ==> Words(parts[i]) == lead + Words(groups[i])
    ensures Led(parts, reps, bodies, repeats)
    ensures WordsAll(bodies) == lead + WordsAll(groups)
  {
    hide Words;
    reps := seq(|groups|, i => if i == 0 then [] else lead);
    bodies := [parts[0]] + groups[1..];
    assert bodies[1..] == groups[1..];
    Assoc(lead, Words(groups[0]), WordsAll(groups[1..]));
  }

  lemma ProcedureLed(text: string, s: Setup, repeats: set<WordSeq>) returns (reps: seq<WordSeq>, bodies: seq<string>)
    requires Words(CONTINUED) in repeats
    ensures Led(ProcedureParts(text, s.config.maxTokens, s.marker, s.count), reps, bodies, repeats)
    ensures WordsAll(bodies) == Words(text)
  {
    hide Words, SentenceParts, ProcedureBodies, Steps;
    var limit := s.config.maxTokens;
    if |Steps(text, s.marker)| <= 1 {
      bodies := SentenceParts(text, limit, s.count);
      reps := seq(|bodies|, i => []);
      SentencePartsKeepWords(text, limit, s.count);
    } else {
      bodies := ProcedureBodies(text, limit, s.marker, s.count);
      reps := seq(|bodies|, i => if i == 0 then [] else Words(CONTINUED));
      ProcedureUnitsKeepWords(text, limit, s.marker, s.count);
      forall i | 0 <= i < |bodies| ensures Words(MarkContinued(bodies)[i]) == reps[i] + Words(bodies[i]) {
        WordsBetween(CONTINUED, "\n", bodies[i]);
      }
    }
  }

  lemma ProcessBalanced(a: Assembly, block: Block,
        ledger: seq<Segment>, repeated: WordSeq, novel: WordSeq, input: WordSeq, places: seq<Place>,
        repeats: set<WordSeq>, s: Setup)
    returns (ledger': seq<Segment>, repeated': WordSeq, novel': WordSeq)
    requires Balanced(a, ledger, repeated, novel, input, repeats) && Located(a, ledger, novel, places) && Opened(a, repeated, novel)
    requires Words(CONTINUED) in repeats && Words(Header(block)) in repeats
    ensures Balanced(Processed(a, block, s), ledger', repeated', novel', input + CarriedWords(block, s), repeats)
    ensures Located(Processed(a, block, s), ledger', novel', places + Copies(PlaceOf(block), |CarriedWords(block, s)|))
    ensures Opened(Processed(a, block, s), repeated', novel')
  {
    hide Words, WordsAll, Balanced, Located, Opened, Copies, Led, TableParts, SentenceParts, ProcedureParts, AddedAll, EmittedAll, Added, TableBody, RouteOf;
    match RouteOf(block, s)
    case Whole =>
      ledger', repeated', novel' := AddBalanced(a, block, block.text, ledger, repeated, novel, input, places, repeats, s);
    case AsTable =>
      var parts := TableParts(block.text, Header(block), s.config.targetTokens, s.count);
      var reps, bodies := TableLed(block, s, repeats);
      ledger', repeated', novel' := EmitAllBalanced(a, block, parts, reps, bodies, ledger, repeated, novel, input, places, repeats, s);
    case AsProcedure =>
      var parts := ProcedureParts(block.text, s.config.maxTokens, s.marker, s.count);
      var reps, bodies := ProcedureLed(block.text, s, repeats);
      ledger', repeated', novel' := EmitAllBalanced(a, block, parts, reps, bodies, ledger, repeated, novel, input, places, repeats, s);
    case AsProse =>
      var parts := SentenceParts(block.text, s.config.targetTokens, s.count);
      SentencePartsKeepWords(block.text, s.config.targetTokens, s.count);
      ledger', repeated', novel' := AddAllBalanced(a, block, parts, ledger, repeated, novel, input, places, repeats, s);
  }

  lemma EmptyBalanced(repeats: set<WordSeq>, s: Setup)
    ensures Balanced(EMPTY, [], [], [], [], repeats) && CarriedAll([], s) == []
    ensures Located(EMPTY, [], [], []) && Opened(EMPTY, [], []) && PlacesAll([], s) == []
  {
  }

  lemma {:induction false} ProcessAllBalanced(blocks: seq<Block>, repeats: set<WordSeq>, s: Setup)
    returns (ledger: seq<Segment>, repeated: WordSeq, novel: WordSeq)
    requires Words(CONTINUED) in repeats && forall b :: b in blocks ==> Words(Header(b)) in repeats
    ensures Balanced(ProcessedAll(blocks, s), ledger, repeated, novel, CarriedAll(blocks, s), repeats)
    ensures Located(ProcessedAll(blocks, s), ledger, novel, PlacesAll(blocks, s))
    ensures Opened(ProcessedAll(blocks, s), repeated, novel)
  {
    hide Balanced, Located, Opened, Copies, Processed, Words, CarriedWords;
    if blocks == [] {
      ledger, repeated, novel := [], [], [];
      EmptyBalanced(repeats, s);
    } else {
      var init, last := blocks[..|blocks| - 1], blocks[|blocks| - 1];
      ledger, repeated, novel := ProcessAllBalanced(init, repeats, s);
      ledger, repeated, novel := ProcessBalanced(ProcessedAll(init, s), last, ledger, repeated, novel, CarriedAll(init, s), PlacesAll(init, s), repeats, s);
    }
  }

  /** Conservation for documents without slides, whatever their tables. The chunks divide into consecutive segments. Each
      segment's words are a repeated part followed by a novel part; the novel parts, in order, are exactly the words the
      chunks carry of each block; a repeated part is empty, the continuation marker, the header of a table, or the last
      words of the segment before (the carried overlap). All chunks of a segment are labelled with the section path, page
      and slide of the block that the segment's first new word stands in, whatever is carried in front of it. */
  lemma CarriedIsConserved(blocks: seq<Block>, s: Setup) returns (ledger: seq<Segment>)
    requires !HasSlides(Kept(blocks))
    ensures Contents(Chunks(blocks, s)) == AllChunks(ledger) && Labels(Chunks(blocks, s)) == AllLabels(ledger)
    ensures AllFresh(ledger) == CarriedAll(Grouped(Kept(blocks), s.marker), s)
    ensures Placed(ledger, PlacesAll(Grouped(Kept(blocks), s.marker), s))
    ensures Sound(ledger, Repeats(blocks) + {[]})
  {
    var kept, repeats := Kept(blocks), Repeats(blocks) + {[]};
    KeptWords(blocks);
    var repeated, novel: WordSeq := [], [];
    ledger := [];
    if kept != [] {
      var grouped := Grouped(kept, s.marker);
      GroupedHeaders(kept, s.marker);
      forall b | b in grouped ensures Words(Header(b)) in repeats {
        if Header(b) != "" { assert b in blocks; }
      }
      ledger, repeated, novel := ProcessAllBalanced(grouped, repeats, s);
      ledger := LastFlush(ProcessedAll(grouped, s), ledger, repeated, novel, CarriedAll(grouped, s), PlacesAll(grouped, s), repeats, s);
    } else {
      NothingChunked(s);
    }
  }

  lemma NothingChunked(s: Setup)
    ensures Contents([]) == [] && AllChunks([]) == [] && Labels([]) == [] && AllLabels([]) == [] && Placed([], [])
    ensures AllFresh([]) == [] && CarriedAll([], s) == [] && PlacesAll([], s) == []
  {
  }

  lemma LastFlush(a: Assembly,
        ledger: seq<Segment>, repeated: WordSeq, novel: WordSeq, input: WordSeq, places: seq<Place>,
        repeats: set<WordSeq>, s: Setup)
    returns (ledger': seq<Segment>)
    requires Balanced(a, ledger, repeated, novel, input, repeats) && Located(a, ledger, novel, places) && Opened(a, repeated, novel)
    ensures var drafts := Flushed(a, true, s).drafts;
      && Contents(drafts) == AllChunks(ledger') && Labels(drafts) == AllLabels(ledger') && AllFresh(ledger') == input
      && Placed(ledger', places) && Sound(ledger', repeats)
  {
    hide Placed, Labels, AllLabels, AllChunks, Contents, Sound, AllFresh, Content, WithContent, Words;
    ledger' := ledger;
    if a.buffer != [] { ledger' := FlushBalanced(a, true, ledger, repeated, novel, input, places, repeats, s); }
    EmptyFirst(AllFresh(ledger'));
  }

  /** When every table that is split leads with its header, the novel parts are exactly the words of the document. */
  lemma NothingLost(blocks: seq<Block>, s: Setup) returns (ledger: seq<Segment>)
    requires !HasSlides(Kept(blocks))
    requires forall b :: b in blocks && RouteOf(b, s).AsTable? ==> HeaderLeads(b)
    ensures Contents(Chunks(blocks, s)) == AllChunks(ledger)
    ensures AllFresh(ledger) == BlockWords(blocks)
    ensures Sound(ledger, Repeats(blocks) + {[]})
  {
    hide Words, Chunks, CarriedAll, HeaderLeads, Sound, AllChunks, AllFresh, HasSlides;
    var kept := Kept(blocks);
    var grouped := Grouped(kept, s.marker);
    ledger := CarriedIsConserved(blocks, s);
    KeptWords(blocks);
    GroupingKeepsWords(kept, s.marker);
    GroupedHeaders(kept, s.marker);
    hide Kept, Grouped, BlockWords;
    forall b | b in grouped && RouteOf(b, s).AsTable? ensures HeaderLeads(b) {
      assert b in blocks;
    }
    CarriedIsAll(grouped, s);
  }
}

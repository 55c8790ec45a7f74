/** The value types of app/interfaces/types.py that the chunker reads and writes. */
module Blocks {
  import opened Text

  datatype Option<+T> = None | Some(value: T)

  datatype BlockKind = HEADING | TEXT | LIST | TABLE | CODE | IMAGE | SLIDE_NOTES

  datatype Block = Block(
    kind: BlockKind,
    text: string,
    sectionPath: seq<string> := [],
    level: Option<nat> := None,
    page: Option<int> := None,
    slideIndex: Option<int> := None,
    tableHeader: Option<string> := None,
    atomic: bool := false)

  datatype ChunkDraft = ChunkDraft(
    ordinal: nat,
    content: string,
    sectionPath: seq<string>,
    tokenCount: nat,
    page: Option<int>,
    slideIndex: Option<int>)

  /** The table header of a block, empty when there is none. */
  function Header(block: Block): string {
    if block.tableHeader.Some? then block.tableHeader.value else ""
  }

  function Texts(blocks: seq<Block>): seq<string> {
    seq(|blocks|, i requires 0 <= i < |blocks| => blocks[i].text)
  }

  /** The words of a document, in reading order. */
  function BlockWords(blocks: seq<Block>): seq<string> {
    WordsAll(Texts(blocks))
  }

  lemma BlockWordsAppend(xs: seq<Block>, ys: seq<Block>)
    ensures BlockWords(xs + ys) == BlockWords(xs) + BlockWords(ys)
  {
    assert Texts(xs + ys) == Texts(xs) + Texts(ys);
    WordsAllAppend(Texts(xs), Texts(ys));
  }

  lemma BlockWordsOne(b: Block)
    ensures BlockWords([b]) == Words(b.text)
  {
    assert Texts([b]) == [b.text];
    WordsAllOne(b.text);
  }
}

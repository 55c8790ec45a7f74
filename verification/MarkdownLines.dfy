/** app/implementations/parsers/text_parser.py and docling_blocks.py: what one line of markdown is, and the
    header of a table. */
module MarkdownLines {
  import opened Text
  import opened Blocks
  import opened Procedures

  datatype Head = Head(level: nat, title: string)

  /** How lines are told apart. The scan is proved right for every grammar whose fences are not blank. */
  datatype Grammar = Grammar(
    fence: string -> bool,
    heading: string -> Option<Head>,
    row: string -> bool,
    header: string -> Option<string>)

  predicate Blank(line: string) {
    Strip(line) == ""
  }

  /** Length of the run of `#` at the start. */
  function Hashes(s: string): (n: nat)
    ensures n <= |s|
  {
    if s != "" && s[0] == '#' then 1 + Hashes(s[1..]) else 0
  }

  function DropHashes(s: string): string {
    if s != "" && s[|s| - 1] == '#' then DropHashes(s[..|s| - 1]) else s
  }

  /** One to six `#`, whitespace, a title, and closing `#`s that are not part of it. */
  function HeadingOf(line: string): Option<Head> {
    var n := Hashes(line);
    if 1 <= n <= 6 && n < |line| && IsSpace(line[n]) then Some(Head(n, Strip(DropHashes(line[n..])))) else None
  }

  predicate IsFence(line: string) {
    var t := LStrip(line);
    |t| >= 3 && (t[..3] == "```" || t[..3] == "~~~")
  }

  predicate IsTableRow(line: string) {
    var t := Strip(line);
    |t| >= 2 && t[0] == '|' && t[|t| - 1] == '|'
  }

  /** What is left of a separator row besides `|`, `:` and `-`. */
  function Unruled(s: string): string {
    if s == "" then "" else Unruled(s[..|s| - 1]) + if s[|s| - 1] in "|:-" then "" else [s[|s| - 1]]
  }

  /** `extract_table_header`: the first two lines, when the second is a separator row. */
  function ExtractTableHeader(table: string): Option<string> {
    var lines := NonBlank(Lines(table));
    if |lines| >= 2 && '|' in lines[0] && '-' in lines[1] && Strip(Unruled(lines[1])) == "" then Some(lines[0] + "\n" + lines[1]) else None
  }

  /** The code's own grammar. */
  const MARKDOWN := Grammar(IsFence, HeadingOf, IsTableRow, ExtractTableHeader)

  ghost predicate FencesHaveText(g: Grammar) {
    forall line :: g.fence(line) ==> !Blank(line)
  }

  lemma MarkdownFencesHaveText()
    ensures FencesHaveText(MARKDOWN)
  {
    forall line | IsFence(line) ensures !Blank(line) { FenceIsNotBlank(line); }
  }

  lemma FenceIsNotBlank(line: string)
    requires IsFence(line)
    ensures !Blank(line)
  {
    var t := LStrip(line);
    assert t != "";
    hide LStrip, IsSpace;
    if RStrip(t) == "" { AllSpaceOf(t); }
  }

  lemma AllSpaceOf(t: string)
    requires RStrip(t) == ""
    ensures AllSpace(t)
  {
    hide RStrip, IsSpace;
    assert t[0..] == t;
  }

  // ---------------------------------------------------------------- the grammar of lines, spelled out

  ghost predicate AllOf(s: string, c: char) {
    forall i :: 0 <= i < |s| ==> s[i] == c
  }

  /** One to six `#`, then whitespace and a title, then `#`s that close it. */
  ghost predicate ReadsHeading(line: string, opening: string, inner: string, closing: string) {
    && line == opening + inner + closing
    && 1 <= |opening| <= 6 && AllOf(opening, '#') && AllOf(closing, '#')
    && inner != "" && IsSpace(inner[0]) && inner[|inner| - 1] != '#'
  }

  lemma {:induction false} HashesAre(opening: string, rest: string)
    requires AllOf(opening, '#') && (rest != "" ==> rest[0] != '#')
    ensures Hashes(opening + rest) == |opening|
  {
    if opening != "" {
      assert (opening + rest)[1..] == opening[1..] + rest;
      HashesAre(opening[1..], rest);
    } else {
      EmptyFirst(rest);
    }
  }

  lemma {:induction false} HashesCount(s: string)
    ensures AllOf(s[..Hashes(s)], '#') && (Hashes(s) < |s| ==> s[Hashes(s)] != '#')
  {
    if s != "" && s[0] == '#' {
      HashesCount(s[1..]);
      assert s[..Hashes(s)] == ['#'] + s[1..][..Hashes(s[1..])];
    }
  }

  lemma {:induction false} DropHashesIs(inner: string, closing: string)
    requires AllOf(closing, '#') && (inner != "" ==> inner[|inner| - 1] != '#')
    ensures DropHashes(inner + closing) == inner
    decreases |closing|
  {
    if closing != "" {
      var n := |closing| - 1;
      assert (inner + closing)[..|inner| + n] == inner + closing[..n];
      DropHashesIs(inner, closing[..n]);
    } else {
      EmptyFirst(inner);
    }
  }

  lemma {:induction false} HashesDropped(s: string) returns (closing: string)
    ensures s == DropHashes(s) + closing && AllOf(closing, '#')
    ensures DropHashes(s) != "" ==> DropHashes(s)[|DropHashes(s)| - 1] != '#'
  {
    closing := "";
    EmptyFirst(DropHashes(s));
    if s != "" && s[|s| - 1] == '#' {
      var n := |s| - 1;
      closing := HashesDropped(s[..n]);
      InitLast(s, n);
      Assoc(DropHashes(s[..n]), closing, ['#']);
      closing := closing + ['#'];
    }
  }

  lemma FirstStays(s: string, inner: string, closing: string)
    requires s == inner + closing && AllOf(closing, '#') && s != "" && s[0] != '#'
    ensures inner != "" && inner[0] == s[0]
  {
  }

  /** Exactly which lines are headings, and of what level and title. */
  lemma HeadingIff(line: string, level: nat, title: string)
    ensures HeadingOf(line) == Some(Head(level, title)) <==>
      exists opening, inner, closing :: ReadsHeading(line, opening, inner, closing) && level == |opening| && title == Strip(inner)
  {
    if HeadingOf(line) == Some(Head(level, title)) {
      HeadingParts(line);
    }
    forall opening, inner, closing | ReadsHeading(line, opening, inner, closing) && level == |opening| && title == Strip(inner)
      ensures HeadingOf(line) == Some(Head(level, title))
    {
      HeadingIs(line, opening, inner, closing);
    }
  }

  lemma HeadingParts(line: string)
    requires HeadingOf(line).Some?
    ensures exists opening, inner, closing ::
      ReadsHeading(line, opening, inner, closing) && HeadingOf(line).value.level == |opening| && HeadingOf(line).value.title == Strip(inner)
  {
    hide Strip;
    var n := Hashes(line);
    HashesCount(line);
    var closing := HashesDropped(line[n..]);
    var inner := DropHashes(line[n..]);
    assert line[n..][0] == line[n] && IsSpace(line[n]);
    FirstStays(line[n..], inner, closing);
    assert line == line[..n] + line[n..];
    Assoc(line[..n], inner, closing);
    hide IsSpace, DropHashes, Hashes;
    assert ReadsHeading(line, line[..n], inner, closing);
  }

  lemma HeadingIs(line: string, opening: string, inner: string, closing: string)
    requires ReadsHeading(line, opening, inner, closing)
    ensures HeadingOf(line) == Some(Head(|opening|, Strip(inner)))
  {
    hide Strip;
    assert !IsSpace('#');
    hide IsSpace;
    var rest := inner + closing;
    Assoc(opening, inner, closing);
    assert rest[0] == inner[0];
    HashesAre(opening, rest);
    assert line[|opening|] == rest[0] && line[|opening|..] == rest;
    DropHashesIs(inner, closing);
  }

  /** Exactly which lines open or close a fence. */
  lemma FenceIff(line: string)
    ensures IsFence(line) <==> exists gap, rest :: AllSpace(gap) && (line == gap + ("```" + rest) || line == gap + ("~~~" + rest))
  {
    if IsFence(line) {
      var t := LStrip(line);
      assert line == line[..|line| - |t|] + (t[..3] + t[3..]);
    }
    forall gap, rest | AllSpace(gap) && (line == gap + ("```" + rest) || line == gap + ("~~~" + rest)) ensures IsFence(line) {
      var fence := if line == gap + ("```" + rest) then "```" else "~~~";
      assert !IsSpace('`') && !IsSpace('~');
      hide IsSpace, LStrip;
      LStripIs(gap, fence + rest);
      assert (fence + rest)[..3] == fence;
    }
  }

  /** Exactly which lines are table rows. */
  lemma TableRowIff(line: string)
    ensures IsTableRow(line) <==> exists before, inner, after :: AllSpace(before) && AllSpace(after) && line == before + ("|" + inner + "|") + after
  {
    if IsTableRow(line) {
      var before, after := StripParts(line);
      var t := Strip(line);
      assert t == "|" + t[1..|t| - 1] + "|";
    }
    forall before, inner, after | AllSpace(before) && AllSpace(after) && line == before + ("|" + inner + "|") + after ensures IsTableRow(line) {
      RowIs(before, inner, after);
    }
  }

  lemma RowIs(before: string, inner: string, after: string)
    requires AllSpace(before) && AllSpace(after)
    ensures IsTableRow(before + ("|" + inner + "|") + after)
  {
    assert !IsSpace('|');
    hide IsSpace, Strip, LStrip, RStrip;
    var row := "|" + inner + "|";
    assert row[0] == '|' && row[|row| - 1] == '|';
    StripMiddle(before, row, after);
    NothingLeft(before, after);
    EmptyFirst(row);
  }

  lemma NothingLeft(before: string, after: string)
    requires AllSpace(before) && AllSpace(after)
    ensures LStrip(before) == "" && RStrip(after) == ""
  {
    hide IsSpace;
    EmptyFirst(before);
    EmptyFirst(after);
    LStripIs(before, "");
    RStripIs("", after);
  }

  lemma {:induction false} UnruledIs(s: string)
    ensures Strip(Unruled(s)) == "" <==> forall i :: 0 <= i < |s| ==> s[i] == '|' || s[i] == ':' || s[i] == '-' || IsSpace(s[i])
  {
    BlankIff(Unruled(s));
    UnruledSpace(s);
    hide Strip, IsSpace, Unruled, AllSpace;
  }

  lemma {:induction false} UnruledSpace(s: string)
    ensures AllSpace(Unruled(s)) <==> forall i :: 0 <= i < |s| ==> s[i] == '|' || s[i] == ':' || s[i] == '-' || IsSpace(s[i])
  {
    hide IsSpace;
    if s != "" {
      var n := |s| - 1;
      UnruledSpace(s[..n]);
      InitLast(s, n);
      SpaceSnoc(Unruled(s[..n]), if s[n] in "|:-" then "" else [s[n]]);
    }
  }

  lemma SpaceSnoc(a: string, x: string)
    ensures AllSpace(a + x) <==> AllSpace(a) && AllSpace(x)
  {
    hide IsSpace;
    assert forall i :: 0 <= i < |a| ==> (a + x)[i] == a[i];
    assert forall i :: 0 <= i < |x| ==> (a + x)[|a| + i] == x[i];
  }

  lemma BlankIff(s: string)
    ensures Strip(s) == "" <==> AllSpace(s)
  {
    hide IsSpace, Strip;
    var l, r := StripParts(s);
    if AllSpace(s) {
      NothingLeft(s, s);
      StripOfNothing(s);
    }
  }

  lemma StripOfNothing(s: string)
    requires LStrip(s) == ""
    ensures Strip(s) == ""
  {
    EmptyFirst(s);
    RStripIs("", "");
  }

  /** Exactly which table texts have a header, and which: the first two lines with text, when the first has a bar and the second
      rules it off. */
  lemma TableHeaderIff(table: string, header: string)
    ensures var lines := NonBlank(Lines(table));
      ExtractTableHeader(table) == Some(header) <==>
        && |lines| >= 2 && '|' in lines[0] && '-' in lines[1] && header == lines[0] + "\n" + lines[1]
        && forall i :: 0 <= i < |lines[1]| ==> lines[1][i] == '|' || lines[1][i] == ':' || lines[1][i] == '-' || IsSpace(lines[1][i])
  {
    var lines := NonBlank(Lines(table));
    if |lines| >= 2 { UnruledIs(lines[1]); }
    hide Lines, NonBlank, Strip, Unruled, IsSpace;
  }
}

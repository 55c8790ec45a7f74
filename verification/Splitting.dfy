/** app/pipeline/splitting.py: how a run of text that is too long is broken. */
module Splitting {
  import opened Text
  import opened Tokens
  import opened Blocks
  import opened Packing
  import opened Procedures

  const CONTINUED := "(procedure continued)"

  function Max(a: int, b: int): int {
    if a >= b then a else b
  }

  ghost predicate AllWithin(texts: seq<string>, limit: int, count: Counter) {
    forall t :: t in texts ==> count(t) <= limit
  }

  // ---------------------------------------------------------------- sentences

  predicate OpensSentence(c: char) {
    'A' <= c <= 'Z' || '0' <= c <= '9'
  }

  function SpaceEnd(s: string, i: nat): (n: nat)
    requires i <= |s|
    ensures i <= n <= |s| && forall k :: i <= k < n ==> IsSpace(s[k])
    decreases |s| - i
  {
    if i < |s| && IsSpace(s[i]) then SpaceEnd(s, i + 1) else i
  }

  function NewlineEnd(s: string, i: nat): (n: nat)
    requires i <= |s|
    ensures i <= n <= |s| && forall k :: i <= k < n ==> s[k] == '\n'
    decreases |s| - i
  {
    if i < |s| && s[i] == '\n' then NewlineEnd(s, i + 1) else i
  }

  /** End of the `SENTENCE` match that begins at `i`; `i` itself when none does. */
  function CutEnd(s: string, i: nat): (n: nat)
    requires i < |s|
    ensures i <= n <= |s| && forall k :: i <= k < n ==> IsSpace(s[k])
  {
    var e := SpaceEnd(s, i);
    if i > 0 && s[i - 1] in {'.', '!', '?'} && i < e < |s| && OpensSentence(s[e]) then e
    else if i + 1 < |s| && s[i] == '\n' && s[i + 1] == '\n' then NewlineEnd(s, i)
    else i
  }

  /** What lies between the sentence matches, scanning from `i` with the current piece starting at `start`. */
  function PiecesFrom(s: string, start: nat, i: nat): seq<string>
    requires start <= i <= |s|
    decreases |s| - i
  {
    if i == |s| then [s[start..]]
    else if CutEnd(s, i) > i then [s[start..i]] + PiecesFrom(s, CutEnd(s, i), CutEnd(s, i))
    else PiecesFrom(s, start, i + 1)
  }

  lemma PiecesStep(s: string, start: nat, i: nat)
    requires start <= i < |s|
    ensures CutEnd(s, i) == i ==> PiecesFrom(s, start, i) == PiecesFrom(s, start, i + 1)
    ensures CutEnd(s, i) > i ==> PiecesFrom(s, start, i) == [s[start..i]] + PiecesFrom(s, CutEnd(s, i), CutEnd(s, i))
  {
    hide CutEnd;
  }

  function Trimmed(parts: seq<string>): seq<string> {
    if parts == [] then []
    else (if Strip(parts[0]) != "" then [Strip(parts[0])] else []) + Trimmed(parts[1..])
  }

  function Sentences(text: string): seq<string> {
    Trimmed(PiecesFrom(text, 0, 0))
  }

  lemma {:induction false} WordsPieces(s: string, start: nat, i: nat)
    requires start <= i <= |s|
    ensures WordsAll(PiecesFrom(s, start, i)) == Words(s[start..])
    decreases |s| - i
  {
    hide IsSpace, Words, CutEnd;
    if i == |s| {
      WordsAllOne(s[start..]);
    } else if CutEnd(s, i) > i {
      var e := CutEnd(s, i);
      WordsPieces(s, e, e);
      CutOut(s, start, i, e);
      WordsBetween(s[start..i], s[i..e], s[e..]);
    } else {
      WordsPieces(s, start, i + 1);
    }
  }

  lemma {:induction false} WordsTrimmed(parts: seq<string>)
    ensures WordsAll(Trimmed(parts)) == WordsAll(parts)
  {
    if parts != [] {
      WordsTrimmed(parts[1..]);
      WordsStrip(parts[0]);
      if Strip(parts[0]) != "" {
        WordsAllAppend([Strip(parts[0])], Trimmed(parts[1..]));
        WordsAllOne(Strip(parts[0]));
      } else {
        EmptyFirst(Trimmed(parts[1..]));
      }
    }
  }

  lemma {:induction false} TrimmedNotBlank(parts: seq<string>)
    ensures forall p :: p in Trimmed(parts) ==> Words(p) != []
  {
    if parts != [] {
      TrimmedNotBlank(parts[1..]);
      WordsStrip(parts[0]);
    }
  }

  /** Cutting into sentences loses no word and leaves no blank sentence. */
  lemma SentencesKeepWords(text: string)
    ensures WordsAll(Sentences(text)) == Words(text)
    ensures forall p :: p in Sentences(text) ==> Words(p) != []
    ensures Sentences(text) == [] <==> Words(text) == []
  {
    EmptyFirst(text);
    WordsPieces(text, 0, 0);
    WordsTrimmed(PiecesFrom(text, 0, 0));
    TrimmedNotBlank(PiecesFrom(text, 0, 0));
    if Sentences(text) != [] { assert Sentences(text)[0] in Sentences(text); }
  }

  // ---------------------------------------------------------------- refinement of units

  /** The units a splitter packs: pieces within `limit` as they are, larger ones broken up. */
  function Refine(pieces: seq<string>, limit: int, count: Counter, breakUp: string -> seq<string>): seq<string> {
    if pieces == [] then []
    else
      var last := pieces[|pieces| - 1];
      Refine(pieces[..|pieces| - 1], limit, count, breakUp) + (if count(last) > limit then breakUp(last) else [last])
  }

  lemma {:induction false} RefineKeepsWords(pieces: seq<string>, limit: int, count: Counter, breakUp: string -> seq<string>)
    requires forall p :: WordsAll(breakUp(p)) == Words(p)
    ensures WordsAll(Refine(pieces, limit, count, breakUp)) == WordsAll(pieces)
  {
    if pieces != [] {
      var init, last := pieces[..|pieces| - 1], pieces[|pieces| - 1];
      assert pieces == init + [last];
      RefineKeepsWords(init, limit, count, breakUp);
      WordsAllSnoc(init, last);
      WordsAllOne(last);
      WordsAllAppend(Refine(init, limit, count, breakUp), if count(last) > limit then breakUp(last) else [last]);
    }
  }

  lemma {:induction false} RefineWithin(pieces: seq<string>, limit: int, count: Counter, breakUp: string -> seq<string>)
    requires forall p :: p in pieces && count(p) > limit ==> AllWithin(breakUp(p), limit, count)
    ensures AllWithin(Refine(pieces, limit, count, breakUp), limit, count)
  {
    if pieces != [] {
      var init, last := pieces[..|pieces| - 1], pieces[|pieces| - 1];
      RefineWithin(init, limit, count, breakUp);
      assert last in pieces;
    }
  }

  lemma {:induction false} RefineNothing(pieces: seq<string>, limit: int, count: Counter, breakUp: string -> seq<string>)
    requires AllWithin(pieces, limit, count)
    ensures Refine(pieces, limit, count, breakUp) == pieces
  {
    if pieces != [] {
      var init, last := pieces[..|pieces| - 1], pieces[|pieces| - 1];
      RefineNothing(init, limit, count, breakUp);
      assert last in pieces;
    }
  }

  lemma {:induction false} RefineNonEmpty(pieces: seq<string>, limit: int, count: Counter, breakUp: string -> seq<string>)
    requires pieces != [] && forall p :: breakUp(p) != []
    ensures Refine(pieces, limit, count, breakUp) != []
  {
  }

  // ---------------------------------------------------------------- word_parts

  function OrElse(parts: seq<string>, fallback: string): (r: seq<string>)
    ensures r != []
  {
    if parts == [] then [fallback] else parts
  }

  /** The words of a text packed up to the limit, or the text itself when it has none. */
  function WordParts(text: string, limit: int, count: Counter): seq<string> {
    OrElse(Packed(Words(text), limit, " ", count), text)
  }

  function WordBreak(limit: int, count: Counter): string -> seq<string> {
    (p: string) => WordParts(p, limit, count)
  }

  /** The loop that `sentence_parts` and `table_parts` share: pieces over the limit become words. */
  method BreakIntoWords(pieces: seq<string>, limit: int, count: Counter) returns (units: seq<string>)
    ensures units == Refine(pieces, limit, count, WordBreak(limit, count))
  {
    units := [];
    for i := 0 to |pieces|
      invariant units == Refine(pieces[..i], limit, count, WordBreak(limit, count))
    {
      assert pieces[..i + 1][..i] == pieces[..i];
      if count(pieces[i]) > limit {
        units := units + WordParts(pieces[i], limit, count);
      } else {
        units := units + [pieces[i]];
      }
    }
    assert pieces[..|pieces|] == pieces;
  }

  lemma WordPartsKeepWords(text: string, limit: int, count: Counter)
    ensures WordsAll(WordParts(text, limit, count)) == Words(text)
  {
    PackKeepsWords(Words(text), limit, " ", count);
    WordsAreSolid(text);
    WordsAllOfSolid(Words(text));
    WordsAllOne(text);
  }

  lemma WordPartsWithin(text: string, limit: int, count: Counter)
    requires Lawful(count) && Words(text) != [] && AllWithin(Words(text), limit, count)
    ensures AllWithin(WordParts(text, limit, count), limit, count)
  {
    PackKeepsWords(Words(text), limit, " ", count);
    PackWithin(Words(text), limit, " ", count);
  }

  lemma WordBreakKeepsWords(limit: int, count: Counter)
    ensures forall p :: WordsAll(WordBreak(limit, count)(p)) == Words(p)
  {
    forall p ensures WordsAll(WordBreak(limit, count)(p)) == Words(p) {
      WordPartsKeepWords(p, limit, count);
    }
  }

  // ---------------------------------------------------------------- sentence_parts

  function SentenceUnits(text: string, limit: int, count: Counter): seq<string> {
    Refine(Sentences(text), limit, count, WordBreak(limit, count))
  }

  function SentenceParts(text: string, limit: int, count: Counter): seq<string> {
    if Sentences(text) == [] then [text]
    else OrElse(Packed(SentenceUnits(text, limit, count), limit, " ", count), text)
  }

  method BuildSentenceParts(text: string, limit: int, count: Counter) returns (parts: seq<string>)
    ensures parts == SentenceParts(text, limit, count)
  {
    var sentences := Sentences(text);
    if sentences == [] { return [text]; }
    var units := BreakIntoWords(sentences, limit, count);
    parts := Pack(units, limit, " ", count);
    if parts == [] { parts := [text]; }
  }

  /** Splitting prose loses, repeats and reorders no word. */
  lemma SentencePartsKeepWords(text: string, limit: int, count: Counter)
    ensures WordsAll(SentenceParts(text, limit, count)) == Words(text)
  {
    hide Words, Sentences, Refine, Packed, WordBreak;
    SentencesKeepWords(text);
    WordBreakKeepsWords(limit, count);
    RefineKeepsWords(Sentences(text), limit, count, WordBreak(limit, count));
    PackKeepsWords(SentenceUnits(text, limit, count), limit, " ", count);
    WordsAllOne(text);
  }

  lemma WordOfPart(parts: seq<string>, text: string, limit: int, count: Counter)
    requires WordsAll(parts) == Words(text) && AllWithin(Words(text), limit, count)
    ensures forall p :: p in parts ==> AllWithin(Words(p), limit, count)
  {
    forall p, w | p in parts && w in Words(p) ensures count(w) <= limit {
      var i :| 0 <= i < |parts| && parts[i] == p;
      WordsAllMember(parts, i, w);
    }
  }

  /** Every part of non-blank prose whose words fit the limit is itself within the limit. */
  lemma SentencePartsWithin(text: string, limit: int, count: Counter)
    requires Lawful(count) && Words(text) != [] && AllWithin(Words(text), limit, count)
    ensures AllWithin(SentenceParts(text, limit, count), limit, count)
  {
    hide Words, Sentences, Refine, Packed;
    var sentences := Sentences(text);
    SentencesKeepWords(text);
    WordOfPart(sentences, text, limit, count);
    forall p | p in sentences && count(p) > limit ensures AllWithin(WordBreak(limit, count)(p), limit, count) {
      WordPartsWithin(p, limit, count);
    }
    RefineWithin(sentences, limit, count, WordBreak(limit, count));
    RefineNonEmpty(sentences, limit, count, WordBreak(limit, count));
    PackKeepsWords(SentenceUnits(text, limit, count), limit, " ", count);
    PackWithin(SentenceUnits(text, limit, count), limit, " ", count);
  }

  // ---------------------------------------------------------------- table_parts

  function TablePrefix(header: string): string {
    if header == "" then "" else header + "\n"
  }

  function TableBudget(header: string, limit: int, count: Counter): int {
    Max(1, limit - count(TablePrefix(header)))
  }

  /** What is left when as many lines as the header has are taken off the front. */
  function TableBody(text: string, header: string): seq<string> {
    var lines := Lines(text);
    var n := if header == "" then 0 else |Lines(header)|;
    if n <= |lines| then lines[n..] else []
  }

  function TableRows(text: string, header: string, limit: int, count: Counter): seq<string> {
    var budget := TableBudget(header, limit, count);
    Refine(TableBody(text, header), budget, count, WordBreak(budget, count))
  }

  /** The runs of rows of each part, joined. */
  function TableGroups(text: string, header: string, limit: int, count: Counter): seq<string> {
    Packed(TableRows(text, header, limit, count), TableBudget(header, limit, count), "\n", count)
  }

  function PrefixEach(prefix: string, groups: seq<string>): seq<string> {
    seq(|groups|, i requires 0 <= i < |groups| => prefix + groups[i])
  }

  function PrefixedGroups(rows: seq<string>, prefix: string, budget: int, count: Counter): seq<string> {
    PrefixEach(prefix, Packed(rows, budget, "\n", count))
  }

  function TableParts(text: string, header: string, limit: int, count: Counter): seq<string> {
    OrElse(PrefixedGroups(TableRows(text, header, limit, count), TablePrefix(header), TableBudget(header, limit, count), count), text)
  }

  method BuildTableParts(text: string, header: string, limit: int, count: Counter) returns (parts: seq<string>)
    ensures parts == TableParts(text, header, limit, count)
  {
    var prefix := TablePrefix(header);
    var body := TableBody(text, header);
    var budget := TableBudget(header, limit, count);
    var rows := BreakIntoWords(body, budget, count);
    var groups := Pack(rows, budget, "\n", count);
    parts := PrefixEach(prefix, groups);
    if parts == [] { parts := [text]; }
  }

  /** The words of each part are the header's, then those of its rows. */
  lemma TablePartsWords(text: string, header: string, limit: int, count: Counter)
    requires header != "" && TableBody(text, header) != []
    ensures var groups := TableGroups(text, header, limit, count);
            && |TableParts(text, header, limit, count)| == |groups| > 0
            && (forall i :: 0 <= i < |groups| ==>
                  Words(TableParts(text, header, limit, count)[i]) == Words(header) + Words(groups[i]))
            && WordsAll(groups) == WordsAll(TableBody(text, header))
  {
    hide Words, Lines, PrefixEach;
    var budget, body := TableBudget(header, limit, count), TableBody(text, header);
    WordBreakKeepsWords(budget, count);
    RefineKeepsWords(body, budget, count, WordBreak(budget, count));
    RefineNonEmpty(body, budget, count, WordBreak(budget, count));
    PackKeepsWords(TableRows(text, header, limit, count), budget, "\n", count);
    PrefixedWords(header, TableGroups(text, header, limit, count));
  }

  lemma PrefixedWords(header: string, groups: seq<string>)
    requires header != ""
    ensures var parts := PrefixEach(TablePrefix(header), groups);
            |parts| == |groups| && forall i :: 0 <= i < |groups| ==> Words(parts[i]) == Words(header) + Words(groups[i])
  {
    hide Words;
    forall i | 0 <= i < |groups| ensures Words(header + "\n" + groups[i]) == Words(header) + Words(groups[i]) {
      WordsBetween(header, "\n", groups[i]);
    }
  }

  /** The lines `table_parts` drops because the header stands for them. */
  function TableHead(text: string, header: string): seq<string> {
    var lines := Lines(text);
    var n := if header == "" then 0 else |Lines(header)|;
    if n <= |lines| then lines[..n] else lines
  }

  /** A split table keeps its words exactly when the header repeats the words of the lines it replaces. */
  lemma TableKeepsWordsIff(text: string, header: string, limit: int, count: Counter)
    requires header != "" && TableBody(text, header) != []
    ensures var groups := TableGroups(text, header, limit, count);
            Words(header) + WordsAll(groups) == Words(text) <==> Words(header) == WordsAll(TableHead(text, header))
  {
    TablePartsWords(text, header, limit, count);
    TableLines(text, header);
    CancelRight(Words(header), WordsAll(TableHead(text, header)), WordsAll(TableBody(text, header)));
  }

  lemma TableLines(text: string, header: string)
    ensures Words(text) == WordsAll(TableHead(text, header)) + WordsAll(TableBody(text, header))
  {
    WordsLines(text);
    HeadAndBody(Lines(text), if header == "" then 0 else |Lines(header)|);
  }

  lemma HeadAndBody(lines: seq<string>, n: nat)
    ensures WordsAll(lines) == WordsAll(if n <= |lines| then lines[..n] else lines) + WordsAll(if n <= |lines| then lines[n..] else [])
  {
    if n <= |lines| {
      assert lines == lines[..n] + lines[n..];
      WordsAllAppend(lines[..n], lines[n..]);
    }
  }

  lemma CancelRight<T>(a: seq<T>, b: seq<T>, c: seq<T>)
    ensures a + c == b + c <==> a == b
  {
    if a + c == b + c {
      assert |a| == |b|;
      assert (a + c)[..|a|] == a && (b + c)[..|b|] == b;
    }
  }

  /** Every part of a split table, as it is emitted, is within the limit when the header leaves room and
      every word fits what it leaves. */
  lemma TablePartsWithin(text: string, header: string, limit: int, count: Counter)
    requires Lawful(count) && count(if header == "" then "" else header + "\n") < limit
    requires TableBody(text, header) != []
    requires AllWithin(Words(text), limit - count(if header == "" then "" else header + "\n"), count)
    ensures forall p :: p in TableParts(text, header, limit, count) ==> count(Strip(p)) <= limit
  {
    hide Words, Lines, Refine, Strip;
    var budget, prefix := TableBudget(header, limit, count), TablePrefix(header);
    var rows := TableRows(text, header, limit, count);
    RefineNonEmpty(TableBody(text, header), budget, count, WordBreak(budget, count));
    PackKeepsWords(rows, budget, "\n", count);
    var groups := Packed(rows, budget, "\n", count);
    forall p | p in TableParts(text, header, limit, count) ensures count(Strip(p)) <= limit {
      var i :| 0 <= i < |groups| && p == prefix + groups[i];
      PackMeasured(rows, budget, "\n", count, i);
      if count(groups[i]) <= budget {
        assert count(prefix + groups[i]) <= count(prefix) + count(groups[i]);
        StripCountsLess(count, p);
      } else {
        TableRowsWithin(text, header, limit, count, groups[i]);
        BlankTail(prefix, groups[i]);
        StripCountsLess(count, prefix);
      }
    }
  }

  /** Only a blank line can be a row larger than the budget. */
  lemma TableRowsWithin(text: string, header: string, limit: int, count: Counter, row: string)
    requires Lawful(count) && AllWithin(Words(text), TableBudget(header, limit, count), count)
    requires row in TableRows(text, header, limit, count) && count(row) > TableBudget(header, limit, count)
    ensures Words(row) == []
  {
    var budget := TableBudget(header, limit, count);
    WordsLines(text);
    WordOfPart(Lines(text), text, budget, count);
    RefineLarge(TableBody(text, header), budget, count, row);
  }

  lemma {:induction false} RefineLarge(lines: seq<string>, budget: int, count: Counter, row: string)
    requires Lawful(count) && forall p :: p in lines ==> AllWithin(Words(p), budget, count)
    requires row in Refine(lines, budget, count, WordBreak(budget, count)) && count(row) > budget
    ensures Words(row) == []
  {
    var init, last := lines[..|lines| - 1], lines[|lines| - 1];
    if row in Refine(init, budget, count, WordBreak(budget, count)) {
      RefineLarge(init, budget, count, row);
    } else if Words(last) != [] {
      WordPartsWithin(last, budget, count);
    } else {
      PackKeepsWords(Words(last), budget, " ", count);
    }
  }

  lemma BlankTail(a: string, b: string)
    requires Words(b) == []
    ensures Strip(a + b) == Strip(a)
  {
    BlankIsSpace(b);
    if Words(a) == [] {
      BlankIsSpace(a);
      StripOfSpace(a);
      StripOfSpace(a + b);
    } else {
      SpaceTail(a, b);
    }
  }

  lemma SpaceTail(a: string, b: string)
    requires AllSpace(b) && Words(a) != []
    ensures Strip(a + b) == Strip(a)
  {
    hide IsSpace, Words, LStrip, RStrip, Strip;
    WordsStrip(a);
    var l, r := StripParts(a);
    Assoc(l + Strip(a), r, b);
    SpaceAround(l, Strip(a), r + b);
  }

  lemma SpaceAround(l: string, m: string, r: string)
    requires AllSpace(l) && AllSpace(r) && Edged(m)
    ensures Strip(l + m + r) == m
  {
    StripMiddle(l, m, r);
    StripOfSpace(l);
    StripOfSpace(r);
  }

  lemma BlankIsSpace(s: string)
    requires Words(s) == []
    ensures AllSpace(s)
  {
    WordsStrip(s);
    var l, r := StripParts(s);
  }

  lemma StripOfSpace(s: string)
    requires AllSpace(s)
    ensures LStrip(s) == "" && RStrip(s) == "" && Strip(s) == ""
  {
  }

  // ---------------------------------------------------------------- procedure_parts

  function SentenceBreak(limit: int, count: Counter): string -> seq<string> {
    (p: string) => SentenceParts(p, limit, count)
  }

  function ProcedureBudget(limit: int, count: Counter): int {
    Max(1, limit - count(CONTINUED) - 1)
  }

  function ProcedureUnits(text: string, limit: int, marker: Marker, count: Counter): seq<string> {
    var budget := ProcedureBudget(limit, count);
    Refine(Steps(text, marker), budget, count, SentenceBreak(budget, count))
  }

  /** Every part after the first leads with the marker. */
  function MarkContinued(parts: seq<string>): seq<string> {
    seq(|parts|, i requires 0 <= i < |parts| => if i == 0 then parts[i] else CONTINUED + "\n" + parts[i])
  }

  /** The parts of a procedure before the markers go on. */
  function ProcedureBodies(text: string, limit: int, marker: Marker, count: Counter): seq<string> {
    Packed(ProcedureUnits(text, limit, marker, count), ProcedureBudget(limit, count), "\n", count)
  }

  function ProcedureParts(text: string, limit: int, marker: Marker, count: Counter): seq<string> {
    if |Steps(text, marker)| <= 1 then SentenceParts(text, limit, count)
    else MarkContinued(ProcedureBodies(text, limit, marker, count))
  }

  method BuildProcedureParts(text: string, limit: int, marker: Marker, count: Counter) returns (parts: seq<string>)
    ensures parts == ProcedureParts(text, limit, marker, count)
  {
    hide Steps, Packed, SentenceParts;
    var steps := SplitSteps(text, marker);
    if |steps| <= 1 {
      parts := BuildSentenceParts(text, limit, count);
      return;
    }
    var budget := Max(1, limit - count(CONTINUED) - 1);
    var units: seq<string> := [];
    for i := 0 to |steps|
      invariant units == Refine(steps[..i], budget, count, SentenceBreak(budget, count))
    {
      assert steps[..i + 1][..i] == steps[..i];
      if count(steps[i]) > budget {
        var pieces := BuildSentenceParts(steps[i], budget, count);
        units := units + pieces;
      } else {
        units := units + [steps[i]];
      }
    }
    assert steps[..|steps|] == steps;
    parts := Pack(units, budget, "\n", count);
    parts := MarkContinued(parts);
  }

  /** The words of the parts without their markers are the words of the procedure. */
  lemma ProcedureUnitsKeepWords(text: string, limit: int, marker: Marker, count: Counter)
    ensures WordsAll(ProcedureBodies(text, limit, marker, count)) == Words(text)
  {
    var budget := ProcedureBudget(limit, count);
    StepsKeepWords(text, marker);
    forall p ensures WordsAll(SentenceBreak(budget, count)(p)) == Words(p) {
      SentencePartsKeepWords(p, budget, count);
    }
    RefineKeepsWords(Steps(text, marker), budget, count, SentenceBreak(budget, count));
    PackKeepsWords(ProcedureUnits(text, limit, marker, count), budget, "\n", count);
  }

  /** Every part of an oversized procedure is within the limit, marker included. */
  lemma ProcedurePartsWithin(text: string, limit: int, marker: Marker, count: Counter)
    requires Lawful(count) && count("\n") <= 1 && limit >= count(CONTINUED) + 2
    requires |Steps(text, marker)| > 1 && AllWithin(Words(text), limit - count(CONTINUED) - 1, count)
    ensures AllWithin(ProcedureParts(text, limit, marker, count), limit, count)
  {
    var budget, steps := ProcedureBudget(limit, count), Steps(text, marker);
    StepsKeepWords(text, marker);
    WordOfPart(steps, text, budget, count);
    forall p | p in steps && count(p) > budget ensures AllWithin(SentenceBreak(budget, count)(p), budget, count) {
      SentencePartsWithin(p, budget, count);
    }
    RefineWithin(steps, budget, count, SentenceBreak(budget, count));
    var units := ProcedureUnits(text, limit, marker, count);
    PackWithin(units, budget, "\n", count);
    MarkedWithin(Packed(units, budget, "\n", count), limit, count);
  }

  lemma MarkedWithin(parts: seq<string>, limit: int, count: Counter)
    requires Lawful(count) && count("\n") <= 1 && limit >= count(CONTINUED) + 2
    requires forall i :: 0 <= i < |parts| ==> count(parts[i]) <= ProcedureBudget(limit, count)
    ensures AllWithin(MarkContinued(parts), limit, count)
  {
    var marked := MarkContinued(parts);
    forall i | 0 <= i < |parts| ensures count(marked[i]) <= limit {
      CountThree(CONTINUED, "\n", parts[i], count);
    }
  }

  /** With the default counter the marker costs six tokens and a separator one, so eight is the least limit the bound
      accepts: from there on a procedure whose words leave seven tokens is within the limit, markers included. */
  lemma DefaultProcedurePartsWithin(text: string, limit: int, marker: Marker)
    requires limit >= 8 && |Steps(text, marker)| > 1 && AllWithin(Words(text), limit - 7, EstimateTokens)
    ensures AllWithin(ProcedureParts(text, limit, marker, EstimateTokens), limit, EstimateTokens)
  {
    EstimateOfMarker();
    EstimateOfSpace("\n");
    hide EstimateTokens, Words, Steps, ProcedureParts, Lawful;
    EstimateIsLawful();
    ProcedurePartsWithin(text, limit, marker, EstimateTokens);
  }

  lemma EstimateOfMarker()
    ensures EstimateTokens(CONTINUED) == 6
  {
    var a, b := "(procedure", "continued)";
    TwoWords(CONTINUED, a, b);
    EstimateBy(CONTINUED, 21, 2);
  }

  lemma TwoWords(s: string, a: string, b: string)
    requires Solid(a) && Solid(b) && s == a + " " + b
    ensures Words(s) == [a, b]
  {
    WordsBetween(a, " ", b);
    WordOfSolid(a);
    WordOfSolid(b);
  }

  lemma EstimateOfSpace(s: string)
    requires 1 <= |s| <= 2 && AllSpace(s)
    ensures EstimateTokens(s) == 1
  {
    WordsOfSpace(s);
    EstimateBy(s, |s|, 0);
  }

  lemma EstimateBy(s: string, chars: nat, words: nat)
    requires s != "" && |s| == chars && |Words(s)| == words
    ensures EstimateTokens(s) == Max(1, Ceil(RealMax(chars as real / 3.5, words as real * 1.3)))
  {
  }

  ghost predicate NoBlank(parts: seq<string>) {
    forall p :: p in parts ==> Words(p) != []
  }

  lemma PackNotBlank(units: seq<string>, limit: int, sep: string, count: Counter)
    requires NoBlank(units) && AllSpace(sep) && sep != ""
    ensures NoBlank(Packed(units, limit, sep, count))
  {
    var groups := PackGroups(units, limit, sep, count);
    PackDivides(units, limit, sep, count);
    forall i | 0 <= i < |groups| ensures Words(Join(groups[i], sep)) != [] {
      FlattenMember(groups, groups[i][0]);
      WordsJoin(groups[i], sep);
    }
  }

  lemma {:induction false} RefineNotBlank(pieces: seq<string>, limit: int, count: Counter, breakUp: string -> seq<string>)
    requires NoBlank(pieces) && forall p :: Words(p) != [] ==> NoBlank(breakUp(p))
    ensures NoBlank(Refine(pieces, limit, count, breakUp))
  {
    if pieces != [] {
      assert pieces[|pieces| - 1] in pieces;
      RefineNotBlank(pieces[..|pieces| - 1], limit, count, breakUp);
    }
  }

  lemma WordPartsNotBlank(text: string, limit: int, count: Counter)
    requires Words(text) != []
    ensures NoBlank(WordParts(text, limit, count))
  {
    WordsAreSolid(text);
    forall w | w in Words(text) ensures Words(w) != [] {
      var i :| 0 <= i < |Words(text)| && Words(text)[i] == w;
      WordOfSolid(w);
    }
    PackNotBlank(Words(text), limit, " ", count);
  }

  lemma SentencePartsNotBlank(text: string, limit: int, count: Counter)
    requires Words(text) != []
    ensures NoBlank(SentenceParts(text, limit, count))
  {
    SentencesKeepWords(text);
    forall p | Words(p) != [] ensures NoBlank(WordBreak(limit, count)(p)) {
      WordPartsNotBlank(p, limit, count);
    }
    RefineNotBlank(Sentences(text), limit, count, WordBreak(limit, count));
    PackNotBlank(SentenceUnits(text, limit, count), limit, " ", count);
  }

  lemma ProcedurePartsNotBlank(text: string, limit: int, marker: Marker, count: Counter)
    requires |Steps(text, marker)| > 1
    ensures NoBlank(ProcedureParts(text, limit, marker, count)) && ProcedureParts(text, limit, marker, count) != []
  {
    hide Words, Steps, Packed, Refine;
    StepsKeepWords(text, marker);
    StepUnitsNotBlank(Steps(text, marker), ProcedureBudget(limit, count), count);
    PackNotBlank(ProcedureUnits(text, limit, marker, count), ProcedureBudget(limit, count), "\n", count);
    MarkedNotBlank(ProcedureBodies(text, limit, marker, count));
    ProcedureUnitsKeepWords(text, limit, marker, count);
    assert Steps(text, marker)[0] in Steps(text, marker);
  }

  lemma StepUnitsNotBlank(steps: seq<string>, budget: int, count: Counter)
    requires NoBlank(steps)
    ensures NoBlank(Refine(steps, budget, count, SentenceBreak(budget, count)))
  {
    forall p | Words(p) != [] ensures NoBlank(SentenceBreak(budget, count)(p)) {
      SentencePartsNotBlank(p, budget, count);
    }
    RefineNotBlank(steps, budget, count, SentenceBreak(budget, count));
  }

  lemma MarkedNotBlank(parts: seq<string>)
    requires NoBlank(parts)
    ensures NoBlank(MarkContinued(parts)) && |MarkContinued(parts)| == |parts|
  {
    forall i | 0 <= i < |parts| ensures Words(MarkContinued(parts)[i]) != [] {
      assert parts[i] in parts;
      WordsBetween(CONTINUED, "\n", parts[i]);
    }
  }

  // ---------------------------------------------------------------- tail_overlap

  /** First sentence of the overlap, having kept `pieces[j..]` worth `total`. */
  function TailStart(pieces: seq<string>, j: nat, total: nat, overlap: int, count: Counter): (n: nat)
    requires j <= |pieces|
    ensures n <= j
  {
    if j == 0 then 0
    else
      var t := count(pieces[j - 1]);
      if j < |pieces| && total + t > overlap then j
      else if total + t >= overlap then j - 1
      else TailStart(pieces, j - 1, total + t, overlap, count)
  }

  function TailPieces(text: string, overlap: int, count: Counter): seq<string> {
    var pieces := Sentences(text);
    pieces[TailStart(pieces, |pieces|, 0, overlap, count)..]
  }

  function TailOverlap(text: string, overlap: int, count: Counter): string {
    if overlap <= 0 then "" else Join(TailPieces(text, overlap, count), " ")
  }

  method BuildTailOverlap(text: string, overlap: int, count: Counter) returns (r: string)
    ensures r == TailOverlap(text, overlap, count)
  {
    if overlap <= 0 { return ""; }
    var kept := KeepTail(Sentences(text), overlap, count);
    r := Join(kept, " ");
  }

  /** The loop of `tail_overlap`, over the reversed sentences. */
  method KeepTail(pieces: seq<string>, overlap: int, count: Counter) returns (kept: seq<string>)
    ensures kept == pieces[TailStart(pieces, |pieces|, 0, overlap, count)..]
  {
    kept := [];
    var total: nat, j := 0, |pieces|;
    while j > 0
      invariant 0 <= j <= |pieces| && kept == pieces[j..]
      invariant TailStart(pieces, j, total, overlap, count) == TailStart(pieces, |pieces|, 0, overlap, count)
    {
      var piece := pieces[j - 1];
      TailStep(pieces, j, total, overlap, count);
      if kept != [] && total + count(piece) > overlap { return; }
      kept := [piece] + kept;
      total := total + count(piece);
      j := j - 1;
      if total >= overlap { return; }
    }
  }

  lemma TailStep(pieces: seq<string>, j: nat, total: nat, overlap: int, count: Counter)
    requires 0 < j <= |pieces|
    ensures var t := count(pieces[j - 1]);
            TailStart(pieces, j, total, overlap, count) ==
            if j < |pieces| && total + t > overlap then j
            else if total + t >= overlap then j - 1
            else TailStart(pieces, j - 1, total + t, overlap, count)
    ensures pieces[j - 1..] == [pieces[j - 1]] + pieces[j..]
  {
  }

  lemma Suffix<T>(xs: seq<T>, i: nat)
    requires i < |xs|
    ensures xs[i..] == [xs[i]] + xs[i + 1..] && xs[i..][1..] == xs[i + 1..]
  {
  }

  /** What is carried over is a run of words from the very end of the text. */
  lemma OverlapIsSuffix(text: string, overlap: int, count: Counter)
    ensures IsSuffix(Words(TailOverlap(text, overlap, count)), Words(text))
  {
    hide Sentences, TailStart, Join;
    if overlap > 0 {
      var pieces := Sentences(text);
      var n := TailStart(pieces, |pieces|, 0, overlap, count);
      SentencesKeepWords(text);
      WordsJoin(pieces[n..], " ");
      assert pieces == pieces[..n] + pieces[n..];
      WordsAllAppend(pieces[..n], pieces[n..]);
    }
  }

  function Total(pieces: seq<string>, count: Counter): nat {
    if pieces == [] then 0 else count(pieces[0]) + Total(pieces[1..], count)
  }

  lemma {:induction false} TailWithin(pieces: seq<string>, j: nat, total: nat, overlap: int, count: Counter)
    requires j <= |pieces| && total == Total(pieces[j..], count)
    requires |pieces| - j <= 1 || total <= overlap
    ensures var n := TailStart(pieces, j, total, overlap, count);
            (|pieces| > 0 && j == |pieces| ==> n < |pieces|) && (|pieces| - n <= 1 || Total(pieces[n..], count) <= overlap)
    decreases j
  {
    if j > 0 {
      var t := count(pieces[j - 1]);
      Suffix(pieces, j - 1);
      if !(j < |pieces| && total + t > overlap) && total + t < overlap {
        TailWithin(pieces, j - 1, total + t, overlap, count);
      }
    }
  }

  lemma {:induction false} JoinTotal(pieces: seq<string>, sep: string, count: Counter)
    requires Lawful(count) && pieces != []
    ensures count(Join(pieces, sep)) <= Total(pieces, count) + (|pieces| - 1) * count(sep)
  {
    if |pieces| > 1 {
      var rest := pieces[1..];
      JoinTotal(rest, sep, count);
      CountThree(pieces[0], sep, Join(rest, sep), count);
      assert (|pieces| - 1) * count(sep) == (|rest| - 1) * count(sep) + count(sep);
    }
  }

  lemma {:induction false} TotalAtLeast(pieces: seq<string>, count: Counter)
    requires forall p :: p in pieces ==> count(p) >= 1
    ensures |pieces| <= Total(pieces, count)
  {
    if pieces != [] { TotalAtLeast(pieces[1..], count); }
  }

  lemma {:induction false} TotalSnoc(pieces: seq<string>, p: string, count: Counter)
    ensures Total(pieces + [p], count) == Total(pieces, count) + count(p)
  {
    if pieces == [] {
      assert pieces + [p] == [p];
    } else {
      assert (pieces + [p])[1..] == pieces[1..] + [p];
      TotalSnoc(pieces[1..], p, count);
    }
  }

  /** The overlap is the last sentence, however long, or sentences worth at most the overlap budget. */
  lemma OverlapMeasured(text: string, overlap: int, count: Counter)
    requires Lawful(count) && overlap > 0 && Words(text) != []
    ensures var kept, pieces := TailPieces(text, overlap, count), Sentences(text);
            || (pieces != [] && kept == [pieces[|pieces| - 1]])
            || (Total(kept, count) <= overlap
                && count(TailOverlap(text, overlap, count)) <= overlap + (overlap - 1) * count(" "))
  {
    hide Sentences, TailStart, Words, Join;
    var pieces := Sentences(text);
    var n := TailStart(pieces, |pieces|, 0, overlap, count);
    SentencesKeepWords(text);
    TailWithin(pieces, |pieces|, 0, overlap, count);
    if n < |pieces| - 1 {
      SuffixMeasured(pieces, n, overlap, count);
    } else {
      Suffix(pieces, n);
    }
  }

  lemma SuffixMeasured(pieces: seq<string>, n: nat, overlap: int, count: Counter)
    requires Lawful(count) && n < |pieces| && Total(pieces[n..], count) <= overlap
    requires forall p :: p in pieces ==> Words(p) != []
    ensures count(Join(pieces[n..], " ")) <= overlap + (overlap - 1) * count(" ")
  {
    var kept := pieces[n..];
    forall p | p in kept ensures count(p) >= 1 {
      assert p in pieces && Words(p) != [];
    }
    JoinTotal(kept, " ", count);
    TotalAtLeast(kept, count);
    TimesMonotone(|kept| - 1, overlap - 1, count(" "));
  }

  /** Non-blank text leaves no overlap at all, or an overlap with words in it. */
  lemma OverlapNotBlank(text: string, overlap: int, count: Counter)
    requires Words(text) != []
    ensures var carried := TailOverlap(text, overlap, count); carried == "" || Words(carried) != []
  {
    hide Words, Sentences, Join;
    if overlap > 0 {
      var pieces := Sentences(text);
      var n := TailStart(pieces, |pieces|, 0, overlap, count);
      SentencesKeepWords(text);
      TailWithin(pieces, |pieces|, 0, overlap, count);
      WordsJoin(pieces[n..], " ");
      assert pieces[n..][0] in pieces;
    }
  }

  lemma TimesMonotone(a: int, b: int, c: nat)
    requires a <= b
    ensures a * c <= b * c
  {
  }
}

/** app/pipeline/procedures.py: find numbered procedures and take them apart again. */
module Procedures {
  import opened Text
  import opened Blocks

  /** `step_number`: the number a text opens with. Every result below holds for any recogniser. */
  type Marker = string -> Option<nat>

  // ---------------------------------------------------------------- split_steps

  /** First line at or after `i` that opens a new step. */
  function StepEnd(lines: seq<string>, i: nat, marker: Marker): (n: nat)
    requires i <= |lines|
    ensures i <= n <= |lines|
    ensures n < |lines| ==> marker(lines[n]).Some?
    ensures forall k :: i <= k < n ==> marker(lines[k]).None?
    decreases |lines| - i
  {
    if i == |lines| || marker(lines[i]).Some? then i else StepEnd(lines, i + 1, marker)
  }

  /** The lines of each step. */
  function StepGroups(lines: seq<string>, marker: Marker): seq<seq<string>> {
    if lines == [] then []
    else
      var n := StepEnd(lines, 1, marker);
      [lines[..n]] + StepGroups(lines[n..], marker)
  }

  function RStripJoins(groups: seq<seq<string>>): seq<string> {
    if groups == [] then []
    else [RStrip(Join(groups[0], "\n"))] + RStripJoins(groups[1..])
  }

  function NonBlank(parts: seq<string>): seq<string> {
    if parts == [] then []
    else
      var last := parts[|parts| - 1];
      NonBlank(parts[..|parts| - 1]) + (if Strip(last) != "" then [last] else [])
  }

  function Steps(text: string, marker: Marker): seq<string> {
    NonBlank(RStripJoins(StepGroups(Lines(text), marker)))
  }

  method SplitSteps(text: string, marker: Marker) returns (steps: seq<string>)
    ensures steps == Steps(text, marker)
  {
    hide Lines, Join, RStrip;
    var lines := Lines(text);
    steps := [];
    var current: seq<string> := [];
    ghost var whole := RStripJoins(StepGroups(lines, marker));
    EmptyFirst(lines);
    EmptyFirst(whole);
    for i := 0 to |lines|
      invariant i > 0 ==> current != []
      invariant i == 0 ==> current == []
      invariant forall k :: 1 <= k < |current| ==> marker(current[k]).None?
      invariant steps + RStripJoins(StepGroups(current + lines[i..], marker)) == whole
    {
      var line := lines[i];
      if marker(line).Some? && current != [] {
        StepFlush(steps, current, lines[i..], marker);
        steps := steps + [RStrip(Join(current, "\n"))];
        EmptyFirst(lines[i..]);
        Shift([], lines, i);
        EmptyFirst([line]);
        current := [line];
      } else {
        Shift(current, lines, i);
        current := current + [line];
      }
    }
    if current != [] {
      StepFlush(steps, current, lines[|lines|..], marker);
      steps := steps + [RStrip(Join(current, "\n"))];
      EmptyFirst(steps);
    }
    steps := DropBlank(steps);
  }

  method DropBlank(parts: seq<string>) returns (kept: seq<string>)
    ensures kept == NonBlank(parts)
  {
    kept := [];
    for i := 0 to |parts|
      invariant kept == NonBlank(parts[..i])
    {
      assert parts[..i + 1][..i] == parts[..i];
      if Strip(parts[i]) != "" {
        kept := kept + [parts[i]];
      }
    }
    assert parts[..|parts|] == parts;
  }

  lemma StepFlush(steps: seq<string>, current: seq<string>, rest: seq<string>, marker: Marker)
    requires current != [] && forall k :: 1 <= k < |current| ==> marker(current[k]).None?
    requires rest == [] || marker(rest[0]).Some?
    ensures (steps + [RStrip(Join(current, "\n"))]) + RStripJoins(StepGroups(rest, marker))
            == steps + RStripJoins(StepGroups(current + rest, marker))
  {
    StepGroupsStep(current, rest, marker);
    Assoc(steps, [RStrip(Join(current, "\n"))], RStripJoins(StepGroups(rest, marker)));
  }

  lemma StepGroupsStep(current: seq<string>, rest: seq<string>, marker: Marker)
    requires current != [] && forall k :: 1 <= k < |current| ==> marker(current[k]).None?
    requires rest == [] || marker(rest[0]).Some?
    ensures StepGroups(current + rest, marker) == [current] + StepGroups(rest, marker)
  {
    var all := current + rest;
    StepEndAt(all, 1, |current|, marker);
    assert all[..|current|] == current && all[|current|..] == rest;
  }

  lemma {:induction false} StepEndAt(lines: seq<string>, i: nat, m: nat, marker: Marker)
    requires i <= m <= |lines| && (m < |lines| ==> marker(lines[m]).Some?)
    requires forall k :: i <= k < m ==> marker(lines[k]).None?
    ensures StepEnd(lines, i, marker) == m
    decreases m - i
  {
    if i < m { StepEndAt(lines, i + 1, m, marker); }
  }

  /** A step runs from one numbered line to just before the next. */
  lemma {:induction false} StepGroupsCutAtMarkers(lines: seq<string>, marker: Marker)
    ensures Flatten(StepGroups(lines, marker)) == lines
    ensures forall g :: 0 <= g < |StepGroups(lines, marker)| ==> IsStep(StepGroups(lines, marker)[g], g, marker)
    decreases |lines|
  {
    hide *;
    NoSteps(marker);
    if lines != [] {
      var n := FirstStep(lines, marker);
      StepGroupsCutAtMarkers(lines[n..], marker);
      StepsFollow(lines, n, StepGroups(lines[n..], marker), marker);
    }
  }

  lemma NoSteps(marker: Marker)
    ensures StepGroups([], marker) == [] && Flatten(StepGroups([], marker)) == []
  {
  }

  lemma FirstStep(lines: seq<string>, marker: Marker) returns (n: nat)
    requires lines != []
    ensures 1 <= n <= |lines| && StepGroups(lines, marker) == [lines[..n]] + StepGroups(lines[n..], marker)
    ensures IsStep(lines[..n], 0, marker) && (n < |lines| ==> marker(lines[n]).Some?)
  {
    n := StepEnd(lines, 1, marker);
  }

  lemma StepsFollow(lines: seq<string>, n: nat, rest: seq<seq<string>>, marker: Marker)
    requires n <= |lines| && IsStep(lines[..n], 0, marker) && Flatten(rest) == lines[n..] && (n < |lines| ==> marker(lines[n]).Some?)
    requires forall g :: 0 <= g < |rest| ==> IsStep(rest[g], g, marker)
    ensures Flatten([lines[..n]] + rest) == lines
    ensures forall g :: 0 <= g < |[lines[..n]] + rest| ==> IsStep(([lines[..n]] + rest)[g], g, marker)
  {
    var groups := [lines[..n]] + rest;
    assert groups[1..] == rest && lines == lines[..n] + lines[n..];
    forall g | 0 < g < |groups| ensures IsStep(groups[g], g, marker) {
      assert groups[g] == rest[g - 1] && IsStep(rest[g - 1], g - 1, marker);
      if g == 1 { FirstOfFlat(rest); }
    }
  }

  lemma FirstOfFlat(rest: seq<seq<string>>)
    requires rest != [] && rest[0] != []
    ensures Flatten(rest) != [] && Flatten(rest)[0] == rest[0][0]
  {
  }

  /** Lines that make up step `g` of a text: numbered in the first of them, but for the first step, and in no other. */
  ghost predicate IsStep(lines: seq<string>, g: nat, marker: Marker) {
    && lines != [] && (g > 0 ==> marker(lines[0]).Some?)
    && forall k :: 1 <= k < |lines| ==> marker(lines[k]).None?
  }

  lemma {:induction false} RStripJoinsAre(groups: seq<seq<string>>)
    ensures |RStripJoins(groups)| == |groups|
    ensures forall i :: 0 <= i < |groups| ==> RStripJoins(groups)[i] == RStrip(Join(groups[i], "\n"))
  {
    hide Join, RStrip;
    if groups != [] { RStripJoinsAre(groups[1..]); }
  }

  /** What the steps of a text are: its lines, divided before each numbered one, put together again and stripped at the end;
      what has no text is dropped. */
  lemma StepsAreRunsOfLines(text: string, marker: Marker) returns (groups: seq<seq<string>>, steps: seq<string>)
    ensures Flatten(groups) == Lines(text) && |steps| == |groups| && Steps(text, marker) == NonBlank(steps)
    ensures forall g :: 0 <= g < |groups| ==> IsStep(groups[g], g, marker) && steps[g] == RStrip(Join(groups[g], "\n"))
  {
    groups := StepGroups(Lines(text), marker);
    steps := RStripJoins(groups);
    StepGroupsCutAtMarkers(Lines(text), marker);
    RStripJoinsAre(groups);
    hide StepGroups, RStripJoins, Lines, Join, RStrip, Flatten, IsStep;
  }

  lemma {:induction false} WordsNonBlank(parts: seq<string>)
    ensures WordsAll(NonBlank(parts)) == WordsAll(parts)
  {
    if parts != [] {
      var init, last := parts[..|parts| - 1], parts[|parts| - 1];
      assert parts == init + [last];
      WordsNonBlank(init);
      WordsAllSnoc(init, last);
      if Strip(last) != "" {
        WordsAllSnoc(NonBlank(init), last);
      } else {
        WordsStrip(last);
        EmptyFirst(NonBlank(init));
        EmptyFirst(WordsAll(init));
      }
    }
  }

  lemma {:induction false} NoneBlank(parts: seq<string>)
    ensures forall i :: 0 <= i < |NonBlank(parts)| ==> Words(NonBlank(parts)[i]) != []
  {
    if parts != [] {
      NoneBlank(parts[..|parts| - 1]);
      WordsStrip(parts[|parts| - 1]);
    }
  }

  lemma {:induction false} WordsRStripJoins(groups: seq<seq<string>>)
    ensures WordsAll(RStripJoins(groups)) == WordsAll(Flatten(groups))
  {
    if groups != [] {
      WordsJoin(groups[0], "\n");
      WordsRStrip(Join(groups[0], "\n"));
      WordsRStripJoins(groups[1..]);
      WordsAllAppend(groups[0], Flatten(groups[1..]));
    }
  }

  /** Taking a procedure apart loses no word, and leaves no blank step. */
  lemma StepsKeepWords(text: string, marker: Marker)
    ensures WordsAll(Steps(text, marker)) == Words(text)
    ensures forall i :: 0 <= i < |Steps(text, marker)| ==> Words(Steps(text, marker)[i]) != []
  {
    var groups := StepGroups(Lines(text), marker);
    StepGroupsCutAtMarkers(Lines(text), marker);
    WordsRStripJoins(groups);
    WordsNonBlank(RStripJoins(groups));
    NoneBlank(RStripJoins(groups));
    WordsLines(text);
  }

  // ---------------------------------------------------------------- group_numbered_procedures

  predicate Continuable(b: Block) {
    b.kind in {BlockKind.LIST, BlockKind.TEXT, BlockKind.CODE, BlockKind.TABLE}
  }

  function NumberOf(b: Block, marker: Marker): Option<nat> {
    if Continuable(b) then marker(b.text) else None
  }

  /** May the run whose last number is `last` go on with `blocks[c]`? */
  predicate Extends(blocks: seq<Block>, c: nat, last: nat, marker: Marker) {
    && c < |blocks| && Continuable(blocks[c])
    && match marker(blocks[c].text)
       case Some(n) => n > last
       case None => c + 1 < |blocks| && NumberOf(blocks[c + 1], marker).Some?
                    && NumberOf(blocks[c + 1], marker).value > last
  }

  /** Where the run that has reached `c` with last number `last` ends. */
  function RunEnd(blocks: seq<Block>, c: nat, last: nat, marker: Marker): (n: nat)
    requires c <= |blocks|
    ensures c <= n <= |blocks|
    decreases |blocks| - c
  {
    if !Extends(blocks, c, last, marker) then c
    else match marker(blocks[c].text)
         case Some(n) => RunEnd(blocks, c + 1, n, marker)
         case None => RunEnd(blocks, c + 1, last, marker)
  }

  /** The step numbers a run of blocks shows, in order. */
  function Numbers(run: seq<Block>, marker: Marker): seq<nat> {
    if run == [] then []
    else (match marker(run[0].text) case Some(n) => [n] case None => []) + Numbers(run[1..], marker)
  }

  predicate AscendingRun(numbers: seq<nat>) {
    && |numbers| >= 2 && numbers[0] <= 1
    && forall i :: 0 <= i < |numbers| - 1 ==> numbers[i] < numbers[i + 1]
  }

  function Merged(run: seq<Block>): Block
    requires run != []
  {
    Block(BlockKind.LIST, Join(Texts(run), "\n"), run[0].sectionPath, None, run[0].page, run[0].slideIndex, None, true)
  }

  /** How many blocks from `i` on become one block of the result. */
  function Taken(blocks: seq<Block>, i: nat, marker: Marker): (n: nat)
    requires i < |blocks|
    ensures 1 <= n <= |blocks| - i
  {
    match NumberOf(blocks[i], marker)
    case None => 1
    case Some(first) =>
      var n := RunEnd(blocks, i + 1, first, marker);
      if AscendingRun(Numbers(blocks[i..n], marker)) then n - i else 1
  }

  /** The runs the blocks are divided into; a run of one block is passed through. */
  function Runs(blocks: seq<Block>, i: nat, marker: Marker): seq<seq<Block>>
    requires i <= |blocks|
    decreases |blocks| - i
  {
    if i == |blocks| then []
    else
      var n := Taken(blocks, i, marker);
      [blocks[i..i + n]] + Runs(blocks, i + n, marker)
  }

  ghost predicate AllNonEmpty<T(!new)>(xss: seq<seq<T>>) {
    forall k :: 0 <= k < |xss| ==> xss[k] != []
  }

  function MergeRuns(runs: seq<seq<Block>>): seq<Block>
    requires AllNonEmpty(runs)
  {
    if runs == [] then []
    else [if |runs[0]| == 1 then runs[0][0] else Merged(runs[0])] + MergeRuns(runs[1..])
  }

  lemma {:induction false} RunsNonEmpty(blocks: seq<Block>, i: nat, marker: Marker)
    requires i <= |blocks|
    ensures AllNonEmpty(Runs(blocks, i, marker))
    ensures Flatten(Runs(blocks, i, marker)) == blocks[i..]
    decreases |blocks| - i
  {
    hide Taken, Flatten, AllNonEmpty;
    if i < |blocks| {
      var n := Taken(blocks, i, marker);
      RunsNonEmpty(blocks, i + n, marker);
      RunInFront(blocks, i, n, Runs(blocks, i + n, marker));
    } else {
      NoRuns(blocks);
    }
  }

  lemma NoRuns(blocks: seq<Block>)
    ensures AllNonEmpty<Block>([]) && Flatten<Block>([]) == blocks[|blocks|..]
  {
  }

  lemma RunInFront(blocks: seq<Block>, i: nat, n: nat, rest: seq<seq<Block>>)
    requires 0 < n && i + n <= |blocks| && AllNonEmpty(rest) && Flatten(rest) == blocks[i + n..]
    ensures AllNonEmpty([blocks[i..i + n]] + rest) && Flatten([blocks[i..i + n]] + rest) == blocks[i..]
  {
    assert ([blocks[i..i + n]] + rest)[1..] == rest;
    assert blocks[i..] == blocks[i..i + n] + blocks[i + n..];
  }

  function Grouped(blocks: seq<Block>, marker: Marker): seq<Block> {
    RunsNonEmpty(blocks, 0, marker);
    MergeRuns(Runs(blocks, 0, marker))
  }

  lemma {:induction false} NumbersConcat(xs: seq<Block>, ys: seq<Block>, marker: Marker)
    ensures Numbers(xs + ys, marker) == Numbers(xs, marker) + Numbers(ys, marker)
  {
    if xs == [] {
      assert xs + ys == ys;
    } else {
      assert (xs + ys)[1..] == xs[1..] + ys;
      NumbersConcat(xs[1..], ys, marker);
    }
  }

  lemma NumbersSnoc(blocks: seq<Block>, i: nat, c: nat, marker: Marker)
    requires i <= c < |blocks|
    ensures blocks[i..c + 1] == blocks[i..c] + [blocks[c]]
    ensures Numbers(blocks[i..c + 1], marker) ==
            Numbers(blocks[i..c], marker) + (match marker(blocks[c].text) case Some(n) => [n] case None => [])
  {
    assert blocks[i..c + 1] == blocks[i..c] + [blocks[c]];
    NumbersConcat(blocks[i..c], [blocks[c]], marker);
  }

  lemma RunEndUnfolds(blocks: seq<Block>, c: nat, last: nat, marker: Marker)
    requires c < |blocks|
    ensures RunEnd(blocks, c, last, marker) ==
      if !Extends(blocks, c, last, marker) then c
      else match marker(blocks[c].text)
           case Some(n) => RunEnd(blocks, c + 1, n, marker)
           case None => RunEnd(blocks, c + 1, last, marker)
  {
  }

  /** What the inner loop has collected from `index` up to `cursor`. */
  ghost predicate Collected(blocks: seq<Block>, index: nat, cursor: nat, run: seq<Block>, numbers: seq<nat>, marker: Marker) {
    index <= cursor <= |blocks| && run == blocks[index..cursor] && numbers == Numbers(run, marker)
  }

  lemma CollectedOne(blocks: seq<Block>, index: nat, marker: Marker)
    requires index < |blocks| && NumberOf(blocks[index], marker).Some?
    ensures Collected(blocks, index, index + 1, [blocks[index]], [marker(blocks[index].text).value], marker)
  {
    NumbersSnoc(blocks, index, index, marker);
  }

  lemma CollectedMore(blocks: seq<Block>, index: nat, cursor: nat, run: seq<Block>, numbers: seq<nat>, marker: Marker)
    requires Collected(blocks, index, cursor, run, numbers, marker) && cursor < |blocks|
    ensures marker(blocks[cursor].text).None? ==> Collected(blocks, index, cursor + 1, run + [blocks[cursor]], numbers, marker)
    ensures marker(blocks[cursor].text).Some? ==>
      Collected(blocks, index, cursor + 1, run + [blocks[cursor]], numbers + [marker(blocks[cursor].text).value], marker)
  {
    NumbersSnoc(blocks, index, cursor, marker);
    EmptyFirst(numbers);
    hide Numbers;
  }

  /** The inner loop: the run that starts at `index`, and its numbers. */
  method CollectRun(blocks: seq<Block>, index: nat, marker: Marker)
    returns (run: seq<Block>, numbers: seq<nat>, cursor: nat)
    requires index < |blocks| && NumberOf(blocks[index], marker).Some?
    ensures cursor == RunEnd(blocks, index + 1, NumberOf(blocks[index], marker).value, marker)
    ensures index < cursor <= |blocks| && run == blocks[index..cursor] && numbers == Numbers(run, marker)
  {
    ghost var end := RunEnd(blocks, index + 1, NumberOf(blocks[index], marker).value, marker);
    run, numbers := [blocks[index]], [marker(blocks[index].text).value];
    cursor := index + 1;
    CollectedOne(blocks, index, marker);
    hide Numbers, RunEnd, Collected;
    while cursor < |blocks|
      invariant index < cursor <= |blocks| && Collected(blocks, index, cursor, run, numbers, marker)
      invariant numbers != [] && RunEnd(blocks, cursor, numbers[|numbers| - 1], marker) == end
    {
      var candidate, last := blocks[cursor], numbers[|numbers| - 1];
      RunEndUnfolds(blocks, cursor, last, marker);
      if !Continuable(candidate) { break; }
      CollectedMore(blocks, index, cursor, run, numbers, marker);
      match marker(candidate.text)
      case None =>
        var lookahead := cursor + 1;
        if lookahead < |blocks| && Continuable(blocks[lookahead])
           && (match marker(blocks[lookahead].text) case Some(n) => n case None => 0) > last
        {
          run := run + [candidate];
          cursor := cursor + 1;
        } else {
          break;
        }
      case Some(number) =>
        if number <= last { break; }
        run := run + [candidate];
        numbers := numbers + [number];
        cursor := cursor + 1;
    }
    RunEndAtEnd(blocks, numbers[|numbers| - 1], marker);
    assert run == blocks[index..cursor] && numbers == Numbers(run, marker) by { CollectedIs(blocks, index, cursor, run, numbers, marker); }
  }

  lemma RunEndAtEnd(blocks: seq<Block>, last: nat, marker: Marker)
    ensures RunEnd(blocks, |blocks|, last, marker) == |blocks|
  {
  }

  lemma CollectedIs(blocks: seq<Block>, index: nat, cursor: nat, run: seq<Block>, numbers: seq<nat>, marker: Marker)
    requires Collected(blocks, index, cursor, run, numbers, marker)
    ensures index <= cursor <= |blocks| && run == blocks[index..cursor] && numbers == Numbers(run, marker)
  {
  }

  /** The outer loop of `group_numbered_procedures`. */
  method GroupNumberedProcedures(blocks: seq<Block>, marker: Marker) returns (grouped: seq<Block>)
    ensures grouped == Grouped(blocks, marker)
  {
    grouped := [];
    var index := 0;
    EmptyFirst(Grouped(blocks, marker));
    while index < |blocks|
      invariant index <= |blocks|
      invariant grouped + TailOf(blocks, index, marker) == Grouped(blocks, marker)
    {
      var block := blocks[index];
      TakeRun(grouped, blocks, index, marker);
      if !Continuable(block) || marker(block.text).None? {
        grouped := grouped + [block];
        index := index + 1;
      } else {
        var run, numbers, cursor := CollectRun(blocks, index, marker);
        if AscendingRun(numbers) {
          NumbersAtMostOnePerBlock(run, marker);
          grouped := grouped + [Merged(run)];
          index := cursor;
        } else {
          grouped := grouped + [block];
          index := index + 1;
        }
      }
    }
    EmptyFirst(grouped);
  }

  /** What grouping makes of the blocks from `i` on. */
  function TailOf(blocks: seq<Block>, i: nat, marker: Marker): seq<Block>
    requires i <= |blocks|
  {
    RunsNonEmpty(blocks, i, marker);
    MergeRuns(Runs(blocks, i, marker))
  }

  lemma TakeRun(grouped: seq<Block>, blocks: seq<Block>, i: nat, marker: Marker)
    requires i < |blocks|
    ensures var n := Taken(blocks, i, marker);
            (grouped + [if n == 1 then blocks[i] else Merged(blocks[i..i + n])]) + TailOf(blocks, i + n, marker)
            == grouped + TailOf(blocks, i, marker)
  {
    var n := Taken(blocks, i, marker);
    MergeRunsStep(blocks, i, marker);
    Assoc(grouped, [if n == 1 then blocks[i] else Merged(blocks[i..i + n])], TailOf(blocks, i + n, marker));
  }

  lemma {:induction false} NumbersAtMostOnePerBlock(run: seq<Block>, marker: Marker)
    ensures |Numbers(run, marker)| <= |run|
  {
    if run != [] { NumbersAtMostOnePerBlock(run[1..], marker); }
  }

  lemma MergeRunsStep(blocks: seq<Block>, i: nat, marker: Marker)
    requires i < |blocks|
    ensures AllNonEmpty(Runs(blocks, i, marker))
    ensures var n := Taken(blocks, i, marker);
            && AllNonEmpty(Runs(blocks, i + n, marker))
            && MergeRuns(Runs(blocks, i, marker)) ==
               [if n == 1 then blocks[i] else Merged(blocks[i..i + n])] + MergeRuns(Runs(blocks, i + n, marker))
  {
    var n := Taken(blocks, i, marker);
    RunsNonEmpty(blocks, i, marker);
    RunsNonEmpty(blocks, i + n, marker);
    assert blocks[i..i + n][0] == blocks[i];
  }

  // ------------------------------------------------------------ properties

  /** A block of a kind that procedures are made of. */
  ghost predicate StepKind(b: Block) {
    b.kind == LIST || b.kind == TEXT || b.kind == CODE || b.kind == TABLE
  }

  /** A procedure with last number `last` goes on at `c`: with a higher number there, or with one behind a block that has
      none. */
  ghost predicate GoesOn(blocks: seq<Block>, c: nat, last: nat, marker: Marker) {
    && c < |blocks| && StepKind(blocks[c])
    && if marker(blocks[c].text).Some? then marker(blocks[c].text).value > last
       else c + 1 < |blocks| && StepKind(blocks[c + 1]) && marker(blocks[c + 1].text).Some? && marker(blocks[c + 1].text).value > last
  }

  /** `blocks[i..i + n]` is a procedure: numbered at both ends, never two unnumbered blocks in a row,
      numbers strictly ascending from 0 or 1, and not extendable by the block after it. */
  ghost predicate MaximalProcedure(blocks: seq<Block>, i: nat, n: nat, marker: Marker) {
    && n >= 2 && i + n <= |blocks|
    && (forall k :: i <= k < i + n ==> StepKind(blocks[k]))
    && marker(blocks[i].text).Some? && marker(blocks[i + n - 1].text).Some?
    && (forall k :: i <= k < i + n - 1 ==> marker(blocks[k].text).Some? || marker(blocks[k + 1].text).Some?)
    && var numbers := Numbers(blocks[i..i + n], marker);
    && |numbers| >= 2 && (numbers[0] == 0 || numbers[0] == 1) && (forall k :: 0 < k < |numbers| ==> numbers[k - 1] < numbers[k])
    && !GoesOn(blocks, i + n, numbers[|numbers| - 1], marker)
  }

  /** What holds of `blocks[i..c]` while a run grows; `last` is its last number. */
  ghost predicate Growing(blocks: seq<Block>, i: nat, c: nat, last: nat, marker: Marker) {
    && i < c <= |blocks|
    && (forall k :: i <= k < c ==> Continuable(blocks[k]))
    && marker(blocks[i].text).Some?
    && (forall k :: i <= k < c - 1 ==> marker(blocks[k].text).Some? || marker(blocks[k + 1].text).Some?)
    && var numbers := Numbers(blocks[i..c], marker);
    && numbers != [] && last == numbers[|numbers| - 1]
    && (marker(blocks[c - 1].text).None? ==>
          c < |blocks| && NumberOf(blocks[c], marker).Some? && NumberOf(blocks[c], marker).value > last)
  }

  lemma {:induction false} RunEndShape(blocks: seq<Block>, i: nat, c: nat, last: nat, marker: Marker) returns (end: nat)
    requires Growing(blocks, i, c, last, marker)
    ensures var n := RunEnd(blocks, c, last, marker);
            Growing(blocks, i, n, end, marker) && marker(blocks[n - 1].text).Some? && !Extends(blocks, n, end, marker)
    decreases |blocks| - c
  {
    hide Numbers;
    end := last;
    if Extends(blocks, c, last, marker) {
      NumbersSnoc(blocks, i, c, marker);
      var next := match marker(blocks[c].text) case Some(n) => n case None => last;
      assert marker(blocks[c - 1].text).None? ==> marker(blocks[c].text).Some?;
      end := RunEndShape(blocks, i, c + 1, next, marker);
    }
  }

  lemma TakenShape(blocks: seq<Block>, i: nat, marker: Marker)
    requires i < |blocks| && Taken(blocks, i, marker) > 1
    ensures MaximalProcedure(blocks, i, Taken(blocks, i, marker), marker)
  {
    hide Numbers;
    var first := NumberOf(blocks[i], marker).value;
    NumbersSnoc(blocks, i, i, marker);
    var end := RunEndShape(blocks, i, i + 1, first, marker);
  }

  /** A numbered block inside a longer run contributes the next number. */
  lemma NumberAt(blocks: seq<Block>, i: nat, c: nat, n: nat, marker: Marker)
    requires i <= c < n <= |blocks| && marker(blocks[c].text).Some?
    ensures |Numbers(blocks[i..c], marker)| < |Numbers(blocks[i..n], marker)|
    ensures Numbers(blocks[i..n], marker)[|Numbers(blocks[i..c], marker)|] == marker(blocks[c].text).value
    ensures forall k :: 0 <= k < |Numbers(blocks[i..c], marker)| ==> Numbers(blocks[i..n], marker)[k] == Numbers(blocks[i..c], marker)[k]
  {
    hide Numbers;
    NumbersSnoc(blocks, i, c, marker);
    assert blocks[i..n] == blocks[i..c + 1] + blocks[c + 1..n];
    NumbersConcat(blocks[i..c + 1], blocks[c + 1..n], marker);
  }

  /** The next block of a procedure extends the run, and is numbered or followed by a numbered one. */
  lemma NextExtends(blocks: seq<Block>, i: nat, n: nat, c: nat, end: nat, marker: Marker)
    requires MaximalProcedure(blocks, i, n, marker) && i < c < i + n && LastIs(Numbers(blocks[i..c], marker), end)
    requires marker(blocks[c - 1].text).Some? || marker(blocks[c].text).Some?
    ensures Extends(blocks, c, end, marker)
    ensures marker(blocks[c].text).Some? || (c + 1 < i + n && marker(blocks[c + 1].text).Some?)
  {
    hide Numbers;
    var last := |Numbers(blocks[i..c], marker)| - 1;
    var all := Numbers(blocks[i..i + n], marker);
    if marker(blocks[c].text).None? {
      assert c + 1 < i + n && marker(blocks[c + 1].text).Some?;
      NumbersSnoc(blocks, i, c, marker);
      EmptyFirst(Numbers(blocks[i..c], marker));
      NumberAt(blocks, i, c + 1, i + n, marker);
    } else {
      NumberAt(blocks, i, c, i + n, marker);
    }
    assert all[last] < all[last + 1];
  }

  /** A run that can go on goes on to where the longer run ends. */
  lemma RunEndStep(blocks: seq<Block>, i: nat, c: nat, last: nat, marker: Marker) returns (next: nat)
    requires i < c < |blocks| && Extends(blocks, c, last, marker) && LastIs(Numbers(blocks[i..c], marker), last)
    ensures LastIs(Numbers(blocks[i..c + 1], marker), next)
    ensures RunEnd(blocks, c, last, marker) == RunEnd(blocks, c + 1, next, marker)
  {
    NumbersSnoc(blocks, i, c, marker);
    EmptyFirst(Numbers(blocks[i..c], marker));
    hide Numbers;
    next := match marker(blocks[c].text) case Some(n) => n case None => last;
  }

  predicate LastIs(numbers: seq<nat>, last: nat) {
    numbers != [] && numbers[|numbers| - 1] == last
  }

  lemma RunEndHere(blocks: seq<Block>, i: nat, n: nat, last: nat, marker: Marker)
    requires MaximalProcedure(blocks, i, n, marker) && LastIs(Numbers(blocks[i..i + n], marker), last)
    ensures RunEnd(blocks, i + n, last, marker) == i + n
  {
    hide Numbers;
  }

  lemma {:induction false} AscendingTail(blocks: seq<Block>, i: nat, n: nat, c: nat, last: nat, marker: Marker)
    requires MaximalProcedure(blocks, i, n, marker) && i < c <= i + n <= |blocks|
    requires LastIs(Numbers(blocks[i..c], marker), last)
    requires marker(blocks[c - 1].text).Some? || (c < i + n && marker(blocks[c].text).Some?)
    ensures RunEnd(blocks, c, last, marker) == i + n
    decreases i + n - c
  {
    hide *;
    if c == i + n {
      RunEndHere(blocks, i, n, last, marker);
    } else {
      NextExtends(blocks, i, n, c, last, marker);
      var next := RunEndStep(blocks, i, c, last, marker);
      AscendingTail(blocks, i, n, c + 1, next, marker);
    }
  }

  /** A maximal procedure that starts at `i` is exactly what grouping takes there. */
  lemma ProcedureIsTaken(blocks: seq<Block>, i: nat, n: nat, marker: Marker)
    requires MaximalProcedure(blocks, i, n, marker)
    ensures Taken(blocks, i, marker) == n
  {
    NumbersSnoc(blocks, i, i, marker);
    AscendingTail(blocks, i, n, i + 1, marker(blocks[i].text).value, marker);
  }

  lemma TakenExactly(blocks: seq<Block>, i: nat, marker: Marker)
    requires i < |blocks|
    ensures Taken(blocks, i, marker) > 1 ==> MaximalProcedure(blocks, i, Taken(blocks, i, marker), marker)
    ensures forall n :: MaximalProcedure(blocks, i, n, marker) ==> n == Taken(blocks, i, marker)
  {
    if Taken(blocks, i, marker) > 1 { TakenShape(blocks, i, marker); }
    forall n | MaximalProcedure(blocks, i, n, marker) ensures n == Taken(blocks, i, marker) {
      ProcedureIsTaken(blocks, i, n, marker);
    }
  }

  /** Where run `k` of the division starts. */
  function RunStart(blocks: seq<Block>, i: nat, k: nat, marker: Marker): nat
    requires i <= |blocks| && k <= |Runs(blocks, i, marker)|
    decreases k
  {
    if k == 0 then i else RunStart(blocks, i + Taken(blocks, i, marker), k - 1, marker)
  }

  lemma {:induction false} RunAt(blocks: seq<Block>, i: nat, k: nat, marker: Marker)
    requires i <= |blocks| && k < |Runs(blocks, i, marker)|
    ensures var j := RunStart(blocks, i, k, marker);
            j < |blocks| && Runs(blocks, i, marker)[k] == blocks[j..j + Taken(blocks, j, marker)]
    decreases k
  {
    hide Taken;
    if k > 0 { RunAt(blocks, i + Taken(blocks, i, marker), k - 1, marker); }
  }

  lemma {:induction false} MergeAt(runs: seq<seq<Block>>, k: nat)
    requires AllNonEmpty(runs) && k < |runs|
    ensures |MergeRuns(runs)| == |runs|
    ensures MergeRuns(runs)[k] == if |runs[k]| == 1 then runs[k][0] else Merged(runs[k])
  {
    if |runs| > 1 { MergeAt(runs[1..], if k > 0 then k - 1 else 0); }
  }

  /** `run`, which starts at `i`, is exactly a maximal procedure and becomes one atomic block,
      or it is a single block where none starts, passed through unchanged. */
  ghost predicate RunIsSound(blocks: seq<Block>, i: nat, run: seq<Block>, result: Block, marker: Marker) {
    && run != [] && i + |run| <= |blocks| && run == blocks[i..i + |run|]
    && (forall n :: MaximalProcedure(blocks, i, n, marker) ==> n == |run|)
    && (|run| > 1 ==> MaximalProcedure(blocks, i, |run|, marker))
    && result == if |run| == 1 then blocks[i]
                 else Block(LIST, Join(Texts(run), "\n"), run[0].sectionPath, None, run[0].page, run[0].slideIndex, None, true)
  }

  lemma TakenIsSound(blocks: seq<Block>, i: nat, run: seq<Block>, result: Block, marker: Marker)
    requires i < |blocks| && run == blocks[i..i + Taken(blocks, i, marker)]
    requires result == if |run| == 1 then run[0] else Merged(run)
    ensures RunIsSound(blocks, i, run, result, marker)
  {
    TakenExactly(blocks, i, marker);
  }

  /** Grouping divides every document into consecutive sound runs, in order. */
  lemma GroupingIsSound(blocks: seq<Block>, k: nat, marker: Marker)
    requires k < |Runs(blocks, 0, marker)|
    ensures Flatten(Runs(blocks, 0, marker)) == blocks
    ensures |Grouped(blocks, marker)| == |Runs(blocks, 0, marker)|
    ensures RunIsSound(blocks, RunStart(blocks, 0, k, marker), Runs(blocks, 0, marker)[k], Grouped(blocks, marker)[k], marker)
  {
    hide RunIsSound, MaximalProcedure, MergeRuns, Flatten, Taken, Merged, Runs, RunStart;
    RunsNonEmpty(blocks, 0, marker);
    EmptyFirst(blocks);
    RunAt(blocks, 0, k, marker);
    MergeAt(Runs(blocks, 0, marker), k);
    TakenIsSound(blocks, RunStart(blocks, 0, k, marker), Runs(blocks, 0, marker)[k], Grouped(blocks, marker)[k], marker);
  }

  lemma {:induction false} MergeRunsWords(runs: seq<seq<Block>>)
    requires AllNonEmpty(runs)
    ensures BlockWords(MergeRuns(runs)) == BlockWords(Flatten(runs))
  {
    if runs != [] {
      MergeRunsWords(runs[1..]);
      BlockWordsAppend(runs[0], Flatten(runs[1..]));
      var head := if |runs[0]| == 1 then runs[0][0] else Merged(runs[0]);
      BlockWordsAppend([head], MergeRuns(runs[1..]));
      BlockWordsOne(head);
      if |runs[0]| == 1 {
        assert runs[0] == [head];
      } else {
        WordsJoin(Texts(runs[0]), "\n");
      }
    }
  }

  /** Grouping loses, repeats and reorders no word. */
  lemma GroupingKeepsWords(blocks: seq<Block>, marker: Marker)
    ensures BlockWords(Grouped(blocks, marker)) == BlockWords(blocks)
  {
    RunsNonEmpty(blocks, 0, marker);
    MergeRunsWords(Runs(blocks, 0, marker));
    assert blocks[0..] == blocks;
  }
}

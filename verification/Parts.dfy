/** What each splitter of app/pipeline/splitting.py returns, part by part: which units there are, how many of them each part
    takes, and what stands in front. */
module Parts {
  import opened Text
  import opened Tokens
  import opened Packing
  import opened Procedures
  import opened Splitting

  /** What a group is charged: its units, and a separator for each. */
  lemma {:induction false} CostIsTotal(units: seq<string>, sep: string, count: Counter)
    ensures Cost(units, sep, count) == Total(units, count) + |units| * count(sep)
  {
    if units != [] {
      var n := |units| - 1;
      InitLast(units, n);
      CostIsTotal(units[..n], sep, count);
      TotalSnoc(units[..n], units[n], count);
      OneMoreTimes(n, count(sep));
    }
  }

  lemma OneMoreTimes(n: nat, c: nat)
    ensures (n + 1) * c == n * c + c
  {
  }

  // ---------------------------------------------------------------- the units

  /** A piece that fits is one unit; of a larger one, the units are its words, packed greedily. A blank one stays. */
  ghost predicate UnitsOf(piece: string, units: seq<string>, limit: int, count: Counter) {
    if count(piece) <= limit || Words(piece) == [] then units == [piece]
    else exists runs :: Greedy(runs, Words(piece), limit, " ", count) && units == JoinEach(runs, " ")
  }

  ghost predicate UnitsOfEach(pieces: seq<string>, units: seq<seq<string>>, limit: int, count: Counter) {
    && |units| == |pieces|
    && forall i :: 0 <= i < |pieces| ==> UnitsOf(pieces[i], units[i], limit, count)
  }

  /** What each piece becomes: itself when it fits, its parts when it does not. */
  function RefinedEach(pieces: seq<string>, limit: int, count: Counter, breakUp: string -> seq<string>): seq<seq<string>> {
    seq(|pieces|, i requires 0 <= i < |pieces| => if count(pieces[i]) > limit then breakUp(pieces[i]) else [pieces[i]])
  }

  lemma {:induction false} RefineIsFlatten(pieces: seq<string>, limit: int, count: Counter, breakUp: string -> seq<string>)
    ensures Refine(pieces, limit, count, breakUp) == Flatten(RefinedEach(pieces, limit, count, breakUp))
  {
    if pieces != [] {
      var n := |pieces| - 1;
      var last := if count(pieces[n]) > limit then breakUp(pieces[n]) else [pieces[n]];
      RefinedEachSnoc(pieces, n, limit, count, breakUp);
      hide RefinedEach, Flatten;
      RefineIsFlatten(pieces[..n], limit, count, breakUp);
      FlattenAppend(RefinedEach(pieces[..n], limit, count, breakUp), [last]);
      FlattenOne(last);
    }
  }

  lemma RefinedEachSnoc(pieces: seq<string>, n: nat, limit: int, count: Counter, breakUp: string -> seq<string>)
    requires |pieces| == n + 1
    ensures RefinedEach(pieces, limit, count, breakUp)
         == RefinedEach(pieces[..n], limit, count, breakUp) + [if count(pieces[n]) > limit then breakUp(pieces[n]) else [pieces[n]]]
  {
  }

  lemma FlattenOne(part: seq<string>)
    ensures Flatten([part]) == part
  {
    EmptyFirst(part);
    assert [part][1..] == [];
  }

  lemma WordPartsAre(piece: string, limit: int, count: Counter)
    requires count(piece) > limit
    ensures UnitsOf(piece, WordParts(piece, limit, count), limit, count)
  {
    var runs := PackGroups(Words(piece), limit, " ", count);
    PackIsGreedy(Words(piece), limit, " ", count);
    hide Greedy;
    assert JoinEach(runs, " ") == [] <==> Words(piece) == [];
  }

  lemma WordRefinement(pieces: seq<string>, limit: int, count: Counter) returns (units: seq<seq<string>>)
    ensures UnitsOfEach(pieces, units, limit, count)
    ensures Refine(pieces, limit, count, WordBreak(limit, count)) == Flatten(units)
  {
    units := RefinedEach(pieces, limit, count, WordBreak(limit, count));
    RefineIsFlatten(pieces, limit, count, WordBreak(limit, count));
    hide UnitsOf, WordParts;
    forall i | 0 <= i < |pieces| ensures UnitsOf(pieces[i], units[i], limit, count) {
      if count(pieces[i]) > limit { WordPartsAre(pieces[i], limit, count); } else { FittingUnit(pieces[i], limit, count); }
    }
  }

  lemma FittingUnit(piece: string, limit: int, count: Counter)
    requires count(piece) <= limit
    ensures UnitsOf(piece, [piece], limit, count)
  {
  }

  /** When every piece fits, the units are the pieces. */
  lemma {:induction false} FittingUnits(pieces: seq<string>, units: seq<seq<string>>, limit: int, count: Counter)
    requires UnitsOfEach(pieces, units, limit, count) && AllWithin(pieces, limit, count)
    ensures Flatten(units) == pieces
  {
    if pieces != [] {
      assert UnitsOf(pieces[0], units[0], limit, count) && pieces[0] in pieces;
      forall i | 0 <= i < |pieces[1..]| ensures UnitsOf(pieces[1..][i], units[1..][i], limit, count) {
        assert pieces[1..][i] == pieces[i + 1] && units[1..][i] == units[i + 1];
      }
      FittingUnits(pieces[1..], units[1..], limit, count);
    }
  }

  // ---------------------------------------------------------------- the parts

  /** Prose: the units of the sentences, packed greedily, with spaces between; text without a sentence is one part. */
  lemma SentencePartsAreGreedy(text: string, limit: int, count: Counter) returns (units: seq<seq<string>>, groups: seq<seq<string>>)
    ensures UnitsOfEach(Sentences(text), units, limit, count) && Greedy(groups, Flatten(units), limit, " ", count)
    ensures SentenceParts(text, limit, count) == if Words(text) == [] then [text] else JoinEach(groups, " ")
  {
    SentencesKeepWords(text);
    units := WordRefinement(Sentences(text), limit, count);
    groups := PackGroups(Flatten(units), limit, " ", count);
    PackIsGreedy(Flatten(units), limit, " ", count);
    PackKeepsWords(Flatten(units), limit, " ", count);
    WordBreakKeepsWords(limit, count);
    RefineKeepsWords(Sentences(text), limit, count, WordBreak(limit, count));
    hide Words, Sentences, Greedy, UnitsOfEach, Refine, PackGroups;
  }

  /** A split table: every part is the header followed by a run of rows, and the rows are the lines after the header's, each
      once and in order: a line that fits what the header leaves is one row, as it is, and only a larger one is broken
      into words. Every part takes as many rows as fit. */
  lemma TablePartsRepeatHeader(text: string, header: string, limit: int, count: Counter) returns (rows: seq<seq<string>>, groups: seq<seq<string>>)
    requires |Lines(header)| < |Lines(text)|
    ensures var parts, lead := TableParts(text, header, limit, count), if header == "" then "" else header + "\n";
            var left := if count(lead) < limit then limit - count(lead) else 1;
            && UnitsOfEach(Lines(text)[|Lines(header)|..], rows, left, count)
            && Greedy(groups, Flatten(rows), left, "\n", count)
            && |parts| == |groups| && forall i :: 0 <= i < |groups| ==> parts[i] == lead + Join(groups[i], "\n")
  {
    var budget, body := TableBudget(header, limit, count), TableBody(text, header);
    BodyIsRest(text, header);
    BudgetIsLeft(header, limit, count);
    hide *;
    rows := WordRefinement(body, budget, count);
    groups := PackGroups(Flatten(rows), budget, "\n", count);
    PackIsGreedy(Flatten(rows), budget, "\n", count);
    RefineNotEmpty(body, budget, count);
    PartsArePrefixed(text, header, limit, count);
    PrefixedGroupsShape(Flatten(rows), TablePrefix(header), budget, count);
  }

  lemma BudgetIsLeft(header: string, limit: int, count: Counter)
    ensures var lead := if header == "" then "" else header + "\n";
      TablePrefix(header) == lead && TableBudget(header, limit, count) == if count(lead) < limit then limit - count(lead) else 1
  {
  }

  lemma RefineNotEmpty(pieces: seq<string>, limit: int, count: Counter)
    requires pieces != []
    ensures Refine(pieces, limit, count, WordBreak(limit, count)) != []
  {
  }

  lemma PartsArePrefixed(text: string, header: string, limit: int, count: Counter)
    ensures var budget := TableBudget(header, limit, count);
      var rows := Refine(TableBody(text, header), budget, count, WordBreak(budget, count));
      rows != [] ==> TableParts(text, header, limit, count) == PrefixedGroups(rows, TablePrefix(header), budget, count)
  {
    hide TableBody, Refine, TableBudget, TablePrefix;
  }

  lemma PrefixedGroupsShape(rows: seq<string>, prefix: string, budget: int, count: Counter)
    ensures var groups, parts := PackGroups(rows, budget, "\n", count), PrefixedGroups(rows, prefix, budget, count);
            |parts| == |groups| && forall i :: 0 <= i < |groups| ==> parts[i] == prefix + Join(groups[i], "\n")
  {
    hide PackGroups, Join;
  }

  lemma BodyIsRest(text: string, header: string)
    requires |Lines(header)| < |Lines(text)|
    ensures TableBody(text, header) == Lines(text)[|Lines(header)|..] != []
  {
  }

  /** A table of no more lines than its header is one part, and text of one step at most is split as prose. */
  lemma NothingToDivide(text: string, header: string, limit: int, marker: Marker, count: Counter)
    ensures |Lines(text)| <= |Lines(header)| ==> TableParts(text, header, limit, count) == [text]
    ensures |Steps(text, marker)| <= 1 ==> ProcedureParts(text, limit, marker, count) == SentenceParts(text, limit, count)
  {
    NoLines();
    hide Lines, Steps, SentenceParts;
    if |Lines(text)| <= |Lines(header)| {
      assert TableBody(text, header) == [];
      NoUnits(TableBudget(header, limit, count), "\n", count);
    }
  }

  lemma NoLines()
    ensures Lines("") == []
  {
  }

  /** In particular, when every line fits what the header leaves, the rows are the lines, uncut, and no division of them
      into runs charged that much has fewer parts. */
  lemma FittingRowsStayWhole(text: string, header: string, limit: int, count: Counter) returns (groups: seq<seq<string>>)
    requires header != "" && count(header + "\n") < limit && |Lines(header)| < |Lines(text)|
    requires AllWithin(Lines(text)[|Lines(header)|..], limit - count(header + "\n"), count)
    ensures var lines, parts, left := Lines(text)[|Lines(header)|..], TableParts(text, header, limit, count), limit - count(header + "\n");
            && Greedy(groups, lines, left, "\n", count)
            && |parts| == |groups| && (forall i :: 0 <= i < |groups| ==> parts[i] == header + "\n" + Join(groups[i], "\n"))
            && forall other :: Division(other, lines, left, "\n", count) ==> |parts| <= |other|
  {
    hide TableParts, Greedy, UnitsOfEach, Division, Lines, Flatten;
    var rows, left := [], limit - count(header + "\n");
    rows, groups := TablePartsRepeatHeader(text, header, limit, count);
    FittingUnits(Lines(text)[|Lines(header)|..], rows, left, count);
    GreedyIsLeast(groups, Lines(text)[|Lines(header)|..], left, "\n", count);
  }

  lemma GreedyIsLeast(groups: seq<seq<string>>, units: seq<string>, limit: int, sep: string, count: Counter)
    requires Greedy(groups, units, limit, sep, count)
    ensures forall other :: Division(other, units, limit, sep, count) ==> |groups| <= |other|
  {
    GreedyIsUnique(groups, units, limit, sep, count);
    forall other | Division(other, units, limit, sep, count) ensures |groups| <= |other| {
      PackOptimal(units, other, limit, sep, count);
    }
  }

  // ---------------------------------------------------------------- procedures

  /** What each step becomes: itself when it fits, its sentences packed when it does not. */
  ghost predicate StepUnits(steps: seq<string>, units: seq<seq<string>>, limit: int, count: Counter) {
    && |units| == |steps|
    && forall i :: 0 <= i < |steps| ==> units[i] == if count(steps[i]) <= limit then [steps[i]] else SentenceParts(steps[i], limit, count)
  }

  /** An oversized procedure: a step that fits what the marker leaves is one unit, as it is, and only a larger one is split
      into sentences; every part takes as many units as fit, and every later part leads with the marker. */
  lemma ProcedureCutBetweenUnits(text: string, limit: int, marker: Marker, count: Counter) returns (units: seq<seq<string>>, groups: seq<seq<string>>)
    requires |Steps(text, marker)| > 1
    ensures var parts, left := ProcedureParts(text, limit, marker, count), if limit - count(CONTINUED) > 1 then limit - count(CONTINUED) - 1 else 1;
            && StepUnits(Steps(text, marker), units, left, count)
            && Greedy(groups, Flatten(units), left, "\n", count)
            && |parts| == |groups|
            && forall i :: 0 <= i < |groups| ==> parts[i] == if i == 0 then Join(groups[i], "\n") else CONTINUED + "\n" + Join(groups[i], "\n")
  {
    var budget, steps := ProcedureBudget(limit, count), Steps(text, marker);
    units := RefinedEach(steps, budget, count, SentenceBreak(budget, count));
    RefineIsFlatten(steps, budget, count, SentenceBreak(budget, count));
    groups := PackGroups(Flatten(units), budget, "\n", count);
    PackIsGreedy(Flatten(units), budget, "\n", count);
    hide PackGroups, Refine, Flatten, Steps, Greedy, SentenceParts;
  }

  /** In particular, when every step fits, a procedure is cut only between steps, and into as few parts as can be. */
  lemma ProcedureCutBetweenSteps(text: string, limit: int, marker: Marker, count: Counter) returns (groups: seq<seq<string>>)
    requires |Steps(text, marker)| > 1 && limit - count(CONTINUED) > 1
    requires AllWithin(Steps(text, marker), limit - count(CONTINUED) - 1, count)
    ensures var steps, parts, left := Steps(text, marker), ProcedureParts(text, limit, marker, count), limit - count(CONTINUED) - 1;
            && Greedy(groups, steps, left, "\n", count)
            && |parts| == |groups|
            && (forall i :: 0 <= i < |groups| ==> parts[i] == if i == 0 then Join(groups[i], "\n") else CONTINUED + "\n" + Join(groups[i], "\n"))
            && forall other :: Division(other, steps, left, "\n", count) ==> |parts| <= |other|
  {
    hide ProcedureParts, Steps, Greedy, Division, Flatten, SentenceParts;
    var units, left := [], limit - count(CONTINUED) - 1;
    units, groups := ProcedureCutBetweenUnits(text, limit, marker, count);
    FittingSteps(Steps(text, marker), units, left, count);
    GreedyIsLeast(groups, Steps(text, marker), left, "\n", count);
  }

  lemma {:induction false} FittingSteps(steps: seq<string>, units: seq<seq<string>>, limit: int, count: Counter)
    requires StepUnits(steps, units, limit, count) && AllWithin(steps, limit, count)
    ensures Flatten(units) == steps
  {
    hide SentenceParts;
    if steps != [] {
      assert steps[0] in steps;
      FittingSteps(steps[1..], units[1..], limit, count);
    }
  }

  // ---------------------------------------------------------------- the overlap

  lemma {:induction false} TotalOfMore(pieces: seq<string>, m: nat, n: nat, count: Counter)
    requires m <= n <= |pieces|
    ensures Total(pieces[m..], count) >= Total(pieces[n..], count)
    decreases n - m
  {
    if m < n {
      Suffix(pieces, m);
      TotalOfMore(pieces, m + 1, n, count);
    }
  }

  /** The loop stops only where one more sentence is too much. */
  lemma {:induction false} TailIsLongest(pieces: seq<string>, j: nat, total: nat, overlap: int, count: Counter)
    requires j <= |pieces| && total == Total(pieces[j..], count) && (j == |pieces| || total < overlap) && overlap > 0
    requires forall p :: p in pieces ==> count(p) >= 1
    ensures var n := TailStart(pieces, j, total, overlap, count); n > 0 ==> Total(pieces[n - 1..], count) > overlap
    decreases j
  {
    hide TailStart, Total;
    if j > 0 {
      var t := count(pieces[j - 1]);
      TotalBefore(pieces, j, count);
      TailStep(pieces, j, total, overlap, count);
      if !(j < |pieces| && total + t > overlap) {
        if total + t >= overlap {
          if j > 1 { TotalBefore(pieces, j - 1, count); }
        } else {
          TailIsLongest(pieces, j - 1, total + t, overlap, count);
        }
      }
    } else {
      NoTail(pieces, total, overlap, count);
    }
  }

  lemma NoTail(pieces: seq<string>, total: nat, overlap: int, count: Counter)
    ensures TailStart(pieces, 0, total, overlap, count) == 0
  {
  }

  lemma TotalBefore(pieces: seq<string>, j: nat, count: Counter)
    requires 0 < j <= |pieces| && forall p :: p in pieces ==> count(p) >= 1
    ensures Total(pieces[j - 1..], count) == count(pieces[j - 1]) + Total(pieces[j..], count) && count(pieces[j - 1]) >= 1
  {
    Suffix(pieces, j - 1);
    assert pieces[j - 1] in pieces;
  }

  /** How much is carried: the last sentence, and in front of it as many sentences as the overlap budget holds. */
  lemma OverlapIsLongest(text: string, overlap: int, count: Counter) returns (n: nat)
    requires Lawful(count) && overlap > 0 && Words(text) != []
    ensures var pieces := Sentences(text);
      && n < |pieces| && TailOverlap(text, overlap, count) == Join(pieces[n..], " ")
      && (n == |pieces| - 1 || Total(pieces[n..], count) <= overlap)
      && forall m :: 0 <= m < n ==> Total(pieces[m..], count) > overlap
  {
    hide Sentences, TailStart, Words, Join;
    var pieces := Sentences(text);
    n := TailStart(pieces, |pieces|, 0, overlap, count);
    SentencesKeepWords(text);
    TailWithin(pieces, |pieces|, 0, overlap, count);
    forall p | p in pieces ensures count(p) >= 1 { assert Words(p) != []; }
    hide Lawful;
    TailIsLongest(pieces, |pieces|, 0, overlap, count);
    forall m | 0 <= m < n ensures Total(pieces[m..], count) > overlap {
      TotalOfMore(pieces, m, n - 1, count);
    }
  }
}

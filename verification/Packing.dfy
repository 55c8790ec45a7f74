/** `pack` of app/pipeline/splitting.py: the greedy loop every splitter ends in. */
module Packing {
  import opened Text
  import opened Tokens

  /** What `pack` charges for a list of units: each pays for itself and one separator. */
  function Cost(units: seq<string>, sep: string, count: Counter): nat {
    if units == [] then 0
    else Cost(units[..|units| - 1], sep, count) + count(units[|units| - 1]) + count(sep)
  }

  /** A group `pack` may emit: a lone unit of any size, or a list charged at most `limit`. */
  predicate Fits(group: seq<string>, limit: int, sep: string, count: Counter) {
    |group| == 1 || Cost(group, sep, count) <= limit
  }

  /** How many units the first group takes, having taken `i` already. */
  function FillFrom(units: seq<string>, i: nat, limit: int, sep: string, count: Counter): (n: nat)
    requires i <= |units|
    ensures i <= n <= |units|
    decreases |units| - i
  {
    if i == |units| || Cost(units[..i + 1], sep, count) > limit then i
    else FillFrom(units, i + 1, limit, sep, count)
  }

  /** The groups the greedy rule makes, before joining. */
  function PackGroups(units: seq<string>, limit: int, sep: string, count: Counter): seq<seq<string>> {
    if units == [] then []
    else
      var n := FillFrom(units, 1, limit, sep, count);
      [units[..n]] + PackGroups(units[n..], limit, sep, count)
  }

  function JoinEach(groups: seq<seq<string>>, sep: string): (r: seq<string>)
    ensures |r| == |groups|
    ensures forall i :: 0 <= i < |groups| ==> r[i] == Join(groups[i], sep)
  {
    if groups == [] then [] else [Join(groups[0], sep)] + JoinEach(groups[1..], sep)
  }

  function Packed(units: seq<string>, limit: int, sep: string, count: Counter): seq<string> {
    JoinEach(PackGroups(units, limit, sep, count), sep)
  }

  /** The loop of `pack`, refining the recursive rule. */
  method Pack(units: seq<string>, limit: int, sep: string, count: Counter) returns (groups: seq<string>)
    ensures groups == Packed(units, limit, sep, count)
  {
    hide Join, Fits, Packed, Cost;
    groups := [];
    var current: seq<string> := [];
    var currentTokens := 0;
    ghost var whole := Packed(units, limit, sep, count);
    EmptyFirst(units);
    EmptyFirst(whole);
    NoUnits(limit, sep, count);
    for i := 0 to |units|
      invariant currentTokens == Cost(current, sep, count)
      invariant i > 0 ==> current != [] && Fits(current, limit, sep, count)
      invariant i == 0 ==> current == []
      invariant groups + Packed(current + units[i..], limit, sep, count) == whole
    {
      var unit := units[i];
      var unitTokens := count(unit) + count(sep);
      if current != [] && currentTokens + unitTokens > limit {
        PackedFlush(groups, current, units[i..], limit, sep, count);
        groups := groups + [Join(current, sep)];
        current, currentTokens := [], 0;
        EmptyFirst(units[i..]);
      }
      TakeUnit(current, units, i, limit, sep, count);
      current := current + [unit];
      currentTokens := currentTokens + unitTokens;
    }
    if current != [] {
      PackedFlush(groups, current, units[|units|..], limit, sep, count);
      groups := groups + [Join(current, sep)];
      EmptyFirst(groups);
    }
  }

  lemma NoUnits(limit: int, sep: string, count: Counter)
    ensures Packed([], limit, sep, count) == [] && Cost([], sep, count) == 0
  {
  }

  lemma TakeUnit(current: seq<string>, units: seq<string>, i: nat, limit: int, sep: string, count: Counter)
    requires i < |units|
    requires current == [] || Cost(current, sep, count) + count(units[i]) + count(sep) <= limit
    ensures Packed((current + [units[i]]) + units[i + 1..], limit, sep, count) == Packed(current + units[i..], limit, sep, count)
    ensures Cost(current + [units[i]], sep, count) == Cost(current, sep, count) + count(units[i]) + count(sep)
    ensures Fits(current + [units[i]], limit, sep, count)
  {
    Shift(current, units, i);
    assert (current + [units[i]])[..|current|] == current;
  }

  lemma PackedFlush(groups: seq<string>, current: seq<string>, rest: seq<string>, limit: int, sep: string, count: Counter)
    requires current != [] && Fits(current, limit, sep, count)
    requires rest == [] || Cost(current, sep, count) + count(rest[0]) + count(sep) > limit
    ensures (groups + [Join(current, sep)]) + Packed(rest, limit, sep, count) == groups + Packed(current + rest, limit, sep, count)
  {
    PackedStep(current, rest, limit, sep, count);
    Assoc(groups, [Join(current, sep)], Packed(rest, limit, sep, count));
  }

  lemma PackedStep(current: seq<string>, rest: seq<string>, limit: int, sep: string, count: Counter)
    requires current != [] && Fits(current, limit, sep, count)
    requires rest == [] || Cost(current, sep, count) + count(rest[0]) + count(sep) > limit
    ensures Packed(current + rest, limit, sep, count) == [Join(current, sep)] + Packed(rest, limit, sep, count)
  {
    var all := current + rest;
    assert all[..|current|] == current && all[|current|..] == rest;
    if rest != [] {
      assert all[..|current| + 1] == current + [rest[0]];
    }
    FillReaches(all, |current|, limit, sep, count);
  }

  // ------------------------------------------------------------ properties

  lemma {:induction false} CostConcat(a: seq<string>, b: seq<string>, sep: string, count: Counter)
    ensures Cost(a + b, sep, count) == Cost(a, sep, count) + Cost(b, sep, count)
  {
    if b == [] {
      assert a + b == a;
    } else {
      assert (a + b)[..|a + b| - 1] == a + b[..|b| - 1];
      CostConcat(a, b[..|b| - 1], sep, count);
    }
  }

  lemma CostPrefix(units: seq<string>, i: nat, m: nat, sep: string, count: Counter)
    requires i <= m <= |units|
    ensures Cost(units[..i], sep, count) <= Cost(units[..m], sep, count)
  {
    assert units[..m] == units[..i] + units[i..m];
    CostConcat(units[..i], units[i..m], sep, count);
  }

  lemma {:induction false} FillFromReaches(units: seq<string>, i: nat, m: nat, limit: int, sep: string, count: Counter)
    requires 1 <= i <= m <= |units| && Fits(units[..m], limit, sep, count)
    ensures FillFrom(units, i, limit, sep, count) == FillFrom(units, m, limit, sep, count)
    decreases m - i
  {
    if i < m {
      CostPrefix(units, i + 1, m, sep, count);
      FillFromReaches(units, i + 1, m, limit, sep, count);
    }
  }

  /** The first group stops no earlier than any prefix that fits. */
  lemma FillReaches(units: seq<string>, m: nat, limit: int, sep: string, count: Counter)
    requires 1 <= m <= |units| && Fits(units[..m], limit, sep, count)
    ensures FillFrom(units, 1, limit, sep, count) == FillFrom(units, m, limit, sep, count) >= m
  {
    FillFromReaches(units, 1, m, limit, sep, count);
  }

  lemma {:induction false} FillFits(units: seq<string>, i: nat, limit: int, sep: string, count: Counter)
    requires 1 <= i <= |units| && Fits(units[..i], limit, sep, count)
    ensures Fits(units[..FillFrom(units, i, limit, sep, count)], limit, sep, count)
    decreases |units| - i
  {
    if i < |units| && Cost(units[..i + 1], sep, count) <= limit {
      FillFits(units, i + 1, limit, sep, count);
    }
  }

  /** A division of `units` into consecutive non-empty groups that `pack` could emit. */
  ghost predicate Division(groups: seq<seq<string>>, units: seq<string>, limit: int, sep: string, count: Counter) {
    && Flatten(groups) == units
    && forall i :: 0 <= i < |groups| ==> groups[i] != [] && Fits(groups[i], limit, sep, count)
  }

  /** `pack` keeps every unit once and in order, in groups that fit. */
  lemma {:induction false} PackDivides(units: seq<string>, limit: int, sep: string, count: Counter)
    ensures Division(PackGroups(units, limit, sep, count), units, limit, sep, count)
  {
    if units != [] {
      var n := FillFrom(units, 1, limit, sep, count);
      FillFits(units, 1, limit, sep, count);
      PackDivides(units[n..], limit, sep, count);
      assert units == units[..n] + units[n..];
    }
  }

  /** The greedy division: no group could have taken the unit that follows it. */
  ghost predicate Greedy(groups: seq<seq<string>>, units: seq<string>, limit: int, sep: string, count: Counter) {
    && Division(groups, units, limit, sep, count)
    && forall i :: 1 <= i < |groups| ==> Cost(groups[i - 1], sep, count) + count(groups[i][0]) + count(sep) > limit
  }

  lemma {:induction false} FillStops(units: seq<string>, i: nat, limit: int, sep: string, count: Counter)
    requires i <= |units|
    ensures var n := FillFrom(units, i, limit, sep, count);
      n < |units| ==> Cost(units[..n], sep, count) + count(units[n]) + count(sep) > limit
    decreases |units| - i
  {
    if i == |units| || Cost(units[..i + 1], sep, count) > limit {
      if i < |units| { assert units[..i + 1][..i] == units[..i]; }
    } else {
      FillStops(units, i + 1, limit, sep, count);
    }
  }

  /** What `pack` makes is the one greedy division there is. */
  lemma {:induction false} PackIsGreedy(units: seq<string>, limit: int, sep: string, count: Counter)
    ensures Greedy(PackGroups(units, limit, sep, count), units, limit, sep, count)
    decreases |units|
  {
    hide Cost, Fits;
    PackDivides(units, limit, sep, count);
    if units != [] {
      var n := FillFrom(units, 1, limit, sep, count);
      FillStops(units, 1, limit, sep, count);
      PackIsGreedy(units[n..], limit, sep, count);
      GreedyMore(units, n, PackGroups(units[n..], limit, sep, count), limit, sep, count);
    }
  }

  lemma GreedyMore(units: seq<string>, n: nat, rest: seq<seq<string>>, limit: int, sep: string, count: Counter)
    requires n <= |units| && Greedy(rest, units[n..], limit, sep, count)
    requires n < |units| ==> Cost(units[..n], sep, count) + count(units[n]) + count(sep) > limit
    requires Division([units[..n]] + rest, units, limit, sep, count)
    ensures Greedy([units[..n]] + rest, units, limit, sep, count)
  {
    hide Cost, Fits;
    var groups := [units[..n]] + rest;
    forall i | 1 <= i < |groups| ensures Cost(groups[i - 1], sep, count) + count(groups[i][0]) + count(sep) > limit {
      assert groups[i] == rest[i - 1];
      if i == 1 {
        assert Flatten(rest) == rest[0] + Flatten(rest[1..]);
        assert rest[0][0] == units[n];
      } else {
        assert groups[i - 1] == rest[i - 2];
      }
    }
  }

  lemma {:induction false} GreedyIsUnique(groups: seq<seq<string>>, units: seq<string>, limit: int, sep: string, count: Counter)
    requires Greedy(groups, units, limit, sep, count)
    ensures groups == PackGroups(units, limit, sep, count)
    decreases |groups|
  {
    if groups != [] {
      var first, rest := groups[0], groups[1..];
      var m := |first|;
      GreedyTail(groups, units, limit, sep, count);
      assert units[..m] == first && units[m..] == Flatten(rest);
      GreedyIsUnique(rest, units[m..], limit, sep, count);
      GreedyFirst(groups, units, limit, sep, count);
      assert groups == [first] + rest;
    }
  }

  lemma GreedyTail(groups: seq<seq<string>>, units: seq<string>, limit: int, sep: string, count: Counter)
    requires groups != [] && Greedy(groups, units, limit, sep, count)
    ensures units == groups[0] + Flatten(groups[1..]) && groups[0] != []
    ensures Greedy(groups[1..], Flatten(groups[1..]), limit, sep, count)
  {
    hide Cost, Fits;
    var rest := groups[1..];
    forall i | 1 <= i < |rest| ensures Cost(rest[i - 1], sep, count) + count(rest[i][0]) + count(sep) > limit {
      assert rest[i - 1] == groups[i] && rest[i] == groups[i + 1];
    }
  }

  lemma GreedyFirst(groups: seq<seq<string>>, units: seq<string>, limit: int, sep: string, count: Counter)
    requires groups != [] && Greedy(groups, units, limit, sep, count)
    ensures FillFrom(units, 1, limit, sep, count) == |groups[0]|
  {
    var first, rest := groups[0], groups[1..];
    var m := |first|;
    assert units == first + Flatten(rest);
    assert units[..m] == first;
    FillReaches(units, m, limit, sep, count);
    if m < |units| {
      assert Flatten(rest) == rest[0] + Flatten(rest[1..]) && rest[0] == groups[1];
      assert units[m] == groups[1][0];
      assert units[..m + 1][..m] == units[..m];
    }
  }

  /** Fewer units never need more groups. */
  lemma {:induction false} PackMonotone(units: seq<string>, k: nat, limit: int, sep: string, count: Counter)
    requires k <= |units|
    ensures |PackGroups(units[k..], limit, sep, count)| <= |PackGroups(units, limit, sep, count)|
    decreases |units|
  {
    if k == 0 {
      assert units[0..] == units;
    } else {
      var n := FillFrom(units, 1, limit, sep, count);
      var rest := units[n..];
      if n <= k {
        PackMonotone(rest, k - n, limit, sep, count);
        assert rest[k - n..] == units[k..];
      } else {
        var later := units[k..];
        FillFits(units, 1, limit, sep, count);
        assert units[..n] == units[..k] + units[k..n];
        CostConcat(units[..k], units[k..n], sep, count);
        assert later[..n - k] == units[k..n];
        FillReaches(later, n - k, limit, sep, count);
        var m := FillFrom(later, 1, limit, sep, count);
        PackMonotone(rest, k + m - n, limit, sep, count);
        assert rest[k + m - n..] == later[m..];
      }
    }
  }

  /** Optimality: no division into emittable groups uses fewer groups than the greedy loop. */
  lemma {:induction false} PackOptimal(units: seq<string>, groups: seq<seq<string>>, limit: int, sep: string, count: Counter)
    requires Division(groups, units, limit, sep, count)
    ensures |PackGroups(units, limit, sep, count)| <= |groups|
    decreases |groups|
  {
    hide FillFrom, Cost, Fits;
    if units != [] {
      assert groups != [];
      var first, rest := groups[0], Flatten(groups[1..]);
      var m := |first|;
      assert units == first + rest;
      assert units[..m] == first && units[m..] == rest;
      FillReaches(units, m, limit, sep, count);
      var n := FillFrom(units, 1, limit, sep, count);
      PackMonotone(rest, n - m, limit, sep, count);
      assert rest[n - m..] == units[n..];
      PackOptimal(rest, groups[1..], limit, sep, count);
    }
  }

  /** Re-measuring a joined list never exceeds what `pack` charged for it. */
  lemma {:induction false} JoinMeasured(units: seq<string>, sep: string, count: Counter)
    requires Lawful(count) && units != []
    ensures count(Join(units, sep)) + count(sep) <= Cost(units, sep, count)
  {
    var n := |units|;
    if n == 1 {
      assert units[..0] == [];
    } else {
      var init, last := units[..n - 1], units[n - 1];
      JoinMeasured(init, sep, count);
      JoinAppend(init, last, sep);
      assert init + [last] == units;
      CountThree(Join(init, sep), sep, last, count);
    }
  }

  lemma CountThree(a: string, b: string, c: string, count: Counter)
    requires Lawful(count)
    ensures count(a + b + c) <= count(a) + count(b) + count(c)
  {
    var ab := a + b;
    assert count(ab + c) <= count(ab) + count(c);
  }

  /** For every lawful counter: a packed group re-measures within the limit unless it is
      one unit that was over the limit before packing. */
  lemma PackMeasured(units: seq<string>, limit: int, sep: string, count: Counter, i: nat)
    requires Lawful(count) && i < |PackGroups(units, limit, sep, count)|
    ensures var group := PackGroups(units, limit, sep, count)[i];
            || count(Packed(units, limit, sep, count)[i]) <= limit
            || (|group| == 1 && Packed(units, limit, sep, count)[i] == group[0] && group[0] in units && count(group[0]) > limit)
  {
    var groups := PackGroups(units, limit, sep, count);
    PackDivides(units, limit, sep, count);
    var group := groups[i];
    if |group| > 1 {
      JoinMeasured(group, sep, count);
    } else {
      FlattenMember(groups, group[0]);
    }
  }

  lemma PackWithin(units: seq<string>, limit: int, sep: string, count: Counter)
    requires Lawful(count) && forall i :: 0 <= i < |units| ==> count(units[i]) <= limit
    ensures forall i :: 0 <= i < |Packed(units, limit, sep, count)| ==> count(Packed(units, limit, sep, count)[i]) <= limit
  {
    forall i | 0 <= i < |Packed(units, limit, sep, count)|
      ensures count(Packed(units, limit, sep, count)[i]) <= limit
    {
      PackMeasured(units, limit, sep, count, i);
    }
  }

  lemma {:induction false} WordsJoinEach(groups: seq<seq<string>>, sep: string)
    requires AllSpace(sep) && sep != ""
    ensures WordsAll(JoinEach(groups, sep)) == WordsAll(Flatten(groups))
  {
    if groups != [] {
      WordsJoin(groups[0], sep);
      WordsJoinEach(groups[1..], sep);
      WordsAllAppend(groups[0], Flatten(groups[1..]));
    }
  }

  /** Packing over a whitespace separator loses no word. */
  lemma PackKeepsWords(units: seq<string>, limit: int, sep: string, count: Counter)
    requires AllSpace(sep) && sep != ""
    ensures WordsAll(Packed(units, limit, sep, count)) == WordsAll(units)
    ensures Packed(units, limit, sep, count) == [] <==> units == []
  {
    PackDivides(units, limit, sep, count);
    WordsJoinEach(PackGroups(units, limit, sep, count), sep);
  }
}

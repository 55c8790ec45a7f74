/** app/implementations/pgvector_store.py `hybrid_search`: two candidate rankings fused by reciprocal rank. */
module RankFusion {
  const RRF_K := 60

  /** A ranking: chunk ids, best first, no id twice. */
  ghost predicate Ranking(ids: seq<nat>) {
    forall i, j :: 0 <= i < j < |ids| ==> ids[i] != ids[j]
  }

  /** ROW_NUMBER of an id, counted from 1, or 0 when the half did not find it. */
  function Rank(ids: seq<nat>, id: nat): (r: nat)
    ensures r <= |ids| && (r > 0 <==> id in ids) && (r > 0 ==> ids[r - 1] == id)
  {
    if ids == [] then 0
    else
      var r := Rank(ids[..|ids| - 1], id);
      if r > 0 then r else if ids[|ids| - 1] == id then |ids| else 0
  }

  /** COALESCE(1.0 / (k + rank), 0.0) */
  function Share(rank: nat): real {
    if rank == 0 then 0.0 else 1.0 / (RRF_K + rank) as real
  }

  function Score(vec: seq<nat>, fts: seq<nat>, id: nat): real {
    Share(Rank(vec, id)) + Share(Rank(fts, id))
  }

  function Scores(vec: seq<nat>, fts: seq<nat>): nat -> real {
    (id: nat) => Score(vec, fts, id)
  }

  /** The FULL OUTER JOIN of the two halves. */
  function Fused(vec: seq<nat>, fts: seq<nat>): (ids: seq<nat>)
    ensures forall id :: id in ids <==> id in vec || id in fts
  {
    if fts == [] then vec
    else
      var before, last := Fused(vec, fts[..|fts| - 1]), fts[|fts| - 1];
      if last in vec then before else before + [last]
  }

  /** ORDER BY score DESC, ordinal: `a` may stand before `b`. */
  predicate Before(score: nat -> real, ordinal: nat -> nat, a: nat, b: nat) {
    score(a) > score(b) || (score(a) == score(b) && ordinal(a) <= ordinal(b))
  }

  function Insert(sorted: seq<nat>, id: nat, score: nat -> real, ordinal: nat -> nat): seq<nat> {
    if sorted == [] || Before(score, ordinal, id, sorted[0]) then [id] + sorted
    else [sorted[0]] + Insert(sorted[1..], id, score, ordinal)
  }

  function Sorted(ids: seq<nat>, score: nat -> real, ordinal: nat -> nat): seq<nat> {
    if ids == [] then [] else Insert(Sorted(ids[1..], score, ordinal), ids[0], score, ordinal)
  }

  function Search(vec: seq<nat>, fts: seq<nat>, ordinal: nat -> nat, limit: nat): seq<nat> {
    var ranked := Sorted(Fused(vec, fts), Scores(vec, fts), ordinal);
    if limit < |ranked| then ranked[..limit] else ranked
  }

  // ---------------------------------------------------------------- what a share is worth

  lemma SmallerShare(a: nat, b: nat)
    requires 0 < a < b
    ensures Share(a) > Share(b) > 0.0
  {
    var x, y := (RRF_K + a) as real, (RRF_K + b) as real;
    assert 0.0 < x < y;
    Inverse(x, y);
  }

  lemma Inverse(x: real, y: real)
    requires 0.0 < x < y
    ensures 1.0 / x > 1.0 / y > 0.0
  {
    var p, q := 1.0 / x, 1.0 / y;
    assert p * x == 1.0 && q * y == 1.0 && p > 0.0 && q > 0.0;
    assert p - q == p * (q * y) - q * (p * x) == (y - x) * (p * q);
  }

  /** A chunk no worse in both halves never scores lower, and scores higher when it is better in one. */
  lemma BetterRanksScoreHigher(vec: seq<nat>, fts: seq<nat>, a: nat, b: nat)
    requires NoWorse(Rank(vec, a), Rank(vec, b)) && NoWorse(Rank(fts, a), Rank(fts, b))
    ensures Score(vec, fts, a) >= Score(vec, fts, b)
    ensures Rank(vec, a) != Rank(vec, b) || Rank(fts, a) != Rank(fts, b) ==> Score(vec, fts, a) > Score(vec, fts, b)
  {
    NoWorseShare(Rank(vec, a), Rank(vec, b));
    NoWorseShare(Rank(fts, a), Rank(fts, b));
  }

  predicate NoWorse(a: nat, b: nat) {
    b == 0 || 0 < a <= b
  }

  lemma NoWorseShare(a: nat, b: nat)
    requires NoWorse(a, b)
    ensures Share(a) >= Share(b) && (a != b ==> Share(a) > Share(b))
  {
    SmallerShare(if a == 0 then 1 else a, a + b + 2);
    if 0 < a < b { SmallerShare(a, b); }
  }

  /** The score of a chunk: 1/61 for the first place in a half, 1/62 for the second and so on, added up over the halves that
      found it. */
  lemma ScoreIs(vec: seq<nat>, fts: seq<nat>, id: nat)
    requires Ranking(vec) && Ranking(fts)
    ensures forall i, j :: 0 <= i < |vec| && 0 <= j < |fts| && vec[i] == id == fts[j] ==> Score(vec, fts, id) == 1.0 / (61 + i) as real + 1.0 / (61 + j) as real
    ensures forall i :: 0 <= i < |vec| && vec[i] == id && id !in fts ==> Score(vec, fts, id) == 1.0 / (61 + i) as real
    ensures forall j :: 0 <= j < |fts| && fts[j] == id && id !in vec ==> Score(vec, fts, id) == 1.0 / (61 + j) as real
    ensures id !in vec && id !in fts ==> Score(vec, fts, id) == 0.0
  {
    if i :| 0 <= i < |vec| && vec[i] == id { RankAt(vec, i); }
    if j :| 0 <= j < |fts| && fts[j] == id { RankAt(fts, j); }
    hide Rank, Ranking;
  }

  /** Found by both halves. */
  ghost predicate Both(vec: seq<nat>, fts: seq<nat>, id: nat) {
    id in vec && id in fts
  }

  /** Found by exactly one half. */
  ghost predicate OnlyOne(vec: seq<nat>, fts: seq<nat>, id: nat) {
    (id in vec) != (id in fts)
  }

  lemma BothBeatOne(vec: seq<nat>, fts: seq<nat>, a: nat, b: nat)
    requires |vec| <= 60 && |fts| <= 60 && Both(vec, fts, a) && OnlyOne(vec, fts, b)
    ensures Score(vec, fts, a) > Score(vec, fts, b)
  {
    SharesAtEnds();
    NoWorseShare(Rank(vec, a), 60);
    NoWorseShare(Rank(fts, a), 60);
    NoWorseShare(1, Rank(vec, b));
    NoWorseShare(1, Rank(fts, b));
  }

  lemma SharesAtEnds()
    ensures Share(0) == 0.0 && Share(1) == 1.0 / 61.0 && Share(60) == 1.0 / 120.0 && Share(64) == 1.0 / 124.0
    ensures Share(60) + Share(60) > Share(1) > Share(64) + Share(64)
  {
  }

  /** What each half may contribute to a result of at most `limit` chunks: four times as many, or 20. */
  ghost predicate Admitted(ids: seq<nat>, limit: nat) {
    |ids| <= 20 || |ids| <= 4 * limit
  }

  ghost predicate AgreementWins(limit: nat) {
    forall vec, fts, a, b ::
      Ranking(vec) && Ranking(fts) && Admitted(vec, limit) && Admitted(fts, limit) && Both(vec, fts, a) && OnlyOne(vec, fts, b) ==>
        Score(vec, fts, a) > Score(vec, fts, b)
  }

  /** The exact threshold. A chunk found by both halves outranks every chunk found by only one, for all
      rankings the pool admits, exactly when at most 15 results are asked for. */
  lemma AgreementWinsIff(limit: nat)
    ensures AgreementWins(limit) <==> limit <= 15
  {
    if limit <= 15 {
      forall vec, fts, a, b | Admitted(vec, limit) && Admitted(fts, limit) && Both(vec, fts, a) && OnlyOne(vec, fts, b)
        ensures Score(vec, fts, a) > Score(vec, fts, b)
      {
        BothBeatOne(vec, fts, a, b);
      }
    } else {
      var vec, fts := seq(64, i => i), seq(64, i => if i == 63 then 63 else i + 100);
      RankAt(vec, 63);
      RankAt(fts, 63);
      RankAt(vec, 0);
      SharesAtEnds();
      assert vec[63] == 63 && fts[63] == 63 && vec[0] == 0;
      assert 0 !in fts;
      assert Both(vec, fts, 63) && OnlyOne(vec, fts, 0);
      assert Score(vec, fts, 63) < Score(vec, fts, 0);
    }
  }

  lemma {:induction false} RankAt(ids: seq<nat>, i: nat)
    requires Ranking(ids) && i < |ids|
    ensures Rank(ids, ids[i]) == i + 1
  {
    var r := Rank(ids, ids[i]);
    assert ids[r - 1] == ids[i];
  }

  // ---------------------------------------------------------------- the result

  lemma {:induction false} InsertKeeps(sorted: seq<nat>, id: nat, score: nat -> real, ordinal: nat -> nat)
    requires InOrder(sorted, score, ordinal)
    ensures var r := Insert(sorted, id, score, ordinal); multiset(r) == multiset(sorted) + multiset{id} && InOrder(r, score, ordinal)
  {
    hide InOrder;
    if sorted != [] && !Before(score, ordinal, id, sorted[0]) {
      var tail := sorted[1..];
      var rest := Insert(tail, id, score, ordinal);
      assert sorted == [sorted[0]] + tail;
      TailInOrder(sorted, score, ordinal);
      InsertKeeps(tail, id, score, ordinal);
      FirstOfInserted(sorted[0], tail, id, rest, score, ordinal);
      LeadsInOrder(sorted[0], rest, score, ordinal);
    } else if sorted != [] {
      TailInOrder(sorted, score, ordinal);
      forall x | x in sorted ensures Before(score, ordinal, id, x) {
        assert x == sorted[0] || x in sorted[1..];
      }
      LeadsInOrder(id, sorted, score, ordinal);
    } else {
      LeadsInOrder(id, [], score, ordinal);
    }
  }

  lemma TailInOrder(sorted: seq<nat>, score: nat -> real, ordinal: nat -> nat)
    requires sorted != [] && InOrder(sorted, score, ordinal)
    ensures InOrder(sorted[1..], score, ordinal) && forall x :: x in sorted[1..] ==> Before(score, ordinal, sorted[0], x)
  {
  }

  lemma LeadsInOrder(first: nat, rest: seq<nat>, score: nat -> real, ordinal: nat -> nat)
    requires InOrder(rest, score, ordinal) && forall x :: x in rest ==> Before(score, ordinal, first, x)
    ensures InOrder([first] + rest, score, ordinal)
  {
  }

  lemma FirstOfInserted(first: nat, tail: seq<nat>, id: nat, rest: seq<nat>, score: nat -> real, ordinal: nat -> nat)
    requires multiset(rest) == multiset(tail) + multiset{id} && !Before(score, ordinal, id, first)
    requires forall x :: x in tail ==> Before(score, ordinal, first, x)
    ensures forall x :: x in rest ==> Before(score, ordinal, first, x)
  {
    forall x | x in rest ensures Before(score, ordinal, first, x) {
      assert x in multiset(rest);
      assert x == id || x in multiset(tail);
    }
  }

  /** The higher score first, and among equal scores the earlier chunk. */
  ghost predicate BestFirst(ids: seq<nat>, score: nat -> real, ordinal: nat -> nat) {
    forall i, j :: 0 <= i < j < |ids| ==>
      score(ids[i]) > score(ids[j]) || (score(ids[i]) == score(ids[j]) && ordinal(ids[i]) <= ordinal(ids[j]))
  }

  lemma OrderIsBestFirst(ids: seq<nat>, score: nat -> real, ordinal: nat -> nat)
    requires InOrder(ids, score, ordinal)
    ensures BestFirst(ids, score, ordinal)
  {
    forall i, j | 0 <= i < j < |ids|
      ensures score(ids[i]) > score(ids[j]) || (score(ids[i]) == score(ids[j]) && ordinal(ids[i]) <= ordinal(ids[j]))
    {
      assert Before(score, ordinal, ids[i], ids[j]);
    }
  }

  ghost predicate InOrder(ids: seq<nat>, score: nat -> real, ordinal: nat -> nat) {
    forall i, j :: 0 <= i < j < |ids| ==> Before(score, ordinal, ids[i], ids[j])
  }

  lemma {:induction false} SortedKeeps(ids: seq<nat>, score: nat -> real, ordinal: nat -> nat)
    ensures var r := Sorted(ids, score, ordinal); multiset(r) == multiset(ids) && InOrder(r, score, ordinal)
  {
    if ids != [] {
      SortedKeeps(ids[1..], score, ordinal);
      InsertKeeps(Sorted(ids[1..], score, ordinal), ids[0], score, ordinal);
      assert ids == [ids[0]] + ids[1..];
    }
  }

  lemma {:induction false} FusedHasNoRepeats(vec: seq<nat>, fts: seq<nat>)
    requires Ranking(vec) && Ranking(fts)
    ensures Ranking(Fused(vec, fts))
  {
    if fts != [] {
      var n := |fts| - 1;
      FusedHasNoRepeats(vec, fts[..n]);
      var before := Fused(vec, fts[..n]);
      if fts[n] !in vec {
        assert fts[n] !in fts[..n];
        forall i | 0 <= i < |before| ensures before[i] != fts[n] {
          assert before[i] in before;
        }
      }
    }
  }

  function Elements(ids: seq<nat>): set<nat> {
    set id | id in ids
  }

  lemma {:induction false} RankingSize(ids: seq<nat>)
    requires Ranking(ids)
    ensures |Elements(ids)| == |ids|
  {
    if ids != [] {
      var n := |ids| - 1;
      RankingSize(ids[..n]);
      assert ids[n] !in Elements(ids[..n]);
      assert Elements(ids) == Elements(ids[..n]) + {ids[n]};
    }
  }

  lemma {:induction false} CountedOnce(ids: seq<nat>)
    ensures Ranking(ids) <==> forall id :: multiset(ids)[id] <= 1
  {
    if ids != [] {
      var n := |ids| - 1;
      CountedOnce(ids[..n]);
      assert ids == ids[..n] + [ids[n]];
      assert multiset(ids) == multiset(ids[..n]) + multiset{ids[n]};
      if Ranking(ids) {
        assert ids[n] !in ids[..n];
        assert ids[n] !in multiset(ids[..n]);
      } else if Ranking(ids[..n]) {
        var i :| 0 <= i < n && ids[i] == ids[n];
        assert ids[n] == ids[..n][i] && ids[n] in multiset(ids[..n]);
        assert multiset(ids)[ids[n]] > 1;
      } else {
        var id :| multiset(ids[..n])[id] > 1;
        assert multiset(ids)[id] > 1;
      }
    }
  }

  lemma SortedIsRanking(ids: seq<nat>, score: nat -> real, ordinal: nat -> nat)
    requires Ranking(ids)
    ensures var r := Sorted(ids, score, ordinal);
      Ranking(r) && InOrder(r, score, ordinal) && |r| == |ids| && forall id :: id in r <==> id in ids
  {
    var r := Sorted(ids, score, ordinal);
    SortedKeeps(ids, score, ordinal);
    CountedOnce(ids);
    CountedOnce(r);
    assert |r| == |multiset(r)| == |multiset(ids)| == |ids|;
    forall id ensures id in r <==> id in ids {
      assert id in r <==> id in multiset(r);
      assert id in ids <==> id in multiset(ids);
    }
  }

  lemma PrefixIsBest(all: seq<nat>, n: nat, score: nat -> real, ordinal: nat -> nat, a: nat, b: nat)
    requires InOrder(all, score, ordinal) && n <= |all| && a in all[..n] && b in all && b !in all[..n]
    ensures Before(score, ordinal, a, b)
  {
    assert all == all[..n] + all[n..];
    var i :| 0 <= i < n && all[..n][i] == a;
    var j :| 0 <= j < |all| - n && all[n..][j] == b;
    assert all[i] == a && all[n + j] == b;
  }

  /** What `hybrid_search` returns: the best of what either half found, each chunk once, in order, as many as
      were asked for or found, and nothing left out would stand before anything returned. */
  lemma SearchReturnsTheBest(vec: seq<nat>, fts: seq<nat>, ordinal: nat -> nat, limit: nat)
    requires Ranking(vec) && Ranking(fts)
    ensures var r, found, score := Search(vec, fts, ordinal, limit), Elements(vec + fts), Scores(vec, fts);
      && Ranking(r) && BestFirst(r, score, ordinal)
      && |r| == (if limit < |found| then limit else |found|)
      && (forall id :: id in r ==> id in found)
      && (forall a, b :: a in r && b in found && b !in r ==> score(a) > score(b) || (score(a) == score(b) && ordinal(a) <= ordinal(b)))
  {
    var score := Scores(vec, fts);
    var ids := Fused(vec, fts);
    var all := Sorted(ids, score, ordinal);
    FusedHasNoRepeats(vec, fts);
    SortedIsRanking(ids, score, ordinal);
    RankingSize(ids);
    assert Elements(ids) == Elements(vec + fts);
    var n := if limit < |all| then limit else |all|;
    assert Search(vec, fts, ordinal, limit) == all[..n];
    hide Sorted, Fused, Scores, Search;
    OrderIsBestFirst(all[..n], score, ordinal);
    hide InOrder, BestFirst;
    forall a, b | a in all[..n] && b in Elements(vec + fts) && b !in all[..n]
      ensures score(a) > score(b) || (score(a) == score(b) && ordinal(a) <= ordinal(b))
    {
      PrefixIsBest(all, n, score, ordinal, a, b);
    }
  }

  /** So with at most 15 results, nothing found by only one half displaces a chunk both halves agree on. */
  lemma AgreementIsNotDisplaced(vec: seq<nat>, fts: seq<nat>, ordinal: nat -> nat, limit: nat, a: nat, b: nat)
    requires Ranking(vec) && Ranking(fts) && Admitted(vec, limit) && Admitted(fts, limit) && limit <= 15
    requires Both(vec, fts, a) && b in Search(vec, fts, ordinal, limit) && !Both(vec, fts, b)
    ensures a in Search(vec, fts, ordinal, limit)
  {
    var r, score := Search(vec, fts, ordinal, limit), Scores(vec, fts);
    SearchReturnsTheBest(vec, fts, ordinal, limit);
    assert b in Elements(vec + fts) && a in Elements(vec + fts);
    BothBeatOne(vec, fts, a, b);
    assert score(b) < score(a);
    hide Search, Scores, Score, BestFirst, Ranking, Elements;
    assert a !in r ==> score(b) >= score(a);
  }
}

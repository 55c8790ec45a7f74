/** Where `SENTENCE` of app/pipeline/splitting.py cuts a text, without its matcher: between two stretches of text, exactly
    when the first ends a sentence and the second can begin one, or a blank line lies between. */
module SentenceCuts {
  import opened Text
  import opened Tokens
  import opened Packing
  import opened Procedures
  import opened Splitting

  // ---------------------------------------------------------------- matches in longer texts

  lemma SpaceEndShift(p: string, b: string, i: nat)
    requires i <= |b|
    ensures SpaceEnd(p + b, |p| + i) == |p| + SpaceEnd(b, i)
    decreases |b| - i
  {
    if i < |b| {
      assert (p + b)[|p| + i] == b[i];
      SpaceEndShift(p, b, i + 1);
    }
  }

  lemma NewlineEndShift(p: string, b: string, i: nat)
    requires i <= |b|
    ensures NewlineEnd(p + b, |p| + i) == |p| + NewlineEnd(b, i)
    decreases |b| - i
  {
    if i < |b| {
      assert (p + b)[|p| + i] == b[i];
      NewlineEndShift(p, b, i + 1);
    }
  }

  predicate EndsSentence(p: string) {
    p != "" && p[|p| - 1] in {'.', '!', '?'}
  }

  lemma CutBehind(s: string, n: nat, b: string, i: nat)
    requires i < |b| && |s| == n + |b| && (forall k :: 0 <= k < |b| ==> s[n + k] == b[k]) && (n > 0 ==> s[n - 1] !in {'.', '!', '?'})
    requires SpaceEnd(s, n + i) == n + SpaceEnd(b, i) && NewlineEnd(s, n + i) == n + NewlineEnd(b, i)
    ensures CutEnd(s, n + i) == n + CutEnd(b, i)
  {
    hide SpaceEnd, NewlineEnd, IsSpace, OpensSentence;
    var e := SpaceEnd(b, i);
    assert e < |b| ==> s[n + e] == b[e];
    assert i > 0 ==> s[n + (i - 1)] == b[i - 1];
    assert s[n + i] == b[i];
    assert i + 1 < |b| ==> s[n + (i + 1)] == b[i + 1];
  }

  /** Behind text that ends no sentence, matches are what they were. */
  lemma CutShift(p: string, b: string, i: nat)
    requires i < |b| && !EndsSentence(p)
    ensures CutEnd(p + b, |p| + i) == |p| + CutEnd(b, i)
  {
    hide *;
    SpaceEndShift(p, b, i);
    NewlineEndShift(p, b, i);
    Behind(p, b);
    CutBehind(p + b, |p|, b, i);
  }

  lemma Behind(p: string, b: string)
    requires !EndsSentence(p)
    ensures |p + b| == |p| + |b| && (forall k :: 0 <= k < |b| ==> (p + b)[|p| + k] == b[k])
    ensures |p| > 0 ==> (p + b)[|p| - 1] !in {'.', '!', '?'}
  {
  }

  lemma {:induction false} PiecesShift(p: string, b: string, start: nat, i: nat)
    requires start <= i <= |b| && !EndsSentence(p)
    ensures PiecesFrom(p + b, |p| + start, |p| + i) == PiecesFrom(b, start, i)
    decreases |b| - i
  {
    hide CutEnd, EndsSentence;
    if i == |b| {
      assert (p + b)[|p| + start..] == b[start..];
    } else {
      CutShift(p, b, i);
      assert (p + b)[|p| + start..|p| + i] == b[start..i];
      if CutEnd(b, i) > i {
        PiecesShift(p, b, CutEnd(b, i), CutEnd(b, i));
      } else {
        PiecesShift(p, b, start, i + 1);
      }
    }
  }

  lemma SpaceEndInside(a: string, more: string, i: nat)
    requires i < |a| && !IsSpace(a[|a| - 1])
    ensures SpaceEnd(a + more, i) == SpaceEnd(a, i) < |a|
    decreases |a| - i
  {
    assert (a + more)[i] == a[i];
    hide IsSpace;
    if IsSpace(a[i]) { SpaceEndInside(a, more, i + 1); }
  }

  lemma NewlineEndInside(a: string, more: string, i: nat)
    requires i < |a| && !IsSpace(a[|a| - 1])
    ensures NewlineEnd(a + more, i) == NewlineEnd(a, i) < |a|
    decreases |a| - i
  {
    assert (a + more)[i] == a[i];
    assert a[i] == '\n' ==> IsSpace(a[i]);
    hide IsSpace;
    if a[i] == '\n' { NewlineEndInside(a, more, i + 1); }
  }

  /** Before the last character of a text, matches are what they were. */
  lemma CutInside(a: string, more: string, i: nat)
    requires i < |a| && !IsSpace(a[|a| - 1])
    ensures CutEnd(a + more, i) == CutEnd(a, i) < |a|
  {
    SpaceEndInside(a, more, i);
    NewlineEndInside(a, more, i);
    assert a[i] == '\n' ==> IsSpace(a[i]);
    hide SpaceEnd, NewlineEnd, IsSpace, OpensSentence;
    assert forall k :: 0 <= k < |a| ==> (a + more)[k] == a[k];
  }

  lemma {:induction false} TrimmedAppend(xs: seq<string>, ys: seq<string>)
    ensures Trimmed(xs + ys) == Trimmed(xs) + Trimmed(ys)
  {
    hide Strip;
    if xs == [] {
      EmptyFirst(ys);
    } else {
      assert (xs + ys)[1..] == xs[1..] + ys;
      TrimmedAppend(xs[1..], ys);
    }
  }

  lemma NoCut(s: string, i: nat)
    requires i < |s| && !IsSpace(s[i])
    ensures CutEnd(s, i) == i
  {
    assert SpaceEnd(s, i) == i;
  }

  lemma {:induction false} PiecesSkip(s: string, start: nat, i: nat, n: nat)
    requires start <= i <= n <= |s|
    requires forall k :: i <= k < n ==> CutEnd(s, k) == k
    ensures PiecesFrom(s, start, i) == PiecesFrom(s, start, n)
    decreases n - i
  {
    hide CutEnd;
    if i < n { PiecesSkip(s, start, i + 1, n); }
  }

  lemma TrimmedCons(p: string, rest: seq<string>)
    requires Edged(p)
    ensures Trimmed([p] + rest) == [p] + Trimmed(rest)
  {
    StripOf(p);
    hide Strip;
    assert ([p] + rest)[1..] == rest;
  }

  /** One word is one sentence. */
  lemma OneSentence(x: string)
    requires Solid(x)
    ensures Sentences(x) == [x]
  {
    forall k | 0 <= k < |x| ensures CutEnd(x, k) == k { NoCut(x, k); }
    hide CutEnd;
    PiecesSkip(x, 0, 0, |x|);
    EmptyFirst(x);
    TrimmedCons(x, []);
    EmptyFirst([x]);
  }

  // ---------------------------------------------------------------- whitespace around a text

  lemma BlankHead(g: string, x: string)
    requires AllSpace(g)
    ensures Strip(g + x) == Strip(x)
  {
    hide IsSpace, Words, LStrip, RStrip, Strip;
    WordsStrip(x);
    if Words(x) == [] {
      BlankIsSpace(x);
      StripOfSpace(x);
      StripOfSpace(g + x);
    } else {
      var l, r := StripParts(x);
      assert g + x == (g + l) + Strip(x) + r;
      SpaceAround(g + l, Strip(x), r);
    }
  }

  lemma SpaceBack(x: string, g: string)
    requires AllSpace(g)
    ensures Strip(x + g) == Strip(x)
  {
    WordsOfSpace(g);
    hide *;
    BlankTail(x, g);
  }

  lemma NoneLeft(parts: seq<string>)
    requires WordsAll(parts) == [] && forall p :: p in parts ==> Words(p) != []
    ensures parts == []
  {
    hide Words;
  }

  /** Pieces of whitespace leave no sentence. */
  lemma NoSentenceInSpace(s: string, start: nat, i: nat)
    requires start <= i <= |s| && AllSpace(s[start..])
    ensures Trimmed(PiecesFrom(s, start, i)) == []
  {
    WordsOfSpace(s[start..]);
    hide PiecesFrom, Words, IsSpace, Trimmed;
    var parts := PiecesFrom(s, start, i);
    WordsPieces(s, start, i);
    WordsTrimmed(parts);
    TrimmedNotBlank(parts);
    NoneLeft(Trimmed(parts));
  }

  lemma TrimmedFirst(x: string, y: string, rest: seq<string>)
    requires Strip(x) == Strip(y)
    ensures Trimmed([x] + rest) == Trimmed([y]) + Trimmed(rest)
  {
    hide Strip;
    assert ([x] + rest)[1..] == rest && [y][1..] == [];
  }

  /** A match ends before a character that is not whitespace. */
  lemma CutStops(s: string, i: nat, n: nat)
    requires i <= n <= |s| && i < |s| && (n < |s| ==> !IsSpace(s[n]))
    ensures i <= CutEnd(s, i) <= n || (n == |s| && CutEnd(s, i) <= |s|)
  {
    hide IsSpace, CutEnd;
  }

  /** Behind a match the text is cut as if it began there. */
  lemma CutAfresh(s: string, e: nat)
    requires 0 < e <= |s| && IsSpace(s[e - 1])
    ensures PiecesFrom(s, e, e) == PiecesFrom(s[e..], 0, 0)
  {
    var p, b := s[..e], s[e..];
    assert s == p + b && p[|p| - 1] == s[e - 1];
    hide PiecesFrom;
    PiecesShift(p, b, 0, 0);
  }

  /** Whitespace in front of the first piece. */
  lemma {:induction false} FrontPieces(g: string, b: string, i: nat) returns (first: string, rest: seq<string>)
    requires AllSpace(g) && i <= |b|
    ensures PiecesFrom(b, 0, i) == [first] + rest && PiecesFrom(g + b, 0, |g| + i) == [g + first] + rest
    decreases |b| - i
  {
    hide *;
    FrontSlice(g, b, i);
    if i == |b| {
      first, rest := b[0..i], [];
      LastAlone(b, 0);
      LastAlone(g + b, 0);
      EmptyFirst([first]);
      EmptyFirst([g + first]);
    } else {
      CutShift(g, b, i);
      PiecesStep(b, 0, i);
      PiecesStep(g + b, 0, |g| + i);
      var e := CutEnd(b, i);
      if e > i {
        first, rest := b[0..i], PiecesFrom(b, e, e);
        PiecesShift(g, b, e, e);
      } else {
        first, rest := FrontPieces(g, b, i + 1);
      }
    }
  }

  lemma FrontSlice(g: string, b: string, i: nat)
    requires AllSpace(g) && i <= |b|
    ensures !EndsSentence(g) && (g + b)[0..|g| + i] == g + b[0..i] && (g + b)[0..] == g + b && b[0..] == b
    ensures i < |b| ==> CutEnd(b, i) >= i
    ensures i == |b| ==> b[0..i] == b && |g + b| == |g| + i
  {
    assert g != "" ==> IsSpace(g[|g| - 1]);
    hide IsSpace;
  }

  /** Whitespace in front of a text, scanned up to `j`. */
  lemma {:induction false} LeadingSpace(g: string, b: string, j: nat)
    requires AllSpace(g) && b != "" && !IsSpace(b[0]) && j <= |g|
    ensures Trimmed(PiecesFrom(g + b, 0, j)) == Sentences(b)
    decreases |g|, |g| - j
  {
    hide *;
    var s := g + b;
    if j == |g| {
      var first, rest := FrontPieces(g, b, 0);
      BlankHead(g, first);
      TrimmedFirst(g + first, first, rest);
      TrimmedFirst(first, first, rest);
      SentencesAre(b);
    } else {
      LeadingCut(g, b, j);
      var e := CutEnd(s, j);
      PiecesStep(s, 0, j);
      if e > j {
        CutAfresh(s, e);
        LeadingSpace(g[e..], b, 0);
        BlankPiece(g[..j], PiecesFrom(s, e, e));
      } else {
        LeadingSpace(g, b, j + 1);
      }
    }
  }

  lemma SentencesAre(b: string)
    ensures Sentences(b) == Trimmed(PiecesFrom(b, 0, 0))
  {
  }

  lemma BlankPiece(g: string, rest: seq<string>)
    requires AllSpace(g)
    ensures Trimmed([g] + rest) == Trimmed(rest)
  {
    StripOfSpace(g);
    hide Strip;
    assert ([g] + rest)[1..] == rest;
    EmptyFirst(Trimmed(rest));
  }

  lemma LeadingCut(g: string, b: string, j: nat)
    requires AllSpace(g) && b != "" && !IsSpace(b[0]) && j < |g|
    ensures var s, e := g + b, CutEnd(g + b, j);
      && j < |s| && j <= e <= |g| && s[0..j] == g[..j] && AllSpace(g[..j]) && AllSpace(g[e..]) && s[e..] == g[e..] + b && (e > j ==> IsSpace(s[e - 1]))
  {
    var s := g + b;
    assert s[|g|] == b[0];
    CutStops(s, j, |g|);
    var e := CutEnd(s, j);
    assert e > 0 ==> s[e - 1] == g[e - 1];
    hide CutEnd;
  }

  /** The scan of a text that ends in a character other than whitespace is the same, up to its end, in a longer text. */
  lemma {:induction false} PiecesInside(a: string, more: string, start: nat, i: nat) returns (init: seq<string>, k: nat)
    requires start <= i <= |a| && a != "" && !IsSpace(a[|a| - 1])
    ensures k <= |a| && PiecesFrom(a, start, i) == init + [a[k..]]
    ensures PiecesFrom(a + more, start, i) == init + PiecesFrom(a + more, k, |a|)
    decreases |a| - i
  {
    hide *;
    var s := a + more;
    if i == |a| {
      init, k := [], start;
      LastAlone(a, start);
      EmptyFirst([a[start..]]);
      EmptyFirst(PiecesFrom(s, start, |a|));
    } else {
      CutInside(a, more, i);
      InFront(a, more, start, i);
      PiecesStep(a, start, i);
      PiecesStep(s, start, i);
      var e := CutEnd(a, i);
      if e > i {
        init, k := PiecesInside(a, more, e, e);
        Assoc([a[start..i]], init, [a[k..]]);
        Assoc([a[start..i]], init, PiecesFrom(s, k, |a|));
        init := [a[start..i]] + init;
      } else {
        init, k := PiecesInside(a, more, start, i + 1);
      }
    }
  }

  lemma LastAlone(a: string, start: nat)
    requires start <= |a|
    ensures PiecesFrom(a, start, |a|) == [a[start..]]
  {
  }

  lemma InFront(a: string, more: string, start: nat, i: nat)
    requires start <= i < |a|
    ensures (a + more)[start..i] == a[start..i] && i < |a + more|
    ensures CutEnd(a, i) >= i
  {
  }

  // ---------------------------------------------------------------- the boundary

  /** Whitespace between a sentence's last character and a capital or digit, or whitespace with a blank line in it. */
  ghost predicate Boundary(before: char, gap: string, after: char) {
    && gap != "" && AllSpace(gap)
    && ((before in {'.', '!', '?'} && ('A' <= after <= 'Z' || '0' <= after <= '9')) || Contains(gap, "\n\n"))
  }

  /** There is a match at the end of `a`, or behind it in front of `j`'s blank line. */
  ghost predicate CutAhead(a: string, gap: string, j: nat, b: string) {
    || (j == 0 && EndsSentence(a) && b != "" && OpensSentence(b[0]))
    || exists n :: j <= n && OccursAt(gap, "\n\n", n)
  }

  lemma GapCut(a: string, gap: string, j: nat, b: string)
    requires AllSpace(gap) && j < |gap| && b != "" && !IsSpace(b[0]) && CutAhead(a, gap, j, b)
    ensures var s, i := a + gap + b, |a| + j;
      && i < |s| && i <= CutEnd(s, i) <= |a| + |gap|
      && (CutEnd(s, i) == i ==> CutAhead(a, gap, j + 1, b))
  {
    var s, i := a + gap + b, |a| + j;
    assert s[|a| + |gap|] == b[0];
    CutStops(s, i, |a| + |gap|);
    if CutEnd(s, i) == i {
      if j == 0 && EndsSentence(a) && OpensSentence(b[0]) {
        FirstCut(a, gap, b);
      } else {
        var n :| j <= n && OccursAt(gap, "\n\n", n);
        if n == j { NewlineCut(s, i, a, gap, j, b); }
      }
    }
  }

  lemma SpaceRun(s: string, i: nat, n: nat)
    requires i <= n < |s| && !IsSpace(s[n]) && forall k :: i <= k < n ==> IsSpace(s[k])
    ensures SpaceEnd(s, i) == n
    decreases n - i
  {
    if i < n { SpaceRun(s, i + 1, n); }
  }

  lemma FirstCut(a: string, gap: string, b: string)
    requires AllSpace(gap) && gap != "" && b != "" && !IsSpace(b[0]) && EndsSentence(a) && OpensSentence(b[0])
    ensures CutEnd(a + gap + b, |a|) == |a| + |gap|
  {
    var s := a + gap + b;
    assert forall k :: |a| <= k < |a| + |gap| ==> s[k] == gap[k - |a|];
    assert s[|a| + |gap|] == b[0] && s[|a| - 1] == a[|a| - 1];
    SpaceRun(s, |a|, |a| + |gap|);
  }

  lemma NewlineCut(s: string, i: nat, a: string, gap: string, j: nat, b: string)
    requires s == a + gap + b && i == |a| + j && OccursAt(gap, "\n\n", j)
    ensures i < |s| && CutEnd(s, i) > i
  {
    assert gap[j..j + 2] == "\n\n";
    assert s[i] == gap[j] == gap[j..j + 2][0] && s[i + 1] == gap[j + 1] == gap[j..j + 2][1];
  }

  /** Scanned up to `j` of the gap, with the piece that began at `k` still open. */
  lemma {:induction false} ThroughGap(a: string, k: nat, gap: string, j: nat, b: string)
    requires k <= |a| && AllSpace(gap) && j < |gap| && b != "" && !IsSpace(b[0]) && CutAhead(a, gap, j, b)
    ensures Trimmed(PiecesFrom(a + gap + b, k, |a| + j)) == Trimmed([a[k..]]) + Sentences(b)
    decreases |gap| - j
  {
    hide *;
    var s, i := a + gap + b, |a| + j;
    GapCut(a, gap, j, b);
    var e := CutEnd(s, i);
    PiecesStep(s, k, i);
    if e > i {
      GapParts(a, k, gap, j, b, e);
      SpaceBack(a[k..], gap[..j]);
      CutAfresh(s, e);
      LeadingSpace(gap[e - |a|..], b, 0);
      TrimmedFirst(s[k..i], a[k..], PiecesFrom(s, e, e));
    } else {
      MoreGap(a, gap, j + 1, b);
      ThroughGap(a, k, gap, j + 1, b);
    }
  }

  lemma MoreGap(a: string, gap: string, j: nat, b: string)
    requires 0 < j && CutAhead(a, gap, j, b)
    ensures j < |gap|
  {
  }

  lemma GapParts(a: string, k: nat, gap: string, j: nat, b: string, e: nat)
    requires k <= |a| && j < |gap| && |a| + j < e <= |a| + |gap| && AllSpace(gap)
    ensures var s := a + gap + b;
      && s[k..|a| + j] == a[k..] + gap[..j] && s[e..] == gap[e - |a|..] + b && IsSpace(s[e - 1])
      && AllSpace(gap[..j]) && AllSpace(gap[e - |a|..])
  {
    var s, g, h := a + gap + b, gap[..e - |a|], gap[e - |a|..];
    assert s[e - 1] == gap[e - 1 - |a|];
    hide IsSpace;
    assert s == (a + g) + (h + b);
    assert s[e..] == h + b;
    assert s[k..|a| + j] == a[k..] + gap[..j];
  }

  /** A text is cut at every boundary, and what is on either side is cut on its own. */
  lemma CutAtBoundary(a: string, gap: string, b: string)
    requires a != "" && b != "" && !IsSpace(a[|a| - 1]) && !IsSpace(b[0]) && Boundary(a[|a| - 1], gap, b[0])
    ensures Sentences(a + gap + b) == Sentences(a) + Sentences(b)
  {
    BoundaryIsCut(a, gap, b);
    hide *;
    var init, k := PiecesInside(a, gap + b, 0, 0);
    Assoc(a, gap, b);
    OverGap(a, k, gap, b);
    TrimmedFront(init, [a[k..]], PiecesFrom(a + gap + b, k, |a|), Sentences(b));
    SentencesAre(a);
    SentencesAre(a + gap + b);
  }

  lemma OverGap(a: string, k: nat, gap: string, b: string)
    requires k <= |a| && AllSpace(gap) && 0 < |gap| && b != "" && !IsSpace(b[0]) && CutAhead(a, gap, 0, b)
    ensures Trimmed(PiecesFrom(a + gap + b, k, |a|)) == Trimmed([a[k..]]) + Sentences(b)
  {
    hide *;
    ThroughGap(a, k, gap, 0, b);
    assert |a| + 0 == |a|;
  }

  lemma TrimmedFront(init: seq<string>, x: seq<string>, y: seq<string>, more: seq<string>)
    requires Trimmed(y) == Trimmed(x) + more
    ensures Trimmed(init + y) == Trimmed(init + x) + more
  {
    hide *;
    TrimmedAppend(init, x);
    TrimmedAppend(init, y);
    Assoc(Trimmed(init), Trimmed(x), more);
  }

  lemma BoundaryIsCut(a: string, gap: string, b: string)
    requires a != "" && b != "" && Boundary(a[|a| - 1], gap, b[0])
    ensures CutAhead(a, gap, 0, b) && AllSpace(gap) && 0 < |gap|
  {
  }

  // ---------------------------------------------------------------- no boundary, no cut

  /** Scanned up to `j` of whitespace at the end. */
  lemma {:induction false} TrailingSpace(a: string, k: nat, g: string, j: nat)
    requires k <= |a| && AllSpace(g) && j <= |g|
    ensures Trimmed(PiecesFrom(a + g, k, |a| + j)) == Trimmed([a[k..]])
    decreases |g| - j
  {
    hide *;
    var s, i := a + g, |a| + j;
    TrailingParts(a, k, g, j);
    SpaceBack(a[k..], g[..j]);
    EmptyFirst(Trimmed([a[k..]]));
    if j == |g| {
      LastAlone(s, k);
      TrimmedFirst(s[k..], a[k..], []);
      NothingTrimmed();
      EmptyFirst([s[k..]]);
    } else {
      PiecesStep(s, k, i);
      var e := CutEnd(s, i);
      if e > i {
        TrailingParts(a, k, g, e - |a|);
        NoSentenceInSpace(s, e, e);
        TrimmedFirst(s[k..i], a[k..], PiecesFrom(s, e, e));
      } else {
        TrailingSpace(a, k, g, j + 1);
      }
    }
  }

  lemma NothingTrimmed()
    ensures Trimmed([]) == []
  {
  }

  lemma TrailingParts(a: string, k: nat, g: string, j: nat)
    requires k <= |a| && AllSpace(g) && j <= |g|
    ensures var s, i := a + g, |a| + j;
      && s[k..i] == a[k..] + g[..j] && AllSpace(g[..j]) && AllSpace(s[i..]) && |s| == |a| + |g| && (j == |g| ==> s[k..] == s[k..i])
      && (i < |s| ==> i <= CutEnd(s, i) <= |s|)
  {
    var s, i := a + g, |a| + j;
    assert forall m :: 0 <= m < |s[i..]| ==> s[i..][m] == g[j + m];
    hide IsSpace;
  }

  /** Whitespace around a text makes no difference to its sentences. */
  lemma SurroundingsDoNotMatter(text: string)
    ensures Sentences(text) == Sentences(Strip(text))
  {
    hide *;
    var l, r := StripParts(text);
    var a := Strip(text);
    SentencesAre(text);
    SentencesAre(a);
    if a == "" {
      StripEmpty();
      BlankHasNone(text);
      BlankHasNone(a);
    } else {
      EndsSolid(a, r);
      Assoc(l, a, r);
      LeadingSpace(l, a + r, 0);
      SentencesAre(a + r);
      var init, k := PiecesInside(a, r, 0, 0);
      TrailingSpace(a, k, r, 0);
      TrimmedAppend(init, [a[k..]]);
      TrimmedAppend(init, PiecesFrom(a + r, k, |a|));
    }
  }

  lemma StripEmpty()
    ensures Strip("") == ""
  {
    StripOfSpace("");
  }

  lemma EndsSolid(a: string, r: string)
    requires a != ""
    ensures a + r != "" && (a + r)[0] == a[0] && |a| + 0 == |a|
  {
  }

  lemma BlankHasNone(text: string)
    requires Strip(text) == ""
    ensures Sentences(text) == []
  {
    WordsStrip(text);
    SentencesKeepWords(text);
  }

  lemma SpaceStart(s: string, i: nat) returns (n: nat)
    requires 0 < i < |s| && !IsSpace(s[0])
    ensures 0 < n <= i && !IsSpace(s[n - 1]) && forall k :: n <= k < i ==> IsSpace(s[k])
  {
    if IsSpace(s[i - 1]) { n := SpaceStart(s, i - 1); } else { n := i; }
  }

  lemma SpaceEndStops(s: string, i: nat)
    requires i <= |s|
    ensures SpaceEnd(s, i) < |s| ==> !IsSpace(s[SpaceEnd(s, i)])
    decreases |s| - i
  {
    hide IsSpace;
    if i < |s| && IsSpace(s[i]) { SpaceEndStops(s, i + 1); }
  }

  lemma SpaceEndsInside(s: string, i: nat)
    requires Edged(s) && i < |s|
    ensures SpaceEnd(s, i) < |s|
  {
    hide IsSpace;
    if IsSpace(s[i]) { SpaceEndInside(s, "", i); EmptyFirst(s); }
  }

  /** A match sits at a boundary. */
  lemma CutIsBoundary(s: string, i: nat) returns (n: nat, e: nat)
    requires Edged(s) && i < |s| && CutEnd(s, i) > i
    ensures 0 < n < e < |s| && !IsSpace(s[n - 1]) && !IsSpace(s[e]) && Boundary(s[n - 1], s[n..e], s[e])
  {
    NoSpaceNoCut(s, i);
    e := SpaceEnd(s, i);
    SpaceEndStops(s, i);
    SpaceEndsInside(s, i);
    n := SpaceStart(s, i);
    RunIsBoundary(s, n, i, e);
  }

  lemma NoSpaceNoCut(s: string, i: nat)
    requires Edged(s) && i < |s| && CutEnd(s, i) > i
    ensures IsSpace(s[i]) && i > 0
  {
    if !IsSpace(s[i]) { NoCut(s, i); }
  }

  lemma RunIsBoundary(s: string, n: nat, i: nat, e: nat)
    requires 0 < n <= i < e < |s| && e == SpaceEnd(s, i) && CutEnd(s, i) > i
    requires !IsSpace(s[n - 1]) && !IsSpace(s[e]) && forall k :: n <= k < e ==> IsSpace(s[k])
    ensures Boundary(s[n - 1], s[n..e], s[e])
  {
    var gap := s[n..e];
    assert AllSpace(gap);
    if s[i - 1] in {'.', '!', '?'} && OpensSentence(s[e]) {
      assert !IsSpace(s[i - 1]);
      assert i == n;
    } else {
      assert s[i] == '\n' && s[i + 1] == '\n';
      assert IsSpace('\n');
      assert i + 1 < e;
      assert gap[i - n..i - n + 2] == "\n\n";
      assert OccursAt(gap, "\n\n", i - n);
    }
  }

  /** A stripped text is one sentence exactly when it has no boundary in it. */
  lemma OneSentenceIff(text: string)
    requires Edged(text)
    ensures Sentences(text) == [text] <==> forall n, e :: 0 < n < e < |text| && !IsSpace(text[n - 1]) && !IsSpace(text[e]) ==> !Boundary(text[n - 1], text[n..e], text[e])
  {
    if n, e :| 0 < n < e < |text| && !IsSpace(text[n - 1]) && !IsSpace(text[e]) && Boundary(text[n - 1], text[n..e], text[e]) {
      BoundaryMakesTwo(text, n, e);
    } else {
      forall i | 0 <= i < |text| ensures CutEnd(text, i) == i {
        if CutEnd(text, i) > i { var n, e := CutIsBoundary(text, i); }
      }
      Uncut(text);
    }
  }

  lemma Uncut(text: string)
    requires Edged(text) && forall i :: 0 <= i < |text| ==> CutEnd(text, i) == i
    ensures Sentences(text) == [text]
  {
    hide *;
    PiecesSkip(text, 0, 0, |text|);
    LastAlone(text, 0);
    EmptyFirst(text);
    TrimmedCons(text, []);
    NothingTrimmed();
    EmptyFirst([text]);
    SentencesAre(text);
  }

  lemma BoundaryMakesTwo(text: string, n: nat, e: nat)
    requires 0 < n < e < |text| && !IsSpace(text[n - 1]) && !IsSpace(text[e]) && Boundary(text[n - 1], text[n..e], text[e])
    ensures |Sentences(text)| >= 2
  {
    var a, gap, b := text[..n], text[n..e], text[e..];
    assert text == a + gap + b;
    CutAtBoundary(a, gap, b);
    HasOne(a);
    HasOne(b);
  }

  lemma HasOne(a: string)
    requires a != "" && (!IsSpace(a[0]) || !IsSpace(a[|a| - 1]))
    ensures Sentences(a) != []
  {
    hide Words, Sentences;
    SentencesKeepWords(a);
    if Words(a) == [] { BlankIsSpace(a); }
  }
}

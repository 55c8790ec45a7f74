/** Strings as the pipeline sees them: whitespace, words, lines, joins and strips.
    Whitespace and line breaks are the sets Python's `str` methods and `\s` use. */
module Text {

  /** Concatenation of a sequence of sequences. */
  function Flatten<T>(xss: seq<seq<T>>): seq<T> {
    if xss == [] then [] else xss[0] + Flatten(xss[1..])
  }

  lemma {:induction false} FlattenAppend<T>(xss: seq<seq<T>>, yss: seq<seq<T>>)
    ensures Flatten(xss + yss) == Flatten(xss) + Flatten(yss)
  {
    if xss == [] {
      assert xss + yss == yss;
    } else {
      assert (xss + yss)[1..] == xss[1..] + yss;
      FlattenAppend(xss[1..], yss);
    }
  }

  lemma {:induction false} FlattenMember<T>(xss: seq<seq<T>>, x: T)
    ensures x in Flatten(xss) <==> exists i :: 0 <= i < |xss| && x in xss[i]
  {
    if xss != [] {
      FlattenMember(xss[1..], x);
      assert xss == [xss[0]] + xss[1..];
    }
  }

  /** Moving one element from the rest of a sequence to what was taken from it. */
  lemma Shift<T>(taken: seq<T>, xs: seq<T>, i: nat)
    requires i < |xs|
    ensures taken + xs[i..] == (taken + [xs[i]]) + xs[i + 1..]
  {
  }

  lemma InitLast<T>(xs: seq<T>, n: nat)
    requires |xs| == n + 1
    ensures xs == xs[..n] + [xs[n]]
  {
  }

  lemma Assoc<T>(a: seq<T>, b: seq<T>, c: seq<T>)
    ensures (a + b) + c == a + (b + c)
  {
  }

  lemma EmptyFirst<T>(a: seq<T>)
    ensures [] + a == a && a + [] == a && a[0..] == a
  {
  }

  ghost predicate IsSuffix<T>(xs: seq<T>, ys: seq<T>) {
    |xs| <= |ys| && xs == ys[|ys| - |xs|..]
  }

  predicate OccursAt(s: string, t: string, i: nat) {
    i <= |s| - |t| && s[i..i + |t|] == t
  }

  ghost predicate Contains(s: string, t: string) {
    exists i :: OccursAt(s, t, i)
  }

  lemma ContainsMiddle(a: string, t: string, b: string)
    ensures Contains(a + t + b, t)
  {
    assert OccursAt(a + t + b, t, |a|);
  }

  predicate IsSpace(c: char) {
    var n := c as int;
    || 9 <= n <= 13 || 28 <= n <= 32 || n == 0x85 || n == 0xA0
    || n == 0x1680 || 0x2000 <= n <= 0x200A || n == 0x2028 || n == 0x2029
    || n == 0x202F || n == 0x205F || n == 0x3000
  }

  /** The characters `str.isspace` accepts, one by one. */
  lemma SpaceIs(c: char)
    ensures IsSpace(c) <==> c as int in {
      9, 10, 11, 12, 13, 28, 29, 30, 31, 32, 0x85, 0xA0, 0x1680, 0x2000, 0x2001, 0x2002, 0x2003, 0x2004, 0x2005, 0x2006, 0x2007, 0x2008,
      0x2009, 0x200A, 0x2028, 0x2029, 0x202F, 0x205F, 0x3000}
  {
  }

  /** The characters `str.splitlines` breaks at; each is whitespace. */
  predicate IsLineBreak(c: char)
    ensures IsLineBreak(c) ==> IsSpace(c)
  {
    var n := c as int;
    10 <= n <= 13 || 28 <= n <= 30 || n == 0x85 || n == 0x2028 || n == 0x2029
  }

  ghost predicate AllSpace(s: string) {
    forall i :: 0 <= i < |s| ==> IsSpace(s[i])
  }

  /** A whitespace-free, non-empty string, as every word is. */
  ghost predicate Solid(w: string) {
    w != "" && forall i :: 0 <= i < |w| ==> !IsSpace(w[i])
  }

  predicate EndsOpen(s: string) {
    s == "" || IsSpace(s[|s| - 1])
  }

  predicate StartsOpen(s: string) {
    s == "" || IsSpace(s[0])
  }

  // ---------------------------------------------------------------- words

  /** The words of the first `n` characters. */
  function WordsTo(s: string, n: nat): seq<string>
    requires n <= |s|
  {
    if n == 0 then []
    else
      var ws, c := WordsTo(s, n - 1), s[n - 1];
      if IsSpace(c) then ws
      else if ws == [] || IsSpace(s[n - 2]) then ws + [[c]]
      else ws[..|ws| - 1] + [ws[|ws| - 1] + [c]]
  }

  /** The words of a text: its maximal whitespace-free runs, left to right. */
  function Words(s: string): seq<string> {
    WordsTo(s, |s|)
  }

  lemma EndsInWord(s: string)
    requires !EndsOpen(s)
    ensures Words(s) != []
  {
  }

  lemma {:induction false} WordsToSame(s: string, t: string, n: nat)
    requires n <= |s| && n <= |t| && s[..n] == t[..n]
    ensures WordsTo(s, n) == WordsTo(t, n)
  {
    hide IsSpace;
    if n > 0 {
      assert forall i :: 0 <= i < n ==> s[..n][i] == s[i] && t[..n][i] == t[i];
      assert s[..n - 1] == t[..n - 1];
      WordsToSame(s, t, n - 1);
    }
  }

  /** One more character. */
  lemma WordsStep(s: string, init: string, c: char)
    requires s == init + [c]
    ensures !IsSpace(c) && !EndsOpen(init) ==> Words(init) != []
    ensures Words(s) ==
      if IsSpace(c) then Words(init)
      else if EndsOpen(init) then Words(init) + [[c]]
      else Words(init)[..|Words(init)| - 1] + [Words(init)[|Words(init)| - 1] + [c]]
  {
    hide IsSpace;
    if !EndsOpen(init) { EndsInWord(init); }
    WordsToSame(s, init, |init|);
    assert init != "" ==> s[|s| - 2] == init[|init| - 1];
  }

  function WordsAll(parts: seq<string>): seq<string> {
    if parts == [] then [] else Words(parts[0]) + WordsAll(parts[1..])
  }

  /** Cutting next to whitespace cuts no word. */
  lemma {:induction false} WordsConcat(a: string, b: string)
    requires EndsOpen(a) || StartsOpen(b)
    ensures Words(a + b) == Words(a) + Words(b)
  {
    hide IsSpace, Words;
    if b == "" {
      NoWords();
      EmptyFirst(a);
      EmptyFirst(Words(a));
    } else {
      var b', c := b[..|b| - 1], b[|b| - 1];
      assert a + b == (a + b') + [c] && b == b' + [c];
      assert b' != "" ==> StartsOpen(b') == StartsOpen(b);
      WordsConcat(a, b');
      WordsStep(a + b, a + b', c);
      WordsStep(b, b', c);
      LastChar(a, b');
      NoWords();
      EmptyFirst(a);
      WordAdded(Words(a), Words(b'), c);
    }
  }

  lemma NoWords()
    ensures Words("") == []
  {
  }

  lemma LastChar(a: string, b: string)
    ensures EndsOpen(a + b) == if b == "" then EndsOpen(a) else EndsOpen(b)
  {
    EmptyFirst(a);
  }

  lemma WordAdded(ws: seq<string>, more: seq<string>, c: char)
    ensures (ws + more) + [[c]] == ws + (more + [[c]])
    ensures more != [] ==> |ws + more| > 0 && (ws + more)[..|ws + more| - 1] + [(ws + more)[|ws + more| - 1] + [c]]
                                         == ws + (more[..|more| - 1] + [more[|more| - 1] + [c]])
  {
  }

  lemma {:induction false} WordsOfSpace(s: string)
    requires AllSpace(s)
    ensures Words(s) == []
  {
    hide Words;
    if s != "" {
      var init := s[..|s| - 1];
      WordsOfSpace(init);
      assert s == init + [s[|s| - 1]];
      WordsStep(s, init, s[|s| - 1]);
    } else {
      NoWords();
    }
  }

  lemma WordsBetween(a: string, gap: string, b: string)
    requires AllSpace(gap) && gap != ""
    ensures Words(a + gap + b) == Words(a) + Words(b)
  {
    hide IsSpace, Words;
    assert a + gap + b == a + (gap + b);
    WordsConcat(a, gap + b);
    WordsConcat(gap, b);
    WordsOfSpace(gap);
  }

  lemma {:induction false} WordOfSolid(w: string)
    requires Solid(w)
    ensures Words(w) == [w]
  {
    hide Words, IsSpace;
    var init, c := w[..|w| - 1], w[|w| - 1];
    assert w == init + [c];
    if init != "" { WordOfSolid(init); }
    NoWords();
    WordsStep(w, init, c);
  }

  lemma {:induction false} WordsAreSolid(s: string)
    ensures forall i :: 0 <= i < |Words(s)| ==> Solid(Words(s)[i])
  {
    hide Words, IsSpace;
    if s != "" {
      var init, c := s[..|s| - 1], s[|s| - 1];
      assert s == init + [c];
      WordsAreSolid(init);
      WordsStep(s, init, c);
    } else {
      NoWords();
    }
  }

  /** Splitting text into words and splitting the words again changes nothing. */
  lemma {:induction false} WordsAllOfSolid(ws: seq<string>)
    requires forall i :: 0 <= i < |ws| ==> Solid(ws[i])
    ensures WordsAll(ws) == ws
  {
    if ws != [] {
      WordOfSolid(ws[0]);
      WordsAllOfSolid(ws[1..]);
    }
  }

  lemma {:induction false} WordsAllAppend(xs: seq<string>, ys: seq<string>)
    ensures WordsAll(xs + ys) == WordsAll(xs) + WordsAll(ys)
  {
    if xs == [] {
      assert xs + ys == ys;
    } else {
      assert (xs + ys)[1..] == xs[1..] + ys;
      WordsAllAppend(xs[1..], ys);
    }
  }

  lemma WordsAllSnoc(xs: seq<string>, x: string)
    ensures WordsAll(xs + [x]) == WordsAll(xs) + Words(x)
  {
    WordsAllAppend(xs, [x]);
    WordsAllOne(x);
  }

  lemma WordsAllOne(x: string)
    ensures WordsAll([x]) == Words(x)
  {
    assert [x][1..] == [];
  }

  lemma {:induction false} WordsAllMember(parts: seq<string>, i: nat, w: string)
    requires i < |parts| && w in Words(parts[i])
    ensures w in WordsAll(parts)
  {
    if i > 0 { WordsAllMember(parts[1..], i - 1, w); }
  }

  /** Word counts: subadditive and monotone over any concatenation. */
  lemma {:induction false} WordCountConcat(a: string, b: string)
    ensures |Words(a + b)| <= |Words(a)| + |Words(b)|
    ensures |Words(a)| <= |Words(a + b)| && |Words(b)| <= |Words(a + b)|
  {
    hide Words, IsSpace;
    NoWords();
    EmptyFirst(a);
    if b != "" {
      var b', c := b[..|b| - 1], b[|b| - 1];
      assert a + b == (a + b') + [c] && b == b' + [c];
      WordCountConcat(a, b');
      WordsStep(a + b, a + b', c);
      WordsStep(b, b', c);
      LastChar(a, b');
    }
  }

  // ---------------------------------------------------------------- join

  /** The parts with a separator between each two. */
  function Join(parts: seq<string>, sep: string): string {
    if parts == [] then ""
    else if |parts| == 1 then parts[0]
    else parts[0] + sep + Join(parts[1..], sep)
  }

  lemma {:induction false} JoinAppend(parts: seq<string>, p: string, sep: string)
    requires parts != []
    ensures Join(parts + [p], sep) == Join(parts, sep) + sep + p
  {
    if |parts| > 1 {
      assert (parts + [p])[1..] == parts[1..] + [p];
      JoinAppend(parts[1..], p, sep);
    } else {
      assert (parts + [p])[1..] == [p];
    }
  }

  /** A join over a whitespace separator keeps every word of every part. */
  lemma {:induction false} WordsJoin(parts: seq<string>, sep: string)
    requires AllSpace(sep) && sep != ""
    ensures Words(Join(parts, sep)) == WordsAll(parts)
  {
    if |parts| == 1 {
      assert parts == [parts[0]];
      WordsAllOne(parts[0]);
    } else if |parts| > 1 {
      WordsBetween(parts[0], sep, Join(parts[1..], sep));
      WordsJoin(parts[1..], sep);
    }
  }

  /** Every part sits in the join as a contiguous piece. */
  lemma {:induction false} JoinContains(parts: seq<string>, i: nat, sep: string)
    requires i < |parts|
    ensures Contains(Join(parts, sep), parts[i])
  {
    if |parts| == 1 {
      ContainsMiddle("", parts[0], "");
      assert Join(parts, sep) == "" + parts[0] + "";
    } else if i == 0 {
      ContainsMiddle("", parts[0], sep + Join(parts[1..], sep));
      assert Join(parts, sep) == "" + parts[0] + (sep + Join(parts[1..], sep));
    } else {
      var rest := Join(parts[1..], sep);
      JoinContains(parts[1..], i - 1, sep);
      var k: nat :| OccursAt(rest, parts[i], k);
      var head := parts[0] + sep;
      assert Join(parts, sep) == head + rest;
      assert Join(parts, sep)[|head| + k..|head| + k + |parts[i]|] == rest[k..k + |parts[i]|];
      assert OccursAt(Join(parts, sep), parts[i], |head| + k);
    }
  }

  // ---------------------------------------------------------------- strip

  /** First character from `i` on that is not whitespace. */
  function TextStart(s: string, i: nat): (n: nat)
    requires i <= |s|
    ensures i <= n <= |s| && (forall k :: i <= k < n ==> IsSpace(s[k])) && (n < |s| ==> !IsSpace(s[n]))
    decreases |s| - i
  {
    if i < |s| && IsSpace(s[i]) then TextStart(s, i + 1) else i
  }

  /** Just after the last character before `n` that is not whitespace. */
  function TextEnd(s: string, n: nat): (k: nat)
    requires n <= |s|
    ensures k <= n && (forall i :: k <= i < n ==> IsSpace(s[i])) && (k > 0 ==> !IsSpace(s[k - 1]))
  {
    if n > 0 && IsSpace(s[n - 1]) then TextEnd(s, n - 1) else n
  }

  function LStrip(s: string): (r: string)
    ensures |r| <= |s| && r == s[|s| - |r|..] && AllSpace(s[..|s| - |r|])
    ensures r != "" ==> !IsSpace(r[0])
  {
    s[TextStart(s, 0)..]
  }

  function RStrip(s: string): (r: string)
    ensures |r| <= |s| && r == s[..|r|] && AllSpace(s[|r|..])
    ensures r != "" ==> !IsSpace(r[|r| - 1])
  {
    s[..TextEnd(s, |s|)]
  }

  function Strip(s: string): string {
    RStrip(LStrip(s))
  }

  lemma StripParts(s: string) returns (l: string, r: string)
    ensures s == l + Strip(s) + r && AllSpace(l) && AllSpace(r)
    ensures Strip(s) != "" ==> !IsSpace(Strip(s)[0]) && !IsSpace(Strip(s)[|Strip(s)| - 1])
  {
    hide IsSpace, LStrip, RStrip, AllSpace;
    var m := LStrip(s);
    var core := RStrip(m);
    l, r := s[..|s| - |m|], m[|core|..];
    assert s == l + m;
    assert m == core + r;
    Assoc(l, core, r);
  }

  lemma WordsRStrip(s: string)
    ensures Words(RStrip(s)) == Words(s)
  {
    var r := RStrip(s);
    assert s == r + s[|r|..];
    WordsConcat(r, s[|r|..]);
    WordsOfSpace(s[|r|..]);
  }

  lemma StripBlank(s: string)
    ensures Strip(s) != "" ==> Words(Strip(s)) != []
  {
    hide IsSpace, Words;
    if Strip(s) != "" { EndsInWord(Strip(s)); }
  }

  lemma WordsStrip(s: string)
    ensures Words(Strip(s)) == Words(s)
    ensures Strip(s) == "" <==> Words(s) == []
  {
    NoWords();
    hide Words, IsSpace;
    var m := LStrip(s);
    var l := s[..|s| - |m|];
    assert s == l + m;
    WordsConcat(l, m);
    WordsOfSpace(l);
    EmptyFirst(Words(m));
    WordsRStrip(m);
    StripBlank(s);
  }

  lemma LStripIs(l: string, m: string)
    requires AllSpace(l) && (m != "" ==> !IsSpace(m[0]))
    ensures LStrip(l + m) == m
  {
    hide IsSpace;
    var n := TextStart(l + m, 0);
    assert forall k :: 0 <= k < |l| ==> (l + m)[k] == l[k];
    assert m != "" ==> (l + m)[|l|] == m[0];
  }

  lemma RStripIs(m: string, r: string)
    requires AllSpace(r) && (m != "" ==> !IsSpace(m[|m| - 1]))
    ensures RStrip(m + r) == m
  {
    hide IsSpace;
    var k := TextEnd(m + r, |m + r|);
    assert forall i :: |m| <= i < |m + r| ==> (m + r)[i] == r[i - |m|];
    assert m != "" ==> (m + r)[|m| - 1] == m[|m| - 1];
  }

  lemma LStripOver(l: string, q: string)
    requires q != "" && !IsSpace(q[0])
    ensures LStrip(l + q) == LStrip(l) + q
  {
    hide IsSpace, LStrip;
    var m := LStrip(l);
    var gap := l[..|l| - |m|];
    assert l == gap + m;
    Assoc(gap, m, q);
    assert (m + q)[0] == if m != "" then m[0] else q[0];
    LStripIs(gap, m + q);
  }

  lemma RStripOver(q: string, r: string)
    requires q != "" && !IsSpace(q[|q| - 1])
    ensures RStrip(q + r) == q + RStrip(r)
  {
    hide IsSpace, RStrip;
    var m := RStrip(r);
    var gap := r[|m|..];
    assert r == m + gap;
    Assoc(q, m, gap);
    assert (q + m)[|q + m| - 1] == if m != "" then m[|m| - 1] else q[|q| - 1];
    RStripIs(q + m, gap);
  }

  /** Stripping a text at the end strips its last part, when that holds text. */
  lemma RStripLast(q: string, b: string)
    requires Strip(b) != ""
    ensures RStrip(q + b) == q + RStrip(b) && RStrip(b) != "" && Strip(RStrip(b)) != ""
  {
    RStripHasText(b);
    hide *;
    var m, r := RStripParts(b);
    LastOf(q, m);
    Assoc(q, m, r);
    RStripIs(q + m, r);
  }

  lemma LastOf(q: string, m: string)
    requires m != ""
    ensures (q + m)[|q + m| - 1] == m[|m| - 1]
  {
  }

  lemma RStripParts(b: string) returns (m: string, r: string)
    requires RStrip(b) != ""
    ensures b == m + r && m == RStrip(b) && AllSpace(r) && !IsSpace(m[|m| - 1])
  {
    hide RStrip, IsSpace, AllSpace;
    m, r := RStrip(b), b[|RStrip(b)|..];
  }

  lemma RStripHasText(b: string)
    requires Strip(b) != ""
    ensures RStrip(b) != "" && Strip(RStrip(b)) != ""
  {
    NoWords();
    hide Words, Strip, RStrip, IsSpace;
    WordsStrip(b);
    WordsRStrip(b);
    WordsStrip(RStrip(b));
  }

  predicate Edged(m: string) {
    m != "" && !IsSpace(m[0]) && !IsSpace(m[|m| - 1])
  }

  lemma StripMiddle(p: string, m: string, q: string)
    requires Edged(m)
    ensures Strip(p + m + q) == LStrip(p) + m + RStrip(q)
  {
    hide IsSpace, LStrip, RStrip;
    assert (m + q)[0] == m[0];
    LStripOver(p, m + q);
    assert p + m + q == p + (m + q);
    StripTail(LStrip(p), m, q);
  }

  /** A text with nothing to strip. */
  lemma StripOf(m: string)
    requires Edged(m)
    ensures Strip(m) == m
  {
    NothingToStrip();
    hide *;
    StripMiddle("", m, "");
    EmptyFirst(m);
  }

  lemma StripTail(p: string, m: string, q: string)
    requires Edged(m)
    ensures RStrip(p + (m + q)) == p + m + RStrip(q)
  {
    hide IsSpace, RStrip;
    assert (p + m)[|p + m| - 1] == m[|m| - 1];
    RStripOver(p + m, q);
    assert p + (m + q) == p + m + q;
  }

  /** Stripping the whole never eats into a non-blank part of it. */
  lemma StripContains(s: string, t: string)
    requires Contains(s, t) && Words(t) != []
    ensures Contains(Strip(s), Strip(t))
  {
    WordsStrip(t);
    var i: nat :| OccursAt(s, t, i);
    OccursSplit(s, t, i);
    StripOver(s[..i], t, s[i + |t|..]);
  }

  lemma OccursSplit(s: string, t: string, i: nat)
    requires OccursAt(s, t, i)
    ensures s == s[..i] + t + s[i + |t|..]
  {
  }

  lemma StripOver(a: string, t: string, b: string)
    requires Strip(t) != ""
    ensures Contains(Strip(a + t + b), Strip(t))
  {
    hide IsSpace, LStrip, RStrip, Strip;
    var l, r := StripParts(t);
    var m, p, q := Strip(t), a + l, r + b;
    assert a + t + b == p + m + q;
    StripMiddle(p, m, q);
    ContainsMiddle(LStrip(p), m, RStrip(q));
  }

  /** Nothing to strip in front of a character that is not whitespace. */
  lemma LStripAfterSpace(l: string, q: string)
    requires AllSpace(l) && q != "" && !IsSpace(q[0])
    ensures LStrip(l + q) == q
  {
    LStripOver(l, q);
    SpaceGoes(l);
    assert "" + q == q;
  }

  lemma SpaceGoes(l: string)
    requires AllSpace(l)
    ensures LStrip(l) == ""
  {
    EmptyFirst(l);
    LStripIs(l, "");
  }

  lemma LStripFirst(a: string, q: string)
    requires Strip(a) != ""
    ensures LStrip(a + q) == LStrip(a) + q && LStrip(a) != "" && Strip(LStrip(a)) != ""
  {
    var m := LStrip(a);
    NothingToStrip();
    hide LStrip, IsSpace, RStrip;
    var l := a[..|a| - |m|];
    assert m != "";
    assert a == l + m;
    Assoc(l, m, q);
    LStripAfterSpace(l, m + q);
    LStripAfterSpace("", m);
    EmptyFirst(m);
  }

  lemma NothingToStrip()
    ensures LStrip("") == "" && RStrip("") == "" && AllSpace("")
  {
  }

  // ---------------------------------------------------------------- lines

  /** End of the line break at `i`; `\r\n` is one break. */
  function LineGap(s: string, i: nat): (next: nat)
    requires i < |s| && IsLineBreak(s[i])
    ensures i < next <= |s| && AllSpace(s[i..next])
  {
    if s[i] == '\r' && i + 1 < |s| && s[i + 1] == '\n' then i + 2 else i + 1
  }

  /** The lines of a text, scanning from `i` with the current line starting at `start`. */
  function LinesFrom(s: string, start: nat, i: nat): seq<string>
    requires start <= i <= |s|
    decreases |s| - i
  {
    if i == |s| then
      if start < i then [s[start..]] else []
    else if IsLineBreak(s[i]) then
      var next := LineGap(s, i);
      [s[start..i]] + LinesFrom(s, next, next)
    else LinesFrom(s, start, i + 1)
  }

  function Lines(s: string): seq<string> {
    LinesFrom(s, 0, 0)
  }

  lemma {:induction false} WordsLinesFrom(s: string, start: nat, i: nat)
    requires start <= i <= |s|
    ensures WordsAll(LinesFrom(s, start, i)) == Words(s[start..])
    decreases |s| - i
  {
    hide IsSpace, IsLineBreak;
    if i == |s| {
      WordsAllOne(s[start..]);
    } else if IsLineBreak(s[i]) {
      var next := LineGap(s, i);
      WordsLinesFrom(s, next, next);
      CutOut(s, start, i, next);
      WordsBetween(s[start..i], s[i..next], s[next..]);
    } else {
      WordsLinesFrom(s, start, i + 1);
    }
  }

  lemma CutOut(s: string, start: nat, i: nat, next: nat)
    requires start <= i <= next <= |s|
    ensures s[start..] == s[start..i] + s[i..next] + s[next..]
  {
  }

  /** Splitting into lines keeps every word. */
  lemma WordsLines(s: string)
    ensures WordsAll(Lines(s)) == Words(s)
  {
    WordsLinesFrom(s, 0, 0);
    assert s[0..] == s;
  }

  /** No line break inside. */
  ghost predicate BreakFree(s: string) {
    forall i :: 0 <= i < |s| ==> !IsLineBreak(s[i])
  }

  lemma {:induction false} SkipTo(s: string, start: nat, i: nat, j: nat)
    requires start <= i <= j <= |s| && forall k :: i <= k < j ==> !IsLineBreak(s[k])
    ensures LinesFrom(s, start, i) == LinesFrom(s, start, j)
    decreases j - i
  {
    if i < j { SkipTo(s, start, i + 1, j); }
  }

  lemma LinesStep(s: string, start: nat, i: nat)
    requires start <= i < |s|
    ensures IsLineBreak(s[i]) ==> LinesFrom(s, start, i) == [s[start..i]] + LinesFrom(s, LineGap(s, i), LineGap(s, i))
    ensures !IsLineBreak(s[i]) ==> LinesFrom(s, start, i) == LinesFrom(s, start, i + 1)
  {
    hide IsLineBreak, LineGap;
  }

  lemma GapShift(p: string, b: string, start: nat, i: nat)
    requires start <= i < |b|
    ensures |p| + i < |p + b| && (p + b)[|p| + i] == b[i] && (p + b)[|p| + start..|p| + i] == b[start..i]
    ensures IsLineBreak(b[i]) ==> i < LineGap(b, i) <= |b| && LineGap(p + b, |p| + i) == |p| + LineGap(b, i)
  {
    hide IsLineBreak;
    assert i + 1 < |b| ==> (p + b)[|p| + i + 1] == b[i + 1];
  }

  lemma LinesEnd(p: string, b: string, start: nat)
    requires start <= |b|
    ensures LinesFrom(p + b, |p| + start, |p| + |b|) == LinesFrom(b, start, |b|)
  {
    assert (p + b)[|p| + start..] == b[start..];
  }

  lemma {:induction false} LinesShift(p: string, b: string, start: nat, i: nat)
    requires start <= i <= |b|
    ensures LinesFrom(p + b, |p| + start, |p| + i) == LinesFrom(b, start, i)
    decreases |b| - i
  {
    hide *;
    if i == |b| {
      LinesEnd(p, b, start);
    } else {
      GapShift(p, b, start, i);
      LinesStep(b, start, i);
      LinesStep(p + b, |p| + start, |p| + i);
      if IsLineBreak(b[i]) {
        LinesShift(p, b, LineGap(b, i), LineGap(b, i));
      } else {
        LinesShift(p, b, start, i + 1);
      }
    }
  }

  /** The line breaks of `str.splitlines`, in front of `rest`: a carriage return with its line feed is one. */
  ghost predicate IsBreak(br: string, rest: string) {
    || br == "\r\n"
    || (|br| == 1 && !(br == "\r" && rest != "" && rest[0] == '\n')
        && br[0] as int in {0x0A, 0x0B, 0x0C, 0x0D, 0x1C, 0x1D, 0x1E, 0x85, 0x2028, 0x2029})
  }

  /** A text is broken at its first line break, and what follows that is divided on its own. */
  lemma LinesAtBreak(a: string, br: string, rest: string)
    requires IsBreak(br, rest) && forall i :: 0 <= i < |a| ==> !IsBreak([a[i]], "")
    ensures Lines(a + br + rest) == [a] + Lines(rest)
  {
    var s, n := a + br + rest, |a|;
    forall k | 0 <= k < n ensures !IsLineBreak(s[k]) {
      assert s[k] == a[k] == [a[k]][0] && !IsBreak([a[k]], "");
    }
    SkipTo(s, 0, 0, n);
    assert s[n] == br[0] && IsLineBreak(s[n]) && s[0..n] == a;
    assert n + 1 < |s| ==> s[n + 1] == if |br| > 1 then br[1] else rest[0];
    LinesShift(a + br, rest, 0, 0);
    assert LinesFrom(s, 0, n) == [a] + LinesFrom(s, n + |br|, n + |br|);
  }

  lemma LinesOfLine(s: string)
    requires BreakFree(s) && s != ""
    ensures Lines(s) == [s]
  {
    SkipTo(s, 0, 0, |s|);
    assert s[0..] == s;
  }

  lemma LinesOfMore(a: string, b: string)
    requires BreakFree(a)
    ensures Lines(a + "\n" + b) == [a] + Lines(b)
  {
    forall i | 0 <= i < |a| ensures !IsBreak([a[i]], "") {
      assert [a[i]][0] == a[i] && !IsLineBreak(a[i]);
    }
    LinesAtBreak(a, "\n", b);
  }

  /** A text without a line break is one line, or none when it is empty: with `LinesAtBreak`, the lines of every text. */
  lemma LinesWithoutBreak(a: string)
    requires forall i :: 0 <= i < |a| ==> !IsBreak([a[i]], "")
    ensures Lines(a) == if a == "" then [] else [a]
  {
    if a != "" {
      forall i | 0 <= i < |a| ensures !IsLineBreak(a[i]) {
        assert [a[i]][0] == a[i] && !IsBreak([a[i]], "");
      }
      LinesOfLine(a);
    }
  }

  lemma {:induction false} LinesAreBreakFree(s: string, start: nat, i: nat)
    requires start <= i <= |s| && forall k :: start <= k < i ==> !IsLineBreak(s[k])
    ensures forall l :: l in LinesFrom(s, start, i) ==> BreakFree(l)
    decreases |s| - i
  {
    if i < |s| {
      if IsLineBreak(s[i]) {
        LinesAreBreakFree(s, LineGap(s, i), LineGap(s, i));
      } else {
        LinesAreBreakFree(s, start, i + 1);
      }
    }
  }

  lemma BreakFreePart(s: string, lo: nat, hi: nat)
    requires BreakFree(s) && lo <= hi <= |s|
    ensures BreakFree(s[lo..hi])
  {
  }

  lemma StripKeepsBreakFree(s: string)
    requires BreakFree(s)
    ensures BreakFree(LStrip(s)) && BreakFree(RStrip(s))
  {
    BreakFreePart(s, |s| - |LStrip(s)|, |s|);
    BreakFreePart(s, 0, |RStrip(s)|);
  }
}

/** app/pipeline/procedures.py `step_number`: the numbers that open the steps of a procedure. The grouping and
    splitting theorems hold for every recogniser; this is the one the code uses. */
module Markers {
  import opened Text
  import opened Blocks
  import opened Procedures

  predicate IsDigit(c: char) {
    '0' <= c <= '9'
  }

  /** A character that would run on from a number. */
  predicate IsWordChar(c: char) {
    IsDigit(c) || 'a' <= c <= 'z' || 'A' <= c <= 'Z' || c == '_'
  }

  function DigitRun(s: string): (n: nat)
    ensures n <= |s| && forall i :: 0 <= i < n ==> IsDigit(s[i])
    ensures n < |s| ==> !IsDigit(s[n])
  {
    if s != "" && IsDigit(s[0]) then 1 + DigitRun(s[1..]) else 0
  }

  function Value(digits: string): nat
    requires forall i :: 0 <= i < |digits| ==> IsDigit(digits[i])
  {
    if digits == "" then 0
    else
      var last := digits[|digits| - 1];
      assert IsDigit(last);
      10 * Value(digits[..|digits| - 1]) + (last as int - '0' as int)
  }

  /** One to three digits, and what follows them. */
  function Number(s: string): Option<nat> {
    var n := DigitRun(s);
    if 1 <= n <= 3 then Some(Value(s[..n])) else None
  }

  /** Optional space, a closing sign, space, and then some text. */
  predicate Closed(s: string, signs: string) {
    var t := LStrip(s);
    t != "" && t[0] in signs && |t| > 1 && IsSpace(t[1]) && LStrip(t[1..]) != ""
  }

  /** "1. text", "1) text" or "1] text". */
  function Dotted(line: string): Option<nat> {
    if Closed(line[DigitRun(line)..], ".)]") then Number(line) else None
  }

  predicate IsStepWord(s: string)
    requires |s| == 4
  {
    (s[0] in "sS" || s[0] as int == 0x17F) && s[1] in "tT" && s[2] in "eE" && s[3] in "pP"
  }

  /** "Step 1", in any case. */
  function Named(line: string): Option<nat> {
    if |line| > 4 && IsStepWord(line[..4]) && IsSpace(line[4]) then
      var rest := LStrip(line[4..]);
      var n := DigitRun(rest);
      if n == |rest| || !IsWordChar(rest[n]) then Number(rest) else None
    else None
  }

  /** "(1) text". */
  function Parenthesised(line: string): Option<nat> {
    if line != "" && line[0] == '(' then
      var rest := LStrip(line[1..]);
      if Closed(rest[DigitRun(rest)..], ")") then Number(rest) else None
    else None
  }

  /** The step number a text opens with. Only its first line counts. */
  function StepNumber(text: string): Option<nat> {
    var lines := Lines(LStrip(text));
    if Strip(text) == "" || lines == [] then None
    else if Dotted(lines[0]).Some? then Dotted(lines[0])
    else if Named(lines[0]).Some? then Named(lines[0])
    else Parenthesised(lines[0])
  }

  // ---------------------------------------------------------------- what is recognised

  /** One to three digits. */
  ghost predicate Numeral(digits: string) {
    1 <= |digits| <= 3 && forall i :: 0 <= i < |digits| ==> '0' <= digits[i] <= '9'
  }

  /** What a numeral stands for. */
  ghost function Decimal(digits: string): int
    requires Numeral(digits)
  {
    var first := digits[0] as int - 48;
    if |digits| == 1 then first
    else if |digits| == 2 then 10 * first + (digits[1] as int - 48)
    else 100 * first + 10 * (digits[1] as int - 48) + (digits[2] as int - 48)
  }

  lemma ValueIsDecimal(digits: string)
    requires Numeral(digits)
    ensures (forall i :: 0 <= i < |digits| ==> IsDigit(digits[i])) && Value(digits) == Decimal(digits)
  {
    var n := |digits|;
    ValueOfOne(digits[..1]);
    if n > 1 { assert digits[..2][..1] == digits[..1]; }
    if n > 2 { assert digits[..3][..2] == digits[..2]; }
    assert digits[..n] == digits;
  }

  lemma ValueOfOne(digits: string)
    requires |digits| == 1 && IsDigit(digits[0])
    ensures Value(digits) == digits[0] as int - 48
  {
    assert digits[..0] == "" && Value("") == 0;
  }

  /** A numeral, a closing sign, and text after whitespace. */
  ghost predicate Signed(s: string, digits: string, gap: string, sign: char, space: string, rest: string, signs: string) {
    && s == digits + (gap + ([sign] + (space + rest)))
    && Numeral(digits) && AllSpace(gap) && sign in signs && AllSpace(space) && space != "" && rest != "" && !IsSpace(rest[0])
  }

  /** "1. text", "1) text" or "1] text", with whitespace allowed before the sign. */
  ghost predicate ReadsDotted(line: string, n: nat) {
    exists digits, gap, sign, space, rest :: Signed(line, digits, gap, sign, space, rest, ".)]") && n == Decimal(digits)
  }

  /** "Step", whitespace, and a numeral that no letter, digit or underscore runs on from. */
  ghost predicate ReadsNamed(line: string, n: nat) {
    && |line| > 4 && (line[0] in "sS" || line[0] as int == 0x17F) && line[1] in "tT" && line[2] in "eE" && line[3] in "pP" && IsSpace(line[4])
    && exists digits, rest :: Bounded(LStrip(line[4..]), digits, rest) && n == Decimal(digits)
  }

  ghost predicate Bounded(s: string, digits: string, rest: string) {
    && s == digits + rest && Numeral(digits)
    && (rest != "" ==> !('0' <= rest[0] <= '9' || 'a' <= rest[0] <= 'z' || 'A' <= rest[0] <= 'Z' || rest[0] == '_'))
  }

  /** "(1) text", with whitespace allowed inside the parentheses. */
  ghost predicate ReadsParenthesised(line: string, n: nat) {
    && line != "" && line[0] == '('
    && exists digits, gap, sign, space, rest :: Signed(LStrip(line[1..]), digits, gap, sign, space, rest, ")") && n == Decimal(digits)
  }

  /** The digits in front of anything else. */
  lemma DigitRunIs(digits: string, tail: string)
    requires forall i :: 0 <= i < |digits| ==> IsDigit(digits[i])
    requires tail != "" ==> !IsDigit(tail[0])
    ensures DigitRun(digits + tail) == |digits| && (digits + tail)[..|digits|] == digits && (digits + tail)[|digits|..] == tail
  {
    var s := digits + tail;
    assert forall i :: 0 <= i < |digits| ==> s[i] == digits[i];
    assert tail != "" ==> s[|digits|] == tail[0];
    hide DigitRun, IsDigit;
  }

  lemma NumberIs(s: string, n: nat)
    ensures Number(s) == Some(n) <==> Numeral(s[..DigitRun(s)]) && n == Decimal(s[..DigitRun(s)])
  {
    var digits := s[..DigitRun(s)];
    assert forall i :: 0 <= i < |digits| ==> IsDigit(digits[i]) && '0' <= digits[i] <= '9';
    if Numeral(digits) { ValueIsDecimal(digits); }
    hide DigitRun, IsDigit, Value, Decimal;
  }

  lemma ClosedIs(gap: string, sign: char, space: string, rest: string, signs: string)
    requires AllSpace(gap) && sign in signs && !IsSpace(sign) && AllSpace(space) && space != "" && rest != "" && !IsSpace(rest[0])
    ensures Closed(gap + ([sign] + (space + rest)), signs)
  {
    var t := [sign] + (space + rest);
    LStripIs(gap, t);
    LStripIs(space, rest);
    hide LStrip;
    assert t[1..] == space + rest && t[1] == space[0];
  }

  lemma ClosedParts(s: string, signs: string) returns (gap: string, sign: char, space: string, rest: string)
    requires Closed(s, signs)
    ensures s == gap + ([sign] + (space + rest)) && AllSpace(gap) && sign in signs
    ensures AllSpace(space) && space != "" && rest != "" && !IsSpace(rest[0])
  {
    hide LStrip, IsSpace;
    var t := LStrip(s);
    gap, sign := s[..|s| - |t|], t[0];
    rest := LStrip(t[1..]);
    space := t[1..][..|t| - 1 - |rest|];
    assert s == gap + t;
    assert t == [sign] + t[1..];
    assert t[1..] == space + rest;
    EmptyFirst(t[1..]);
    assert t[1..][0] == t[1];
  }

  lemma SignedIff(s: string, n: nat, signs: string)
    requires signs == ".)]" || signs == ")"
    ensures Closed(s[DigitRun(s)..], signs) && Number(s) == Some(n) <==>
      exists digits, gap, sign, space, rest :: Signed(s, digits, gap, sign, space, rest, signs) && n == Decimal(digits)
  {
    hide Closed, Number, DigitRun, IsDigit, IsSpace, Decimal, LStrip;
    NumberIs(s, n);
    if Closed(s[DigitRun(s)..], signs) && Number(s) == Some(n) {
      var gap, sign, space, rest := ClosedParts(s[DigitRun(s)..], signs);
      assert s == s[..DigitRun(s)] + s[DigitRun(s)..];
      assert Signed(s, s[..DigitRun(s)], gap, sign, space, rest, signs);
    }
    forall digits, gap, sign, space, rest | Signed(s, digits, gap, sign, space, rest, signs) && n == Decimal(digits)
      ensures Closed(s[DigitRun(s)..], signs) && Number(s) == Some(n)
    {
      SignedIs(s, digits, gap, sign, space, rest, signs);
    }
  }

  lemma SignedIs(s: string, digits: string, gap: string, sign: char, space: string, rest: string, signs: string)
    requires (signs == ".)]" || signs == ")") && Signed(s, digits, gap, sign, space, rest, signs)
    ensures Closed(s[DigitRun(s)..], signs) && Number(s) == Some(Decimal(digits))
  {
    var tail := gap + ([sign] + (space + rest));
    assert tail[0] == if gap != "" then gap[0] else sign;
    assert !IsSpace(sign) && !IsDigit(sign) && (gap != "" ==> !IsDigit(gap[0]));
    ValueIsDecimal(digits);
    hide Closed, Number, DigitRun, IsDigit, IsSpace, Value, Decimal, LStrip;
    DigitRunIs(digits, tail);
    ClosedIs(gap, sign, space, rest, signs);
    NumberIs(s, Decimal(digits));
  }

  lemma NamedIff(line: string, n: nat)
    ensures Named(line) == Some(n) <==> ReadsNamed(line, n)
  {
    if |line| > 4 { assert line[..4][0] == line[0] && line[..4][1] == line[1] && line[..4][2] == line[2] && line[..4][3] == line[3]; }
    hide Number, DigitRun, IsDigit, IsSpace, Decimal, LStrip, IsWordChar;
    if |line| > 4 {
      BoundedIff(LStrip(line[4..]), n);
    }
  }

  lemma BoundedIff(s: string, n: nat)
    ensures (DigitRun(s) == |s| || !IsWordChar(s[DigitRun(s)])) && Number(s) == Some(n) <==>
      exists digits, rest :: Bounded(s, digits, rest) && n == Decimal(digits)
  {
    NumberIs(s, n);
    hide Number, DigitRun, Value, Decimal;
    var d := DigitRun(s);
    assert s == s[..d] + s[d..];
    if (d == |s| || !IsWordChar(s[d])) && Number(s) == Some(n) {
      assert Bounded(s, s[..d], s[d..]);
    }
    forall digits, rest | Bounded(s, digits, rest) && n == Decimal(digits)
      ensures (d == |s| || !IsWordChar(s[d])) && Number(s) == Some(n)
    {
      DigitRunIs(digits, rest);
    }
  }

  /** Exactly which texts have a step number: those whose first line reads as one of the three markers, and the
      number is the one read. No line reads as two of them. */
  lemma StepNumberIff(text: string, n: nat)
    ensures StepNumber(text) == Some(n) <==>
      && Strip(text) != "" && Lines(LStrip(text)) != []
      && var line := Lines(LStrip(text))[0]; ReadsDotted(line, n) || ReadsNamed(line, n) || ReadsParenthesised(line, n)
  {
    hide Lines, LStrip, Strip;
    if Strip(text) != "" && Lines(LStrip(text)) != [] {
      LineIff(Lines(LStrip(text))[0], n);
    }
  }

  lemma LineIff(line: string, n: nat)
    ensures (if Dotted(line).Some? then Dotted(line) else if Named(line).Some? then Named(line) else Parenthesised(line)) == Some(n)
      <==> ReadsDotted(line, n) || ReadsNamed(line, n) || ReadsParenthesised(line, n)
  {
    hide *;
    OneFormOnly(line);
    DottedIff(line, n);
    NamedIff(line, n);
    ParenthesisedIff(line, n);
  }

  lemma DottedIff(line: string, n: nat)
    ensures Dotted(line) == Some(n) <==> ReadsDotted(line, n)
  {
    SignedIff(line, n, ".)]");
    hide Closed, Number, DigitRun, Signed, Decimal;
  }

  lemma ParenthesisedIff(line: string, n: nat)
    ensures Parenthesised(line) == Some(n) <==> ReadsParenthesised(line, n)
  {
    if line != "" { SignedIff(LStrip(line[1..]), n, ")"); }
    hide Closed, Number, DigitRun, Signed, Decimal, LStrip;
  }

  /** The first character tells the markers apart. */
  lemma OneFormOnly(line: string)
    ensures Dotted(line).Some? ==> Named(line).None? && Parenthesised(line).None?
    ensures Named(line).Some? ==> Parenthesised(line).None?
  {
    DigitFirst(line);
    WordFirst(line);
    hide Closed, LStrip, IsSpace, IsWordChar, Value, Number, DigitRun, IsStepWord, Dotted, Named;
  }

  lemma DigitFirst(line: string)
    ensures Dotted(line).Some? ==> line != "" && IsDigit(line[0])
  {
    hide Closed, LStrip, IsSpace, Value;
  }

  lemma WordFirst(line: string)
    ensures Named(line).Some? ==> line != "" && !IsDigit(line[0]) && line[0] != '('
  {
    hide LStrip, Number, DigitRun, IsWordChar;
    if |line| > 4 { assert line[..4][0] == line[0]; }
  }

  /** A numbered text reads as a marker and something after it. */
  lemma StepHasTwoWords(text: string)
    requires StepNumber(text).Some?
    ensures |Words(text)| >= 2
  {
    hide Dotted, Named, Parenthesised, Words;
    var lines := Lines(LStrip(text));
    LineHasTwoWords(lines[0]);
    hide Lines, LStrip, Strip;
    WordsOfFirst(text, lines);
  }

  lemma WordsOfFirst(text: string, lines: seq<string>)
    requires lines == Lines(LStrip(text)) && lines != []
    ensures |Words(lines[0])| <= |Words(text)|
  {
    hide Words, Lines, LStrip;
    WordsLines(LStrip(text));
    WordsInTail(text);
    assert lines == [lines[0]] + lines[1..];
    WordsAllAppend([lines[0]], lines[1..]);
    WordsAllOne(lines[0]);
  }

  lemma WordsInTail(s: string)
    ensures |Words(LStrip(s))| <= |Words(s)|
  {
    hide Words;
    var t := LStrip(s);
    assert s == s[..|s| - |t|] + t;
    WordCountConcat(s[..|s| - |t|], t);
  }

  lemma LineHasTwoWords(line: string)
    requires Dotted(line).Some? || Named(line).Some? || Parenthesised(line).Some?
    ensures |Words(line)| >= 2
  {
    hide Words, Closed, LStrip, IsSpace, IsStepWord, IsWordChar, DigitRun;
    if Dotted(line).Some? {
      ClosedHasTwoWords(line, DigitRun(line), ".)]");
    } else if Named(line).Some? {
      NamedHasTwoWords(line);
    } else {
      var rest := LStrip(line[1..]);
      ClosedHasTwoWords(rest, DigitRun(rest), ")");
      WordsInTail(line[1..]);
      assert line == line[..1] + line[1..];
      WordCountConcat(line[..1], line[1..]);
    }
  }

  lemma TwoWordsAt(s: string, a: nat, gap: nat, b: nat)
    requires a < gap < b < |s| && !IsSpace(s[a]) && IsSpace(s[gap]) && !IsSpace(s[b])
    ensures |Words(s)| >= 2
  {
    var left, mid, right := s[..gap], s[gap..gap + 1], s[gap + 1..];
    HasWord(left, a);
    HasWord(right, b - gap - 1);
    assert AllSpace(mid);
    hide Words, IsSpace;
    assert s == left + mid + right;
    WordsBetween(left, mid, right);
  }

  lemma HasWord(s: string, i: nat)
    requires i < |s| && !IsSpace(s[i])
    ensures Words(s) != []
  {
    var left := s[..i + 1];
    assert !EndsOpen(left);
    hide IsSpace;
    assert s == left + s[i + 1..];
    WordCountConcat(left, s[i + 1..]);
  }

  lemma ClosedHasTwoWords(line: string, n: nat, signs: string)
    requires n <= |line| && Closed(line[n..], signs)
    ensures |Words(line)| >= 2
  {
    ClosedShape(line[n..], signs);
    hide *;
    var a := TextAfter(line, n);
    SignThenText(line, a, LStrip(line[n..]));
  }

  lemma SignThenText(line: string, a: nat, t: string)
    requires a < |line| && line[a..] == t && |t| > 1 && !IsSpace(line[a]) && IsSpace(t[1]) && LStrip(t[1..]) != ""
    ensures |Words(line)| >= 2
  {
    hide *;
    assert line[a..][1] == line[a + 1] && line[a..][1..] == line[a + 1..];
    var b := TextAfter(line, a + 1);
    TwoWordsAt(line, a, a + 1, b);
  }

  lemma ClosedShape(s: string, signs: string)
    requires Closed(s, signs)
    ensures |LStrip(s)| > 1 && IsSpace(LStrip(s)[1]) && LStrip(LStrip(s)[1..]) != ""
  {
    hide LStrip, IsSpace;
  }

  /** Where the text after `n` starts. */
  lemma TextAfter(s: string, n: nat) returns (k: nat)
    requires n <= |s| && LStrip(s[n..]) != ""
    ensures n <= k < |s| && !IsSpace(s[k]) && s[k..] == LStrip(s[n..])
  {
    var r := LStrip(s[n..]);
    k := |s| - |r|;
    hide LStrip, IsSpace;
    assert s[k..] == s[n..][k - n..];
    assert s[k] == s[k..][0];
  }

  lemma NamedHasTwoWords(line: string)
    requires Named(line).Some?
    ensures |Words(line)| >= 2
  {
    assert IsStepWord(line[..4]) && IsSpace(line[4]);
    assert line[..4][3] in "pP" && line[3] == line[..4][3];
    NumberHasText(LStrip(line[4..]));
    assert !IsSpace(line[3]);
    var b := TextAfter(line, 4);
    hide Named, IsStepWord, LStrip, IsSpace;
    TwoWordsAt(line, 3, 4, b);
  }

  lemma NumberHasText(s: string)
    requires Number(s).Some?
    ensures s != ""
  {
  }

  /** Text after the first line never changes the step number; so a merged procedure opens with the number of
      its first step. */
  lemma FirstLineDecides(first: string, more: string)
    requires BreakFree(first) && Strip(first) != ""
    ensures StepNumber(first + "\n" + more) == StepNumber(first)
  {
    hide Dotted, Named, Parenthesised, IsSpace, LStrip, Strip, Lines;
    var m := LStrip(first);
    LStripFirst(first, "\n" + more);
    StripKeepsBreakFree(first);
    LinesOfMore(m, more);
    LinesOfLine(m);
    StillText(first, "\n" + more);
    assert first + "\n" + more == first + ("\n" + more);
    assert m + "\n" + more == m + ("\n" + more);
  }

  lemma StillText(s: string, t: string)
    requires Strip(s) != ""
    ensures Strip(s + t) != ""
  {
    hide Strip, Words;
    WordsStrip(s);
    WordsStrip(s + t);
    WordCountConcat(s, t);
  }
}

/** Code put between backtick fences, and read back as CommonMark reads it. */
module CodeFence {
  import opened Wrappers

  // ---------- fencing ----------

  function Ticks(n: nat): string {
    if n == 0 then "" else "`" + Ticks(n - 1)
  }

  /** The longest run of backticks so far, and the run at the end. */
  datatype Runs = Runs(longest: nat, current: nat)

  function Fold(code: string): Runs {
    if code == "" then Runs(0, 0)
    else
      var before, c := Fold(code[..|code| - 1]), code[|code| - 1];
      if c == '`' then Runs(Max(before.longest, before.current + 1), before.current + 1)
      else Runs(before.longest, 0)
  }

  function Max(a: nat, b: nat): nat {
    if a >= b then a else b
  }

  function TrimNewlines(code: string): string {
    if code != "" && code[|code| - 1] == '\n' then TrimNewlines(code[..|code| - 1]) else code
  }

  function FenceFor(code: string): string {
    Ticks(Max(Fold(code).longest + 1, 3))
  }

  function Fenced(code: string): string {
    FenceFor(code) + ("\n" + (TrimNewlines(code) + ("\n" + FenceFor(code))))
  }

  // ---------- reading, CommonMark 0.31.2 section 4.5 ----------

  predicate LineEnds(c: char) {
    c == '\n' || c == '\r'
  }

  /** Where the first line ends, and where the next begins: a carriage return followed by a line
      feed is one line ending. */
  function LineLength(s: string): (n: nat)
    ensures n <= |s|
    ensures n < |s| ==> LineEnds(s[n])
    ensures forall i :: 0 <= i < n ==> !LineEnds(s[i])
  {
    if s == "" || LineEnds(s[0]) then 0 else 1 + LineLength(s[1..])
  }

  function NextLine(s: string): (n: nat)
    ensures LineLength(s) <= n <= |s|
    ensures n == LineLength(s) <==> LineLength(s) == |s|
  {
    var n := LineLength(s);
    if n == |s| then n
    else if s[n] == '\r' && n + 1 < |s| && s[n + 1] == '\n' then n + 2
    else n + 1
  }

  function LeadingTicks(s: string): (n: nat)
    ensures n <= |s| && forall i :: 0 <= i < n ==> s[i] == '`'
    ensures n < |s| ==> s[n] != '`'
  {
    if s != "" && s[0] == '`' then 1 + LeadingTicks(s[1..]) else 0
  }

  /** Up to three spaces of indentation are skipped. */
  function Indent(line: string, most: nat): (n: nat)
    ensures n <= |line|
  {
    if most > 0 && line != "" && line[0] == ' ' then 1 + Indent(line[1..], most - 1) else 0
  }

  predicate OnlyBlanks(s: string) {
    forall i :: 0 <= i < |s| ==> s[i] == ' ' || s[i] == '\t'
  }

  /** A closing fence: at least as many backticks as the opening one, and nothing but blanks after. */
  predicate Closes(line: string, n: nat) {
    var rest := line[Indent(line, 3)..];
    LeadingTicks(rest) >= n && OnlyBlanks(rest[LeadingTicks(rest)..])
  }

  /** All lines up to the closing fence, each with its line ending; without one, all lines. */
  function Body(s: string, n: nat): string
    decreases |s|
  {
    if s == "" || Closes(s[..LineLength(s)], n) then ""
    else s[..NextLine(s)] + Body(s[NextLine(s)..], n)
  }

  function DropEnding(s: string): string {
    if s != "" && s[|s| - 1] == '\n' then
      if |s| > 1 && s[|s| - 2] == '\r' then s[..|s| - 2] else s[..|s| - 1]
    else if s != "" && s[|s| - 1] == '\r' then s[..|s| - 1]
    else s
  }

  /** The contents of an unindented backtick fence at the start of the document. */
  function Unfenced(document: string): Option<string> {
    var n := LeadingTicks(document);
    var info := document[n..LineEnd(document, n)];
    if n < 3 || '`' in info then None
    else Some(DropEnding(Body(document[LineStart(document, n)..], n)))
  }

  function LineEnd(s: string, n: nat): (k: nat)
    requires n <= |s|
    ensures n <= k <= |s|
  {
    n + LineLength(s[n..])
  }

  function LineStart(s: string, n: nat): (k: nat)
    requires n <= |s|
    ensures n <= k <= |s|
  {
    n + NextLine(s[n..])
  }

  // ---------- no line of the code closes the fence ----------

  predicate AllTicks(s: string, i: nat, j: nat)
    requires i <= j <= |s|
  {
    forall k :: i <= k < j ==> s[k] == '`'
  }

  predicate RunsUpTo(s: string, most: nat) {
    forall i, j :: 0 <= i <= j <= |s| && AllTicks(s, i, j) ==> j - i <= most
  }

  lemma FoldSnoc(code: string, c: char)
    ensures var before := Fold(code);
            Fold(code + [c]) == if c == '`' then Runs(Max(before.longest, before.current + 1), before.current + 1)
                                else Runs(before.longest, 0)
  {
    assert (code + [c])[..|code|] == code;
  }

  lemma {:induction false} RunAtEnd(code: string)
    ensures var n := Fold(code).current;
            n <= |code| && AllTicks(code, |code| - n, |code|) && (n < |code| ==> code[|code| - n - 1] != '`')
  {
    if code != "" {
      var init, c := code[..|code| - 1], code[|code| - 1];
      assert code == init + [c];
      RunAtEnd(init);
      FoldSnoc(init, c);
    }
  }

  lemma {:induction false} NoLongerRun(code: string)
    ensures RunsUpTo(code, Fold(code).longest)
  {
    if code != "" {
      var init, c := code[..|code| - 1], code[|code| - 1];
      assert code == init + [c];
      NoLongerRun(init);
      RunAtEnd(init);
      forall i, j | 0 <= i <= j <= |code| && j - i > Fold(code).longest
        ensures !AllTicks(code, i, j)
      {
        LongRunBreaks(init, c, i, j);
      }
    }
  }

  lemma LongRunBreaks(init: string, c: char, i: nat, j: nat)
    requires i <= j <= |init| + 1 && j - i > Fold(init + [c]).longest
    requires RunsUpTo(init, Fold(init).longest)
    requires var n := Fold(init).current; n <= |init| && (n < |init| ==> init[|init| - n - 1] != '`')
    ensures !AllTicks(init + [c], i, j)
  {
    FoldSnoc(init, c);
    hide Fold;
    var code, n := init + [c], Fold(init).current;
    if j <= |init| {
      assert !AllTicks(init, i, j);
      var k :| i <= k < j && init[k] != '`';
      assert code[k] != '`';
    } else if c != '`' {
      assert code[|init|] != '`';
    } else {
      assert code[|init| - n - 1] != '`';
    }
  }

  ghost predicate HasRun(code: string, length: nat) {
    exists i, j :: 0 <= i <= j <= |code| && AllTicks(code, i, j) && j - i == length
  }

  lemma {:induction false} LongestRunIsThere(code: string)
    ensures HasRun(code, Fold(code).longest)
  {
    if code == "" {
      assert AllTicks(code, 0, 0);
    } else {
      var init, c := code[..|code| - 1], code[|code| - 1];
      assert code == init + [c];
      FoldSnoc(init, c);
      LongestRunIsThere(init);
      RunAtEnd(code);
      if Fold(code).longest == Fold(init).longest {
        var i, j :| 0 <= i <= j <= |init| && AllTicks(init, i, j) && j - i == Fold(init).longest;
        assert AllTicks(code, i, j);
      } else {
        assert AllTicks(code, |code| - Fold(code).current, |code|);
      }
    }
  }

  /** The fold finds the length of the longest run: no run is longer, and one is as long. */
  lemma FoldFinds(code: string)
    ensures forall n: nat :: HasRun(code, n) ==> n <= Fold(code).longest
    ensures HasRun(code, Fold(code).longest)
  {
    NoLongerRun(code);
    LongestRunIsThere(code);
  }

  /** A part of a text has no longer runs than the text. */
  lemma PartRuns(s: string, a: nat, b: nat, most: nat)
    requires a <= b <= |s| && RunsUpTo(s, most)
    ensures RunsUpTo(s[a..b], most)
  {
    forall i, j | 0 <= i <= j <= b - a && AllTicks(s[a..b], i, j)
      ensures j - i <= most
    {
      forall k | a + i <= k < a + j
        ensures s[k] == '`'
      {
        assert s[a..b][k - a] == '`';
      }
      assert AllTicks(s, a + i, a + j);
    }
  }

  lemma ShortRunsDoNotClose(line: string, n: nat)
    requires n > 0 && RunsUpTo(line, n - 1)
    ensures !Closes(line, n)
  {
    var k := Indent(line, 3);
    var ticks := LeadingTicks(line[k..]);
    forall i | k <= i < k + ticks
      ensures line[i] == '`'
    {
      assert line[k..][i - k] == '`';
    }
    assert AllTicks(line, k, k + ticks);
  }

  lemma TickAhead(rest: string)
    ensures LeadingTicks("`" + rest) == 1 + LeadingTicks(rest)
    ensures LineLength("`" + rest) == 1 + LineLength(rest)
  {
    assert ("`" + rest)[1..] == rest;
  }

  lemma {:induction false} TicksLead(n: nat, rest: string)
    requires rest == "" || (rest[0] != '`' && LineEnds(rest[0]))
    ensures |Ticks(n)| == n && LeadingTicks(Ticks(n) + rest) == n && LineLength(Ticks(n) + rest) == n
  {
    if n == 0 {
      assert Ticks(n) + rest == rest;
    } else {
      TicksLead(n - 1, rest);
      TickAhead(Ticks(n - 1) + rest);
      hide LeadingTicks, LineLength;
      assert Ticks(n) + rest == "`" + (Ticks(n - 1) + rest);
    }
  }

  lemma FenceCloses(n: nat)
    requires n > 0
    ensures LineLength(Ticks(n)) == n && |Ticks(n)| == n && Closes(Ticks(n), n)
  {
    TicksLead(n, "");
    var line := Ticks(n);
    assert line + "" == line;
    assert line[0] == '`';
    assert Indent(line, 3) == 0;
    assert line[0..] == line && line[n..] == "";
  }

  // ---------- reading back ----------

  lemma {:induction false} FirstLineOf(text: string, rest: string)
    requires rest != "" && LineEnds(rest[0])
    ensures LineLength(text + rest) == LineLength(text)
  {
    if text == "" {
      assert text + rest == rest;
    } else {
      FirstLineOf(text[1..], rest);
      assert (text + rest)[1..] == text[1..] + rest;
    }
  }

  lemma CutInside(text: string, tail: string, k: nat)
    requires k <= |text|
    ensures (text + tail)[..k] == text[..k] && (text + tail)[k..] == text[k..] + tail
  {
  }

  lemma CutBehind(text: string, tail: string)
    requires tail != ""
    ensures (text + tail)[..|text| + 1] == text + [tail[0]] && (text + tail)[|text| + 1..] == tail[1..]
  {
  }

  /** The first line of text in front of a newline ends in the text, or with that newline. */
  lemma FirstCut(text: string, tail: string)
    requires tail != "" && tail[0] == '\n'
    ensures LineLength(text + tail) == LineLength(text)
    ensures NextLine(text + tail) <= |text| + 1
  {
    FirstLineOf(text, tail);
    assert (text + tail)[|text|] == '\n';
  }

  lemma BodyStep(s: string, n: nat)
    requires s != "" && !Closes(s[..LineLength(s)], n)
    ensures Body(s, n) == s[..NextLine(s)] + Body(s[NextLine(s)..], n)
  {
  }

  lemma BodyEnds(n: nat)
    requires n > 0
    ensures Body(Ticks(n), n) == ""
  {
    FenceCloses(n);
    assert Ticks(n)[..n] == Ticks(n);
  }

  /** Whatever its line endings, text whose runs are short is read back up to the closing fence. */
  lemma {:induction false} BodyIsText(text: string, tail: string, n: nat)
    requires n > 0 && RunsUpTo(text, n - 1)
    requires tail != "" && tail[0] == '\n' && tail[1..] == Ticks(n)
    ensures Body(text + tail, n) == text + "\n"
    decreases |text|
  {
    hide *;
    var s, k, next := text + tail, LineLength(text), NextLine(text + tail);
    FirstCut(text, tail);
    PartRuns(text, 0, k, n - 1);
    CutInside(text, tail, k);
    assert text[0..k] == text[..k];
    ShortRunsDoNotClose(s[..k], n);
    BodyStep(s, n);
    if next <= |text| {
      PartRuns(text, next, |text|, n - 1);
      assert text[next..|text|] == text[next..];
      CutInside(text, tail, next);
      NextIsLater(s);
      BodyIsText(text[next..], tail, n);
      assert text[..next] + (text[next..] + "\n") == text + "\n";
    } else {
      CutBehind(text, tail);
      BodyEnds(n);
      assert s[..next] + "" == text + "\n";
    }
  }

  lemma NextIsLater(s: string)
    requires s != ""
    ensures NextLine(s) > 0
  {
  }

  /** Only newlines are cut off, and all of them. */
  lemma {:induction false} OnlyNewlinesGo(code: string)
    ensures var text := TrimNewlines(code);
            text <= code && (forall i :: |text| <= i < |code| ==> code[i] == '\n')
            && (text != "" ==> text[|text| - 1] != '\n')
  {
    if code != "" && code[|code| - 1] == '\n' {
      OnlyNewlinesGo(code[..|code| - 1]);
    }
  }

  lemma OpeningLine(n: nat, rest: string)
    requires n > 0
    ensures var document := Ticks(n) + ("\n" + rest);
            LeadingTicks(document) == n && LineEnd(document, n) == n && LineStart(document, n) == n + 1
            && document[n + 1..] == rest
  {
    var document := Ticks(n) + ("\n" + rest);
    TicksLead(n, "\n" + rest);
    assert document[n..] == "\n" + rest;
    assert document[n..][0] == '\n';
    assert document[n + 1..] == rest;
  }

  lemma TextRuns(code: string)
    ensures RunsUpTo(TrimNewlines(code), Max(Fold(code).longest + 1, 3) - 1)
  {
    var text := TrimNewlines(code);
    NoLongerRun(code);
    OnlyNewlinesGo(code);
    PartRuns(code, 0, |text|, Fold(code).longest);
    assert code[0..|text|] == text;
  }

  lemma Contents(code: string)
    ensures Unfenced(Fenced(code)) == Some(DropEnding(TrimNewlines(code) + "\n"))
  {
    hide Fold, TrimNewlines, RunsUpTo, Body, DropEnding, Ticks;
    var text, n := TrimNewlines(code), Max(Fold(code).longest + 1, 3);
    var rest := text + ("\n" + Ticks(n));
    OpeningLine(n, rest);
    TextRuns(code);
    assert ("\n" + Ticks(n))[1..] == Ticks(n);
    BodyIsText(text, "\n" + Ticks(n), n);
  }

  lemma NewlineDropped(text: string)
    ensures DropEnding(text + "\n") ==
            if text != "" && text[|text| - 1] == '\r' then text[..|text| - 1] else text
  {
    var s := text + "\n";
    assert s[|s| - 1] == '\n' && s[..|s| - 1] == text;
    if text != "" {
      assert s[|s| - 2] == text[|text| - 1] && s[..|s| - 2] == text[..|text| - 1];
    }
  }

  /** Reading the fenced code back gives the code without its trailing newlines, exactly when what
      then comes last is not a carriage return.  Otherwise that carriage return and the newline in
      front of the closing fence are one line ending, and it is lost. */
  lemma FenceRoundTripsExactly(code: string)
    ensures var text := TrimNewlines(code);
            Unfenced(Fenced(code)) == Some(text) <==> text == "" || text[|text| - 1] != '\r'
  {
    hide *;
    var text := TrimNewlines(code);
    Contents(code);
    NewlineDropped(text);
    if text != "" && text[|text| - 1] == '\r' {
      assert |text[..|text| - 1]| != |text|;
    }
  }

  // ---------- the fence itself ----------

  lemma {:induction false} TicksAre(n: nat)
    ensures |Ticks(n)| == n && forall i :: 0 <= i < n ==> Ticks(n)[i] == '`'
  {
    if n > 0 {
      TicksAre(n - 1);
      assert Ticks(n) == "`" + Ticks(n - 1);
    }
  }

  /** The fence is the shortest of at least three backticks that is longer than every run of them in
      the code. */
  lemma FenceIsShortest(code: string)
    ensures var fence := FenceFor(code);
            |fence| >= 3 && (forall i :: 0 <= i < |fence| ==> fence[i] == '`')
            && !HasRun(code, |fence|) && (|fence| > 3 ==> HasRun(code, |fence| - 1))
  {
    var n := Max(Fold(code).longest + 1, 3);
    TicksAre(n);
    FoldFinds(code);
  }
}

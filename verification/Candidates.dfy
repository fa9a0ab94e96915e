/** Which JSON documents in a model's response are trusted as its summary. */
module Candidates {
  import opened Wrappers
  import opened Characters
  import opened ObjectScanner
  import opened Occurrences

  const TERMINATOR: string := "</analysis>"
  const FENCE: string := "```json"

  lemma MarkersDoNotOverlap()
    ensures Borderless(TERMINATOR) && Borderless(FENCE)
  {
    forall d | 0 < d < |TERMINATOR| ensures TERMINATOR[d..] != TERMINATOR[..|TERMINATOR| - d] {
      assert TERMINATOR[d..][0] == TERMINATOR[d] != '<';
      assert TERMINATOR[..|TERMINATOR| - d][0] == '<';
    }
    forall d | 0 < d < |FENCE| ensures FENCE[d..] != FENCE[..|FENCE| - d] {
      var last := |FENCE| - d - 1;
      assert FENCE[d..][last] == FENCE[|FENCE| - 1] == 'n';
      assert FENCE[..|FENCE| - d][last] == FENCE[last] != 'n';
    }
  }

  function OptionSeq(o: Option<string>): seq<string> {
    if o.Some? then [o.value] else []
  }

  /** What `read` finds at each position, last position first. */
  function Gather(read: nat -> seq<string>, positions: seq<nat>): seq<string> {
    if positions == [] then []
    else read(positions[|positions| - 1]) + Gather(read, positions[..|positions| - 1])
  }

  /** The object that sits directly behind position `p`, if any. */
  function Behind(text: string, p: nat): Option<string> {
    if p <= |text| then Leading(text[p..]) else None
  }

  function BehindFence(text: string): nat -> seq<string> {
    (p: nat) => OptionSeq(Behind(text, p + |FENCE|))
  }

  /** `fenced_json_blocks`: the objects directly behind the fences, last fence first. */
  function FencedBlocks(text: string): seq<string> {
    Gather(BehindFence(text), Matches(text, FENCE, 0))
  }

  function Keep(candidates: seq<string>, later: nat): seq<string> {
    if candidates == [] then []
    else OptionSeq(if Count(candidates[0], TERMINATOR) == later then Some(candidates[0]) else None)
         + Keep(candidates[1..], later)
  }

  /** The candidates taken from behind one cut. */
  function AfterCut(tail: string): seq<string> {
    Keep(FencedBlocks(tail) + OptionSeq(Leading(tail)), Count(tail, TERMINATOR))
  }

  /** The ends of all terminators, or the start of the text when there is none. */
  function Cuts(text: string): seq<nat> {
    var found := Matches(text, TERMINATOR, 0);
    if found == [] then [0] else seq(|found|, i requires 0 <= i < |found| => found[i] + |TERMINATOR|)
  }

  function BehindCut(text: string): nat -> seq<string> {
    (cut: nat) => if cut <= |text| then AfterCut(text[cut..]) else []
  }

  /** `Vec::dedup`: of equal neighbours the first stays. */
  function Dedup(s: seq<string>): seq<string> {
    if |s| < 2 then s
    else if s[|s| - 1] == s[|s| - 2] then Dedup(s[..|s| - 1])
    else Dedup(s[..|s| - 1]) + [s[|s| - 1]]
  }

  /** `json_candidates`, in the order in which they are tried. */
  function JsonCandidates(text: string): seq<string> {
    Dedup(Gather(BehindCut(text), Cuts(text)) + OptionSeq(Leading(text)))
  }

  // ---------- membership ----------

  /** `c` sits behind the cut or behind a fence after it, and quotes as many terminators as follow the cut. */
  ghost predicate TakenBehind(text: string, cut: nat, c: string) {
    && cut <= |text|
    && (|| Leading(text[cut..]) == Some(c)
        || exists f :: FencedAt(text[cut..], f, c))
    && Count(c, TERMINATOR) == Count(text[cut..], TERMINATOR)
  }

  lemma {:induction false} InGather(read: nat -> seq<string>, positions: seq<nat>, c: string)
    ensures c in Gather(read, positions) <==> exists p :: p in positions && c in read(p)
  {
    if positions != [] {
      var init, last := positions[..|positions| - 1], positions[|positions| - 1];
      InGather(read, init, c);
      assert forall p :: p in positions <==> p in init || p == last;
    }
  }

  lemma BehindFenceAt(text: string, f: nat)
    ensures BehindFence(text)(f) == OptionSeq(Behind(text, f + |FENCE|))
  {
  }

  ghost predicate FencedAt(text: string, f: nat, c: string) {
    OccursAt(text, FENCE, f) && Behind(text, f + |FENCE|) == Some(c)
  }

  lemma InFencedBlocks(text: string, c: string)
    ensures c in FencedBlocks(text) <==> exists f :: FencedAt(text, f, c)
  {
    MarkersDoNotOverlap();
    var fences := Matches(text, FENCE, 0);
    MatchesAreAll(text, FENCE, 0);
    InGather(BehindFence(text), fences, c);
    if c in FencedBlocks(text) {
      var f :| f in fences && c in BehindFence(text)(f);
      BehindFenceAt(text, f);
      assert FencedAt(text, f, c);
    }
    if f: nat :| FencedAt(text, f, c) {
      BehindFenceAt(text, f);
      assert f in fences;
    }
  }

  lemma {:induction false} InKeep(candidates: seq<string>, later: nat, c: string)
    ensures c in Keep(candidates, later) <==> c in candidates && Count(c, TERMINATOR) == later
  {
    if candidates != [] { InKeep(candidates[1..], later, c); }
  }

  lemma InBehindCut(text: string, cut: nat, c: string)
    ensures c in BehindCut(text)(cut) <==> TakenBehind(text, cut, c)
  {
    if cut <= |text| {
      var tail := text[cut..];
      InKeep(FencedBlocks(tail) + OptionSeq(Leading(tail)), Count(tail, TERMINATOR), c);
      InFencedBlocks(tail, c);
    }
  }

  lemma {:induction false} InDedup(s: seq<string>, c: string)
    ensures c in Dedup(s) <==> c in s
  {
    if |s| >= 2 {
      InDedup(s[..|s| - 1], c);
      assert s == s[..|s| - 1] + [s[|s| - 1]];
    }
  }

  /** What a cut is: the end of a terminator, or the start of a text without one. */
  ghost predicate IsCut(text: string, cut: int) {
    || OccursAt(text, TERMINATOR, cut - |TERMINATOR|)
    || (cut == 0 && forall p :: !OccursAt(text, TERMINATOR, p))
  }

  lemma CutIsListed(text: string, cut: nat)
    requires IsCut(text, cut)
    ensures cut in Cuts(text)
  {
    MarkersDoNotOverlap();
    var found := Matches(text, TERMINATOR, 0);
    MatchesAreAll(text, TERMINATOR, 0);
    if found != [] {
      assert OccursAt(text, TERMINATOR, found[0]);
      var p: nat := cut - |TERMINATOR|;
      var i :| 0 <= i < |found| && found[i] == p;
      assert Cuts(text)[i] == cut;
    }
  }

  lemma ListedIsCut(text: string, cut: nat)
    requires cut in Cuts(text)
    ensures IsCut(text, cut)
  {
    MarkersDoNotOverlap();
    var found := Matches(text, TERMINATOR, 0);
    MatchesAreAll(text, TERMINATOR, 0);
    if found != [] {
      var i :| 0 <= i < |found| && Cuts(text)[i] == cut;
      assert OccursAt(text, TERMINATOR, found[i]);
    }
  }

  /** The candidates are the objects taken behind a cut, and the object the text starts with. */
  lemma CandidatesExactly(text: string, c: string)
    ensures c in JsonCandidates(text) <==>
            (exists cut: nat :: IsCut(text, cut) && TakenBehind(text, cut, c)) || Leading(text) == Some(c)
  {
    var cuts := Cuts(text);
    InGather(BehindCut(text), cuts, c);
    InDedup(Gather(BehindCut(text), cuts) + OptionSeq(Leading(text)), c);
    if cut: nat :| IsCut(text, cut) && TakenBehind(text, cut, c) {
      CutIsListed(text, cut);
      InBehindCut(text, cut, c);
    }
    if cut :| cut in cuts && c in BehindCut(text)(cut) {
      ListedIsCut(text, cut);
      InBehindCut(text, cut, c);
    }
  }

  // ---------- soundness ----------

  lemma {:induction false} TrimStartIsSuffix(s: string) returns (k: nat)
    ensures k <= |s| && TrimStart(s) == s[k..]
  {
    if s != "" && IsWhitespace(s[0]) {
      var more := TrimStartIsSuffix(s[1..]);
      k := more + 1;
    } else {
      k := 0;
    }
  }

  /** Where in the text a candidate behind position `p` stands. */
  lemma PlaceOf(text: string, p: nat, c: string) returns (a: nat)
    requires Behind(text, p) == Some(c)
    ensures p <= a && a + |c| <= |text| && text[a..a + |c|] == c
  {
    LeadingIsExact(text[p..], c);
    var k := TrimStartIsSuffix(text[p..]);
    a := p + k;
    assert text[p..][k..] == text[a..];
  }

  lemma NoTerminatorAcrossCut(text: string, cut: nat, p: int)
    requires IsCut(text, cut) && OccursAt(text, TERMINATOR, p) && p < cut
    ensures p + |TERMINATOR| <= cut
  {
    MarkersDoNotOverlap();
    if cut - |TERMINATOR| < p {
      OverlapImpossible(text, TERMINATOR, cut - |TERMINATOR|, p);
    }
  }

  lemma PlaceBehindCut(tail: string, c: string) returns (a: nat)
    requires TakenBehind(tail, 0, c)
    ensures a + |c| <= |tail| && tail[a..a + |c|] == c && AllWithin(tail, TERMINATOR, a, a + |c|)
  {
    MarkersDoNotOverlap();
    assert tail[0..] == tail;
    if Leading(tail) == Some(c) {
      a := PlaceOf(tail, 0, c);
    } else {
      var f: nat :| FencedAt(tail, f, c);
      a := PlaceOf(tail, f + |FENCE|, c);
    }
    EqualCountHasAll(tail, TERMINATOR, a, c);
  }

  /** A candidate taken behind a cut holds every terminator after the cut, so it ends behind
      every terminator of the text: nothing quoted before the last one can leak. */
  lemma CandidateCoversLaterTerminators(text: string, cut: nat, c: string) returns (start: nat)
    requires IsCut(text, cut) && TakenBehind(text, cut, c)
    ensures cut <= start && start + |c| <= |text| && text[start..start + |c|] == c
    ensures forall p | OccursAt(text, TERMINATOR, p) ::
              (p + |TERMINATOR| <= cut || start <= p) && p + |TERMINATOR| <= start + |c|
  {
    var tail := text[cut..];
    assert tail[0..] == tail;
    var a := PlaceBehindCut(tail, c);
    start := cut + a;
    assert text[start..start + |c|] == tail[a..a + |c|];
    forall p | OccursAt(text, TERMINATOR, p)
      ensures (p + |TERMINATOR| <= cut || start <= p) && p + |TERMINATOR| <= start + |c|
    {
      if p < cut {
        NoTerminatorAcrossCut(text, cut, p);
      } else {
        PartOccurrence(text, TERMINATOR, cut, tail, p - cut);
      }
    }
  }

  // ---------- completeness ----------

  ghost predicate Without(text: string, pat: string) {
    forall p :: !OccursAt(text, pat, p)
  }

  lemma ObjectEnds(b: Body)
    ensures |ObjectText(b)| >= 2 && ObjectText(b)[0] == '{' && ObjectText(b)[|ObjectText(b)| - 1] == '}'
  {
    TextThenAppend(b, "", ['}']);
    assert "" + ['}'] == ['}'];
    assert ObjectText(b) == ['{'] + (TextThen(b, "") + ['}']);
  }

  lemma CharOfOccurrence(text: string, pat: string, p: int, i: int)
    requires OccursAt(text, pat, p) && p <= i < p + |pat|
    ensures text[i] in pat
  {
    assert text[p..p + |pat|][i - p] == text[i];
  }

  lemma FirstCharOfOccurrence(text: string, pat: string, p: int)
    requires OccursAt(text, pat, p) && pat != ""
    ensures pat[0] in text
  {
    assert text[p..p + |pat|][0] == text[p];
  }

  /** A marker without braces, occurring in `lead + object + rest`, lies in one of the three. */
  lemma MarkerStaysInPart(lead: string, b: Body, rest: string, pat: string, p: int)
    requires OccursAt(lead + (ObjectText(b) + rest), pat, p) && '{' !in pat && '}' !in pat && pat != ""
    ensures || OccursAt(lead, pat, p)
            || OccursAt(ObjectText(b), pat, p - |lead|)
            || OccursAt(rest, pat, p - |lead| - |ObjectText(b)|)
  {
    ObjectEnds(b);
    var c, text := ObjectText(b), lead + (ObjectText(b) + rest);
    var open, close := |lead|, |lead| + |c| - 1;
    assert text[open] == '{' && text[close] == '}';
    if p <= open < p + |pat| { CharOfOccurrence(text, pat, p, open); }
    if p <= close < p + |pat| { CharOfOccurrence(text, pat, p, close); }
    if p + |pat| <= open {
      assert text[0..|lead|] == lead;
      PartOccurrence(text, pat, 0, lead, p);
    } else if p + |pat| <= close {
      assert text[|lead|..|lead| + |c|] == c;
      PartOccurrence(text, pat, |lead|, c, p - |lead|);
    } else {
      assert text[close + 1..close + 1 + |rest|] == rest;
      PartOccurrence(text, pat, close + 1, rest, p - |lead| - |c|);
    }
  }

  /** Between the terminator and the object: blanks and perhaps a fence, so no `<`. */
  lemma ObjectHoldsAllTerminators(lead: string, b: Body, rest: string)
    requires '<' !in lead && Without(rest, TERMINATOR)
    ensures Count(ObjectText(b), TERMINATOR) == Count(lead + (ObjectText(b) + rest), TERMINATOR)
  {
    MarkersDoNotOverlap();
    var text := lead + (ObjectText(b) + rest);
    forall p | OccursAt(text, TERMINATOR, p)
      ensures |lead| <= p && p + |TERMINATOR| <= |lead| + |ObjectText(b)|
    {
      MarkerStaysInPart(lead, b, rest, TERMINATOR, p);
      if OccursAt(lead, TERMINATOR, p) { FirstCharOfOccurrence(lead, TERMINATOR, p); }
    }
    assert text[|lead|..|lead| + |ObjectText(b)|] == ObjectText(b);
    EqualCountHasAll(text, TERMINATOR, |lead|, ObjectText(b));
  }

  lemma LeadHasNoAngle(blank1: string, blank2: string)
    requires Blank(blank1) && Blank(blank2)
    ensures '<' !in blank1 + FENCE + blank2
  {
    forall i | 0 <= i < |blank1| ensures blank1[i] != '<' { assert IsWhitespace(blank1[i]); }
    forall i | 0 <= i < |blank2| ensures blank2[i] != '<' { assert IsWhitespace(blank2[i]); }
  }

  /** An object behind a terminator, a fence and blanks, before a tail without terminators. */
  lemma FencedObjectIsTaken(blank1: string, blank2: string, b: Body, rest: string)
    requires Blank(blank1) && Blank(blank2) && Legal(b) && Without(rest, TERMINATOR)
    ensures TakenBehind(blank1 + FENCE + blank2 + (ObjectText(b) + rest), 0, ObjectText(b))
  {
    var c, lead := ObjectText(b), blank1 + FENCE + blank2;
    var tail := lead + (c + rest);
    LeadHasNoAngle(blank1, blank2);
    ObjectHoldsAllTerminators(lead, b, rest);
    LeadingFindsObject(blank2, b, rest);
    assert tail[|blank1| + |FENCE|..] == blank2 + (c + rest);
    assert OccursAt(tail, FENCE, |blank1|);
    assert tail[0..] == tail;
    assert FencedAt(tail, |blank1|, c);
  }

  lemma TakenBehindTerminator(scratch: string, tail: string, c: string)
    requires TakenBehind(tail, 0, c)
    ensures c in JsonCandidates(scratch + TERMINATOR + tail)
  {
    var text, cut := scratch + TERMINATOR + tail, |scratch| + |TERMINATOR|;
    assert text[cut..] == tail && tail[0..] == tail;
    assert OccursAt(text, TERMINATOR, |scratch|);
    assert IsCut(text, cut) && TakenBehind(text, cut, c);
    CandidatesExactly(text, c);
  }

  /** Whatever the scratchpad quotes and whatever the object quotes, the object in the fence
      behind the closing terminator is among the candidates. */
  lemma FencedSummaryIsCandidate(scratch: string, blank1: string, blank2: string, b: Body, rest: string)
    requires Blank(blank1) && Blank(blank2) && Legal(b) && Without(rest, "</analysis>")
    ensures ObjectText(b) in
            JsonCandidates(scratch + "</analysis>" + (blank1 + "```json" + blank2 + (ObjectText(b) + rest)))
  {
    FencedObjectIsTaken(blank1, blank2, b, rest);
    TakenBehindTerminator(scratch, blank1 + FENCE + blank2 + (ObjectText(b) + rest), ObjectText(b));
  }

  /** The same for an object that stands there without a fence. */
  lemma BareSummaryIsCandidate(scratch: string, blank: string, b: Body, rest: string)
    requires Blank(blank) && Legal(b) && Without(rest, "</analysis>")
    ensures ObjectText(b) in JsonCandidates(scratch + "</analysis>" + (blank + (ObjectText(b) + rest)))
  {
    var tail := blank + (ObjectText(b) + rest);
    assert tail[0..] == tail;
    forall i | 0 <= i < |blank| ensures blank[i] != '<' { assert IsWhitespace(blank[i]); }
    ObjectHoldsAllTerminators(blank, b, rest);
    LeadingFindsObject(blank, b, rest);
    TakenBehindTerminator(scratch, tail, ObjectText(b));
  }
}

/** The search for candidates as it runs, and what it tries first. */
module CandidateSearch {
  import opened Wrappers
  import opened Characters
  import opened ObjectScanner
  import opened Occurrences
  import opened Candidates

  lemma {:induction false} MatchesFit(text: string, pat: string, from: nat)
    requires pat != ""
    ensures forall i | 0 <= i < |Matches(text, pat, from)| :: Matches(text, pat, from)[i] + |pat| <= |text|
    decreases |text| - from
  {
    if from + |pat| <= |text| {
      MatchesFit(text, pat, if OccursAt(text, pat, from) then from + |pat| else from + 1);
    }
  }

  /** `fenced_json_blocks`: every fence, last first. */
  method CollectFencedBlocks(text: string) returns (blocks: seq<string>)
    ensures blocks == FencedBlocks(text)
  {
    var fences := MatchIndices(text, FENCE);
    MatchesFit(text, FENCE, 0);
    blocks := [];
    var i := |fences|;
    assert fences[..|fences|] == fences;
    while i > 0
      invariant 0 <= i <= |fences|
      invariant forall j | 0 <= j < |fences| :: fences[j] + |FENCE| <= |text|
      invariant blocks + Gather(BehindFence(text), fences[..i]) == FencedBlocks(text)
    {
      i := i - 1;
      assert fences[..i + 1][..i] == fences[..i];
      var found := LeadingObject(text[fences[i] + |FENCE|..]);
      BehindFenceAt(text, fences[i]);
      Assoc(blocks, OptionSeq(found), Gather(BehindFence(text), fences[..i]));
      blocks := blocks + OptionSeq(found);
    }
  }

  /** The candidates that quote exactly as many terminators as follow the cut. */
  method KeepQuoting(all: seq<string>, later: nat) returns (kept: seq<string>)
    ensures kept == Keep(all, later)
  {
    kept := [];
    var i := 0;
    assert all[0..] == all;
    while i < |all|
      invariant 0 <= i <= |all|
      invariant kept + Keep(all[i..], later) == Keep(all, later)
    {
      var quoted := MatchIndices(all[i], TERMINATOR);
      var more := OptionSeq(if |quoted| == later then Some(all[i]) else None);
      assert all[i..][1..] == all[i + 1..];
      Assoc(kept, more, Keep(all[i + 1..], later));
      kept := kept + more;
      i := i + 1;
    }
  }

  /** What one cut contributes. */
  method CollectAfterCut(tail: string) returns (kept: seq<string>)
    ensures kept == AfterCut(tail)
  {
    var laterTerminators := MatchIndices(tail, TERMINATOR);
    var blocks := CollectFencedBlocks(tail);
    var leading := LeadingObject(tail);
    kept := KeepQuoting(blocks + OptionSeq(leading), |laterTerminators|);
  }

  method CollectCuts(text: string) returns (cuts: seq<nat>)
    ensures cuts == Cuts(text) && forall j | 0 <= j < |cuts| :: cuts[j] <= |text|
  {
    var found := MatchIndices(text, TERMINATOR);
    MatchesFit(text, TERMINATOR, 0);
    cuts := if found == [] then [0] else seq(|found|, i requires 0 <= i < |found| => found[i] + |TERMINATOR|);
  }

  /** `json_candidates`. */
  method CollectCandidates(text: string) returns (candidates: seq<string>)
    ensures candidates == JsonCandidates(text)
  {
    var cuts := CollectCuts(text);
    candidates := [];
    var i := |cuts|;
    assert cuts[..|cuts|] == cuts;
    while i > 0
      invariant 0 <= i <= |cuts|
      invariant forall j | 0 <= j < |cuts| :: cuts[j] <= |text|
      invariant candidates + Gather(BehindCut(text), cuts[..i]) == Gather(BehindCut(text), cuts)
    {
      i := i - 1;
      assert cuts[..i + 1][..i] == cuts[..i];
      var kept := CollectAfterCut(text[cuts[i]..]);
      Assoc(candidates, kept, Gather(BehindCut(text), cuts[..i]));
      candidates := candidates + kept;
    }
    assert candidates == Gather(BehindCut(text), cuts);
    var leading := LeadingObject(text);
    candidates := RemoveRepeats(candidates + OptionSeq(leading));
  }

  /** `dedup`. */
  method RemoveRepeats(all: seq<string>) returns (kept: seq<string>)
    ensures kept == Dedup(all)
  {
    kept := [];
    var i := 0;
    assert all[..0] == [];
    while i < |all|
      invariant 0 <= i <= |all|
      invariant kept == Dedup(all[..i])
    {
      assert all[..i + 1][..i] == all[..i];
      if i == 0 || all[i] != all[i - 1] { kept := kept + [all[i]]; }
      i := i + 1;
    }
    assert all[..|all|] == all;
  }

  // ---------- what is tried first ----------

  lemma {:induction false} DedupKeepsFirst(s: seq<string>)
    requires s != []
    ensures Dedup(s) != [] && Dedup(s)[0] == s[0]
  {
    if |s| >= 2 { DedupKeepsFirst(s[..|s| - 1]); }
  }

  lemma AscendingDiffers(s: seq<nat>, i: int, j: int)
    requires Ascending(s) && 0 <= i < j < |s|
    ensures s[i] < s[j]
  {
  }

  lemma OnlyElement(s: seq<nat>, x: nat)
    requires Ascending(s) && x in s && forall i | 0 <= i < |s| :: s[i] == x
    ensures s == [x]
  {
    if |s| >= 2 { AscendingDiffers(s, 0, 1); }
  }

  lemma FenceOfLead(blank1: string, blank2: string, p: int)
    requires Blank(blank1) && Blank(blank2) && OccursAt(blank1 + FENCE + blank2, FENCE, p)
    ensures p == |blank1|
  {
    var lead := blank1 + FENCE + blank2;
    MarkersDoNotOverlap();
    assert lead[p..p + |FENCE|][0] == lead[p] == '`';
    forall i | 0 <= i < |blank1| ensures blank1[i] != '`' { assert IsWhitespace(blank1[i]); }
    forall i | 0 <= i < |blank2| ensures blank2[i] != '`' { assert IsWhitespace(blank2[i]); }
    assert |blank1| <= p < |blank1| + |FENCE|;
    if p > |blank1| {
      assert OccursAt(lead, FENCE, |blank1|);
      OverlapImpossible(lead, FENCE, |blank1|, p);
    }
  }

  /** An ordinary response: behind the last terminator one fence, whose object and whatever follows
      it quote neither marker.  Its object is tried before everything else. */
  lemma OrdinarySummaryIsFirst(scratch: string, blank1: string, blank2: string, b: Body, rest: string)
    requires Blank(blank1) && Blank(blank2) && Legal(b)
    requires Without(ObjectText(b), "</analysis>") && Without(ObjectText(b), "```json")
    requires Without(rest, "</analysis>") && Without(rest, "```json")
    ensures var all :=
              JsonCandidates(scratch + "</analysis>" + (blank1 + "```json" + blank2 + (ObjectText(b) + rest)));
            all != [] && all[0] == ObjectText(b)
  {
    var c, lead := ObjectText(b), blank1 + FENCE + blank2;
    var tail := lead + (c + rest);
    var text := scratch + TERMINATOR + tail;
    LastCut(scratch, lead, b, rest, blank1, blank2);
    FirstBehindCut(blank1, blank2, b, rest);
    var cuts := Cuts(text);
    assert text[cuts[|cuts| - 1]..] == tail;
    DedupKeepsFirst(Gather(BehindCut(text), cuts) + OptionSeq(Leading(text)));
  }

  lemma LastCut(scratch: string, lead: string, b: Body, rest: string, blank1: string, blank2: string)
    requires Blank(blank1) && Blank(blank2) && lead == blank1 + FENCE + blank2
    requires Without(ObjectText(b), TERMINATOR) && Without(rest, TERMINATOR)
    ensures var cuts := Cuts(scratch + TERMINATOR + (lead + (ObjectText(b) + rest)));
            cuts != [] && cuts[|cuts| - 1] == |scratch| + |TERMINATOR|
  {
    MarkersDoNotOverlap();
    var tail := lead + (ObjectText(b) + rest);
    var text := scratch + TERMINATOR + tail;
    var found := Matches(text, TERMINATOR, 0);
    MatchesAreAll(text, TERMINATOR, 0);
    assert OccursAt(text, TERMINATOR, |scratch|);
    if found[|found| - 1] > |scratch| {
      OverlapImpossible(text, TERMINATOR, |scratch|, found[|found| - 1]);
      NoLaterTerminator(scratch + TERMINATOR, lead, b, rest, blank1, blank2, found[|found| - 1]);
    }
  }

  lemma NoLaterTerminator(before: string, lead: string, b: Body, rest: string, blank1: string, blank2: string, p: int)
    requires Blank(blank1) && Blank(blank2) && lead == blank1 + FENCE + blank2
    requires Without(ObjectText(b), TERMINATOR) && Without(rest, TERMINATOR)
    requires |before| <= p
    ensures !OccursAt(before + (lead + (ObjectText(b) + rest)), TERMINATOR, p)
  {
    var tail := lead + (ObjectText(b) + rest);
    var text := before + tail;
    if OccursAt(text, TERMINATOR, p) {
      assert text[|before|..|before| + |tail|] == tail;
      PartOccurrence(text, TERMINATOR, |before|, tail, p - |before|);
      MarkerStaysInPart(lead, b, rest, TERMINATOR, p - |before|);
      LeadHasNoAngle(blank1, blank2);
      FirstCharOfOccurrence(lead, TERMINATOR, p - |before|);
    }
  }

  lemma FencePlace(blank1: string, blank2: string, b: Body, rest: string, p: int)
    requires Blank(blank1) && Blank(blank2) && Without(ObjectText(b), FENCE) && Without(rest, FENCE)
    requires OccursAt(blank1 + FENCE + blank2 + (ObjectText(b) + rest), FENCE, p)
    ensures p == |blank1|
  {
    MarkerStaysInPart(blank1 + FENCE + blank2, b, rest, FENCE, p);
    FenceOfLead(blank1, blank2, p);
  }

  lemma OnlyMatch(text: string, pat: string, x: nat)
    requires Borderless(pat) && OccursAt(text, pat, x) && forall p | OccursAt(text, pat, p) :: p == x
    ensures Matches(text, pat, 0) == [x]
  {
    MatchesAreAll(text, pat, 0);
    OnlyElement(Matches(text, pat, 0), x);
  }

  lemma OnlyFence(blank1: string, blank2: string, b: Body, rest: string)
    requires Blank(blank1) && Blank(blank2) && Without(ObjectText(b), FENCE) && Without(rest, FENCE)
    ensures Matches(blank1 + FENCE + blank2 + (ObjectText(b) + rest), FENCE, 0) == [|blank1|]
  {
    MarkersDoNotOverlap();
    hide Without, Blank, ObjectText, Matches, Borderless;
    var tail := blank1 + FENCE + blank2 + (ObjectText(b) + rest);
    assert OccursAt(tail, FENCE, |blank1|);
    forall p | OccursAt(tail, FENCE, p) ensures p == |blank1| {
      FencePlace(blank1, blank2, b, rest, p);
    }
    OnlyMatch(tail, FENCE, |blank1|);
  }

  lemma FirstBehindCut(blank1: string, blank2: string, b: Body, rest: string)
    requires Blank(blank1) && Blank(blank2) && Legal(b)
    requires Without(ObjectText(b), FENCE) && Without(rest, FENCE) && Without(rest, TERMINATOR)
    ensures var kept := AfterCut(blank1 + FENCE + blank2 + (ObjectText(b) + rest));
            kept != [] && kept[0] == ObjectText(b)
  {
    hide Without, Blank, Legal, ObjectText, Leading, Count, Matches, OccursAt, BehindFence, AfterCut;
    var c, lead := ObjectText(b), blank1 + FENCE + blank2;
    var tail := lead + (c + rest);
    OnlyFence(blank1, blank2, b, rest);
    LeadingFindsObject(blank2, b, rest);
    assert tail[|blank1| + |FENCE|..] == blank2 + (c + rest);
    BehindFenceAt(tail, |blank1|);
    LeadHasNoAngle(blank1, blank2);
    ObjectHoldsAllTerminators(lead, b, rest);
    OneFenceFirst(tail, |blank1|, c);
  }

  lemma OneFenceFirst(tail: string, fence: nat, c: string)
    requires Matches(tail, FENCE, 0) == [fence] && BehindFence(tail)(fence) == [c]
    requires Count(c, TERMINATOR) == Count(tail, TERMINATOR)
    ensures AfterCut(tail) != [] && AfterCut(tail)[0] == c
  {
    hide Matches, BehindFence, Count, Leading;
    var found := FencedBlocks(tail) + OptionSeq(Leading(tail));
    assert [fence][..0] == [] && Gather(BehindFence(tail), []) == [];
    assert FencedBlocks(tail) == [c] + [] == [c];
    assert found[0] == c;
  }
}

/** The order in which the candidates are tried: by the cut they stand behind, the last one first;
    behind a cut by their fence, the last one first, and then what stands there without a fence; and
    at the end what the text starts with. */
module CandidateOrder {
  import opened Wrappers
  import opened ObjectScanner
  import opened Occurrences
  import opened Candidates

  /** Where a candidate is taken from: behind a cut, and behind a fence after it or, as -1, directly;
      or, with both -1, at the start of the text. */
  datatype Source = Source(cut: int, fence: int)

  predicate TriedBefore(a: Source, b: Source) {
    a.cut > b.cut || (a.cut == b.cut && a.fence > b.fence)
  }

  predicate InOrder(sources: seq<Source>) {
    forall i, j :: 0 <= i < j < |sources| ==> TriedBefore(sources[i], sources[j])
  }

  /** The source yields this object. */
  ghost predicate Yields(text: string, s: Source, c: string) {
    if s.cut < 0 then s == Source(-1, -1) && Leading(text) == Some(c)
    else
      IsCut(text, s.cut) && s.cut <= |text| && YieldsBehind(text[s.cut..], s.fence, c)
      && Count(c, "</analysis>") == Count(text[s.cut..], "</analysis>")
  }

  ghost predicate YieldsBehind(tail: string, fence: int, c: string) {
    if fence < 0 then fence == -1 && Leading(tail) == Some(c) else FencedAt(tail, fence, c)
  }

  lemma OrderConcat(a: seq<Source>, b: seq<Source>)
    requires InOrder(a) && InOrder(b) && forall x, y :: x in a && y in b ==> TriedBefore(x, y)
    ensures InOrder(a + b)
  {
    var all := a + b;
    forall i, j | 0 <= i < j < |all|
      ensures TriedBefore(all[i], all[j])
    {
      if i < |a| <= j {
        assert a[i] in a && b[j - |a|] in b;
      }
    }
  }

  // ---------- behind one cut ----------

  /** These objects are what these sources behind the cut yield, one by one. */
  ghost predicate BehindOne(tail: string, cut: int, found: seq<string>, sources: seq<Source>) {
    |found| == |sources|
    && forall i :: 0 <= i < |found| ==> sources[i].cut == cut && YieldsBehind(tail, sources[i].fence, found[i])
  }

  lemma BehindConcat(tail: string, cut: int, f: seq<string>, s: seq<Source>, g: seq<string>, t: seq<Source>)
    requires BehindOne(tail, cut, f, s) && BehindOne(tail, cut, g, t)
    ensures BehindOne(tail, cut, f + g, s + t)
  {
    hide YieldsBehind;
  }

  lemma NothingBehind(tail: string, cut: nat)
    ensures BehindOne(tail, cut, [], [])
  {
  }

  lemma FenceYields(tail: string, cut: nat, fence: nat) returns (sources: seq<Source>)
    requires OccursAt(tail, FENCE, fence)
    ensures BehindOne(tail, cut, BehindFence(tail)(fence), sources) && InOrder(sources)
    ensures forall s :: s in sources ==> s == Source(cut, fence)
    ensures forall c :: FencedAt(tail, fence, c) ==> Source(cut, fence) in sources
  {
    BehindFenceAt(tail, fence);
    sources := if Behind(tail, fence + |FENCE|).Some? then [Source(cut, fence)] else [];
  }

  lemma {:induction false} FencesInOrder(tail: string, cut: nat, positions: seq<nat>) returns (sources: seq<Source>)
    requires Ascending(positions) && forall p :: p in positions ==> OccursAt(tail, FENCE, p)
    ensures BehindOne(tail, cut, Gather(BehindFence(tail), positions), sources) && InOrder(sources)
    ensures forall s :: s in sources ==> s.cut == cut && s.fence >= 0 && s.fence in positions
    ensures forall p, c :: p in positions && FencedAt(tail, p, c) ==> Source(cut, p) in sources
  {
    hide FencedAt, BehindFence, Behind, OccursAt, YieldsBehind, BehindOne;
    if positions == [] {
      sources := [];
      NothingBehind(tail, cut);
    } else {
      var init, last := positions[..|positions| - 1], positions[|positions| - 1];
      assert positions == init + [last] && last in positions;
      assert forall p :: p in init ==> p in positions && p < last;
      var here := FenceYields(tail, cut, last);
      var rest := FencesInOrder(tail, cut, init);
      OrderConcat(here, rest);
      BehindConcat(tail, cut, BehindFence(tail)(last), here, Gather(BehindFence(tail), init), rest);
      sources := here + rest;
    }
  }

  /** Of the candidates those stay that quote as many terminators as follow, with their sources. */
  lemma {:induction false} KeptInOrder(tail: string, cut: int, found: seq<string>, sources: seq<Source>, later: nat)
    returns (kept: seq<Source>)
    requires BehindOne(tail, cut, found, sources) && InOrder(sources)
    ensures BehindOne(tail, cut, Keep(found, later), kept) && InOrder(kept)
    ensures forall s :: s in kept ==> s in sources
    ensures forall i :: 0 <= i < |found| && Count(found[i], TERMINATOR) == later ==> sources[i] in kept
    ensures forall c :: c in Keep(found, later) ==> Count(c, TERMINATOR) == later
    decreases |found|
  {
    if found == [] {
      kept := [];
    } else {
      assert BehindOne(tail, cut, found[1..], sources[1..]);
      var rest := KeptInOrder(tail, cut, found[1..], sources[1..], later);
      var here := if Count(found[0], TERMINATOR) == later then [sources[0]] else [];
      assert BehindOne(tail, cut, if here == [] then [] else [found[0]], here);
      hide YieldsBehind, Count;
      forall x, y | x in here && y in rest
        ensures TriedBefore(x, y)
      {
        var j :| 0 <= j < |sources[1..]| && sources[1..][j] == y;
        assert sources[j + 1] == y;
      }
      OrderConcat(here, rest);
      BehindConcat(tail, cut, if here == [] then [] else [found[0]], here, Keep(found[1..], later), rest);
      kept := here + rest;
      forall i | 0 <= i < |found| && Count(found[i], TERMINATOR) == later
        ensures sources[i] in kept
      {
        assert i > 0 ==> found[1..][i - 1] == found[i] && sources[1..][i - 1] == sources[i];
      }
    }
  }

  /** Each fence and each cut yields one object at most. */
  lemma OneEach(tail: string, fence: int, c: string, d: string)
    requires YieldsBehind(tail, fence, c) && YieldsBehind(tail, fence, d)
    ensures c == d
  {
  }

  lemma CutInOrder(text: string, cut: nat) returns (sources: seq<Source>)
    requires cut <= |text|
    ensures var tail := text[cut..];
            BehindOne(tail, cut, AfterCut(tail), sources) && InOrder(sources)
            && (forall s :: s in sources ==> s.cut == cut)
            && (forall c :: c in AfterCut(tail) ==> Count(c, TERMINATOR) == Count(tail, TERMINATOR))
            && forall fence, c :: YieldsBehind(tail, fence, c) && Count(c, TERMINATOR) == Count(tail, TERMINATOR) ==>
                 Source(cut, fence) in sources
  {
    var tail := text[cut..];
    var fences, blocks, leading := Matches(tail, FENCE, 0), FencedBlocks(tail), Leading(tail);
    MarkersDoNotOverlap();
    MatchesAreAll(tail, FENCE, 0);
    hide Matches;
    var fenced := FencesInOrder(tail, cut, fences);
    var bare := if leading.Some? then [Source(cut, -1)] else [];
    assert BehindOne(tail, cut, OptionSeq(leading), bare);
    OrderConcat(fenced, bare);
    BehindConcat(tail, cut, blocks, fenced, OptionSeq(leading), bare);
    var later := Count(tail, TERMINATOR);
    sources := KeptInOrder(tail, cut, blocks + OptionSeq(leading), fenced + bare, later);
    forall fence, c | YieldsBehind(tail, fence, c) && Count(c, TERMINATOR) == later
      ensures Source(cut, fence) in sources
    {
      assert fence >= 0 ==> fence in fences;
      assert Source(cut, fence) in fenced + bare;
      var i :| 0 <= i < |fenced + bare| && (fenced + bare)[i] == Source(cut, fence);
      OneEach(tail, fence, c, (blocks + OptionSeq(leading))[i]);
    }
  }

  // ---------- all cuts ----------

  ghost predicate AllYield(text: string, found: seq<string>, sources: seq<Source>) {
    |found| == |sources| && forall i :: 0 <= i < |found| ==> Yields(text, sources[i], found[i])
  }

  lemma YieldConcat(text: string, f: seq<string>, s: seq<Source>, g: seq<string>, t: seq<Source>)
    requires AllYield(text, f, s) && AllYield(text, g, t)
    ensures AllYield(text, f + g, s + t)
  {
    hide Yields;
  }

  lemma CutYields(text: string, cut: nat) returns (sources: seq<Source>)
    requires cut <= |text| && IsCut(text, cut)
    ensures AllYield(text, BehindCut(text)(cut), sources) && InOrder(sources)
    ensures forall s :: s in sources ==> s.cut == cut
    ensures forall s: Source, c: string :: s.cut == cut && Yields(text, s, c) ==> s in sources
  {
    sources := CutInOrder(text, cut);
    var tail, found := text[cut..], AfterCut(text[cut..]);
    assert BehindCut(text)(cut) == found;
    forall i | 0 <= i < |found|
      ensures Yields(text, sources[i], found[i])
    {
      assert found[i] in found && sources[i] in sources;
    }
    forall s: Source, c: string | s.cut == cut && Yields(text, s, c)
      ensures s in sources
    {
      assert s == Source(cut, s.fence);
    }
  }

  lemma {:induction false} CutsInOrder(text: string, cuts: seq<nat>) returns (sources: seq<Source>)
    requires Ascending(cuts) && forall k :: k in cuts ==> k <= |text| && IsCut(text, k)
    ensures AllYield(text, Gather(BehindCut(text), cuts), sources) && InOrder(sources)
    ensures forall s :: s in sources ==> s.cut >= 0 && s.cut in cuts
    ensures forall s: Source, c: string :: s.cut in cuts && Yields(text, s, c) ==> s in sources
  {
    hide Yields, BehindCut, IsCut, Leading;
    if cuts == [] {
      sources := [];
    } else {
      var init, last := cuts[..|cuts| - 1], cuts[|cuts| - 1];
      assert cuts == init + [last] && last in cuts;
      assert forall k :: k in init ==> k in cuts;
      var rest := CutsInOrder(text, init);
      var here := CutYields(text, last);
      assert forall k :: k in init ==> k < last;
      OrderConcat(here, rest);
      YieldConcat(text, BehindCut(text)(last), here, Gather(BehindCut(text), init), rest);
      sources := here + rest;
    }
  }

  lemma CutsAscend(text: string)
    ensures Ascending(Cuts(text)) && forall k :: k in Cuts(text) ==> k <= |text| && IsCut(text, k)
    ensures forall k: nat :: IsCut(text, k) ==> k in Cuts(text)
  {
    MarkersDoNotOverlap();
    MatchesAreAll(text, TERMINATOR, 0);
    var found, cuts := Matches(text, TERMINATOR, 0), Cuts(text);
    forall k | k in cuts
      ensures k <= |text| && IsCut(text, k)
    {
      ListedIsCut(text, k);
    }
    forall k: nat | IsCut(text, k)
      ensures k in cuts
    {
      CutIsListed(text, k);
    }
    assert found != [] ==> forall i :: 0 <= i < |cuts| ==> cuts[i] == found[i] + |TERMINATOR|;
  }

  /** Before equal neighbours are merged, the candidates are exactly what the sources yield, each
      source once, in their order. */
  lemma CandidatesInOrder(text: string) returns (all: seq<string>, sources: seq<Source>)
    ensures JsonCandidates(text) == Dedup(all)
    ensures |all| == |sources| && InOrder(sources)
    ensures forall i :: 0 <= i < |all| ==> Yields(text, sources[i], all[i])
    ensures forall s, c :: Yields(text, s, c) ==> s in sources
  {
    var leading := Leading(text);
    CutsAscend(text);
    var behind := CutsInOrder(text, Cuts(text));
    var start := if leading.Some? then [Source(-1, -1)] else [];
    all, sources := Gather(BehindCut(text), Cuts(text)) + OptionSeq(leading), behind + start;
    assert AllYield(text, OptionSeq(leading), start);
    OrderConcat(behind, start);
    YieldConcat(text, Gather(BehindCut(text), Cuts(text)), behind, OptionSeq(leading), start);
    forall s, c | Yields(text, s, c)
      ensures s in sources
    {
      if s.cut >= 0 {
        assert s.cut in Cuts(text) && s in behind;
      }
    }
  }

  /** Merging leaves no equal neighbours, loses nothing, and keeps the order: what is left stands at
      ascending places, and between two of them nothing else stood. */
  lemma {:induction false} DedupExactly(s: seq<string>)
    ensures forall i :: 0 <= i < |Dedup(s)| - 1 ==> Dedup(s)[i] != Dedup(s)[i + 1]
    ensures s != [] ==> Dedup(s) != [] && Dedup(s)[0] == s[0] && Dedup(s)[|Dedup(s)| - 1] == s[|s| - 1]
    ensures |s| > 1 ==>
              Dedup(s) == Dedup(s[..|s| - 1]) + if s[|s| - 1] == s[|s| - 2] then [] else [s[|s| - 1]]
  {
    if |s| > 1 {
      DedupExactly(s[..|s| - 1]);
    }
  }
}

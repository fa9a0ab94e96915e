/** Occurrences of a marker in a text, as `match_indices` finds them: left to right, each
    search going on behind the last match. */
module Occurrences {
  import opened Wrappers

  predicate OccursAt(text: string, pat: string, p: int) {
    0 <= p && p + |pat| <= |text| && text[p..p + |pat|] == pat
  }

  /** No proper suffix of the marker is also a prefix: it cannot overlap itself. */
  ghost predicate Borderless(pat: string) {
    pat != "" && forall d | 0 < d < |pat| :: pat[d..] != pat[..|pat| - d]
  }

  function Matches(text: string, pat: string, from: nat): seq<nat>
    requires pat != ""
    decreases |text| - from
  {
    if from + |pat| > |text| then []
    else if OccursAt(text, pat, from) then [from] + Matches(text, pat, from + |pat|)
    else Matches(text, pat, from + 1)
  }

  function Count(text: string, pat: string): nat
    requires pat != ""
  {
    |Matches(text, pat, 0)|
  }

  /** `match_indices`. */
  method MatchIndices(text: string, pat: string) returns (found: seq<nat>)
    requires pat != ""
    ensures found == Matches(text, pat, 0)
  {
    found := [];
    var i := 0;
    while i + |pat| <= |text|
      invariant found + Matches(text, pat, i) == Matches(text, pat, 0)
      decreases |text| - i
    {
      if text[i..i + |pat|] == pat {
        ghost var more := Matches(text, pat, i + |pat|);
        assert (found + [i]) + more == found + ([i] + more);
        found := found + [i];
        i := i + |pat|;
      } else {
        i := i + 1;
      }
    }
  }

  lemma OverlapIsBorder(text: string, pat: string, p: int, q: int)
    requires OccursAt(text, pat, p) && OccursAt(text, pat, q) && p < q < p + |pat|
    ensures pat[q - p..] == pat[..|pat| - (q - p)]
  {
    assert pat[q - p..] == text[q..p + |pat|] == pat[..|pat| - (q - p)];
  }

  lemma OverlapImpossible(text: string, pat: string, p: int, q: int)
    requires Borderless(pat) && OccursAt(text, pat, p) && OccursAt(text, pat, q) && p < q
    ensures p + |pat| <= q
  {
    if q < p + |pat| { OverlapIsBorder(text, pat, p, q); }
  }

  ghost predicate Ascending(s: seq<nat>) {
    forall i, j | 0 <= i < j < |s| :: s[i] < s[j]
  }

  ghost predicate FindsAll(found: seq<nat>, text: string, pat: string, from: nat) {
    && Ascending(found)
    && (forall i | 0 <= i < |found| :: from <= found[i] && OccursAt(text, pat, found[i]))
    && (forall p: nat | from <= p && OccursAt(text, pat, p) :: p in found)
  }

  lemma FirstMatchAdded(more: seq<nat>, text: string, pat: string, from: nat)
    requires Borderless(pat) && OccursAt(text, pat, from) && FindsAll(more, text, pat, from + |pat|)
    ensures FindsAll([from] + more, text, pat, from)
  {
    var found := [from] + more;
    forall p: nat | from <= p && OccursAt(text, pat, p) ensures p in found {
      if p > from {
        OverlapImpossible(text, pat, from, p);
        assert p in more;
      } else {
        assert found[0] == p;
      }
    }
  }

  /** A marker that does not overlap itself: the search finds every occurrence, once. */
  lemma {:induction false} MatchesAreAll(text: string, pat: string, from: nat)
    requires Borderless(pat)
    ensures FindsAll(Matches(text, pat, from), text, pat, from)
    decreases |text| - from
  {
    if from + |pat| <= |text| {
      if OccursAt(text, pat, from) {
        MatchesAreAll(text, pat, from + |pat|);
        FirstMatchAdded(Matches(text, pat, from + |pat|), text, pat, from);
      } else {
        MatchesAreAll(text, pat, from + 1);
      }
    }
  }

  ghost function Positions(text: string, pat: string): set<nat> {
    set p: nat | p <= |text| && OccursAt(text, pat, p)
  }

  lemma {:induction false} AscendingCardinality(s: seq<nat>, t: set<nat>)
    requires Ascending(s) && (forall i | 0 <= i < |s| :: s[i] in t) && (forall p | p in t :: p in s)
    ensures |s| == |t|
  {
    if s == [] {
      assert t == {};
    } else {
      var last := s[|s| - 1];
      AscendingCardinality(s[..|s| - 1], t - {last});
    }
  }

  lemma CountIsCardinality(text: string, pat: string)
    requires Borderless(pat)
    ensures Count(text, pat) == |Positions(text, pat)|
  {
    MatchesAreAll(text, pat, 0);
    AscendingCardinality(Matches(text, pat, 0), Positions(text, pat));
  }

  function Shift(s: set<nat>, offset: nat): set<nat> {
    set p | p in s :: p + offset
  }

  lemma InShift(s: set<nat>, offset: nat, q: nat)
    ensures q in Shift(s, offset) <==> q >= offset && q - offset in s
  {
    if q >= offset && q - offset in s {
      assert (q - offset) + offset == q;
    }
  }

  lemma {:induction false} ShiftKeepsSize(s: set<nat>, offset: nat)
    ensures |Shift(s, offset)| == |s|
    decreases |s|
  {
    if p :| p in s {
      var fewer := s - {p};
      ShiftKeepsSize(fewer, offset);
      forall q ensures q in Shift(s, offset) <==> q in Shift(fewer, offset) + {p + offset} {
        InShift(s, offset, q);
        InShift(fewer, offset, q);
      }
      InShift(fewer, offset, p + offset);
      assert Shift(s, offset) == Shift(fewer, offset) + {p + offset};
    }
  }

  lemma PartOccurrence(text: string, pat: string, a: nat, part: string, p: int)
    requires a + |part| <= |text| && text[a..a + |part|] == part
    ensures OccursAt(part, pat, p) <==> OccursAt(text, pat, a + p) && 0 <= p && p + |pat| <= |part|
  {
    if 0 <= p && p + |pat| <= |part| {
      var here, there := part[p..p + |pat|], text[a + p..a + p + |pat|];
      forall i | 0 <= i < |pat| ensures here[i] == there[i] {
        assert part[p + i] == text[a..a + |part|][p + i];
      }
      assert here == there;
    }
  }

  ghost predicate AllWithin(text: string, pat: string, lo: int, hi: int) {
    forall p | OccursAt(text, pat, p) :: lo <= p && p + |pat| <= hi
  }

  /** A part of a text has as many occurrences as the text exactly when it has them all. */
  lemma EqualCountHasAll(text: string, pat: string, a: nat, part: string)
    requires Borderless(pat) && a + |part| <= |text| && text[a..a + |part|] == part
    ensures Count(part, pat) == Count(text, pat) <==> AllWithin(text, pat, a, a + |part|)
  {
    var inner, all := Positions(part, pat), Positions(text, pat);
    CountIsCardinality(part, pat);
    CountIsCardinality(text, pat);
    ShiftKeepsSize(inner, a);
    forall q | q in all || q in Shift(inner, a)
      ensures q in Shift(inner, a) <==> q in all && a <= q && q + |pat| <= a + |part|
    {
      InShift(inner, a, q);
      PartOccurrence(text, pat, a, part, q - a);
    }
    if |inner| == |all| {
      SubsetOfSameSize(Shift(inner, a), all);
      forall p | OccursAt(text, pat, p) ensures a <= p && p + |pat| <= a + |part| {
        assert p in all;
      }
    }
    if AllWithin(text, pat, a, a + |part|) {
      assert all == Shift(inner, a);
    }
  }
}

/** The quantizations a repository is said to offer, and the files a quantization resolves to. */
module Variants {
  import opened Wrappers
  import opened ShardSets

  /** What `parse_quantization` says when it recognises nothing. */
  const UNKNOWN: Quant := Quant(-1)

  // ---------- stable sorting ----------

  datatype Order = ByName | Plainest | QuantThenPlainest

  predicate Plainer(a: File, b: File) {
    a.length < b.length || (a.length == b.length && a.name <= b.name)
  }

  predicate AtMost(o: Order, a: File, b: File) {
    match o
    case ByName => a.name <= b.name
    case Plainest => Plainer(a, b)
    case QuantThenPlainest => a.quant.rank < b.quant.rank || (a.quant == b.quant && Plainer(a, b))
  }

  lemma AtMostOrders(o: Order)
    ensures forall a, b :: AtMost(o, a, b) || AtMost(o, b, a)
    ensures forall a, b, c :: AtMost(o, a, b) && AtMost(o, b, c) ==> AtMost(o, a, c)
  {
  }

  function Insert(o: Order, s: seq<File>, f: File): seq<File> {
    if s == [] then [f]
    else if AtMost(o, s[0], f) then [s[0]] + Insert(o, s[1..], f)
    else [f] + s
  }

  /** The files in order, equal ones as they were listed. */
  function SortBy(o: Order, s: seq<File>): seq<File> {
    if s == [] then [] else Insert(o, SortBy(o, s[..|s| - 1]), s[|s| - 1])
  }

  predicate Sorted(o: Order, s: seq<File>) {
    forall i, j :: 0 <= i < j < |s| ==> AtMost(o, s[i], s[j])
  }

  lemma {:induction false} InsertAdds(o: Order, s: seq<File>, f: File)
    ensures multiset(Insert(o, s, f)) == multiset(s) + multiset{f}
  {
    if s != [] {
      assert s == [s[0]] + s[1..];
      if AtMost(o, s[0], f) {
        InsertAdds(o, s[1..], f);
      }
    }
  }

  predicate NoneBefore(o: Order, f: File, s: seq<File>) {
    forall i :: 0 <= i < |s| ==> AtMost(o, f, s[i])
  }

  lemma SortedFront(o: Order, f: File, s: seq<File>)
    requires Sorted(o, s) && NoneBefore(o, f, s)
    ensures Sorted(o, [f] + s)
  {
  }

  lemma {:induction false} InsertSorts(o: Order, s: seq<File>, f: File)
    requires Sorted(o, s)
    ensures Sorted(o, Insert(o, s, f))
  {
    AtMostOrders(o);
    if s != [] {
      var head, rest := s[0], s[1..];
      assert NoneBefore(o, head, rest);
      if AtMost(o, head, f) {
        InsertSorts(o, rest, f);
        InsertAdds(o, rest, f);
        var more := Insert(o, rest, f);
        forall i | 0 <= i < |more|
          ensures AtMost(o, head, more[i])
        {
          assert more[i] in multiset(more);
        }
        SortedFront(o, head, more);
      } else {
        SortedFront(o, f, s);
      }
    }
  }

  lemma {:induction false} SortSorts(o: Order, s: seq<File>)
    ensures Sorted(o, SortBy(o, s)) && multiset(SortBy(o, s)) == multiset(s) && |SortBy(o, s)| == |s|
  {
    if s != [] {
      var init, f := s[..|s| - 1], s[|s| - 1];
      assert s == init + [f];
      SortSorts(o, init);
      InsertSorts(o, SortBy(o, init), f);
      InsertAdds(o, SortBy(o, init), f);
    }
    assert |multiset(SortBy(o, s))| == |SortBy(o, s)|;
  }

  // ---------- choosing files ----------

  function OfQuant(files: seq<File>, quant: Quant): seq<File> {
    if files == [] then []
    else
      var init, f := files[..|files| - 1], files[|files| - 1];
      if f.quant == quant then OfQuant(init, quant) + [f] else OfQuant(init, quant)
  }

  function Known(files: seq<File>): seq<File> {
    if files == [] then []
    else
      var init, f := files[..|files| - 1], files[|files| - 1];
      if f.model && f.quant != UNKNOWN then Known(init) + [f] else Known(init)
  }

  function Matching(files: seq<File>, wanted: Quant, fold: Quant -> Quant): seq<File> {
    if files == [] then []
    else
      var init, f := files[..|files| - 1], files[|files| - 1];
      if f.model && fold(f.quant) == fold(wanted) then Matching(init, wanted, fold) + [f]
      else Matching(init, wanted, fold)
  }

  function Parts(files: seq<File>, sharded: bool): seq<File> {
    if files == [] then []
    else
      var init, f := files[..|files| - 1], files[|files| - 1];
      if f.part.Some? == sharded then Parts(init, sharded) + [f] else Parts(init, sharded)
  }

  predicate OneFamily(files: seq<File>) {
    forall i, j :: 0 <= i < |files| && 0 <= j < |files| ==> files[i].family == files[j].family
  }

  function TotalSize(files: seq<File>): nat {
    if files == [] then 0 else TotalSize(files[..|files| - 1]) + files[|files| - 1].size
  }

  // ---------- advertising ----------

  datatype Variant = Variant(quant: Quant, name: int, size: nat, sharded: bool)

  function Single(f: File): Variant {
    Variant(f.quant, f.name, f.size, false)
  }

  function Sharded(quant: Quant, shards: seq<File>): Variant
    requires shards != []
  {
    Variant(quant, shards[0].name, TotalSize(shards), true)
  }

  /** In a sorted list, the first file of each quantization. */
  function Dedup(s: seq<File>): seq<File> {
    if s == [] then []
    else
      var init, f := s[..|s| - 1], s[|s| - 1];
      if init != [] && init[|init| - 1].quant == f.quant then Dedup(init) else Dedup(init) + [f]
  }

  // ---------- resolving ----------

  datatype Failure = NotFound | Ambiguous | BadShards

  datatype Resolved = Resolved(files: seq<File>, totalSize: nat)

  /** The shards as sorted: every total is their number, and their indices count up from 1. */
  predicate InSequence(shards: seq<File>) {
    forall i :: 0 <= i < |shards| ==>
      shards[i].part.Some? && shards[i].part.value.total == Some(|shards|) && shards[i].part.value.index == i + 1
  }

  function Chosen(matching: seq<File>): seq<File> {
    var singles := SortBy(Plainest, Parts(matching, false));
    if singles != [] then [singles[0]] else SortBy(ByName, PreferredSet(Parts(matching, true)))
  }

  function Resolve(files: seq<File>, wanted: Quant, fold: Quant -> Quant): Result<Resolved, Failure> {
    var matching := Matching(files, wanted, fold);
    if matching == [] then Err(NotFound)
    else if !OneFamily(matching) then Err(Ambiguous)
    else if Parts(matching, false) == [] && !InSequence(Chosen(matching)) then Err(BadShards)
    else Ok(Resolved(Chosen(matching), TotalSize(Chosen(matching))))
  }

  // ---------- shards in sequence ----------

  predicate IndexOrder(shards: seq<File>) {
    forall i, j :: 0 <= i < j < |shards| && shards[i].part.Some? && shards[j].part.Some? ==>
      shards[i].part.value.index < shards[j].part.value.index
  }

  lemma {:induction false} SequenceIndices(shards: seq<File>, n: nat)
    requires n <= |shards|
    requires forall i :: 0 <= i < n ==> shards[i].part.Some? && shards[i].part.value.index == i + 1
    ensures Indices(shards[..n]) == OneTo(n)
  {
    if n > 0 {
      SequenceIndices(shards, n - 1);
      assert shards[..n][..n - 1] == shards[..n - 1];
    }
  }

  lemma {:induction false} AtLeastPlace(shards: seq<File>, i: nat)
    requires i < |shards| && Complete(shards) && IndexOrder(shards)
    ensures shards[i].part.value.index >= i + 1
  {
    if i > 0 {
      AtLeastPlace(shards, i - 1);
    } else {
      IndicesMember(shards, i);
      OneToMembers(|shards|);
    }
  }

  lemma {:induction false} AtMostPlace(shards: seq<File>, i: nat)
    requires i < |shards| && Complete(shards) && IndexOrder(shards)
    ensures shards[i].part.value.index <= i + 1
    decreases |shards| - i
  {
    if i + 1 < |shards| {
      AtMostPlace(shards, i + 1);
    } else {
      IndicesMember(shards, i);
      OneToMembers(|shards|);
    }
  }

  /** The shards of a set resolve exactly when the set is complete and the order of its names is
      the order of its indices. */
  lemma InSequenceExactly(set_: seq<File>)
    requires set_ != []
    ensures InSequence(SortBy(ByName, set_)) <==> Complete(set_) && IndexOrder(SortBy(ByName, set_))
  {
    var sorted := SortBy(ByName, set_);
    SortSorts(ByName, set_);
    if InSequence(sorted) {
      SequenceIndices(sorted, |sorted|);
      assert sorted[..|sorted|] == sorted;
      CompleteOfPermutation(sorted, set_);
    }
    if Complete(set_) && IndexOrder(sorted) {
      CompleteOfPermutation(set_, sorted);
      forall i | 0 <= i < |sorted|
        ensures sorted[i].part.value.index == i + 1
      {
        AtLeastPlace(sorted, i);
        AtMostPlace(sorted, i);
      }
    }
  }

  // ---------- the two selections agree ----------

  lemma OfQuantFront(f: File, s: seq<File>, quant: Quant)
    ensures OfQuant([f] + s, quant) == if f.quant == quant then [f] + OfQuant(s, quant) else OfQuant(s, quant)
  {
    OfQuantConcat([f], s, quant);
    assert [f][..0] == [];
  }

  lemma OfQuantSnoc(s: seq<File>, f: File, quant: Quant)
    ensures OfQuant(s + [f], quant) == if f.quant == quant then OfQuant(s, quant) + [f] else OfQuant(s, quant)
  {
    assert (s + [f])[..|s|] == s;
  }

  lemma {:induction false} OfQuantConcat(a: seq<File>, b: seq<File>, quant: Quant)
    ensures OfQuant(a + b, quant) == OfQuant(a, quant) + OfQuant(b, quant)
  {
    if b == [] {
      assert a + b == a;
    } else {
      var init, f := b[..|b| - 1], b[|b| - 1];
      OfQuantConcat(a, init, quant);
      assert a + b == (a + init) + [f];
      OfQuantSnoc(a + init, f, quant);
      assert (OfQuant(a, quant) + OfQuant(init, quant)) + [f] == OfQuant(a, quant) + (OfQuant(init, quant) + [f]);
    }
  }

  lemma {:induction false} OfQuantMembers(s: seq<File>, quant: Quant)
    ensures forall f :: f in OfQuant(s, quant) <==> f in s && f.quant == quant
  {
    if s != [] {
      var init, f := s[..|s| - 1], s[|s| - 1];
      OfQuantMembers(init, quant);
      assert s == init + [f];
    }
  }

  lemma LateInsert(s: seq<File>, f: File, quant: Quant)
    requires s != [] && Sorted(QuantThenPlainest, s) && !AtMost(QuantThenPlainest, s[0], f) && f.quant == quant
    ensures Insert(Plainest, OfQuant(s, quant), f) == [f] + OfQuant(s, quant)
  {
    var own := OfQuant(s, quant);
    OfQuantMembers(s, quant);
    if own != [] {
      assert own[0] in own;
      var i :| 0 <= i < |s| && s[i] == own[0];
      assert i > 0 ==> AtMost(QuantThenPlainest, s[0], s[i]);
    }
  }

  /** Sorting everything by quantization and then by plainness sorts each quantization by plainness. */
  lemma {:induction false} InsertOfQuant(s: seq<File>, f: File, quant: Quant)
    requires Sorted(QuantThenPlainest, s)
    ensures OfQuant(Insert(QuantThenPlainest, s, f), quant) ==
            if f.quant == quant then Insert(Plainest, OfQuant(s, quant), f) else OfQuant(s, quant)
  {
    if s == [] {
      assert [f][..0] == [];
    } else {
      var head, rest := s[0], s[1..];
      assert s == [head] + rest;
      OfQuantFront(head, rest, quant);
      if AtMost(QuantThenPlainest, head, f) {
        InsertOfQuant(rest, f, quant);
        OfQuantFront(head, Insert(QuantThenPlainest, rest, f), quant);
        if head.quant == quant {
          assert OfQuant(s, quant)[1..] == OfQuant(rest, quant);
        }
      } else {
        OfQuantFront(f, s, quant);
        if f.quant == quant {
          LateInsert(s, f, quant);
        }
      }
    }
  }

  lemma {:induction false} SortOfQuant(s: seq<File>, quant: Quant)
    ensures OfQuant(SortBy(QuantThenPlainest, s), quant) == SortBy(Plainest, OfQuant(s, quant))
  {
    if s != [] {
      var init, f := s[..|s| - 1], s[|s| - 1];
      SortOfQuant(init, quant);
      SortSorts(QuantThenPlainest, init);
      InsertOfQuant(SortBy(QuantThenPlainest, init), f, quant);
      var own := OfQuant(init, quant);
      assert (own + [f])[..|own|] == own;
    }
  }

  /** What is left of each quantization is its first file. */
  lemma {:induction false} DedupFirst(s: seq<File>, quant: Quant)
    requires Sorted(QuantThenPlainest, s)
    ensures OfQuant(Dedup(s), quant) == if OfQuant(s, quant) == [] then [] else [OfQuant(s, quant)[0]]
  {
    if s != [] {
      var init, f := s[..|s| - 1], s[|s| - 1];
      DedupFirst(init, quant);
      OfQuantMembers(init, quant);
      var kept := Dedup(init);
      assert (kept + [f])[..|kept|] == kept;
      if f.quant == quant {
        if init != [] && init[|init| - 1].quant == quant {
          assert init[|init| - 1] in OfQuant(init, quant);
        } else if OfQuant(init, quant) != [] {
          EarlierQuant(init, f, quant);
        }
      }
    }
  }

  lemma EarlierQuant(init: seq<File>, f: File, quant: Quant)
    requires Sorted(QuantThenPlainest, init + [f]) && f.quant == quant
    requires init != [] ==> init[|init| - 1].quant != quant
    ensures OfQuant(init, quant) == []
  {
    var all := init + [f];
    forall i | 0 <= i < |init|
      ensures init[i].quant != quant
    {
      assert AtMost(QuantThenPlainest, all[|init| - 1], all[|init|]);
      assert i < |init| - 1 ==> AtMost(QuantThenPlainest, all[i], all[|init| - 1]);
    }
    NoneOfQuant(init, quant);
  }

  lemma {:induction false} NoneOfQuant(s: seq<File>, quant: Quant)
    requires forall i :: 0 <= i < |s| ==> s[i].quant != quant
    ensures OfQuant(s, quant) == []
  {
    if s != [] {
      NoneOfQuant(s[..|s| - 1], quant);
    }
  }
}

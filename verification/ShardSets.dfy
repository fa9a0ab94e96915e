/** Sets of GGUF shards: when one is complete, and which one is preferred. */
module ShardSets {
  import opened Wrappers

  /** What the shards of one set share: the text before the index and the text after "-of-", each
      by its rank among all texts, and the length of both together. */
  datatype Key = Key(length: nat, prefix: int, text: int)

  datatype Part = Part(key: Key, index: nat, total: Option<nat>)

  /** A quantization, by its rank in lexicographic order. */
  datatype Quant = Quant(rank: int)

  /** The identity of a model family. */
  datatype Family = Family(id: int)

  /** A repository file.  A name is given by its rank in lexicographic order and its length. */
  datatype File = File(name: int, length: nat, quant: Quant, family: Family, size: nat, model: bool, part: Option<Part>)

  predicate AllShards(files: seq<File>) {
    forall i :: 0 <= i < |files| ==> files[i].part.Some?
  }

  // ---------- completeness ----------

  function Indices(files: seq<File>): set<nat> {
    if files == [] then {}
    else
      var init, f := files[..|files| - 1], files[|files| - 1];
      if f.part.Some? then Indices(init) + {f.part.value.index} else Indices(init)
  }

  function OneTo(n: nat): set<nat> {
    if n == 0 then {} else OneTo(n - 1) + {n}
  }

  lemma {:induction false} OneToMembers(n: nat)
    ensures forall i: nat :: i in OneTo(n) <==> 1 <= i <= n
  {
    if n > 0 {
      OneToMembers(n - 1);
    }
  }

  /** Every shard says how many there are, and their indices are exactly 1 up to that number. */
  predicate Complete(files: seq<File>) {
    files != []
    && (forall i :: 0 <= i < |files| ==> files[i].part.Some? && files[i].part.value.total == Some(|files|))
    && Indices(files) == OneTo(|files|)
  }

  lemma {:induction false} OneToSize(n: nat)
    ensures |OneTo(n)| == n
  {
    if n > 0 {
      OneToSize(n - 1);
      OneToMembers(n - 1);
    }
  }

  lemma IndicesSnoc(files: seq<File>, f: File)
    requires f.part.Some?
    ensures Indices(files + [f]) == Indices(files) + {f.part.value.index}
  {
    assert (files + [f])[..|files|] == files;
  }

  lemma NoIndices()
    ensures Indices([]) == {}
  {
  }

  lemma {:induction false} IndicesSize(files: seq<File>)
    ensures |Indices(files)| <= |files|
  {
    if files != [] {
      IndicesSize(files[..|files| - 1]);
    }
  }

  lemma {:induction false} IndicesMember(files: seq<File>, i: nat)
    requires i < |files| && files[i].part.Some?
    ensures files[i].part.value.index in Indices(files)
  {
    if i < |files| - 1 {
      IndicesMember(files[..|files| - 1], i);
    }
  }

  /** A repeated index leaves too few different ones. */
  lemma {:induction false} RepeatShrinks(files: seq<File>, i: nat)
    requires i < |files| && files[i].part.Some? && files[i].part.value.index in Indices(files[..i])
    ensures |Indices(files)| < |files|
  {
    var init := files[..|files| - 1];
    if i == |init| {
      IndicesSize(init);
    } else {
      assert init[..i] == files[..i];
      RepeatShrinks(init, i);
    }
  }

  lemma NotComplete(files: seq<File>, i: nat)
    requires AllShards(files) && i < |files|
    requires var index := files[i].part.value.index;
             index < 1 || index > |files| || index in Indices(files[..i])
    ensures !Complete(files)
  {
    OneToSize(|files|);
    OneToMembers(|files|);
    IndicesMember(files, i);
    if files[i].part.value.index in Indices(files[..i]) {
      RepeatShrinks(files, i);
    }
  }

  /** Counts the shards and looks for a wrong total, an index out of range or a repeated one; by
      the pigeonhole principle nothing else can be missing. */
  method IsCompleteShardSet(files: seq<File>) returns (complete: bool)
    requires AllShards(files)
    ensures complete == Complete(files)
  {
    if files == [] {
      return false;
    }
    var expected := files[0].part.value.total;
    if expected.None? || |files| != expected.value {
      return false;
    }
    var indices: set<nat> := {};
    OneToMembers(|files|);
    OneToSize(|files|);
    hide OneTo, Indices;
    NoIndices();
    assert files[..0] == [];
    for i := 0 to |files|
      invariant forall j :: 0 <= j < i ==> files[j].part.value.total == expected
      invariant indices == Indices(files[..i]) && |indices| == i && indices <= OneTo(|files|)
    {
      var part := files[i].part.value;
      if part.total != expected {
        return false;
      }
      if part.index < 1 || part.index > expected.value || part.index in indices {
        NotComplete(files, i);
        return false;
      }
      assert files[..i + 1] == files[..i] + [files[i]];
      IndicesSnoc(files[..i], files[i]);
      indices := indices + {part.index};
    }
    assert files[..|files|] == files;
    SubsetOfSameSize(indices, OneTo(|files|));
    return true;
  }

  // ---------- the preferred set ----------

  function KeyOf(f: File): Key {
    if f.part.Some? then f.part.value.key else Key(0, 0, 0)
  }

  function InGroup(files: seq<File>, key: Key): seq<File> {
    if files == [] then []
    else
      var init, f := files[..|files| - 1], files[|files| - 1];
      if KeyOf(f) == key then InGroup(init, key) + [f] else InGroup(init, key)
  }

  /** Complete sets come first, then shorter names, then the order of the names. */
  predicate Better(files: seq<File>, a: Key, b: Key) {
    var ca, cb := Complete(InGroup(files, a)), Complete(InGroup(files, b));
    if ca != cb then ca
    else if a.length != b.length then a.length < b.length
    else if a.prefix != b.prefix then a.prefix < b.prefix
    else a.text < b.text
  }

  ghost predicate HasKey(files: seq<File>, key: Key) {
    exists f :: f in files && KeyOf(f) == key
  }

  ghost predicate Preferred(files: seq<File>, key: Key) {
    HasKey(files, key)
    && forall other :: HasKey(files, other) && other != key ==> Better(files, key, other)
  }

  lemma BetterIsOrder(files: seq<File>, a: Key, b: Key, c: Key)
    ensures Better(files, a, b) && Better(files, b, c) ==> Better(files, a, c)
    ensures a != b ==> (Better(files, a, b) <==> !Better(files, b, a))
    ensures !Better(files, a, a)
  {
  }

  lemma OnlyOnePreferred(files: seq<File>, a: Key, b: Key)
    requires Preferred(files, a) && Preferred(files, b)
    ensures a == b
  {
    BetterIsOrder(files, a, b, a);
  }

  /** The best key among the first files. */
  function BestOf(files: seq<File>, front: seq<File>): (best: Key)
    requires front != []
  {
    var f := front[|front| - 1];
    if |front| == 1 then KeyOf(f)
    else
      var earlier := BestOf(files, front[..|front| - 1]);
      if Better(files, KeyOf(f), earlier) then KeyOf(f) else earlier
  }

  lemma {:induction false} BestIsBest(files: seq<File>, front: seq<File>)
    requires front != []
    ensures HasKey(front, BestOf(files, front))
    ensures forall other :: HasKey(front, other) && other != BestOf(files, front) ==>
              Better(files, BestOf(files, front), other)
  {
    var init, f := front[..|front| - 1], front[|front| - 1];
    assert front == init + [f];
    assert f in front;
    if init != [] {
      BestIsBest(files, init);
      var earlier, best := BestOf(files, init), BestOf(files, front);
      forall other | HasKey(front, other) && other != best
        ensures Better(files, best, other)
      {
        assert HasKey(init, other) || other == KeyOf(f);
        BetterIsOrder(files, best, earlier, other);
        BetterIsOrder(files, earlier, KeyOf(f), earlier);
      }
    }
  }

  function PreferredKey(files: seq<File>): Key
    requires files != []
  {
    BestOf(files, files)
  }

  lemma PreferredKeyIsPreferred(files: seq<File>)
    requires files != []
    ensures Preferred(files, PreferredKey(files))
  {
    BestIsBest(files, files);
  }

  function PreferredSet(files: seq<File>): seq<File> {
    if files == [] then [] else InGroup(files, PreferredKey(files))
  }

  lemma GroupSnoc(files: seq<File>, f: File, key: Key)
    ensures InGroup(files + [f], key) == if KeyOf(f) == key then InGroup(files, key) + [f] else InGroup(files, key)
  {
    assert (files + [f])[..|files|] == files;
  }

  lemma {:induction false} GroupIsShards(files: seq<File>, key: Key)
    requires AllShards(files)
    ensures AllShards(InGroup(files, key))
  {
    if files != [] {
      GroupIsShards(files[..|files| - 1], key);
    }
  }

  /** Groups the shards in a hash map and takes the best group, whatever order the map yields. */
  method SelectPreferredShardSet(files: seq<File>) returns (best: seq<File>)
    requires AllShards(files)
    ensures best == PreferredSet(files)
  {
    var sets: map<Key, seq<File>> := map[];
    for i := 0 to |files|
      invariant forall key :: key in sets <==> HasKey(files[..i], key)
      invariant forall key :: key in sets ==> sets[key] == InGroup(files[..i], key)
    {
      var key := files[i].part.value.key;
      assert files[..i + 1] == files[..i] + [files[i]];
      Grouped(files[..i], files[i], sets);
      sets := sets[key := (if key in sets then sets[key] else []) + [files[i]]];
    }
    assert files[..|files|] == files;
    best := BestSet(files, sets);
  }

  lemma Grouped(front: seq<File>, f: File, sets: map<Key, seq<File>>)
    requires forall key :: key in sets <==> HasKey(front, key)
    requires forall key :: key in sets ==> sets[key] == InGroup(front, key)
    ensures forall key :: HasKey(front + [f], key) <==> HasKey(front, key) || key == KeyOf(f)
    ensures InGroup(front + [f], KeyOf(f)) == (if KeyOf(f) in sets then sets[KeyOf(f)] else []) + [f]
    ensures forall key :: key in sets && key != KeyOf(f) ==> InGroup(front + [f], key) == sets[key]
  {
    forall key
      ensures HasKey(front + [f], key) <==> HasKey(front, key) || key == KeyOf(f)
    {
      assert f in front + [f];
      if HasKey(front, key) {
        var g :| g in front && KeyOf(g) == key;
        assert g in front + [f];
      }
    }
    forall key
      ensures InGroup(front + [f], key) == if KeyOf(f) == key then InGroup(front, key) + [f] else InGroup(front, key)
    {
      GroupSnoc(front, f, key);
    }
    if KeyOf(f) !in sets {
      NoGroup(front, KeyOf(f));
    }
  }

  lemma {:induction false} NoGroup(files: seq<File>, key: Key)
    requires !HasKey(files, key)
    ensures InGroup(files, key) == []
  {
    if files != [] {
      var init, f := files[..|files| - 1], files[|files| - 1];
      assert f in files;
      forall g | g in init
        ensures KeyOf(g) != key
      {
        assert g in files;
      }
      NoGroup(init, key);
    }
  }

  method BestSet(files: seq<File>, sets: map<Key, seq<File>>) returns (best: seq<File>)
    requires AllShards(files)
    requires forall key :: key in sets <==> HasKey(files, key)
    requires forall key :: key in sets ==> sets[key] == InGroup(files, key)
    ensures best == PreferredSet(files)
  {
    best := [];
    var bestKey := Key(0, 0, 0);
    var bestComplete := false;
    var todo := sets.Keys;
    var any := false;
    while todo != {}
      invariant todo <= sets.Keys
      invariant any <==> todo != sets.Keys
      invariant !any ==> best == []
      invariant any ==> bestKey in sets && bestKey !in todo && best == sets[bestKey]
                        && bestComplete == Complete(best)
      invariant forall key :: any && key in sets && key !in todo && key != bestKey ==> Better(files, bestKey, key)
      decreases |todo|
    {
      var key :| key in todo;
      GroupIsShards(files, key);
      var complete := IsCompleteShardSet(sets[key]);
      var wins := !any
                  || (if complete != bestComplete then complete
                      else if key.length != bestKey.length then key.length < bestKey.length
                      else if key.prefix != bestKey.prefix then key.prefix < bestKey.prefix
                      else key.text < bestKey.text);
      assert any ==> (wins <==> Better(files, key, bestKey));
      StaysBest(files, sets.Keys - todo, bestKey, key, any, wins);
      if wins {
        best, bestKey, bestComplete := sets[key], key, complete;
      }
      any := true;
      todo := todo - {key};
    }
    BestFound(files, sets, bestKey, any);
  }

  lemma StaysBest(files: seq<File>, done: set<Key>, best: Key, key: Key, any: bool, wins: bool)
    requires any ==> best in done && (wins <==> Better(files, key, best))
    requires !any ==> done == {} && wins
    requires key !in done
    requires forall other :: any && other in done && other != best ==> Better(files, best, other)
    ensures var next := if wins then key else best;
            forall other :: other in done + {key} && other != next ==> Better(files, next, other)
  {
    forall other | other in done + {key} && other != if wins then key else best
      ensures Better(files, if wins then key else best, other)
    {
      BetterIsOrder(files, key, best, other);
      BetterIsOrder(files, best, key, best);
    }
  }

  lemma BestFound(files: seq<File>, sets: map<Key, seq<File>>, best: Key, any: bool)
    requires forall key :: key in sets <==> HasKey(files, key)
    requires any <==> sets.Keys != {}
    requires any ==> best in sets && forall key :: key in sets && key != best ==> Better(files, best, key)
    ensures any <==> files != []
    ensures any ==> best == PreferredKey(files)
  {
    if files != [] {
      PreferredKeyIsPreferred(files);
      assert PreferredKey(files) in sets.Keys;
    }
    if any {
      assert HasKey(files, best);
      OnlyOnePreferred(files, best, PreferredKey(files));
    }
  }

  // ---------- what the choice depends on ----------

  /** A complete set is chosen whenever there is one. */
  lemma CompleteWheneverPossible(files: seq<File>, key: Key)
    requires HasKey(files, key) && Complete(InGroup(files, key))
    ensures Complete(PreferredSet(files))
  {
    PreferredKeyIsPreferred(files);
    assert Better(files, PreferredKey(files), key) || PreferredKey(files) == key;
  }

  lemma {:induction false} GroupCount(files: seq<File>, key: Key, f: File)
    ensures multiset(InGroup(files, key))[f] == if KeyOf(f) == key then multiset(files)[f] else 0
  {
    if files != [] {
      var init, last := files[..|files| - 1], files[|files| - 1];
      GroupCount(init, key, f);
      assert files == init + [last];
    }
  }

  lemma {:induction false} IndicesAre(files: seq<File>, index: nat)
    ensures index in Indices(files) <==> exists f :: f in files && f.part.Some? && f.part.value.index == index
  {
    if files != [] {
      var init, f := files[..|files| - 1], files[|files| - 1];
      IndicesAre(init, index);
      assert files == init + [f];
    }
  }

  lemma CompleteOfPermutation(a: seq<File>, b: seq<File>)
    requires multiset(a) == multiset(b) && Complete(a)
    ensures Complete(b)
  {
    assert |a| == |multiset(a)| == |multiset(b)| == |b|;
    forall f
      ensures f in a <==> f in b
    {
      assert f in a <==> f in multiset(a);
      assert f in b <==> f in multiset(b);
    }
    forall i | 0 <= i < |b|
      ensures b[i].part.Some? && b[i].part.value.total == Some(|b|)
    {
      assert b[i] in a;
    }
    forall index: nat
      ensures index in Indices(a) <==> index in Indices(b)
    {
      IndicesAre(a, index);
      IndicesAre(b, index);
    }
  }

  lemma GroupOfPermutation(a: seq<File>, b: seq<File>, key: Key)
    requires multiset(a) == multiset(b)
    ensures multiset(InGroup(a, key)) == multiset(InGroup(b, key))
    ensures Complete(InGroup(a, key)) == Complete(InGroup(b, key))
    ensures HasKey(a, key) == HasKey(b, key)
  {
    forall f: File
      ensures multiset(InGroup(a, key))[f] == multiset(InGroup(b, key))[f]
    {
      GroupCount(a, key, f);
      GroupCount(b, key, f);
    }
    assert multiset(InGroup(a, key)) == multiset(InGroup(b, key));
    if Complete(InGroup(a, key)) {
      CompleteOfPermutation(InGroup(a, key), InGroup(b, key));
    }
    if Complete(InGroup(b, key)) {
      CompleteOfPermutation(InGroup(b, key), InGroup(a, key));
    }
    forall f
      ensures f in a <==> f in b
    {
      assert f in a <==> f in multiset(a);
      assert f in b <==> f in multiset(b);
    }
  }

  /** The choice does not depend on the order in which the repository lists its files. */
  lemma ChoiceIgnoresOrder(a: seq<File>, b: seq<File>)
    requires multiset(a) == multiset(b)
    ensures multiset(PreferredSet(a)) == multiset(PreferredSet(b))
  {
    assert |a| == |multiset(a)| == |multiset(b)| == |b|;
    if a != [] {
      PreferredKeyIsPreferred(a);
      PreferredKeyIsPreferred(b);
      forall key
        ensures HasKey(a, key) == HasKey(b, key)
        ensures Complete(InGroup(a, key)) == Complete(InGroup(b, key))
      {
        GroupOfPermutation(a, b, key);
      }
      var key := PreferredKey(a);
      forall other | HasKey(b, other) && other != key
        ensures Better(b, key, other)
      {
        assert Better(a, key, other);
      }
      OnlyOnePreferred(b, key, PreferredKey(b));
      GroupOfPermutation(a, b, key);
    }
  }
}

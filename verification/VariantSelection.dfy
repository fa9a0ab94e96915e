/** The two selections as the program makes them, and their agreement. */
module VariantSelection {
  import opened Wrappers
  import opened ShardSets
  import opened Variants

  // ---------- what is offered for a quantization ----------

  lemma {:induction false} PartsMembers(files: seq<File>, sharded: bool)
    ensures forall f :: f in Parts(files, sharded) <==> f in files && f.part.Some? == sharded
  {
    if files != [] {
      var init, f := files[..|files| - 1], files[|files| - 1];
      PartsMembers(init, sharded);
      assert files == init + [f];
    }
  }

  lemma PartsAreShards(files: seq<File>)
    ensures AllShards(Parts(files, true))
  {
    PartsMembers(files, true);
    forall i | 0 <= i < |Parts(files, true)|
      ensures Parts(files, true)[i].part.Some?
    {
      assert Parts(files, true)[i] in Parts(files, true);
    }
  }

  lemma PartsCover(files: seq<File>)
    requires files != []
    ensures Parts(files, false) != [] || Parts(files, true) != []
  {
    PartsMembers(files, false);
    PartsMembers(files, true);
    assert files[0] in files;
  }

  lemma {:induction false} PartsOfQuant(files: seq<File>, quant: Quant, sharded: bool)
    ensures OfQuant(Parts(files, sharded), quant) == Parts(OfQuant(files, quant), sharded)
  {
    if files != [] {
      var init, f := files[..|files| - 1], files[|files| - 1];
      PartsOfQuant(init, quant, sharded);
      var parts, own := Parts(init, sharded), OfQuant(init, quant);
      assert (parts + [f])[..|parts|] == parts && (own + [f])[..|own|] == own;
    }
  }

  lemma PreferredIsThere(files: seq<File>)
    requires files != []
    ensures PreferredSet(files) != []
  {
    PreferredKeyIsPreferred(files);
    var key := PreferredKey(files);
    var f :| f in files && KeyOf(f) == key;
    GroupCount(files, key, f);
    assert multiset(InGroup(files, key))[f] > 0;
  }

  lemma ChosenIsThere(files: seq<File>)
    requires files != []
    ensures Chosen(files) != []
  {
    PartsCover(files);
    SortSorts(Plainest, Parts(files, false));
    if Parts(files, false) == [] {
      PreferredIsThere(Parts(files, true));
      SortSorts(ByName, PreferredSet(Parts(files, true)));
    }
  }

  /** The variant for the files of one quantization. */
  function Offer(own: seq<File>): Variant
    requires own != []
  {
    ChosenIsThere(own);
    if Parts(own, false) != [] then Single(Chosen(own)[0]) else Sharded(own[0].quant, Chosen(own))
  }

  // ---------- grouping ----------

  ghost predicate GroupsOf(files: seq<File>, groups: map<Quant, seq<File>>) {
    (forall quant :: quant in groups <==> OfQuant(files, quant) != [])
    && forall quant :: quant in groups ==> groups[quant] == OfQuant(files, quant)
  }

  method ByQuant(files: seq<File>) returns (groups: map<Quant, seq<File>>)
    ensures GroupsOf(files, groups)
  {
    groups := map[];
    for i := 0 to |files|
      invariant GroupsOf(files[..i], groups)
    {
      var f := files[i];
      assert files[..i + 1] == files[..i] + [f];
      forall quant
        ensures OfQuant(files[..i + 1], quant) ==
                if f.quant == quant then OfQuant(files[..i], quant) + [f] else OfQuant(files[..i], quant)
      {
        OfQuantSnoc(files[..i], f, quant);
      }
      groups := groups[f.quant := (if f.quant in groups then groups[f.quant] else []) + [f]];
    }
    assert files[..|files|] == files;
  }

  method EnsureOneFamily(files: seq<File>) returns (unambiguous: bool)
    ensures unambiguous == OneFamily(files)
  {
    var families: set<Family> := {};
    for i := 0 to |files|
      invariant forall x :: x in families ==> exists j :: 0 <= j < i && files[j].family == x
      invariant forall j :: 0 <= j < i ==> files[j].family in families
    {
      families := families + {files[i].family};
    }
    unambiguous := |families| <= 1;
    if files != [] {
      AtMostOne(families, files[0].family);
    }
  }

  lemma AtMostOne(s: set<Family>, x: Family)
    requires x in s
    ensures |s| <= 1 <==> forall y :: y in s ==> y == x
  {
    if y :| y in s && y != x {
      assert |s - {x}| == |s| - 1;
      assert y in s - {x};
    } else {
      assert s == {x};
    }
  }

  method KnownFiles(files: seq<File>) returns (known: seq<File>)
    ensures known == Known(files)
  {
    known := [];
    for i := 0 to |files|
      invariant known == Known(files[..i])
    {
      assert files[..i + 1][..i] == files[..i];
      if files[i].model && files[i].quant != UNKNOWN {
        known := known + [files[i]];
      }
    }
    assert files[..|files|] == files;
  }

  method Separate(files: seq<File>) returns (singles: seq<File>, shards: seq<File>)
    ensures singles == Parts(files, false) && shards == Parts(files, true)
  {
    singles, shards := [], [];
    for i := 0 to |files|
      invariant singles == Parts(files[..i], false) && shards == Parts(files[..i], true)
    {
      assert files[..i + 1][..i] == files[..i];
      if files[i].part.Some? {
        shards := shards + [files[i]];
      } else {
        singles := singles + [files[i]];
      }
    }
    assert files[..|files|] == files;
  }

  /** Whether the files of every quantization belong to one family. */
  predicate Unambiguous(known: seq<File>) {
    forall f :: f in known ==> OneFamily(OfQuant(known, f.quant))
  }

  method EnsureUnambiguous(known: seq<File>) returns (unambiguous: bool)
    ensures unambiguous == Unambiguous(known)
  {
    var groups := ByQuant(known);
    var todo := groups.Keys;
    while todo != {}
      invariant todo <= groups.Keys
      invariant forall quant :: quant in groups && quant !in todo ==> OneFamily(groups[quant])
    {
      var quant :| quant in todo;
      var one := EnsureOneFamily(groups[quant]);
      OfQuantMembers(known, quant);
      if !one {
        var f := groups[quant][0];
        assert f in groups[quant];
        assert f in known && f.quant == quant;
        return false;
      }
      todo := todo - {quant};
    }
    forall f | f in known
      ensures OneFamily(OfQuant(known, f.quant))
    {
      OfQuantMembers(known, f.quant);
      assert f in OfQuant(known, f.quant);
    }
    return true;
  }

  // ---------- the catalogue ----------

  /** Each variant is what its quantization's files offer, and no quantization appears twice. */
  predicate Offered(known: seq<File>, variants: seq<Variant>) {
    (forall i :: 0 <= i < |variants| ==>
       OfQuant(known, variants[i].quant) != [] && variants[i] == Offer(OfQuant(known, variants[i].quant)))
    && forall i, j :: 0 <= i < j < |variants| ==> variants[i].quant != variants[j].quant
  }

  predicate Lists(variants: seq<Variant>, quant: Quant) {
    exists i :: 0 <= i < |variants| && variants[i].quant == quant
  }

  lemma DedupQuants(s: seq<File>, i: nat, j: nat)
    requires Sorted(QuantThenPlainest, s) && i < j < |Dedup(s)|
    ensures Dedup(s)[i].quant != Dedup(s)[j].quant
  {
    DedupFirst(s, Dedup(s)[j].quant);
    TwiceOfQuant(Dedup(s), i, j);
  }

  lemma TwiceOfQuant(s: seq<File>, i: nat, j: nat)
    requires i < j < |s|
    ensures s[i].quant == s[j].quant ==> |OfQuant(s, s[j].quant)| >= 2
  {
    var quant, front, back := s[j].quant, s[..j], s[j..];
    assert s == front + back;
    OfQuantConcat(front, back, quant);
    OfQuantMembers(front, quant);
    OfQuantMembers(back, quant);
    assert front[i] in front && back[0] in back;
    assert s[i].quant == quant ==> front[i] in OfQuant(front, quant);
    assert back[0] in OfQuant(back, quant);
  }

  /** The files kept by sorting and deduplicating are those the quantizations offer. */
  lemma KeptAreOffered(known: seq<File>, i: nat)
    requires var kept := Dedup(SortBy(QuantThenPlainest, Parts(known, false))); i < |kept|
    ensures var f := Dedup(SortBy(QuantThenPlainest, Parts(known, false)))[i];
            OfQuant(known, f.quant) != [] && Single(f) == Offer(OfQuant(known, f.quant))
            && Parts(OfQuant(known, f.quant), false) != []
  {
    var singles := Parts(known, false);
    var sorted := SortBy(QuantThenPlainest, singles);
    var f := Dedup(sorted)[i];
    var own := OfQuant(known, f.quant);
    SortSorts(QuantThenPlainest, singles);
    DedupFirst(sorted, f.quant);
    OfQuantMembers(Dedup(sorted), f.quant);
    assert f in OfQuant(Dedup(sorted), f.quant);
    SortOfQuant(singles, f.quant);
    PartsOfQuant(known, f.quant, false);
    SortSorts(Plainest, Parts(own, false));
    PartsMembers(own, false);
  }

  /** Every quantization with a single file keeps one. */
  lemma SinglesAreKept(known: seq<File>, quant: Quant)
    requires Parts(OfQuant(known, quant), false) != []
    ensures exists f :: f in Dedup(SortBy(QuantThenPlainest, Parts(known, false))) && f.quant == quant
  {
    var singles := Parts(known, false);
    var sorted := SortBy(QuantThenPlainest, singles);
    SortSorts(QuantThenPlainest, singles);
    DedupFirst(sorted, quant);
    SortOfQuant(singles, quant);
    PartsOfQuant(known, quant, false);
    SortSorts(Plainest, Parts(OfQuant(known, quant), false));
    var kept := OfQuant(Dedup(sorted), quant);
    assert kept != [];
    OfQuantMembers(Dedup(sorted), quant);
    assert kept[0] in kept;
  }

  /** Gathers the model files by quantization, once for single files and once for shards. */
  method GroupIntoVariants(files: seq<File>) returns (variants: Option<seq<Variant>>)
    ensures variants.Some? <==> Unambiguous(Known(files))
    ensures variants.Some? ==> Offered(Known(files), variants.value)
    ensures variants.Some? ==> forall f :: f in Known(files) ==> Lists(variants.value, f.quant)
  {
    var known := KnownFiles(files);
    var unambiguous := EnsureUnambiguous(known);
    if !unambiguous {
      return None;
    }
    var singles, shards := Separate(known);
    var offers, seen := OfferSingles(known, singles);
    offers := OfferShards(known, shards, offers, seen);
    forall f | f in known
      ensures Lists(offers, f.quant)
    {
      OfQuantMembers(known, f.quant);
      assert f in OfQuant(known, f.quant);
      PartsCover(OfQuant(known, f.quant));
      PartsOfQuant(known, f.quant, true);
    }
    return Some(offers);
  }

  method OfferSingles(known: seq<File>, singles: seq<File>) returns (offers: seq<Variant>, seen: set<Quant>)
    requires singles == Parts(known, false)
    ensures Offered(known, offers)
    ensures forall quant :: quant in seen <==> Lists(offers, quant)
    ensures forall quant :: Lists(offers, quant) <==> Parts(OfQuant(known, quant), false) != []
  {
    hide SortBy, Dedup, Offer, OfQuant, Sorted;
    var sorted := SortBy(QuantThenPlainest, singles);
    var kept := Dedup(sorted);
    SortSorts(QuantThenPlainest, singles);
    offers, seen := [], {};
    for i := 0 to |kept|
      invariant |offers| == i
      invariant forall j :: 0 <= j < i ==> offers[j] == Single(kept[j])
      invariant Offered(known, offers)
      invariant forall quant :: quant in seen <==> Lists(offers, quant)
    {
      KeptAreOffered(known, i);
      forall j | 0 <= j < i
        ensures kept[j].quant != kept[i].quant
      {
        DedupQuants(sorted, j, i);
      }
      ListsOneMore(offers, Single(kept[i]));
      OfferedOneMore(known, offers, Single(kept[i]));
      seen := seen + {kept[i].quant};
      offers := offers + [Single(kept[i])];
    }
    forall quant
      ensures Lists(offers, quant) <==> Parts(OfQuant(known, quant), false) != []
    {
      SinglesListed(known, kept, offers, quant);
    }
  }

  lemma ListsOneMore(offers: seq<Variant>, v: Variant)
    ensures forall quant :: Lists(offers + [v], quant) <==> Lists(offers, quant) || quant == v.quant
  {
    var all := offers + [v];
    assert all[|offers|] == v;
    forall quant | Lists(offers, quant)
      ensures Lists(all, quant)
    {
      var i :| 0 <= i < |offers| && offers[i].quant == quant;
      assert all[i].quant == quant;
    }
  }

  lemma SinglesListed(known: seq<File>, kept: seq<File>, offers: seq<Variant>, quant: Quant)
    requires kept == Dedup(SortBy(QuantThenPlainest, Parts(known, false)))
    requires |offers| == |kept| && forall j :: 0 <= j < |kept| ==> offers[j] == Single(kept[j])
    ensures Lists(offers, quant) <==> Parts(OfQuant(known, quant), false) != []
  {
    if Parts(OfQuant(known, quant), false) != [] {
      SinglesAreKept(known, quant);
      var f :| f in kept && f.quant == quant;
      var i :| 0 <= i < |kept| && kept[i] == f;
      assert offers[i].quant == quant;
    }
    if i :| 0 <= i < |offers| && offers[i].quant == quant {
      KeptAreOffered(known, i);
    }
  }

  method OfferShards(known: seq<File>, shards: seq<File>, singles: seq<Variant>, seen: set<Quant>)
    returns (offers: seq<Variant>)
    requires shards == Parts(known, true) && Offered(known, singles)
    requires forall quant :: quant in seen <==> Lists(singles, quant)
    requires forall quant :: Lists(singles, quant) <==> Parts(OfQuant(known, quant), false) != []
    ensures Offered(known, offers)
    ensures forall quant :: Lists(offers, quant) <==> Lists(singles, quant) || OfQuant(shards, quant) != []
  {
    var groups := ByQuant(shards);
    offers := singles;
    var todo := groups.Keys;
    while todo != {}
      invariant todo <= groups.Keys
      invariant Offered(known, offers)
      invariant forall quant :: Lists(offers, quant) <==> quant in seen || (quant in groups && quant !in todo)
    {
      var quant :| quant in todo;
      if quant !in seen {
        ShardsOffered(known, quant);
        var chosen := SelectPreferredShardSet(groups[quant]);
        chosen := SortBy(ByName, chosen);
        ListsOneMore(offers, Sharded(quant, chosen));
        OfferedOneMore(known, offers, Sharded(quant, chosen));
        offers := offers + [Sharded(quant, chosen)];
      }
      todo := todo - {quant};
    }
  }

  lemma OfferedOneMore(known: seq<File>, offers: seq<Variant>, v: Variant)
    requires Offered(known, offers) && !Lists(offers, v.quant)
    requires OfQuant(known, v.quant) != [] && v == Offer(OfQuant(known, v.quant))
    ensures Offered(known, offers + [v])
  {
  }

  lemma ShardsOffered(known: seq<File>, quant: Quant)
    requires OfQuant(Parts(known, true), quant) != [] && Parts(OfQuant(known, quant), false) == []
    ensures AllShards(OfQuant(Parts(known, true), quant))
    ensures var chosen := SortBy(ByName, PreferredSet(OfQuant(Parts(known, true), quant)));
            chosen != [] && OfQuant(known, quant) != [] && Sharded(quant, chosen) == Offer(OfQuant(known, quant))
  {
    var own := OfQuant(known, quant);
    PartsOfQuant(known, quant, true);
    PartsAreShards(own);
    PartsMembers(own, true);
    assert Parts(own, true)[0] in Parts(own, true);
    ChosenIsThere(own);
    OfQuantMembers(known, quant);
    assert own[0] in own;
  }

  // ---------- resolving ----------

  method FindMatching(files: seq<File>, wanted: Quant, fold: Quant -> Quant) returns (matching: seq<File>)
    ensures matching == Matching(files, wanted, fold)
  {
    matching := [];
    for i := 0 to |files|
      invariant matching == Matching(files[..i], wanted, fold)
    {
      assert files[..i + 1][..i] == files[..i];
      if files[i].model && fold(files[i].quant) == fold(wanted) {
        matching := matching + [files[i]];
      }
    }
    assert files[..|files|] == files;
  }

  method CheckSequence(shards: seq<File>) returns (ok: bool)
    requires shards != [] && AllShards(shards)
    ensures ok == InSequence(shards)
  {
    var expected := shards[0].part.value.total;
    if expected.None? || |shards| != expected.value {
      return false;
    }
    for i := 0 to |shards|
      invariant forall j :: 0 <= j < i ==>
                  shards[j].part.value.total == Some(|shards|) && shards[j].part.value.index == j + 1
    {
      if shards[i].part.value.total != expected || shards[i].part.value.index != i + 1 {
        return false;
      }
    }
    return true;
  }

  method ResolveModelSpec(files: seq<File>, wanted: Quant, fold: Quant -> Quant) returns (r: Result<Resolved, Failure>)
    ensures r == Resolve(files, wanted, fold)
  {
    var matching := FindMatching(files, wanted, fold);
    if matching == [] {
      return Err(NotFound);
    }
    var unambiguous := EnsureOneFamily(matching);
    if !unambiguous {
      return Err(Ambiguous);
    }
    var singles, shards := Separate(matching);
    singles := SortBy(Plainest, singles);
    SortSorts(Plainest, Parts(matching, false));
    if singles != [] {
      return Ok(Resolved([singles[0]], TotalSize([singles[0]])));
    }
    PartsAreShards(matching);
    shards := SelectPreferredShardSet(shards);
    ChosenShards(matching);
    shards := SortBy(ByName, shards);
    var ok := CheckSequence(shards);
    if !ok {
      return Err(BadShards);
    }
    return Ok(Resolved(shards, TotalSize(shards)));
  }

  lemma ChosenShards(matching: seq<File>)
    requires matching != [] && Parts(matching, false) == []
    ensures Chosen(matching) != [] && AllShards(Chosen(matching))
  {
    var shards := Parts(matching, true);
    ChosenIsThere(matching);
    PartsAreShards(matching);
    PartsCover(matching);
    GroupIsShards(shards, PreferredKey(shards));
    SortSorts(ByName, PreferredSet(shards));
    forall i | 0 <= i < |Chosen(matching)|
      ensures Chosen(matching)[i].part.Some?
    {
      assert Chosen(matching)[i] in multiset(PreferredSet(shards));
    }
  }

  // ---------- agreement ----------

  /** No two quantizations of the repository differ only by case. */
  predicate NoCaseTwins(files: seq<File>, fold: Quant -> Quant) {
    forall f, g :: f in files && g in files && fold(f.quant) == fold(g.quant) ==> f.quant == g.quant
  }

  lemma {:induction false} MatchingIsOfQuant(files: seq<File>, f: File, front: seq<File>, fold: Quant -> Quant)
    requires NoCaseTwins(files, fold) && f in files && f.quant != UNKNOWN
    requires front <= files
    ensures Matching(front, f.quant, fold) == OfQuant(Known(front), f.quant)
  {
    if front != [] {
      var init, last := front[..|front| - 1], front[|front| - 1];
      MatchingIsOfQuant(files, f, init, fold);
      assert last == files[|front| - 1] && last in files;
      var known := Known(init);
      assert (known + [last])[..|known|] == known;
    }
  }

  lemma {:induction false} KnownMembers(files: seq<File>)
    ensures forall f :: f in Known(files) <==> f in files && f.model && f.quant != UNKNOWN
  {
    if files != [] {
      var init, f := files[..|files| - 1], files[|files| - 1];
      KnownMembers(init);
      assert files == init + [f];
    }
  }

  lemma {:induction false} MatchingMembers(files: seq<File>, quant: Quant, fold: Quant -> Quant)
    ensures forall f :: f in Matching(files, quant, fold) <==> f in files && f.model && fold(f.quant) == fold(quant)
  {
    if files != [] {
      var init, f := files[..|files| - 1], files[|files| - 1];
      MatchingMembers(init, quant, fold);
      assert files == init + [f];
    }
  }

  /** The preferred shards of a quantization resolve: they are complete, and the order of their
      names is the order of their indices. */
  predicate ShardsResolve(own: seq<File>) {
    var set_ := PreferredSet(Parts(own, true));
    Complete(set_) && IndexOrder(SortBy(ByName, set_))
  }

  /** Every advertised variant resolves to files with the advertised first name and total size.
      The one exception is a sharded variant whose preferred set is incomplete or whose names are
      not in the order of their indices: exactly those fail. */
  lemma AdvertisedIsResolved(files: seq<File>, variants: seq<Variant>, fold: Quant -> Quant, i: nat)
    requires NoCaseTwins(files, fold) && Unambiguous(Known(files)) && Offered(Known(files), variants)
    requires i < |variants|
    ensures var v, r := variants[i], Resolve(files, variants[i].quant, fold);
            var own := OfQuant(Known(files), v.quant);
            (r.Ok? <==> !v.sharded || ShardsResolve(own))
            && (r.Err? ==> r.error == BadShards)
            && (r.Ok? ==> r.value.files != [] && r.value.files[0].name == v.name && r.value.totalSize == v.size)
  {
    var known, v := Known(files), variants[i];
    var own := OfQuant(known, v.quant);
    OfQuantMembers(known, v.quant);
    KnownMembers(files);
    var f := own[0];
    assert f in own;
    assert f in known && f in files && f.quant == v.quant;
    MatchingIsOfQuant(files, f, files, fold);
    ChosenIsThere(own);
    SortSorts(Plainest, Parts(own, false));
    if Parts(own, false) == [] {
      PartsCover(own);
      PreferredIsThere(Parts(own, true));
      InSequenceExactly(PreferredSet(Parts(own, true)));
    } else {
      assert TotalSize([Chosen(own)[0]]) == TotalSize([]) + Chosen(own)[0].size;
    }
  }

  /** Two shards of one complete set, the second named before the first. */
  function SwappedShards(): seq<File> {
    var key := Key(7, 0, 0);
    [File(1, 15, Quant(0), Family(0), 10, true, Some(Part(key, 1, Some(2)))),
     File(0, 16, Quant(0), Family(0), 10, true, Some(Part(key, 2, Some(2))))]
  }

  lemma TwoShards(a: File, b: File, fold: Quant -> Quant)
    requires a.part.Some? && b.part.Some? && a.model && b.model && a.quant == b.quant
    ensures var files := [a] + [b];
            Matching(files, a.quant, fold) == files && Parts(files, true) == files && Parts(files, false) == []
  {
    var files := [a] + [b];
    assert files[..1] == [a] && [a][..0] == [];
    assert Matching([a], a.quant, fold) == Matching([], a.quant, fold) + [a] == [] + [a];
    assert Matching(files, a.quant, fold) == Matching([a], a.quant, fold) + [b];
    assert Parts([a], true) == Parts([], true) + [a] == [] + [a];
    assert Parts(files, true) == Parts([a], true) + [b];
    assert Parts([a], false) == Parts([], false) == [];
  }

  lemma TwoOfOneSet(a: File, b: File)
    requires KeyOf(a) == KeyOf(b)
    ensures PreferredSet([a] + [b]) == [a] + [b]
  {
    var files, key := [a] + [b], KeyOf(a);
    assert files[..1] == [a];
    GroupSnoc([a], b, key);
    GroupSnoc([], a, key);
    assert [] + [a] == [a];
    assert BestOf(files, [a]) == key && BestOf(files, files) == key;
  }

  lemma TwoIndices(a: File, b: File)
    requires a.part.Some? && b.part.Some? && a.part.value.index == 1 && b.part.value.index == 2
    requires a.part.value.total == Some(2) && b.part.value.total == Some(2)
    ensures Complete([a] + [b])
  {
    var files := [a] + [b];
    assert files[..1] == [a] && [a][..0] == [];
    assert OneTo(2) == OneTo(1) + {2} && OneTo(1) == OneTo(0) + {1};
    assert Indices([a]) == Indices([]) + {1} && Indices(files) == Indices([a]) + {2};
  }

  lemma SecondFirst(a: File, b: File)
    requires b.name < a.name
    ensures SortBy(ByName, [a] + [b]) == [b, a]
  {
    assert ([a] + [b])[..1] == [a] && [a][..0] == [];
    assert SortBy(ByName, [a]) == Insert(ByName, SortBy(ByName, []), a) == [a];
    assert Insert(ByName, [a], b) == [b] + [a];
  }

  lemma TwoKnown(a: File, b: File)
    requires a.model && b.model && a.quant == b.quant != UNKNOWN
    ensures Known([a] + [b]) == [a] + [b] && OfQuant([a] + [b], a.quant) == [a] + [b]
  {
    var files := [a] + [b];
    assert files[..1] == [a] && [a][..0] == [];
    assert Known([a]) == Known([]) + [a] == [] + [a];
    OfQuantSnoc([], a, a.quant);
    OfQuantSnoc([a], b, a.quant);
    assert [] + [a] == [a];
  }

  lemma TwoSizes(a: File, b: File)
    ensures TotalSize([a] + [b]) == a.size + b.size
  {
    assert ([a] + [b])[..1] == [a] && [a][..0] == [];
    assert TotalSize([a]) == TotalSize([]) + a.size;
  }

  /** What is chosen, offered and resolved, where a complete set of two is named out of order. */
  lemma OutOfOrder(a: File, b: File, fold: Quant -> Quant)
    requires a.part.Some? && b.part.Some? && a.model && b.model && a.quant == b.quant
    requires KeyOf(a) == KeyOf(b) && b.name < a.name && a.family == b.family && b.part.value.index != 1
    ensures Chosen([a] + [b]) == [b, a] && Parts([a] + [b], false) == []
    ensures Resolve([a] + [b], a.quant, fold) == Err(BadShards)
  {
    hide TotalSize, PreferredSet;
    var files := [a] + [b];
    TwoShards(a, b, fold);
    TwoOfOneSet(a, b);
    SecondFirst(a, b);
    assert SortBy(Plainest, []) == [];
    assert !InSequence([b, a]) by { assert [b, a][0] == b; }
  }

  /** Like m-02-of-2.gguf and m-1-of-2.gguf: a complete set, advertised whatever the order of the
      catalogue, and refused when it is resolved. */
  lemma UnpaddedShardsAreRefused(variants: seq<Variant>, fold: Quant -> Quant)
    ensures Unambiguous(Known(SwappedShards())) && Complete(PreferredSet(SwappedShards()))
    ensures var known := Known(SwappedShards());
            Offered(known, variants) && (forall f :: f in known ==> Lists(variants, f.quant)) ==>
              Variant(Quant(0), 0, 20, true) in variants
    ensures Resolve(SwappedShards(), Quant(0), fold) == Err(BadShards)
  {
    hide Chosen, Resolve, PreferredSet, Parts, Known, TotalSize;
    var files := SwappedShards();
    var a, b := files[0], files[1];
    assert files == [a] + [b] && [b, a] == [b] + [a];
    TwoKnown(a, b);
    OutOfOrder(a, b, fold);
    TwoOfOneSet(a, b);
    TwoIndices(a, b);
    TwoSizes(b, a);
    assert Offer(files) == Variant(Quant(0), 0, 20, true);
    assert a in Known(files);
    if Offered(Known(files), variants) && Lists(variants, Quant(0)) {
      var i :| 0 <= i < |variants| && variants[i].quant == Quant(0);
      assert variants[i] == Offer(files);
    }
  }
}

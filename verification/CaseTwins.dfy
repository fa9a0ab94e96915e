/** Quantizations that differ by case only: advertised apart, but looked up together. */
module CaseTwins {
  import opened Wrappers
  import opened ShardSets
  import opened Variants
  import opened VariantSelection

  /** A repository has no two files of one name, and the text before a shard's index tells its
      quantization. */
  predicate Named(files: seq<File>) {
    forall f, g :: f in files && g in files ==>
      (f.name == g.name ==> f == g)
      && (f.part.Some? && g.part.Some? && KeyOf(f) == KeyOf(g) ==> f.quant == g.quant)
  }

  /** The files of this spelling. */
  function Own(files: seq<File>, quant: Quant): seq<File> {
    OfQuant(Known(files), quant)
  }

  /** No file of another spelling goes before what is chosen of this one: no plainer single file,
      or, if there are shards only, no single file and no better set. */
  predicate NoneGoesBefore(all: seq<File>, own: seq<File>)
    requires own != []
  {
    ChosenIsThere(own);
    var chosen := Chosen(own)[0];
    forall f :: f in all && f.quant != own[0].quant ==>
      if Parts(own, false) != [] then f.part.Some? || Plainer(chosen, f)
      else f.part.Some? && Better(Parts(all, true), KeyOf(chosen), KeyOf(f))
  }

  lemma {:induction false} OwnOfMatching(files: seq<File>, quant: Quant, fold: Quant -> Quant)
    requires quant != UNKNOWN
    ensures OfQuant(Matching(files, quant, fold), quant) == Own(files, quant)
  {
    if files != [] {
      var init, f := files[..|files| - 1], files[|files| - 1];
      OwnOfMatching(init, quant, fold);
      OfQuantSnoc(Matching(init, quant, fold), f, quant);
      OfQuantSnoc(Known(init), f, quant);
    }
  }

  // ---------- single files ----------

  /** The plainest file of a list is no other than the one before which none goes. */
  lemma PlainestIs(files: seq<File>, f: File)
    requires Named(files) && files != [] && f in files
    ensures SortBy(Plainest, files) != []
    ensures SortBy(Plainest, files)[0] == f <==> forall g :: g in files ==> Plainer(f, g)
  {
    var sorted := SortBy(Plainest, files);
    SortSorts(Plainest, files);
    assert sorted[0] in multiset(files);
    forall g | g in files
      ensures Plainer(sorted[0], g)
    {
      assert g in multiset(sorted);
      var i :| 0 <= i < |sorted| && sorted[i] == g;
      assert AtMost(Plainest, sorted[0], sorted[i]);
    }
    if Plainer(f, sorted[0]) {
      assert sorted[0].name == f.name && sorted[0] in files;
    }
  }

  lemma SinglesAgree(all: seq<File>, quant: Quant)
    requires Named(all) && Parts(OfQuant(all, quant), false) != []
    ensures Parts(all, false) != []
    ensures Chosen(all) == Chosen(OfQuant(all, quant)) <==> NoneGoesBefore(all, OfQuant(all, quant))
  {
    var own := OfQuant(all, quant);
    OfQuantMembers(all, quant);
    PartsMembers(all, false);
    PartsMembers(own, false);
    var singles, mine := Parts(all, false), Parts(own, false);
    assert mine[0] in mine && mine[0] in singles;
    SortSorts(Plainest, mine);
    SortSorts(Plainest, singles);
    var chosen := SortBy(Plainest, mine)[0];
    assert chosen in multiset(mine);
    assert own[0] in own;
    PlainestIs(mine, chosen);
    PlainestIs(singles, chosen);
  }

  // ---------- shards ----------

  lemma {:induction false} GroupOfQuant(files: seq<File>, quant: Quant, key: Key)
    requires forall f :: f in files && KeyOf(f) == key ==> f.quant == quant
    ensures InGroup(OfQuant(files, quant), key) == InGroup(files, key)
  {
    if files != [] {
      var init, f := files[..|files| - 1], files[|files| - 1];
      assert f in files && forall g :: g in init ==> g in files;
      GroupOfQuant(init, quant, key);
      GroupSnoc(OfQuant(init, quant), f, key);
    }
  }

  /** The best set of one spelling is the best of all exactly when it is better than every set of
      another spelling. */
  lemma BestAgrees(shards: seq<File>, quant: Quant)
    requires Named(shards) && AllShards(shards) && OfQuant(shards, quant) != []
    ensures var key := PreferredKey(OfQuant(shards, quant));
            (PreferredKey(shards) == key
             <==> forall f :: f in shards && f.quant != quant ==> Better(shards, key, KeyOf(f)))
            && InGroup(OfQuant(shards, quant), key) == InGroup(shards, key)
  {
    var mine := OfQuant(shards, quant);
    var key := PreferredKey(mine);
    OfQuantMembers(shards, quant);
    PreferredKeyIsPreferred(mine);
    PreferredKeyIsPreferred(shards);
    forall f | f in mine
      ensures InGroup(mine, KeyOf(f)) == InGroup(shards, KeyOf(f))
    {
      forall g | g in shards && KeyOf(g) == KeyOf(f)
        ensures g.quant == quant
      {
        assert f.part.Some? && g.part.Some?;
      }
      GroupOfQuant(shards, quant, KeyOf(f));
    }
    var k :| k in mine && KeyOf(k) == key;
    if forall f :: f in shards && f.quant != quant ==> Better(shards, key, KeyOf(f)) {
      forall other | HasKey(shards, other) && other != key
        ensures Better(shards, key, other)
      {
        var g :| g in shards && KeyOf(g) == other;
        if g.quant == quant {
          assert g in mine && HasKey(mine, other) && Better(mine, key, other);
        }
      }
      assert HasKey(shards, key);
      OnlyOnePreferred(shards, key, PreferredKey(shards));
    }
    if PreferredKey(shards) == key {
      forall f | f in shards && f.quant != quant
        ensures Better(shards, key, KeyOf(f))
      {
        assert f.part.Some? && k.part.Some? && k in shards;
        assert HasKey(shards, KeyOf(f));
      }
    }
  }

  lemma ChosenHasKey(files: seq<File>)
    requires files != [] && Parts(files, false) == []
    ensures Parts(files, true) != [] && Chosen(files) != [] && Chosen(files)[0] in files
    ensures KeyOf(Chosen(files)[0]) == PreferredKey(Parts(files, true))
  {
    var shards := Parts(files, true);
    ChosenIsThere(files);
    PartsCover(files);
    PartsMembers(files, true);
    SortSorts(Plainest, Parts(files, false));
    SortSorts(ByName, PreferredSet(shards));
    var chosen := Chosen(files)[0];
    assert chosen in multiset(PreferredSet(shards));
    GroupCount(shards, PreferredKey(shards), chosen);
    assert chosen in multiset(shards);
  }

  /** Where one spelling has shards only, a file of another goes before them if it is a single one
      or of a better set. */
  lemma GoesBefore(all: seq<File>, quant: Quant)
    requires Named(all) && OfQuant(all, quant) != [] && Parts(OfQuant(all, quant), false) == []
    ensures var own, shards := OfQuant(all, quant), Parts(all, true);
            Parts(own, true) != []
            && (NoneGoesBefore(all, own)
                <==> Parts(all, false) == []
                     && forall f :: f in shards && f.quant != quant ==>
                          Better(shards, PreferredKey(Parts(own, true)), KeyOf(f)))
  {
    hide Better, PreferredKey, Named;
    var own, shards, singles := OfQuant(all, quant), Parts(all, true), Parts(all, false);
    OfQuantMembers(all, quant);
    PartsMembers(all, true);
    PartsMembers(all, false);
    PartsMembers(own, false);
    ChosenHasKey(own);
    hide OfQuant, Parts, Chosen, Named, KeyOf;
    assert own[0] in own;
    if singles != [] {
      assert singles[0] in singles;
      assert singles[0].quant != quant;
    }
  }

  lemma KeysAgree(all: seq<File>, quant: Quant)
    requires Named(all) && OfQuant(all, quant) != [] && Parts(all, false) == []
    ensures var own := OfQuant(all, quant);
            Parts(own, false) == [] && Parts(all, true) != [] && Parts(own, true) != []
            && (Chosen(all) == Chosen(own) <==> PreferredKey(Parts(all, true)) == PreferredKey(Parts(own, true)))
  {
    hide Better, PreferredKey;
    var own, shards := OfQuant(all, quant), Parts(all, true);
    OfQuantMembers(all, quant);
    PartsMembers(all, true);
    PartsAreShards(all);
    PartsOfQuant(all, quant, true);
    PartsOfQuant(all, quant, false);
    assert OfQuant([], quant) == [];
    ChosenHasKey(own);
    ChosenHasKey(all);
    SubNamed(all, shards);
    BestAgrees(shards, quant);
    hide Parts, OfQuant, Named, KeyOf;
  }

  lemma SubNamed(all: seq<File>, some: seq<File>)
    requires Named(all) && forall f :: f in some ==> f in all
    ensures Named(some)
  {
  }

  lemma ShardsAgree(all: seq<File>, quant: Quant)
    requires Named(all) && OfQuant(all, quant) != [] && Parts(OfQuant(all, quant), false) == []
    ensures Parts(all, false) == [] && Chosen(all) == Chosen(OfQuant(all, quant))
            <==> NoneGoesBefore(all, OfQuant(all, quant))
  {
    GoesBefore(all, quant);
    var shards := Parts(all, true);
    if Parts(all, false) == [] {
      KeysAgree(all, quant);
      PartsMembers(all, true);
      SubNamed(all, shards);
      PartsAreShards(all);
      PartsOfQuant(all, quant, true);
      hide Better, PreferredKey, Chosen, NoneGoesBefore, Parts, OfQuant, Named;
      BestAgrees(shards, quant);
    }
  }

  // ---------- agreement, whatever the spelling ----------

  lemma ChosenSingle(files: seq<File>)
    requires Parts(files, false) != []
    ensures |Chosen(files)| == 1 && Chosen(files)[0].part.None?
  {
    SortSorts(Plainest, Parts(files, false));
    PartsMembers(files, false);
    assert Chosen(files)[0] in multiset(Parts(files, false));
  }

  lemma OfferedSharded(own: seq<File>)
    requires own != [] && Parts(own, false) == []
    ensures Offer(own).sharded && (InSequence(Chosen(own)) <==> ShardsResolve(own))
  {
    PartsCover(own);
    PreferredIsThere(Parts(own, true));
    InSequenceExactly(PreferredSet(Parts(own, true)));
    assert SortBy(Plainest, []) == [];
  }

  /** Whatever spellings the repository has: looked up again, an advertised variant resolves to
      the very files it was advertised for, exactly when all spellings are of one family, no file of
      another spelling goes before them, and, if they are shards, they are complete and named in
      the order of their indices. */
  lemma ResolvedAsAdvertisedExactly(files: seq<File>, variants: seq<Variant>, fold: Quant -> Quant, i: nat)
    requires Named(files) && Offered(Known(files), variants) && i < |variants|
    ensures var v := variants[i];
            var r, own, all := Resolve(files, v.quant, fold), Own(files, v.quant), Matching(files, v.quant, fold);
            own != [] && v == Offer(own)
            && (r.Ok? && r.value.files == Chosen(own)
                <==> OneFamily(all) && NoneGoesBefore(all, own) && (!v.sharded || ShardsResolve(own)))
  {
    hide NoneGoesBefore, ShardsResolve, PreferredSet, SortBy, TotalSize, Known;
    var quant := variants[i].quant;
    var own, all := Own(files, quant), Matching(files, quant, fold);
    OfQuantMembers(Known(files), quant);
    KnownMembers(files);
    assert own[0] in own;
    OwnOfMatching(files, quant, fold);
    MatchingMembers(files, quant, fold);
    OfQuantMembers(all, quant);
    assert own[0] in all;
    if Parts(own, false) != [] {
      SinglesAgree(all, quant);
      assert !Offer(own).sharded;
    } else {
      ShardsAgree(all, quant);
      OfferedSharded(own);
      if Parts(all, false) != [] {
        ChosenSingle(all);
        ChosenShards(own);
      }
    }
  }

  /** Like Model-Quality.gguf and Model-quality.gguf in one repository: two variants, and both
      resolve to the file that sorts first. */
  lemma TwinTakesOver(fold: Quant -> Quant)
    requires fold(Quant(1)) == fold(Quant(2))
    ensures var upper := File(0, 5, Quant(1), Family(0), 10, true, None);
            var lower := File(1, 5, Quant(2), Family(0), 20, true, None);
            Named([upper, lower]) && Offered(Known([upper, lower]), [Single(upper), Single(lower)])
            && Resolve([upper, lower], Quant(2), fold) == Ok(Resolved([upper], 10))
  {
    var upper := File(0, 5, Quant(1), Family(0), 10, true, None);
    var lower := File(1, 5, Quant(2), Family(0), 20, true, None);
    TwoOfTwo(upper, lower, fold);
    TwoSingles(upper, lower);
    OneSingle(upper);
    OneSingle(lower);
    assert [upper, lower][1] == lower;
    hide Matching, Known, OfQuant, SortBy, Parts, PreferredSet, Chosen;
    OneSize(upper);
  }

  lemma OneSize(f: File)
    ensures TotalSize([f]) == f.size
  {
    assert TotalSize([f]) == TotalSize([]) + f.size;
  }

  lemma TwoOfTwo(a: File, b: File, fold: Quant -> Quant)
    requires a.model && b.model && a.quant != UNKNOWN && b.quant != UNKNOWN && a.quant != b.quant
    requires fold(a.quant) == fold(b.quant)
    ensures Known([a, b]) == [a, b] && Matching([a, b], b.quant, fold) == [a, b]
    ensures OfQuant([a, b], a.quant) == [a] && OfQuant([a, b], b.quant) == [b]
  {
    assert [a, b][..1] == [a] && [a][..0] == [] && [a] + [b] == [a, b];
    assert Known([a]) == Known([]) + [a] == [a];
    OfQuantSnoc([], a, a.quant);
    OfQuantSnoc([], a, b.quant);
    OfQuantSnoc([a], b, a.quant);
    OfQuantSnoc([a], b, b.quant);
    assert [] + [a] == [a] && [] + [b] == [b];
    assert Matching([a], b.quant, fold) == Matching([], b.quant, fold) + [a] == [a];
  }

  lemma OneSingle(f: File)
    requires f.part.None?
    ensures Parts([f], false) == [f] && Chosen([f]) == [f]
  {
    assert Parts([f], false) == Parts([], false) + [f] == [f];
    assert SortBy(Plainest, [f]) == Insert(Plainest, SortBy(Plainest, []), f) == [f];
  }

  lemma TwoSingles(a: File, b: File)
    requires a.part.None? && b.part.None? && Plainer(a, b)
    ensures Parts([a, b], false) == [a, b] && Chosen([a, b]) == [a]
  {
    assert [a, b][..1] == [a];
    OneSingle(a);
    assert Parts([a, b], false) == Parts([a], false) + [b];
    assert SortBy(Plainest, [a, b]) == Insert(Plainest, SortBy(Plainest, [a]), b);
    assert [a, b][..1] == [a] && SortBy(Plainest, [a]) == Insert(Plainest, SortBy(Plainest, []), a) == [a];
    assert Insert(Plainest, [a], b) == [a] + Insert(Plainest, [], b);
  }
}

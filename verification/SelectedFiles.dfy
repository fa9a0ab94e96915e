/** Which files are advertised and which are resolved, told by names, lengths and shard sets alone. */
module SelectedFiles {
  import opened Wrappers
  import opened ShardSets
  import opened Variants
  import opened VariantSelection

  // ---------- the plainest file ----------

  /** The file has the shortest name, and of those the first. */
  predicate Shortest(f: File, files: seq<File>) {
    f in files
    && forall g :: g in files ==> f.length < g.length || (f.length == g.length && f.name <= g.name)
  }

  lemma FirstIsShortest(files: seq<File>)
    requires files != []
    ensures SortBy(Plainest, files) != [] && Shortest(SortBy(Plainest, files)[0], files)
  {
    var sorted := SortBy(Plainest, files);
    SortSorts(Plainest, files);
    assert sorted[0] in multiset(files);
    forall g | g in files
      ensures Plainer(sorted[0], g)
    {
      assert g in multiset(sorted);
      var i :| 0 <= i < |sorted| && sorted[i] == g;
      assert AtMost(Plainest, sorted[0], sorted[i]);
    }
  }

  lemma SingleChosen(files: seq<File>)
    requires exists f :: f in files && f.part.None?
    ensures Parts(files, false) != [] && |Chosen(files)| == 1 && Chosen(files)[0].part.None?
    ensures Shortest(Chosen(files)[0], Parts(files, false))
    ensures Chosen(files)[0] in files
    ensures forall g :: g in files && g.part.None? ==>
              Chosen(files)[0].length < g.length
              || (Chosen(files)[0].length == g.length && Chosen(files)[0].name <= g.name)
  {
    PartsMembers(files, false);
    var f :| f in files && f.part.None?;
    assert f in Parts(files, false);
    FirstIsShortest(Parts(files, false));
  }

  // ---------- the preferred shard set ----------

  predicate HasIndex(files: seq<File>, n: nat) {
    exists i :: 0 <= i < |files| && files[i].part.Some? && files[i].part.value.index == n
  }

  /** Every index from 1 to the number of shards is there, and every shard says that number. */
  lemma CompleteExactly(files: seq<File>)
    requires AllShards(files)
    ensures Complete(files)
            <==> files != []
                 && (forall i :: 0 <= i < |files| ==> files[i].part.value.total == Some(|files|))
                 && (forall n :: 1 <= n <= |files| ==> HasIndex(files, n))
  {
    OneToMembers(|files|);
    OneToSize(|files|);
    IndicesSize(files);
    forall n: nat
      ensures n in Indices(files) <==> HasIndex(files, n)
    {
      IndicesExactly(files, n);
    }
    if forall n :: 1 <= n <= |files| ==> HasIndex(files, n) {
      forall n | n in OneTo(|files|)
        ensures n in Indices(files)
      {
        assert HasIndex(files, n);
      }
      SizesOrdered(OneTo(|files|), Indices(files));
      SubsetOfSameSize(OneTo(|files|), Indices(files));
    }
    if Complete(files) {
      forall n | 1 <= n <= |files|
        ensures HasIndex(files, n)
      {
        assert n in OneTo(|files|);
      }
    }
  }

  lemma SizesOrdered(a: set<nat>, b: set<nat>)
    requires a <= b
    ensures |a| <= |b|
  {
    assert |b - a| == |b| - |a|;
  }

  lemma {:induction false} IndicesExactly(files: seq<File>, n: nat)
    requires AllShards(files)
    ensures n in Indices(files) <==> HasIndex(files, n)
  {
    if files != [] {
      var init := files[..|files| - 1];
      IndicesExactly(init, n);
      if i :| 0 <= i < |files| && files[i].part.value.index == n {
        assert i < |init| ==> init[i].part.value.index == n;
      }
      if i :| 0 <= i < |init| && init[i].part.value.index == n {
        assert files[i].part.value.index == n;
      }
    }
  }

  /** A complete set goes before an incomplete one; then the shorter names, then the first by the
      text before the index, then the first by the text behind it. */
  predicate GoesBefore(files: seq<File>, a: Key, b: Key) {
    var complete, other := Complete(InGroup(files, a)), Complete(InGroup(files, b));
    (complete && !other)
    || (complete == other
        && (a.length < b.length
            || (a.length == b.length
                && (a.prefix < b.prefix || (a.prefix == b.prefix && a.text < b.text)))))
  }

  lemma {:induction false} GroupMembers(files: seq<File>, key: Key)
    ensures forall f :: f in InGroup(files, key) <==> f in files && KeyOf(f) == key
  {
    if files != [] {
      var init, f := files[..|files| - 1], files[|files| - 1];
      GroupMembers(init, key);
      assert files == init + [f];
    }
  }

  /** The chosen shards are all those of one key, in the order of their names, and every other key
      comes after it. */
  ghost predicate ChosenSet(files: seq<File>, chosen: seq<File>, key: Key) {
    chosen != []
    && multiset(chosen) == multiset(InGroup(files, key))
    && (forall f :: f in chosen <==> f in files && f.part.Some? && f.part.value.key == key)
    && (forall i, j :: 0 <= i < j < |chosen| ==> chosen[i].name <= chosen[j].name)
    && forall g :: g in files && g.part.Some? && g.part.value.key != key ==> GoesBefore(files, key, g.part.value.key)
  }

  lemma ShardsChosen(files: seq<File>)
    requires files != [] && AllShards(files)
    ensures Parts(files, true) == files && Parts(files, false) == []
    ensures exists key :: ChosenSet(files, Chosen(files), key)
  {
    OnlyShards(files);
    var key, chosen := PreferredKey(files), Chosen(files);
    PreferredKeyIsPreferred(files);
    ChosenIsThere(files);
    assert SortBy(Plainest, []) == [];
    SortSorts(ByName, PreferredSet(files));
    GroupMembers(files, key);
    forall f
      ensures f in chosen <==> f in files && f.part.Some? && f.part.value.key == key
    {
      assert f in chosen <==> f in multiset(InGroup(files, key));
    }
    forall i, j | 0 <= i < j < |chosen|
      ensures chosen[i].name <= chosen[j].name
    {
      assert AtMost(ByName, chosen[i], chosen[j]);
    }
    forall g | g in files && g.part.Some? && g.part.value.key != key
      ensures GoesBefore(files, key, g.part.value.key)
    {
      assert HasKey(files, KeyOf(g)) && Better(files, key, KeyOf(g));
    }
    assert ChosenSet(files, chosen, key);
  }

  lemma {:induction false} OnlyShards(files: seq<File>)
    requires AllShards(files)
    ensures Parts(files, true) == files && Parts(files, false) == []
  {
    if files != [] {
      OnlyShards(files[..|files| - 1]);
    }
  }

  // ---------- what is resolved ----------

  predicate Wanted(f: File, wanted: Quant, fold: Quant -> Quant) {
    f.model && fold(f.quant) == fold(wanted)
  }

  predicate CountsUp(shards: seq<File>) {
    forall i :: 0 <= i < |shards| ==>
      shards[i].part.Some? && shards[i].part.value.total == Some(|shards|) && shards[i].part.value.index == i + 1
  }

  /** What a quantization resolves to, of the files that have it up to case.  It fails if there is
      none, or if two are of different families.  If one of them is a single file, it is one with
      the shortest name, and of those the first.  If all are shards, they are those of the key that
      goes before every other, in the order of their names, if their indices count up from one to
      the number each of them says; otherwise it fails. */
  lemma ResolvedExactly(files: seq<File>, wanted: Quant, fold: Quant -> Quant)
    ensures var r, all := Resolve(files, wanted, fold), Matching(files, wanted, fold);
            (forall f :: f in all <==> f in files && Wanted(f, wanted, fold))
            && (r == Err(NotFound) <==> all == [])
            && (r == Err(Ambiguous) <==> exists f, g :: f in all && g in all && f.family != g.family)
            && (r.Ok? || r == Err(BadShards) ==>
                  if exists f :: f in all && f.part.None? then
                    r.Ok? && |r.value.files| == 1 && r.value.totalSize == r.value.files[0].size
                    && r.value.files[0] in all && r.value.files[0].part.None?
                    && forall g :: g in all && g.part.None? ==>
                         r.value.files[0].length < g.length
                         || (r.value.files[0].length == g.length && r.value.files[0].name <= g.name)
                  else
                    exists key, chosen ::
                      ChosenSet(all, chosen, key)
                      && r == if CountsUp(chosen) then Ok(Resolved(chosen, TotalSize(chosen))) else Err(BadShards))
  {
    var r, all := Resolve(files, wanted, fold), Matching(files, wanted, fold);
    MatchingMembers(files, wanted, fold);
    if all != [] {
      FamiliesDiffer(all);
      if exists f :: f in all && f.part.None? {
        SingleChosen(all);
        OneSize(Chosen(all)[0]);
        assert Chosen(all) == [Chosen(all)[0]];
      } else {
        ShardsOnly(all);
        ShardsChosen(all);
        var key :| ChosenSet(all, Chosen(all), key);
        SameSequence(Chosen(all));
      }
    }
  }

  lemma SameSequence(shards: seq<File>)
    ensures InSequence(shards) <==> CountsUp(shards)
  {
  }

  lemma ShardsOnly(files: seq<File>)
    requires !exists f :: f in files && f.part.None?
    ensures AllShards(files)
  {
    forall i | 0 <= i < |files|
      ensures files[i].part.Some?
    {
      assert files[i] in files;
    }
  }

  lemma OneSize(f: File)
    ensures TotalSize([f]) == f.size
  {
    assert TotalSize([f]) == TotalSize([]) + f.size;
  }

  lemma FamiliesDiffer(files: seq<File>)
    ensures OneFamily(files) <==> !exists f, g :: f in files && g in files && f.family != g.family
  {
    if f, g :| f in files && g in files && f.family != g.family {
      var i, j :| 0 <= i < |files| && 0 <= j < |files| && files[i] == f && files[j] == g;
      assert !OneFamily(files);
    }
    if !OneFamily(files) {
      var i, j :| 0 <= i < |files| && 0 <= j < |files| && files[i].family != files[j].family;
      assert files[i] in files && files[j] in files;
    }
  }

  // ---------- what is advertised ----------

  /** A file that is advertised under its quantization. */
  predicate Advertised(f: File, quant: Quant) {
    f.model && f.quant == quant && quant != Quant(-1)
  }

  /** The single file with the shortest name, and of those the first. */
  predicate StandsFor(own: seq<File>, v: Variant, f: File) {
    f in own && f.part.None? && v.name == f.name && v.size == f.size
    && forall g :: g in own && g.part.None? ==> f.length < g.length || (f.length == g.length && f.name <= g.name)
  }

  ghost predicate ShardsStandFor(own: seq<File>, v: Variant, chosen: seq<File>, key: Key) {
    ChosenSet(own, chosen, key) && v.name == chosen[0].name && v.size == TotalSize(chosen)
  }

  /** What stands behind each variant that is offered, of the files of its very quantization: the
      size and name of the single file with the shortest name, and of those the first; or, if all
      are shards, the first name and the sizes of those of the key that goes before every other.
      There is one variant for every quantization that some file has, and no other. */
  lemma AdvertisedExactly(files: seq<File>, variants: seq<Variant>, i: nat)
    requires Offered(Known(files), variants) && i < |variants|
    requires forall f :: f in Known(files) ==> Lists(variants, f.quant)
    ensures var v, own := variants[i], OfQuant(Known(files), variants[i].quant);
            own != [] && (forall f :: f in own <==> f in files && Advertised(f, v.quant))
            && (if exists f :: f in own && f.part.None? then
                  !v.sharded && exists f :: StandsFor(own, v, f)
                else v.sharded && exists key, chosen :: ShardsStandFor(own, v, chosen, key))
    ensures forall f :: f in files && Advertised(f, f.quant) ==>
              exists j :: 0 <= j < |variants| && variants[j].quant == f.quant
    ensures forall j :: 0 <= j < |variants| && j != i ==> variants[j].quant != variants[i].quant
  {
    var v, own := variants[i], OfQuant(Known(files), variants[i].quant);
    OfQuantMembers(Known(files), v.quant);
    KnownMembers(files);
    assert v == Offer(own) && own[0] in own;
    if exists f :: f in own && f.part.None? {
      SingleChosen(own);
      var f := Chosen(own)[0];
      assert StandsFor(own, v, f);
    } else {
      ShardsOnly(own);
      ShardsChosen(own);
      var key :| ChosenSet(own, Chosen(own), key);
      assert ShardsStandFor(own, v, Chosen(own), key);
    }
    forall f | f in files && Advertised(f, f.quant)
      ensures exists j :: 0 <= j < |variants| && variants[j].quant == f.quant
    {
      assert f in Known(files) && Lists(variants, f.quant);
    }
  }
}

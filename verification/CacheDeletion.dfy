/** Deleting a cached model: links into the blob store go, and a blob with its last link. */
module CacheDeletion {
  import opened Wrappers

  datatype Path = Path(id: int)

  /** Blobs are kept per repository. */
  datatype Blob = Blob(repo: int, hash: int)

  /** A quantization as it is spelled, and up to case. */
  datatype Quant = Quant(spelling: int, folded: int)

  /** A file of some revision, as the cache scan reports it.  Only weights have a quantization:
      auxiliary files and files for MLX have none. */
  datatype CachedFile = CachedFile(path: Path, blob: Blob, repo: int, quant: Option<Quant>, forMlx: bool)

  datatype Model = Model(id: int, repo: int, quant: Quant, mlx: bool, mmproj: Option<Path>)

  datatype Failure = NotFound | Downloading | IoError

  // ---------- counting references ----------

  /** How many of the files that are not gone refer to the blob. */
  function References(files: seq<CachedFile>, gone: set<Path>, blob: Blob): nat {
    if files == [] then 0
    else
      var init, f := files[..|files| - 1], files[|files| - 1];
      References(init, gone, blob) + (if f.blob == blob && f.path !in gone then 1 else 0)
  }

  predicate DistinctPaths(files: seq<CachedFile>) {
    forall i, j :: 0 <= i < j < |files| ==> files[i].path != files[j].path
  }

  lemma {:induction false} Referenced(files: seq<CachedFile>, gone: set<Path>, blob: Blob)
    ensures References(files, gone, blob) > 0 <==> exists f :: f in files && f.blob == blob && f.path !in gone
  {
    if files != [] {
      var init, f := files[..|files| - 1], files[|files| - 1];
      Referenced(init, gone, blob);
      assert files == init + [f];
    }
  }

  lemma {:induction false} GoneUnlisted(files: seq<CachedFile>, gone: set<Path>, path: Path, blob: Blob)
    requires forall i :: 0 <= i < |files| ==> files[i].path != path
    ensures References(files, gone + {path}, blob) == References(files, gone, blob)
  {
    if files != [] {
      GoneUnlisted(files[..|files| - 1], gone, path, blob);
    }
  }

  /** Removing one file takes away one reference to its own blob, and none to another. */
  lemma {:induction false} OneReferenceLess(files: seq<CachedFile>, gone: set<Path>, i: nat, blob: Blob)
    requires DistinctPaths(files) && i < |files| && files[i].path !in gone
    ensures References(files, gone + {files[i].path}, blob) ==
            References(files, gone, blob) - (if files[i].blob == blob then 1 else 0)
  {
    var init := files[..|files| - 1];
    if i == |init| {
      GoneUnlisted(init, gone, files[i].path, blob);
    } else {
      OneReferenceLess(init, gone, i, blob);
    }
  }

  // ---------- the cache directory ----------

  class Cache {
    var links: map<Path, Blob>
    var blobs: set<Blob>
    ghost var failures: nat    // how many removals have failed

    constructor (links: map<Path, Blob>, blobs: set<Blob>)
      ensures this.links == links && this.blobs == blobs
    {
      this.links, this.blobs := links, blobs;
      failures := 0;
    }

    /** Where a link leads, if the blob is there. */
    function Canonical(path: Path): Option<Blob>
      reads this
    {
      if path in links && links[path] in blobs then Some(links[path]) else None
    }

    /** Every scanned file is a link to its blob, in its own repository. */
    ghost predicate Holds(files: seq<CachedFile>)
      reads this
    {
      forall f :: f in files ==> Canonical(f.path) == Some(f.blob) && f.blob.repo == f.repo
    }

    method RemoveLink(path: Path) returns (ok: bool)
      modifies this`links, this`failures
      ensures ok ==> links == old(links) - {path} && failures == old(failures)
      ensures !ok ==> links == old(links) && failures > old(failures)
    {
      ok := *;
      ok := ok && path in links;
      if ok {
        links := links - {path};
      } else {
        failures := failures + 1;
      }
    }

    method RemoveBlob(blob: Blob) returns (ok: bool)
      modifies this`blobs, this`failures
      ensures ok ==> blobs == old(blobs) - {blob} && failures == old(failures)
      ensures !ok ==> blobs == old(blobs) && failures > old(failures)
    {
      ok := *;
      if ok {
        blobs := blobs - {blob};
      } else {
        failures := failures + 1;
      }
    }

    /** Counts the references to every blob. */
    method CountReferences(files: seq<CachedFile>) returns (references: map<Blob, nat>)
      ensures forall b :: b in references <==> References(files, {}, b) > 0
      ensures forall b :: b in references ==> references[b] == References(files, {}, b)
    {
      references := map[];
      for i := 0 to |files|
        invariant forall b :: b in references <==> References(files[..i], {}, b) > 0
        invariant forall b :: b in references ==> references[b] == References(files[..i], {}, b)
      {
        assert files[..i + 1][..i] == files[..i];
        var b := files[i].blob;
        references := references[b := (if b in references then references[b] else 0) + 1];
      }
      assert files[..|files|] == files;
    }

    /** Nothing but the gone links was removed, and blobs only without a reference left. */
    ghost predicate Removed(files: seq<CachedFile>, links0: map<Path, Blob>, blobs0: set<Blob>, gone: set<Path>)
      reads this
    {
      links == links0 - gone && blobs <= blobs0
      && forall b :: b in blobs0 && b !in blobs ==> References(files, {}, b) > 0 && References(files, gone, b) == 0
    }

    /** No blob was left behind without references. */
    ghost predicate NoOrphans(files: seq<CachedFile>, gone: set<Path>)
      reads this
    {
      forall b :: b in blobs && References(files, {}, b) > 0 ==> References(files, gone, b) > 0
    }

    ghost predicate Counted(files: seq<CachedFile>, gone: set<Path>, references: map<Blob, nat>) {
      (forall b :: b in references <==> References(files, {}, b) > 0)
      && forall b :: b in references ==> references[b] == References(files, gone, b)
    }

    lemma StillIntact(files: seq<CachedFile>, links0: map<Path, Blob>, blobs0: set<Blob>, gone: set<Path>)
      requires Removed(files, links0, blobs0, gone)
      requires forall f :: f in files ==> f.path in links0 && links0[f.path] == f.blob && f.blob in blobs0
      ensures forall f :: f in files && f.path !in gone ==> Canonical(f.path) == Some(f.blob)
    {
      forall f | f in files && f.path !in gone
        ensures Canonical(f.path) == Some(f.blob)
      {
        Referenced(files, gone, f.blob);
      }
    }

    lemma CountAfter(files: seq<CachedFile>, gone: set<Path>, i: nat, references: map<Blob, nat>)
      requires DistinctPaths(files) && i < |files| && files[i].path !in gone
      requires Counted(files, gone, references)
      ensures files[i].blob in references && references[files[i].blob] > 0
      ensures Counted(files, gone + {files[i].path}, references[files[i].blob := references[files[i].blob] - 1])
      ensures forall b :: b != files[i].blob ==>
                References(files, gone + {files[i].path}, b) == References(files, gone, b)
    {
      assert files[i] in files;
      Referenced(files, gone, files[i].blob);
      Referenced(files, {}, files[i].blob);
      forall b
        ensures References(files, gone + {files[i].path}, b) ==
                References(files, gone, b) - (if files[i].blob == b then 1 else 0)
      {
        OneReferenceLess(files, gone, i, b);
      }
    }

    /** Removes one link, and its blob if no other file refers to it. */
    method RemoveOne(files: seq<CachedFile>, i: nat, references: map<Blob, nat>,
                     ghost links0: map<Path, Blob>, ghost blobs0: set<Blob>, ghost gone: set<Path>)
      returns (ok: bool, references': map<Blob, nat>, ghost gone': set<Path>)
      requires DistinctPaths(files) && i < |files| && files[i].path !in gone
      requires forall f :: f in files ==> f.path in links0 && links0[f.path] == f.blob && f.blob in blobs0
      requires Removed(files, links0, blobs0, gone) && NoOrphans(files, gone) && Counted(files, gone, references)
      modifies this
      ensures Removed(files, links0, blobs0, gone')
      ensures ok ==> NoOrphans(files, gone') && Counted(files, gone', references')
      ensures gone' == gone || gone' == gone + {files[i].path}
      ensures ok ==> gone' == gone + {files[i].path} && failures == old(failures)
      ensures !ok ==> failures > old(failures)
    {
      var path := files[i].path;
      references', gone' := references, gone;
      StillIntact(files, links0, blobs0, gone);
      assert files[i] in files;
      var blob := Canonical(path);
      ok := RemoveLink(path);
      if !ok {
        return;
      }
      gone' := gone + {path};
      CountAfter(files, gone, i, references);
      if blob.Some? && blob.value in references {
        references' := references[blob.value := references[blob.value] - 1];
        if references'[blob.value] == 0 {
          ok := RemoveBlob(blob.value);
        }
      }
    }

    /** Removes the selected links one after the other, and a blob when its last reference goes.
        A failure stops it half way: what is gone by then is a part of the selection. */
    method RemoveFiles(files: seq<CachedFile>, selected: seq<nat>) returns (ok: bool, ghost gone: set<Path>)
      requires DistinctPaths(files) && Holds(files)
      requires forall k :: 0 <= k < |selected| ==> selected[k] < |files|
      requires forall j, k :: 0 <= j < k < |selected| ==> selected[j] < selected[k]
      modifies this
      ensures forall p :: p in gone ==> exists k :: 0 <= k < |selected| && files[selected[k]].path == p
      ensures ok ==> forall k :: 0 <= k < |selected| ==> files[selected[k]].path in gone
      ensures Removed(files, old(links), old(blobs), gone)
      ensures ok ==> NoOrphans(files, gone)
      ensures forall f :: f in files && f.path !in gone ==> Canonical(f.path) == Some(f.blob)
      ensures !ok ==> failures > old(failures)
    {
      var references := CountReferences(files);
      gone := {};
      ok := true;
      ghost var links0, blobs0 := links, blobs;
      for i := 0 to |selected|
        invariant ok && failures == old(failures)
        invariant forall p :: p in gone ==> exists k :: 0 <= k < i && files[selected[k]].path == p
        invariant forall k :: 0 <= k < i ==> files[selected[k]].path in gone
        invariant Removed(files, links0, blobs0, gone) && NoOrphans(files, gone) && Counted(files, gone, references)
      {
        NotYetGone(files, selected, i, gone);
        ok, references, gone := RemoveOne(files, selected[i], references, links0, blobs0, gone);
        if !ok {
          StillIntact(files, links0, blobs0, gone);
          return;
        }
      }
      StillIntact(files, links0, blobs0, gone);
    }

    /** The blob of the model's projector, if no other cached model uses it. */
    function Removable(models: seq<Model>, model: Model): Option<Blob>
      reads this
    {
      if model.mmproj.None? || SharesProjector(models, model) then None else Canonical(model.mmproj.value)
    }

    predicate SharesProjector(models: seq<Model>, model: Model)
      reads this
    {
      exists i :: 0 <= i < |models| && models[i].id != model.id
                  && model.mmproj.Some? && models[i].mmproj.Some?
                  && Canonical(models[i].mmproj.value) == Canonical(model.mmproj.value)
    }

    method RemovableProjector(models: seq<Model>, model: Model) returns (removable: Option<Blob>)
      ensures removable == Removable(models, model)
      ensures forall b :: removable == Some(b) <==> Spare(models, model, links, blobs, b)
    {
      if model.mmproj.None? {
        return None;
      }
      removable := Canonical(model.mmproj.value);
      if removable.None? {
        return;
      }
      for i := 0 to |models|
        invariant forall j :: 0 <= j < i && models[j].id != model.id && models[j].mmproj.Some? ==>
                    Canonical(models[j].mmproj.value) != removable
      {
        if models[i].id != model.id && models[i].mmproj.Some? && Canonical(models[i].mmproj.value) == removable {
          return None;
        }
      }
    }

    /** Removes everything of a repository; a failure may leave some of it. */
    method RemoveRepository(files: seq<CachedFile>, repo: int) returns (ok: bool)
      modifies this
      ensures links.Keys <= old(links).Keys && (forall p :: p in links ==> links[p] == old(links)[p])
      ensures blobs <= old(blobs)
      ensures forall p :: p in old(links) && p !in links ==> exists f :: f in files && f.repo == repo && f.path == p
      ensures forall b :: b in old(blobs) && b.repo != repo ==> b in blobs
      ensures ok ==> forall f :: f in files && f.repo == repo ==> f.path !in links
      ensures ok ==> forall b :: b in blobs ==> b.repo != repo
      ensures !ok ==> failures > old(failures)
    {
      ok := true;
      var gone: set<Path> := {};
      for i := 0 to |files|
        invariant forall p :: p in gone ==> exists f :: f in files && f.repo == repo && f.path == p
        invariant ok ==> forall j :: 0 <= j < i && files[j].repo == repo ==> files[j].path in gone
      {
        if files[i].repo == repo {
          var removed: bool := *;
          ok := ok && removed;
          if removed {
            assert files[i] in files;
            gone := gone + {files[i].path};
          }
        }
      }
      links := links - gone;
      var kept: set<Blob> := *;
      kept := set b | b in blobs && (b.repo != repo || (!ok && b in kept)) :: b;
      blobs := kept;
      if !ok {
        failures := failures + 1;
      }
    }

    /** When the model is the only one of its repository. */
    method DeleteRepository(models: seq<Model>, model: Model, repos: set<int>, files: seq<CachedFile>)
      returns (r: Result<int, Failure>)
      requires DistinctPaths(files) && Holds(files) && Kinds(models, files)
      requires model in models
      requires forall m :: m in models && m.id != model.id ==> m.repo != model.repo
      modifies this
      ensures OthersIntact(models, model.id, files)
      ensures r.Ok? ==> WeightsGone(model, files)
      ensures r.Ok? ==> forall f :: f in files ==> (f.path !in links <==> f.repo == model.repo)
      ensures r.Ok? ==> forall b :: b in old(blobs) ==> (b !in blobs <==> b.repo == model.repo)
      ensures forall p :: p in links ==> p in old(links) && links[p] == old(links)[p]
      ensures model.repo !in repos ==> r == Err(NotFound) && links == old(links) && blobs == old(blobs)
      ensures model.repo in repos ==> r.Ok? || (r == Err(IoError) && failures > old(failures))
    {
      if model.repo !in repos {
        return Err(NotFound);
      }
      var ok := RemoveRepository(files, model.repo);
      forall m, f | m in models && m.id != model.id && f in files && Owns(m, f)
        ensures Canonical(f.path) == Some(f.blob)
      {
        assert f.repo == m.repo;
        SameFile(files, f);
      }
      return if ok then Ok(0) else Err(IoError);
    }

    /** When other models share the repository.  On success exactly the doomed files are gone.  The
        files of the others are all there exactly when the deletion selects none of them. */
    method DeleteFiles(models: seq<Model>, model: Model, files: seq<CachedFile>) returns (r: Result<int, Failure>)
      requires DistinctPaths(files) && Holds(files)
      requires model in models
      modifies this
      ensures !TakesFromOthers(models, model, old(Removable(models, model)), files) ==>
                OthersIntact(models, model.id, files)
      ensures r.Ok? && TakesFromOthers(models, model, old(Removable(models, model)), files) ==>
                !OthersIntact(models, model.id, files)
      ensures r.Ok? ==> WeightsGone(model, files)
      ensures r.Ok? ==> forall f :: f in files ==>
                          (f.path !in links <==> Doomed(models, model, old(links), old(blobs), f))
      ensures forall p :: p in old(links) && p !in links ==>
                exists f :: f in files && f.path == p && Doomed(models, model, old(links), old(blobs), f)
      ensures forall p :: p in links ==> p in old(links) && links[p] == old(links)[p]
      ensures r.Ok? ==> forall b :: b in old(blobs) ==> (b !in blobs <==> Scanned(files, b) && !Linked(files, b))
      ensures r.Ok? || (r == Err(IoError) && failures > old(failures))
    {
      var removable := RemovableProjector(models, model);
      var selected := SelectFiles(files, model, removable);
      SelectsDoomed(models, model, removable, links, blobs);
      ghost var links0, blobs0 := links, blobs;
      var ok, gone := RemoveFiles(files, selected);
      if !TakesFromOthers(models, model, removable, files) {
        forall m, f | m in models && m.id != model.id && f in files && Owns(m, f)
          ensures f.path !in gone
        {
          SameFile(files, f);
          assert !Selects(model, removable, f);
        }
      }
      forall i | ok && 0 <= i < |files| && Selects(model, removable, files[i])
        ensures files[i].path !in links
      {
        assert i in selected;
      }
      if ok && TakesFromOthers(models, model, removable, files) {
        var m, f :| m in models && f in files && Taken(m, model, removable, f);
        var i :| 0 <= i < |files| && files[i] == f;
        assert Canonical(f.path).None?;
      }
      forall f | ok && f in files && IsWeight(model, f)
        ensures f.path !in links
      {
        var i :| 0 <= i < |files| && files[i] == f;
        assert Selects(model, removable, files[i]);
      }
      forall b | ok && b in old(blobs)
        ensures b !in blobs <==> Scanned(files, b) && !Linked(files, b)
      {
        Referenced(files, {}, b);
        Referenced(files, gone, b);
      }
      forall p | p in links0 && p !in links
        ensures exists f :: f in files && f.path == p && Doomed(models, model, links0, blobs0, f)
      {
        var k :| 0 <= k < |selected| && files[selected[k]].path == p;
        assert files[selected[k]] in files;
      }
      forall f | ok && f in files
        ensures f.path !in links <==> Doomed(models, model, links0, blobs0, f)
      {
        if f.path !in links {
          SameFile(files, f);
        } else {
          var i :| 0 <= i < |files| && files[i] == f;
          assert !Selects(model, removable, files[i]);
        }
      }
      return if ok then Ok(0) else Err(IoError);
    }

    /** Some file of the scan had this blob. */
    ghost predicate Scanned(files: seq<CachedFile>, b: Blob) {
      exists f :: f in files && f.blob == b
    }

    /** Some file with this blob is still linked. */
    ghost predicate Linked(files: seq<CachedFile>, b: Blob)
      reads this
    {
      exists f :: f in files && f.blob == b && f.path in links
    }

    /** Every file of every other model leads to its blob. */
    ghost predicate OthersIntact(models: seq<Model>, id: int, files: seq<CachedFile>)
      reads this
    {
      forall m, f :: m in models && m.id != id && f in files && Owns(m, f) ==> Canonical(f.path) == Some(f.blob)
    }

    ghost predicate WeightsGone(model: Model, files: seq<CachedFile>)
      reads this
    {
      forall f :: f in files && IsWeight(model, f) ==> f.path !in links
    }

    /** Deletes a cached model, or refuses, or fails because a removal failed.  The files of the
        other cached models all keep their contents if no other model of the repository has a
        linked weight whose quantization is the same up to case and no weight shares the blob of a
        projector that goes.  If there is one, deleting successfully takes it away. */
    method DeleteCachedLocalModel(
      models: seq<Model>, id: int, active: set<int>, repos: set<int>, files: seq<CachedFile>)
      returns (r: Result<int, Failure>)
      requires DistinctPaths(files) && Holds(files) && Kinds(models, files)
      modifies this
      ensures (forall m :: m in models ==> m.id != id) ==> r == Err(NotFound)
      ensures forall i :: IsNamed(models, id, i) && models[i].repo in active ==> r == Err(Downloading)
      ensures forall i :: IsNamed(models, id, i) && models[i].repo !in active ==>
                if Alone(models, models[i]) && models[i].repo !in repos then r == Err(NotFound)
                else r.Ok? || (r == Err(IoError) && failures > old(failures))
      ensures r == Err(NotFound) || r == Err(Downloading) ==> links == old(links) && blobs == old(blobs)
      ensures r.Ok? ==> Named(models, id).Some? && WeightsGone(Named(models, id).value, files)
      ensures r.Ok? ==>
                var m := Named(models, id).value;
                forall f :: f in files ==>
                  (f.path !in links
                   <==> if Alone(models, m) then f.repo == m.repo
                        else Doomed(models, m, old(links), old(blobs), f))
      ensures r.Ok? ==> forall b :: b in old(blobs) && Scanned(files, b) ==> (b !in blobs <==> !Linked(files, b))
      ensures forall p :: p in links ==> p in old(links) && links[p] == old(links)[p]
      ensures (Named(models, id).Some? ==>
                 var m := Named(models, id).value; !HasTwin(models, m, old(Removable(models, m)), files)) ==>
                OthersIntact(models, id, files)
      ensures r.Ok? ==>
                var m := Named(models, id).value;
                HasTwin(models, m, old(Removable(models, m)), files) ==> !OthersIntact(models, id, files)
    {
      NamedExactly(models, id);
      var i := 0;
      while i < |models| && models[i].id != id
        invariant 0 <= i <= |models|
        invariant Named(models, id) == Named(models[i..], id)
      {
        i := i + 1;
      }
      if i == |models| {
        return Err(NotFound);
      }
      var model := models[i];
      assert model in models;
      RemovableIsNoOther(models, model);
      TakenExactly(models, model, Removable(models, model), files);
      if model.repo in active {
        return Err(Downloading);
      }
      if Alone(models, model) {
        NoTwinAlone(models, model, Removable(models, model), files);
        r := DeleteRepository(models, model, repos, files);
      } else {
        r := DeleteFiles(models, model, files);
      }
    }

    lemma RemovableIsNoOther(models: seq<Model>, model: Model)
      ensures Removable(models, model).Some? ==>
                forall m :: m in models && m.id != model.id && m.mmproj.Some? ==>
                  Canonical(m.mmproj.value) != Removable(models, model)
    {
      forall m | m in models && m.id != model.id && m.mmproj.Some? && Removable(models, model).Some?
        ensures Canonical(m.mmproj.value) != Removable(models, model)
      {
        var i :| 0 <= i < |models| && models[i] == m;
      }
    }
  }

  lemma SameFile(files: seq<CachedFile>, f: CachedFile)
    requires DistinctPaths(files) && f in files
    ensures forall g :: g in files && g.path == f.path ==> g == f
  {
  }

  // ---------- which files go ----------

  /** The blob is that of the model's projector, and no other cached model's projector has it. */
  predicate Spare(models: seq<Model>, model: Model, links: map<Path, Blob>, blobs: set<Blob>, b: Blob) {
    model.mmproj.Some? && LeadsTo(links, blobs, model.mmproj.value, b)
    && forall m :: m in models && m.id != model.id && m.mmproj.Some? ==> !LeadsTo(links, blobs, m.mmproj.value, b)
  }

  predicate LeadsTo(links: map<Path, Blob>, blobs: set<Blob>, path: Path, b: Blob) {
    path in links && links[path] == b && b in blobs
  }

  /** The files that go with a model that shares its repository: of an MLX model all that are for
      MLX; of another the weights of its quantization up to case, and what holds its projector if no
      other model uses that. */
  predicate Doomed(models: seq<Model>, model: Model, links: map<Path, Blob>, blobs: set<Blob>, f: CachedFile) {
    f.repo == model.repo
    && (if model.mlx then f.forMlx
        else
          (f.quant.Some? && f.quant.value.folded == model.quant.folded)
          || Spare(models, model, links, blobs, f.blob))
  }

  lemma SelectsDoomed(models: seq<Model>, model: Model, removable: Option<Blob>, links: map<Path, Blob>,
                      blobs: set<Blob>)
    requires forall b :: removable == Some(b) <==> Spare(models, model, links, blobs, b)
    ensures forall f :: Selects(model, removable, f) <==> Doomed(models, model, links, blobs, f)
  {
  }

  // ---------- which files a deletion selects ----------

  /** The first model of that id. */
  function Named(models: seq<Model>, id: int): Option<Model> {
    if models == [] then None else if models[0].id == id then Some(models[0]) else Named(models[1..], id)
  }

  /** The model at that place is the first of its id. */
  predicate IsNamed(models: seq<Model>, id: int, i: int) {
    0 <= i < |models| && models[i].id == id && forall j :: 0 <= j < i ==> models[j].id != id
  }

  lemma {:induction false} NamedExactly(models: seq<Model>, id: int)
    ensures Named(models, id).None? <==> forall m :: m in models ==> m.id != id
    ensures forall i :: IsNamed(models, id, i) ==> Named(models, id) == Some(models[i])
  {
    if models != [] {
      var rest := models[1..];
      NamedExactly(rest, id);
      assert models == [models[0]] + rest;
      forall i | IsNamed(models, id, i)
        ensures Named(models, id) == Some(models[i])
      {
        if i > 0 {
          assert models[0].id != id && IsNamed(rest, id, i - 1) by {
            assert forall j :: 0 <= j < i - 1 ==> rest[j] == models[j + 1];
          }
        }
      }
    }
  }

  /** No other model is in the repository. */
  predicate Alone(models: seq<Model>, model: Model) {
    forall i :: 0 <= i < |models| && models[i].id != model.id ==> models[i].repo != model.repo
  }

  /** The files a deletion removes: weights whose quantization is the model's up to case, and its
      projector unless shared. */
  predicate Selects(model: Model, removable: Option<Blob>, f: CachedFile) {
    f.repo == model.repo
    && (if model.mlx then f.forMlx
        else (f.quant.Some? && f.quant.value.folded == model.quant.folded) || removable == Some(f.blob))
  }

  method SelectFiles(files: seq<CachedFile>, model: Model, removable: Option<Blob>) returns (selected: seq<nat>)
    ensures forall k :: 0 <= k < |selected| ==> selected[k] < |files| && Selects(model, removable, files[selected[k]])
    ensures forall j, k :: 0 <= j < k < |selected| ==> selected[j] < selected[k]
    ensures forall i :: 0 <= i < |files| && Selects(model, removable, files[i]) ==> i in selected
  {
    selected := [];
    for i := 0 to |files|
      invariant forall k :: 0 <= k < |selected| ==> selected[k] < i && Selects(model, removable, files[selected[k]])
      invariant forall j, k :: 0 <= j < k < |selected| ==> selected[j] < selected[k]
      invariant forall j :: 0 <= j < i && Selects(model, removable, files[j]) ==> j in selected
    {
      if Selects(model, removable, files[i]) {
        selected := selected + [i];
      }
    }
  }

  /** A weight of the model: spelled as the model's quantization is. */
  predicate IsWeight(m: Model, f: CachedFile) {
    f.repo == m.repo && if m.mlx then f.forMlx else f.quant == Some(m.quant)
  }

  /** The files a cached model needs. */
  predicate Owns(m: Model, f: CachedFile) {
    IsWeight(m, f) || m.mmproj == Some(f.path)
  }

  /** What the scan makes of ids and names: a repository has at most one MLX model; files for MLX
      are not GGUF weights; a projector is an auxiliary GGUF file in the repository of its model. */
  predicate Kinds(models: seq<Model>, files: seq<CachedFile>) {
    (forall m, n :: m in models && n in models && m.mlx && n.mlx && m.repo == n.repo ==> m.id == n.id)
    && (forall f :: f in files && f.forMlx ==> f.quant.None?)
    && forall m, f :: m in models && f in files && m.mmproj == Some(f.path) ==>
         f.repo == m.repo && f.quant.None? && !f.forMlx
  }

  predicate Taken(other: Model, model: Model, removable: Option<Blob>, f: CachedFile) {
    other.id != model.id && Owns(other, f) && Selects(model, removable, f)
  }

  /** A file of another model is among those selected. */
  ghost predicate TakesFromOthers(
    models: seq<Model>, model: Model, removable: Option<Blob>, files: seq<CachedFile>)
  {
    exists m, f :: m in models && f in files && Taken(m, model, removable, f)
  }

  /** A weight of another model of the repository whose quantization differs by case only, or which
      has the contents of a projector that is removed. */
  predicate Twin(other: Model, model: Model, removable: Option<Blob>, f: CachedFile) {
    other.id != model.id && other.repo == model.repo && !model.mlx && IsWeight(other, f)
    && ((!other.mlx && other.quant.folded == model.quant.folded) || removable == Some(f.blob))
  }

  ghost predicate HasTwin(models: seq<Model>, model: Model, removable: Option<Blob>, files: seq<CachedFile>) {
    exists m, f :: m in models && f in files && Twin(m, model, removable, f)
  }

  /** Deleting a model selects a file of another model exactly when that model has a linked weight
      of the same quantization up to case, or one with the contents of the removed projector. */
  lemma TakenExactly(models: seq<Model>, model: Model, removable: Option<Blob>, files: seq<CachedFile>)
    requires Kinds(models, files) && model in models
    requires ProjectorUnshared(models, model, removable, files)
    ensures TakesFromOthers(models, model, removable, files) <==> HasTwin(models, model, removable, files)
  {
    if m, f :| m in models && f in files && Taken(m, model, removable, f) {
      assert Twin(m, model, removable, f);
    }
    if m, f :| m in models && f in files && Twin(m, model, removable, f) {
      assert Taken(m, model, removable, f);
    }
  }

  /** The removed projector is no file that another model has for its own. */
  ghost predicate ProjectorUnshared(
    models: seq<Model>, model: Model, removable: Option<Blob>, files: seq<CachedFile>)
  {
    forall m, f :: m in models && f in files && m.id != model.id && m.mmproj == Some(f.path) ==>
      removable != Some(f.blob)
  }

  lemma NoTwinAlone(models: seq<Model>, model: Model, removable: Option<Blob>, files: seq<CachedFile>)
    requires Alone(models, model)
    ensures !HasTwin(models, model, removable, files)
  {
    forall m, f | m in models && f in files
      ensures !Twin(m, model, removable, f)
    {
      var i :| 0 <= i < |models| && models[i] == m;
    }
  }

  /** Like Model-Quality.gguf and Model-quality.gguf in two cached revisions: two models, and
      deleting one takes the file of the other. */
  lemma CaseTwinsGoTogether(removable: Option<Blob>)
    ensures var upper, lower := Model(1, 0, Quant(1, 0), false, None), Model(2, 0, Quant(2, 0), false, None);
            var file := CachedFile(Path(2), Blob(0, 2), 0, Some(Quant(2, 0)), false);
            upper.quant != lower.quant && Owns(lower, file) && !Owns(upper, file)
            && Kinds([upper, lower], [file]) && HasTwin([upper, lower], upper, removable, [file])
  {
    var upper, lower := Model(1, 0, Quant(1, 0), false, None), Model(2, 0, Quant(2, 0), false, None);
    var file := CachedFile(Path(2), Blob(0, 2), 0, Some(Quant(2, 0)), false);
    assert lower in [upper, lower] && Twin(lower, upper, removable, file);
  }

  lemma NotYetGone(files: seq<CachedFile>, selected: seq<nat>, i: nat, gone: set<Path>)
    requires DistinctPaths(files) && i < |selected|
    requires forall k :: 0 <= k < |selected| ==> selected[k] < |files|
    requires forall j, k :: 0 <= j < k < |selected| ==> selected[j] < selected[k]
    requires forall p :: p in gone ==> exists k :: 0 <= k < i && files[selected[k]].path == p
    ensures files[selected[i]].path !in gone
  {
  }
}

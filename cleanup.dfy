/**
 * The maintenance commands of repoman/cleanup.py: the sets of blob names the
 * versions link to, the sweeps that delete what no version (or no latest
 * version) links to, the listing of live blobs, the removal of old versions
 * and the regex rewrite of every URL. The sets are specified by functions
 * over the version data; the commands are methods proved against them.
 */
module Cleanup {
  import opened Wrappers
  import opened Paths
  import opened Json
  import opened Seqs
  import opened Backends
  import opened Storage
  import opened Documents
  import opened Repo
  import opened Collections

  // ----- the names a version links to -----

  /** `{basename(src) for src in sources}`. */
  function SourceNames(sources: seq<string>): set<string> {
    set s | s in sources :: Basename(s)
  }

  /** The blob names the files of one version link to, file after file. */
  function FileNames(files: seq<UpdateFile>): set<string> {
    if files == [] then {}
    else FileNames(files[..|files| - 1]) + SourceNames(files[|files| - 1].sources)
  }

  /** What `linked_files` collects over the listed versions. */
  function Linked(ds: seq<VersionData>): set<string> {
    if ds == [] then {} else Linked(ds[..|ds| - 1]) + FileNames(ds[|ds| - 1].files)
  }

  /** A name a version links to is the basename of one source of one of its files, and every such basename is one. */
  lemma {:induction false} FileNamesIff(files: seq<UpdateFile>, n: string)
    ensures n in FileNames(files) <==>
      exists i, k :: 0 <= i < |files| && 0 <= k < |files[i].sources| && n == Basename(files[i].sources[k])
    decreases |files|
  {
    if files != [] {
      var init := files[..|files| - 1];
      var last := files[|files| - 1];
      FileNamesIff(init, n);
      if n in SourceNames(last.sources) {
        var s :| s in last.sources && n == Basename(s);
        var k :| 0 <= k < |last.sources| && last.sources[k] == s;
        assert n == Basename(files[|files| - 1].sources[k]);
      }
      if exists i, k :: 0 <= i < |files| && 0 <= k < |files[i].sources| && n == Basename(files[i].sources[k]) {
        var i, k :| 0 <= i < |files| && 0 <= k < |files[i].sources| && n == Basename(files[i].sources[k]);
        if i < |files| - 1 {
          assert init[i] == files[i];
        } else {
          assert files[i].sources[k] in last.sources;
        }
      }
    }
  }

  /** `linked_files` holds exactly the names that some listed version links to. */
  lemma {:induction false} LinkedIff(ds: seq<VersionData>, n: string)
    ensures n in Linked(ds) <==> exists i :: 0 <= i < |ds| && n in FileNames(ds[i].files)
    decreases |ds|
  {
    if ds != [] {
      var init := ds[..|ds| - 1];
      LinkedIff(init, n);
      if exists i :: 0 <= i < |ds| && n in FileNames(ds[i].files) {
        var i :| 0 <= i < |ds| && n in FileNames(ds[i].files);
        if i < |ds| - 1 {
          assert init[i] == ds[i];
        }
      }
    }
  }

  /** `f.add(basename(src))` for every source of every file, added to `names`. */
  method AddFileNames(names: set<string>, files: seq<UpdateFile>) returns (r: set<string>)
    ensures r == names + FileNames(files)
  {
    r := names;
    for i := 0 to |files|
      invariant r == names + FileNames(files[..i])
    {
      assert files[..i + 1][..i] == files[..i];
      var sources := files[i].sources;
      for j := 0 to |sources|
        invariant r == names + FileNames(files[..i]) + SourceNames(sources[..j])
      {
        assert SourceNames(sources[..j + 1]) == SourceNames(sources[..j]) + {Basename(sources[j])} by {
          assert sources[..j + 1] == sources[..j] + [sources[j]];
        }
        r := r + {Basename(sources[j])};
      }
      assert sources[..|sources|] == sources;
    }
    assert files[..|files|] == files;
  }

  /** The names every version in the list links to, collected version after version. */
  method VersionsNames(vs: seq<Version>) returns (names: set<string>)
    ensures names == Linked(Datas(vs))
  {
    names := {};
    ghost var ds := Datas(vs);
    for i := 0 to |vs|
      invariant names == Linked(ds[..i])
    {
      assert ds[..i + 1][..i] == ds[..i];
      names := AddFileNames(names, vs[i].files);
    }
    assert ds[..|vs|] == ds;
  }

  /** What `linked_files(collection)` returns, or the error listing the versions raises. */
  function LinkedSpec(docs: map<string, Json>, colPath: string, known: set<string>, dirs: seq<string>): Result<set<string>> {
    var ds :- AllVersionsSpec(docs, colPath, known, dirs, AlwaysTrue);
    Ok(Linked(ds))
  }

  /** `linked_files(collection)`: the names that every version of every channel links to. */
  method LinkedFiles(col: Collection) returns (r: Result<set<string>>, ghost dirs: seq<string>)
    modifies col`platforms
    ensures NoDup(dirs) && forall d :: d in dirs <==> d in SubdirsIn(col.backend.docs.Keys + col.backend.blobs.Keys, col.path)
    ensures r == LinkedSpec(col.backend.docs, col.path, old(col.platforms).Keys, dirs)
    ensures old(col.platforms).Keys <= col.platforms.Keys <= old(col.platforms).Keys + {"name"}
  {
    var vs;
    vs, dirs := col.AllVersionsWhere(AlwaysTrue);
    if vs.Err? {
      r := Err(vs.error);
      return;
    }
    var names := VersionsNames(vs.value);
    r := Ok(names);
  }

  // ----- the latest versions -----

  /** `vsn.files` on a channel's latest version that is None. */
  const NoneFiles := AttributeError("'NoneType' object has no attribute 'files'")

  /** What `latest_files` collects over the latest versions in order; the first None raises. */
  function LatestNames(os: seq<Option<VersionData>>): Result<set<string>> {
    if os == [] then Ok({})
    else
      var rest :- LatestNames(os[..|os| - 1]);
      var last := os[|os| - 1];
      if last.None? then Err(NoneFiles) else Ok(rest + FileNames(last.value.files))
  }

  /** The names of the latest versions are names of versions among `ds`. */
  lemma {:induction false} LatestNamesWithin(os: seq<Option<VersionData>>, ds: seq<VersionData>)
    requires LatestNames(os).Ok?
    requires forall d :: Some(d) in os ==> d in ds
    ensures LatestNames(os).value <= Linked(ds)
    decreases |os|
  {
    if os != [] {
      var init := os[..|os| - 1];
      assert forall d :: Some(d) in init ==> Some(d) in os;
      LatestNamesWithin(init, ds);
      var d := os[|os| - 1].value;
      assert d in ds;
      var i :| 0 <= i < |ds| && ds[i] == d;
      forall n | n in FileNames(d.files) ensures n in Linked(ds) {
        LinkedIff(ds, n);
      }
    }
  }

  /** The latest versions raise exactly when one of them is None, and then with `vsn.files` on None. */
  lemma {:induction false} LatestNamesNone(os: seq<Option<VersionData>>)
    ensures LatestNames(os).Err? <==> None in os
    ensures LatestNames(os).Err? ==> LatestNames(os).error == NoneFiles
    decreases |os|
  {
    if os != [] {
      var init := os[..|os| - 1];
      LatestNamesNone(init);
      assert os == init + [os[|os| - 1]];
    }
  }

  /**
   * The loop of `latest_files` over what the generator yields: it reads
   * each latest version as it comes, so a None raises before any error the
   * generator would meet further on.
   */
  function LatestOf(yielded: Yields<Option<VersionData>>): Result<set<string>> {
    var names :- LatestNames(yielded.items);
    if yielded.end.Fail? then Err(yielded.end.error) else Ok(names)
  }

  /** A None among the yielded versions raises AttributeError whatever ends the generator; otherwise only the generator's own error is raised. */
  lemma LatestErrorOrder(yielded: Yields<Option<VersionData>>)
    ensures None in yielded.items ==> LatestOf(yielded) == Err(NoneFiles)
    ensures None !in yielded.items ==> (LatestOf(yielded).Err? <==> yielded.end.Fail?)
    ensures None !in yielded.items && yielded.end.Fail? ==> LatestOf(yielded).error == yielded.end.error
  {
    LatestNamesNone(yielded.items);
  }

  /** As written, one empty channel among the others makes `latest_files` raise instead of returning the others' names. */
  lemma EmptyChannelRaises(d: VersionData)
    ensures LatestOf(Yields([Some(d), None], Pass)) == Err(NoneFiles)
  {
    LatestErrorOrder(Yields([Some(d), None], Pass));
  }

  /** `latest_files` as evidently intended: an empty channel, whose latest version is None, contributes no names. */
  function LatestNamesSkippingEmpty(os: seq<Option<VersionData>>): set<string> {
    if os == [] then {}
    else
      var last := os[|os| - 1];
      LatestNamesSkippingEmpty(os[..|os| - 1]) + (if last.None? then {} else FileNames(last.value.files))
  }

  /**
   * The corrected collection holds exactly the names of the channels that
   * have a latest version, and agrees with the source wherever the source
   * does not raise.
   */
  lemma {:induction false} SkippingEmptyIff(os: seq<Option<VersionData>>, n: string)
    ensures n in LatestNamesSkippingEmpty(os) <==> exists i :: 0 <= i < |os| && os[i].Some? && n in FileNames(os[i].value.files)
    ensures None !in os ==> LatestNames(os) == Ok(LatestNamesSkippingEmpty(os))
    decreases |os|
  {
    if os != [] {
      var init := os[..|os| - 1];
      SkippingEmptyIff(init, n);
      assert None !in os ==> None !in init by {
        if None in init {
          var i :| 0 <= i < |init| && init[i] == None;
          assert os[i] == None;
        }
      }
      assert forall i :: 0 <= i < |init| ==> init[i] == os[i];
    }
  }

  /** What `latest_files(collection)` returns, or the error it raises. */
  function LatestSpec(docs: map<string, Json>, colPath: string, known: set<string>, dirs: seq<string>): Result<set<string>> {
    LatestOf(AllLatestSpec(docs, colPath, known, dirs))
  }

  /** Over the same documents, `latest_files` is a subset of `linked_files` whenever both return. */
  lemma LatestWithinLinked(docs: map<string, Json>, colPath: string, known: set<string>, dirs: seq<string>)
    requires LatestSpec(docs, colPath, known, dirs).Ok? && LinkedSpec(docs, colPath, known, dirs).Ok?
    ensures LatestSpec(docs, colPath, known, dirs).value <= LinkedSpec(docs, colPath, known, dirs).value
  {
    LatestAmongAll(docs, colPath, known, dirs);
    LatestNamesWithin(AllLatestSpec(docs, colPath, known, dirs).items, AllVersionsSpec(docs, colPath, known, dirs, AlwaysTrue).value);
  }

  /** Once a prefix of the latest versions raises, so does the whole list, with that error. */
  lemma {:induction false} LatestNamesErrPrefix(os: seq<Option<VersionData>>, j: nat)
    requires j <= |os| && LatestNames(os[..j]).Err?
    ensures LatestNames(os) == LatestNames(os[..j])
    decreases |os| - j
  {
    if j < |os| {
      var init := os[..|os| - 1];
      assert init[..j] == os[..j];
      LatestNamesErrPrefix(init, j);
    } else {
      assert os[..j] == os;
    }
  }

  /** The loop of `latest_files` over the latest versions: each one's names, until a None raises. */
  method LatestNamesOf(latest: seq<Option<Version>>) returns (r: Result<set<string>>)
    ensures r == LatestNames(OptDatas(latest))
  {
    ghost var os := OptDatas(latest);
    var names := {};
    for i := 0 to |latest|
      invariant LatestNames(os[..i]) == Ok(names)
    {
      assert os[..i + 1][..i] == os[..i];
      if latest[i].None? {
        LatestNamesErrPrefix(os, i + 1);
        return Err(NoneFiles);
      }
      names := AddFileNames(names, latest[i].value.files);
    }
    assert os[..|latest|] == os;
    r := Ok(names);
  }

  /** `latest_files(collection)`: the names that the latest version of every channel links to. */
  method LatestFiles(col: Collection) returns (r: Result<set<string>>, ghost dirs: seq<string>)
    modifies col`platforms
    ensures NoDup(dirs) && forall d :: d in dirs <==> d in SubdirsIn(col.backend.docs.Keys + col.backend.blobs.Keys, col.path)
    ensures r == LatestSpec(col.backend.docs, col.path, old(col.platforms).Keys, dirs)
    ensures old(col.platforms).Keys <= col.platforms.Keys <= old(col.platforms).Keys + {"name"}
  {
    var yielded;
    yielded, dirs := col.AllLatestVersions();
    r := LatestNamesOf(yielded.items);
    if r.Ok? && yielded.end.Fail? {
      r := Err(yielded.end.error);
    }
  }

  // ----- live versions -----

  /** What `live_versions` collects: the names of each version whose every linked name is in storage. */
  function Live(ds: seq<VersionData>, stored: set<string>): set<string> {
    if ds == [] then {}
    else
      var files := FileNames(ds[|ds| - 1].files);
      Live(ds[..|ds| - 1], stored) + (if files - stored == {} then files else {})
  }

  /** `len(files - stored) == 0` says the names are all stored. */
  lemma NoneDead(files: set<string>, stored: set<string>)
    ensures files - stored == {} <==> files <= stored
  {
    if files <= stored {
      assert forall x :: x !in files - stored;
    } else {
      var x :| x in files && x !in stored;
      assert x in files - stored;
    }
  }

  /** A live name is a name of some version that has all of its names in storage, and every name of such a version is live. */
  lemma {:induction false} LiveIff(ds: seq<VersionData>, stored: set<string>, n: string)
    ensures n in Live(ds, stored) <==>
      exists i :: 0 <= i < |ds| && n in FileNames(ds[i].files) && FileNames(ds[i].files) <= stored
    decreases |ds|
  {
    if ds != [] {
      var init := ds[..|ds| - 1];
      var files := FileNames(ds[|ds| - 1].files);
      LiveIff(init, stored, n);
      assert forall i :: 0 <= i < |init| ==> init[i] == ds[i];
      NoneDead(files, stored);
      if exists i :: 0 <= i < |ds| && n in FileNames(ds[i].files) && FileNames(ds[i].files) <= stored {
        var i :| 0 <= i < |ds| && n in FileNames(ds[i].files) && FileNames(ds[i].files) <= stored;
        if i < |ds| - 1 {
          assert init[i] == ds[i];
        }
      }
      if n in files && files <= stored {
        assert n in FileNames(ds[|ds| - 1].files) && FileNames(ds[|ds| - 1].files) <= stored;
      }
    }
  }

  /** Every live name is in storage and linked. */
  lemma LiveWithinStorage(ds: seq<VersionData>, stored: set<string>)
    ensures Live(ds, stored) <= stored * Linked(ds)
  {
    forall n | n in Live(ds, stored) ensures n in stored && n in Linked(ds) {
      LiveIff(ds, stored, n);
      LinkedIff(ds, n);
    }
  }

  /** What `live_versions(collection)` computes from the names in storage, or the error listing the versions raises. */
  function LiveSpec(docs: map<string, Json>, colPath: string, known: set<string>, dirs: seq<string>,
                    stored: set<string>): Result<set<string>>
  {
    var ds :- AllVersionsSpec(docs, colPath, known, dirs, AlwaysTrue);
    Ok(Live(ds, stored))
  }

  /** One more version: its names join the live ones when none of them is missing. */
  lemma LiveStep(ds: seq<VersionData>, stored: set<string>, i: nat)
    requires i < |ds|
    ensures Live(ds[..i + 1], stored)
      == Live(ds[..i], stored) + (if FileNames(ds[i].files) - stored == {} then FileNames(ds[i].files) else {})
  {
    assert ds[..i + 1][..i] == ds[..i];
  }

  /** One turn of the loop of `live_versions`: the version's names join the live ones when none is missing from storage. */
  method LiveNext(v: Version, stored: set<string>, ghost ds: seq<VersionData>, ghost i: nat, present: set<string>)
    returns (present': set<string>)
    requires i < |ds| && ds[i].files == v.files && present == Live(ds[..i], stored)
    ensures present' == Live(ds[..i + 1], stored)
  {
    LiveStep(ds, stored, i);
    var files := AddFileNames({}, v.files);
    var dead := files - stored;
    assert |dead| == 0 <==> dead == {};
    present' := present;
    if |dead| == 0 {
      present' := present + files;
    }
  }

  /** The loop of `live_versions` over the listed versions, against the names in storage. */
  method LiveNames(versions: seq<Version>, stored: set<string>) returns (present: set<string>)
    ensures present == Live(Datas(versions), stored)
  {
    ghost var ds := Datas(versions);
    present := {};
    for i := 0 to |versions|
      invariant present == Live(ds[..i], stored)
    {
      present := LiveNext(versions[i], stored, ds, i, present);
    }
    assert ds[..|versions|] == ds;
  }

  /** `live_versions(collection)`: the names of the versions that miss no blob (printed by the command). */
  method LiveVersions(col: Collection) returns (r: Result<set<string>>, ghost dirs: seq<string>)
    modifies col`platforms
    ensures NoDup(dirs) && forall d :: d in dirs <==> d in SubdirsIn(col.backend.docs.Keys + col.backend.blobs.Keys, col.path)
    ensures r == LiveSpec(col.backend.docs, col.path, old(col.platforms).Keys, dirs,
                          FilesIn(col.storage.backend.blobs, col.storage.path))
    ensures old(col.platforms).Keys <= col.platforms.Keys <= old(col.platforms).Keys + {"name"}
  {
    var listed := col.storage.GetAllFiles();
    var stored := set n | n in listed;
    assert stored == FilesIn(col.storage.backend.blobs, col.storage.path);
    var vs;
    vs, dirs := col.AllVersionsWhere(AlwaysTrue);
    if vs.Err? {
      r := Err(vs.error);
      return;
    }
    var present := LiveNames(vs.value, stored);
    r := Ok(present);
  }

  // ----- deleting blobs -----

  /** The storage locations of the names. */
  function Locations(path: string, names: seq<string>): set<string> {
    set n | n in names :: Join(path, n)
  }

  /** The log entries of deleting the names in order. */
  function DeletedEvents(path: string, names: seq<string>): seq<Event> {
    if names == [] then [] else DeletedEvents(path, names[..|names| - 1]) + [Deleted(Join(path, names[|names| - 1]))]
  }

  /** Names without a '/' have distinct locations, so a name not yet deleted still has its blob. */
  lemma LocationsMiss(path: string, names: seq<string>, n: string)
    requires '/' !in n && n !in names
    requires forall m :: m in names ==> '/' !in m
    ensures Join(path, n) !in Locations(path, names)
  {
    forall m | m in names ensures Join(path, m) != Join(path, n) {
      BasenameOfJoin(path, m);
      BasenameOfJoin(path, n);
    }
  }

  /** One turn of the deletion loop: `storage.remove_file(n)`, with the index kept in step. */
  method RemoveNext(storage: FileStorage, ghost blobs0: map<string, Bytes>, ghost log0: seq<Event>,
                    ghost order: seq<string>, n: string) returns (r: Outcome)
    requires storage.backend.blobs == blobs0 - Locations(storage.path, order)
    requires storage.backend.log == log0 + DeletedEvents(storage.path, order)
    modifies storage`md5Map, storage.backend`blobs, storage.backend`log
    ensures r.Pass? <==> Join(storage.path, n) in old(storage.backend.blobs)
    ensures r.Fail? ==>
      && r == Fail(IOError(Join(storage.path, n))) && storage.md5Map == old(storage.md5Map)
      && storage.backend.blobs == old(storage.backend.blobs) && storage.backend.log == old(storage.backend.log)
    ensures r.Pass? ==>
      && storage.backend.blobs == blobs0 - Locations(storage.path, order + [n])
      && storage.backend.log == log0 + DeletedEvents(storage.path, order + [n])
    ensures old(storage.md5Map).Some? && SoundIndex(old(storage.md5Map).value, old(storage.backend.blobs), storage.path, storage.backend.digest) ==>
      storage.md5Map.Some? && SoundIndex(storage.md5Map.value, storage.backend.blobs, storage.path, storage.backend.digest)
  {
    r := storage.RemoveFileAndForget(n);
    assert Locations(storage.path, order + [n]) == Locations(storage.path, order) + {Join(storage.path, n)};
    assert (order + [n])[..|order|] == order;
  }

  /**
   * `for f in to_delete: storage.remove_file(f)` in the set's iteration
   * order, which the model leaves open and reports as `order`; the first
   * removal that raises ends the loop. Names that are all stored files are
   * all removed.
   */
  method RemoveAll(storage: FileStorage, names: set<string>) returns (r: Outcome, ghost order: seq<string>)
    modifies storage`md5Map, storage.backend`blobs, storage.backend`log
    ensures NoDup(order) && forall n :: n in order ==> n in names
    ensures r.Pass? ==> forall n :: n in names ==> n in order
    ensures r.Fail? ==> r.error.IOError?
    ensures storage.backend.blobs == old(storage.backend.blobs) - Locations(storage.path, order)
    ensures storage.backend.log == old(storage.backend.log) + DeletedEvents(storage.path, order)
    ensures names <= FilesIn(old(storage.backend.blobs), storage.path) ==> r.Pass?
    ensures order == [] ==> storage.md5Map == old(storage.md5Map)
    ensures old(storage.md5Map).Some? && SoundIndex(old(storage.md5Map).value, old(storage.backend.blobs), storage.path, storage.backend.digest) ==>
      storage.md5Map.Some? && SoundIndex(storage.md5Map.value, storage.backend.blobs, storage.path, storage.backend.digest)
  {
    ghost var blobs0 := storage.backend.blobs;
    ghost var log0 := storage.backend.log;
    ghost var stored := names <= FilesIn(blobs0, storage.path);
    ghost var sound := storage.md5Map.Some? && SoundIndex(storage.md5Map.value, blobs0, storage.path, storage.backend.digest);
    if stored {
      forall n | n in names ensures Plain(n) && Join(storage.path, n) in blobs0 {
        FilesInIff(blobs0, storage.path, n);
      }
    }
    var left := names;
    order := [];
    r := Pass;
    while left != {}
      invariant left <= names && r == Pass
      invariant order == [] ==> storage.md5Map == old(storage.md5Map)
      invariant NoDup(order) && forall n :: n in order <==> n in names && n !in left
      invariant storage.backend.blobs == blobs0 - Locations(storage.path, order)
      invariant storage.backend.log == log0 + DeletedEvents(storage.path, order)
      invariant stored ==> forall n :: n in names ==> Plain(n) && Join(storage.path, n) in blobs0
      invariant sound ==> storage.md5Map.Some? && SoundIndex(storage.md5Map.value, storage.backend.blobs, storage.path, storage.backend.digest)
      decreases left
    {
      var n :| n in left;
      if stored {
        LocationsMiss(storage.path, order, n);
      }
      r := RemoveNext(storage, blobs0, log0, order, n);
      if r.Fail? {
        return;
      }
      order := order + [n];
      left := left - {n};
    }
  }

  // ----- the sweeps -----

  /** What `orphan_files` deletes: the stored names that no version links to; the rest of storage is all linked. */
  function Orphans(stored: set<string>, linked: set<string>): (r: set<string>)
    ensures r <= stored && r !! linked && stored - r <= linked
  {
    stored - linked
  }

  /**
   * `orphan_files(collection, delete)`: the stored names that no version
   * links to are listed, and removed only when `delete` is set.
   */
  method OrphanFiles(col: Collection, delete: bool)
    returns (r: Outcome, ghost dirs: seq<string>, ghost toDelete: set<string>, ghost order: seq<string>)
    modifies col`platforms, col.storage`md5Map, col.storage.backend`blobs, col.storage.backend`log
    ensures var linked := LinkedSpec(old(col.backend.docs), col.path, old(col.platforms).Keys, dirs);
      && (linked.Err? ==> r == Fail(linked.error) && order == [])
      && (linked.Ok? ==> toDelete == Orphans(FilesIn(old(col.storage.backend.blobs), col.storage.path), linked.value))
      && (linked.Ok? && !delete ==> r == Pass && order == [])
      && (linked.Ok? && delete ==> r == Pass && NoDup(order) && forall n :: n in order <==> n in toDelete)
    ensures col.storage.backend.blobs == old(col.storage.backend.blobs) - Locations(col.storage.path, order)
    ensures col.storage.backend.log == old(col.storage.backend.log) + DeletedEvents(col.storage.path, order)
    ensures order == [] ==> col.storage.md5Map == old(col.storage.md5Map)
    ensures old(col.storage.md5Map).Some? && SoundIndex(old(col.storage.md5Map).value, old(col.storage.backend.blobs), col.storage.path, col.storage.backend.digest) ==>
      col.storage.md5Map.Some? && SoundIndex(col.storage.md5Map.value, col.storage.backend.blobs, col.storage.path, col.storage.backend.digest)
  {
    var storage := col.storage;
    var linked;
    linked, dirs := LinkedFiles(col);
    order, toDelete := [], {};
    if linked.Err? {
      r := Fail(linked.error);
      return;
    }
    var listed := storage.GetAllFiles();
    var stored := set n | n in listed;
    assert stored == FilesIn(storage.backend.blobs, storage.path);
    var doomed := Orphans(stored, linked.value);
    toDelete := doomed;
    r := Pass;
    if delete {
      r, order := RemoveAll(storage, doomed);
    }
  }

  /** `obsolete_files` splits the stored names into those no latest version links to and the rest, which are the latest's. */
  function Obsolete(stored: set<string>, latest: set<string>): (r: (set<string>, set<string>))
    ensures r.0 + r.1 == stored && r.0 !! r.1
    ensures r.0 !! latest && r.1 == stored * latest
  {
    var toDelete := stored - latest;
    (toDelete, stored - toDelete)
  }

  /**
   * `obsolete_files(collection, delete)`: the stored names that no latest
   * version links to are listed, and removed only when `delete` is set.
   */
  method ObsoleteFiles(col: Collection, delete: bool)
    returns (r: Outcome, ghost dirs: seq<string>, ghost toDelete: set<string>, ghost toKeep: set<string>, ghost order: seq<string>)
    modifies col`platforms, col.storage`md5Map, col.storage.backend`blobs, col.storage.backend`log
    ensures var latest := LatestSpec(old(col.backend.docs), col.path, old(col.platforms).Keys, dirs);
      && (latest.Err? ==> r == Fail(latest.error) && order == [])
      && (latest.Ok? ==> (toDelete, toKeep) == Obsolete(FilesIn(old(col.storage.backend.blobs), col.storage.path), latest.value))
      && (latest.Ok? && !delete ==> r == Pass && order == [])
      && (latest.Ok? && delete ==> r == Pass && NoDup(order) && forall n :: n in order <==> n in toDelete)
    ensures col.storage.backend.blobs == old(col.storage.backend.blobs) - Locations(col.storage.path, order)
    ensures col.storage.backend.log == old(col.storage.backend.log) + DeletedEvents(col.storage.path, order)
    ensures order == [] ==> col.storage.md5Map == old(col.storage.md5Map)
    ensures old(col.storage.md5Map).Some? && SoundIndex(old(col.storage.md5Map).value, old(col.storage.backend.blobs), col.storage.path, col.storage.backend.digest) ==>
      col.storage.md5Map.Some? && SoundIndex(col.storage.md5Map.value, col.storage.backend.blobs, col.storage.path, col.storage.backend.digest)
  {
    var storage := col.storage;
    var latest;
    latest, dirs := LatestFiles(col);
    order, toDelete, toKeep := [], {}, {};
    if latest.Err? {
      r := Fail(latest.error);
      return;
    }
    var listed := storage.GetAllFiles();
    var stored := set n | n in listed;
    assert stored == FilesIn(storage.backend.blobs, storage.path);
    var split := Obsolete(stored, latest.value);
    toDelete, toKeep := split.0, split.1;
    r := Pass;
    if delete {
      r, order := RemoveAll(storage, split.0);
    }
  }

  // ----- delete-before -----

  /** The listing predicate of `delete_old`: `id < older_than`. */
  function Below(olderThan: int): (int, string) -> bool {
    (id, name) => id < olderThan
  }

  /** The ids of the listed versions, in order. */
  function VersionIds(ds: seq<VersionData>): (r: seq<int>)
    ensures |r| == |ds| && forall i :: 0 <= i < |ds| ==> r[i] == ds[i].id
  {
    if ds == [] then [] else VersionIds(ds[..|ds| - 1]) + [ds[|ds| - 1].id]
  }

  /** The summaries whose id is not in `ids`, in order. */
  function Keep(vs: seq<Summary>, ids: set<int>): seq<Summary> {
    if vs == [] then [] else (if vs[0].id in ids then [] else [vs[0]]) + Keep(vs[1..], ids)
  }

  /** The summaries whose id is at least the cut, in order. */
  function AtLeast(vs: seq<Summary>, olderThan: int): seq<Summary> {
    if vs == [] then [] else (if vs[0].id >= olderThan then [vs[0]] else []) + AtLeast(vs[1..], olderThan)
  }

  lemma {:induction false} KeepNothing(vs: seq<Summary>)
    ensures Keep(vs, {}) == vs
    decreases |vs|
  {
    if vs != [] {
      KeepNothing(vs[1..]);
    }
  }

  /** Keeping what deleting `x` left is keeping without `x` as well. */
  lemma {:induction false} KeepWithoutId(vs: seq<Summary>, ids: set<int>, x: int)
    ensures Keep(WithoutId(vs, x), ids) == Keep(vs, ids + {x})
    decreases |vs|
  {
    if vs != [] {
      KeepWithoutId(vs[1..], ids, x);
      var rest := WithoutId(vs[1..], x);
      if vs[0].id != x {
        var left := [vs[0]] + rest;
        assert WithoutId(vs, x) == left;
        assert left[0] == vs[0] && left[1..] == rest;
      } else {
        assert WithoutId(vs, x) == [] + rest == rest;
        assert Keep(vs, ids + {x}) == [] + Keep(vs[1..], ids + {x});
      }
    }
  }

  /** The ids below the cut among the summaries. */
  function BelowIds(vs: seq<Summary>, olderThan: int): (r: set<int>)
    ensures forall x :: x in r ==> x < olderThan
    ensures forall i :: 0 <= i < |vs| && vs[i].id < olderThan ==> vs[i].id in r
  {
    if vs == [] then {}
    else
      assert forall i :: 1 <= i < |vs| ==> vs[1..][i - 1] == vs[i];
      (if vs[0].id < olderThan then {vs[0].id} else {}) + BelowIds(vs[1..], olderThan)
  }

  /** Keeping the ids outside a set that holds exactly the ids below the cut keeps those at or above it. */
  lemma {:induction false} KeepAtLeast(vs: seq<Summary>, ids: set<int>, olderThan: int)
    requires forall i :: 0 <= i < |vs| ==> (vs[i].id in ids <==> vs[i].id < olderThan)
    ensures Keep(vs, ids) == AtLeast(vs, olderThan)
    decreases |vs|
  {
    if vs != [] {
      assert forall i :: 1 <= i < |vs| ==> vs[1..][i - 1] == vs[i];
      KeepAtLeast(vs[1..], ids, olderThan);
    }
  }

  /** `all_versions_where(lambda id, name: id < older_than)` lists only versions below the cut. */
  lemma {:induction false} ListedBelow(docs: map<string, Json>, chanDir: string, versions: seq<Summary>,
                                       vs: seq<Summary>, olderThan: int)
    requires ChannelVersionsSpec(docs, map[], chanDir, versions, vs, Below(olderThan)).Ok?
    ensures forall d :: d in ChannelVersionsSpec(docs, map[], chanDir, versions, vs, Below(olderThan)).value ==> d.id < olderThan
    decreases |vs|
  {
    if vs != [] {
      ListedBelow(docs, chanDir, versions, vs[1..], olderThan);
    }
  }

  /** ... and every listed summary below the cut has its version in the listing. */
  lemma {:induction false} ListedAllBelow(docs: map<string, Json>, chanDir: string, versions: seq<Summary>,
                                          vs: seq<Summary>, olderThan: int, k: nat)
    requires ChannelVersionsSpec(docs, map[], chanDir, versions, vs, Below(olderThan)).Ok?
    requires k < |vs| && vs[k].id < olderThan && vs[k] in versions
    ensures exists d :: d in ChannelVersionsSpec(docs, map[], chanDir, versions, vs, Below(olderThan)).value && d.id == vs[k].id
    decreases |vs|
  {
    if k == 0 {
      assert Below(olderThan)(vs[0].id, vs[0].name);
      assert FirstName(versions, vs[0].id).Some?;
      var d := VersionView(docs, map[], chanDir, versions, vs[0].id).value.value;
      assert d in ChannelVersionsSpec(docs, map[], chanDir, versions, vs, Below(olderThan)).value;
    } else {
      assert vs[1..][k - 1] == vs[k];
      ListedAllBelow(docs, chanDir, versions, vs[1..], olderThan, k - 1);
    }
  }

  /** A summary's id is among the listed ids exactly when it is below the cut. */
  lemma ListedIffBelow(docs: map<string, Json>, chanDir: string, versions: seq<Summary>, olderThan: int, i: nat)
    requires ChannelVersionsSpec(docs, map[], chanDir, versions, versions, Below(olderThan)).Ok?
    requires i < |versions|
    ensures versions[i].id in VersionIds(ChannelVersionsSpec(docs, map[], chanDir, versions, versions, Below(olderThan)).value)
      <==> versions[i].id < olderThan
  {
    var ds := ChannelVersionsSpec(docs, map[], chanDir, versions, versions, Below(olderThan)).value;
    var ids := VersionIds(ds);
    if versions[i].id < olderThan {
      ListedAllBelow(docs, chanDir, versions, versions, olderThan, i);
      var d :| d in ds && d.id == versions[i].id;
      var j :| 0 <= j < |ds| && ds[j] == d;
      assert ids[j] == d.id;
    }
    if versions[i].id in ids {
      ListedBelow(docs, chanDir, versions, versions, olderThan);
      var j :| 0 <= j < |ids| && ids[j] == versions[i].id;
      assert ds[j] in ds;
    }
  }

  /**
   * What `delete_old` works on: the channel's summaries and cache, the
   * documents, and how many times `index.json` has been rewritten.
   */
  datatype DeleteState = DeleteState(versions: seq<Summary>, cache: map<int, VersionData>, docs: map<string, Json>, writes: nat)

  /** `vsn.name` in the message `delete_old` prints, on a version `get_version` did not find. */
  const NoneName := AttributeError("'NoneType' object has no attribute 'name'")

  /**
   * `delete_version(id)` as its documentation describes it: the summaries
   * with the id leave the list and the cache, and `index.json` is rewritten.
   */
  function DeleteStep(chanDir: string, st: DeleteState, id: int): DeleteState {
    var vs := WithoutId(st.versions, id);
    DeleteState(vs, st.cache - {id}, st.docs[IndexPath(chanDir) := IndexDoc(vs)], st.writes + 1)
  }

  /**
   * `delete_old(channel, older_than, commit)` from the state `st`, where
   * `rest` holds the summaries the generator has still to visit: it walks
   * the list the channel had when it started, while `get_version` looks
   * each id up in the channel's current summaries and cache, so a version
   * is loaded only after every earlier one has been deleted. The result is
   * the outcome and the state left behind. With `asWritten`,
   * `delete_version(vsn.id)` is the stub, which raises TypeError.
   */
  function DeleteOldSpec(chanDir: string, olderThan: int, commit: bool, asWritten: bool,
                         rest: seq<Summary>, st: DeleteState): (Outcome, DeleteState)
    decreases |rest|
  {
    if rest == [] then (Pass, st)
    else if rest[0].id >= olderThan then DeleteOldSpec(chanDir, olderThan, commit, asWritten, rest[1..], st)
    else
      var turn := DeleteOldTurn(chanDir, commit, asWritten, rest[0].id, st);
      if turn.0.Fail? then turn else DeleteOldSpec(chanDir, olderThan, commit, asWritten, rest[1..], turn.1)
  }

  /**
   * The loop body of `delete_old` for a version below the cut:
   * `get_version(id)` (which caches what it loads), `vsn.name`, and with
   * `commit` the `delete_version` call.
   */
  function DeleteOldTurn(chanDir: string, commit: bool, asWritten: bool, id: int, st: DeleteState): (Outcome, DeleteState) {
    match VersionView(st.docs, st.cache, chanDir, st.versions, id)
    case Err(e) => (Fail(e), st)
    case Ok(None) => (Fail(NoneName), st)
    case Ok(Some(d)) =>
      var loaded := st.(cache := st.cache[id := d]);
      if !commit then (Pass, loaded)
      else if asWritten then (Fail(DeleteVersionArity), loaded)
      else (Pass, DeleteStep(chanDir, loaded, id))
  }

  /** A committed run that completes has deleted every id below the cut that it visited. */
  lemma {:induction false} DeletePassKeeps(chanDir: string, olderThan: int, rest: seq<Summary>, st: DeleteState)
    requires DeleteOldSpec(chanDir, olderThan, true, false, rest, st).0.Pass?
    ensures DeleteOldSpec(chanDir, olderThan, true, false, rest, st).1.versions == Keep(st.versions, BelowIds(rest, olderThan))
    decreases |rest|
  {
    if rest == [] {
      KeepNothing(st.versions);
    } else if rest[0].id >= olderThan {
      assert DeleteOldSpec(chanDir, olderThan, true, false, rest, st) == DeleteOldSpec(chanDir, olderThan, true, false, rest[1..], st);
      DeletePassKeeps(chanDir, olderThan, rest[1..], st);
      assert BelowIds(rest, olderThan) == BelowIds(rest[1..], olderThan);
    } else {
      var v := VersionView(st.docs, st.cache, chanDir, st.versions, rest[0].id);
      assert v.Ok? && v.value.Some?;
      var loaded := st.(cache := st.cache[rest[0].id := v.value.value]);
      DeletePassKeeps(chanDir, olderThan, rest[1..], DeleteStep(chanDir, loaded, rest[0].id));
      KeepWithoutId(st.versions, BelowIds(rest[1..], olderThan), rest[0].id);
      assert BelowIds(rest, olderThan) == BelowIds(rest[1..], olderThan) + {rest[0].id};
    }
  }

  /**
   * A committed `delete_old` that completes leaves exactly the summaries
   * whose id is at least `older_than`, in their order.
   */
  lemma DeleteOldKeepsNewer(chanDir: string, olderThan: int, st: DeleteState)
    requires DeleteOldSpec(chanDir, olderThan, true, false, st.versions, st).0.Pass?
    ensures DeleteOldSpec(chanDir, olderThan, true, false, st.versions, st).1.versions == AtLeast(st.versions, olderThan)
  {
    DeletePassKeeps(chanDir, olderThan, st.versions, st);
    KeepAtLeast(st.versions, BelowIds(st.versions, olderThan), olderThan);
  }

  /**
   * Whatever it raises, `delete_old` keeps every summary at or above the
   * cut and adds none: a run that stops part-way has deleted only versions
   * below the cut that it visited first.
   */
  lemma {:induction false} DeleteOldSparesNewer(chanDir: string, olderThan: int, commit: bool, asWritten: bool,
                                                rest: seq<Summary>, st: DeleteState)
    ensures var left := DeleteOldSpec(chanDir, olderThan, commit, asWritten, rest, st).1.versions;
      && (forall s :: s in st.versions && s.id >= olderThan ==> s in left)
      && (forall s :: s in left ==> s in st.versions)
    decreases |rest|
  {
    if rest != [] {
      if rest[0].id >= olderThan {
        DeleteOldSparesNewer(chanDir, olderThan, commit, asWritten, rest[1..], st);
      } else {
        var v := VersionView(st.docs, st.cache, chanDir, st.versions, rest[0].id);
        if v.Ok? && v.value.Some? {
          var loaded := st.(cache := st.cache[rest[0].id := v.value.value]);
          DeleteOldSparesNewer(chanDir, olderThan, commit, asWritten, rest[1..], loaded);
          DeleteOldSparesNewer(chanDir, olderThan, commit, asWritten, rest[1..], DeleteStep(chanDir, loaded, rest[0].id));
        }
      }
    }
  }

  /**
   * Without `commit`, `delete_old` changes no summary and no document, and
   * it raises exactly what listing the versions below the cut raises.
   */
  lemma {:induction false} DeleteOldDryRun(chanDir: string, olderThan: int, asWritten: bool, rest: seq<Summary>, st: DeleteState)
    requires forall i :: 0 <= i < |rest| ==> rest[i] in st.versions
    ensures var run := DeleteOldSpec(chanDir, olderThan, false, asWritten, rest, st);
      var listed := ChannelVersionsSpec(st.docs, st.cache, chanDir, st.versions, rest, Below(olderThan));
      && run.1.versions == st.versions && run.1.docs == st.docs && run.1.writes == st.writes
      && (run.0.Pass? <==> listed.Ok?)
      && (listed.Err? ==> run.0 == Fail(listed.error))
    decreases |rest|
  {
    if rest != [] {
      assert forall i :: 1 <= i < |rest| ==> rest[1..][i - 1] == rest[i];
      if rest[0].id >= olderThan {
        DeleteOldDryRun(chanDir, olderThan, asWritten, rest[1..], st);
      } else {
        var id := rest[0].id;
        var v := VersionView(st.docs, st.cache, chanDir, st.versions, id);
        var i :| 0 <= i < |st.versions| && st.versions[i] == rest[0];
        assert FirstName(st.versions, id).Some?;
        if v.Ok? {
          var d := v.value.value;
          var loaded := st.(cache := st.cache[id := d]);
          ListingStepFound(st.docs, st.cache, chanDir, st.versions, rest, Below(olderThan), d);
          DeleteOldDryRun(chanDir, olderThan, asWritten, rest[1..], loaded);
        }
      }
    }
  }

  /**
   * As written, `delete_old` never deletes anything: no summary, document
   * or log entry changes, and with `commit` it completes only when no
   * summary is below the cut.
   */
  lemma {:induction false} AsWrittenDeletesNothing(chanDir: string, olderThan: int, commit: bool, rest: seq<Summary>, st: DeleteState)
    ensures var run := DeleteOldSpec(chanDir, olderThan, commit, true, rest, st);
      && run.1.versions == st.versions && run.1.docs == st.docs && run.1.writes == st.writes
      && (commit && run.0.Pass? ==> forall i :: 0 <= i < |rest| ==> rest[i].id >= olderThan)
    decreases |rest|
  {
    if rest != [] {
      assert forall i :: 1 <= i < |rest| ==> rest[1..][i - 1] == rest[i];
      if rest[0].id >= olderThan {
        AsWrittenDeletesNothing(chanDir, olderThan, commit, rest[1..], st);
      } else {
        var v := VersionView(st.docs, st.cache, chanDir, st.versions, rest[0].id);
        if v.Ok? && v.value.Some? {
          AsWrittenDeletesNothing(chanDir, olderThan, commit, rest[1..], st.(cache := st.cache[rest[0].id := v.value.value]));
        }
      }
    }
  }

  /** The log entries of rewriting a channel's `index.json` `k` times. */
  function IndexWrites(chanDir: string, k: nat): seq<Event> {
    if k == 0 then [] else IndexWrites(chanDir, k - 1) + [Wrote(IndexPath(chanDir))]
  }

  /**
   * One turn of the loop of `delete_old`: the `i`-th summary of the list the
   * generator walks; below the cut, `get_version` of its id, the message
   * that reads `vsn.name`, and with `commit` the `delete_version` call.
   */
  method DeleteOldNext(channel: Channel, olderThan: int, commit: bool, asWritten: bool, all: seq<Summary>, i: nat,
                       ghost writes: nat)
    returns (r: Outcome, ghost writes': nat)
    requires i < |all|
    modifies channel`versions, channel`loadedVsns, channel.backend`docs, channel.backend`log
    ensures writes' == writes || writes' == writes + 1
    ensures channel.backend.log == old(channel.backend.log) + (if writes' == writes then [] else [Wrote(IndexPath(channel.path))])
    ensures var before := DeleteState(old(channel.versions), old(channel.CacheData()), old(channel.backend.docs), writes);
      var after := DeleteState(channel.versions, channel.CacheData(), channel.backend.docs, writes');
      DeleteOldSpec(channel.path, olderThan, commit, asWritten, all[i..], before)
        == if r.Fail? then (r, after) else DeleteOldSpec(channel.path, olderThan, commit, asWritten, all[i + 1..], after)
  {
    assert all[i..][0] == all[i] && all[i..][1..] == all[i + 1..];
    if all[i].id >= olderThan {
      return Pass, writes;
    }
    r, writes' := DeleteOldVisit(channel, commit, asWritten, all[i].id, writes);
  }

  /** The body of the loop of `delete_old` for a version below the cut. */
  method DeleteOldVisit(channel: Channel, commit: bool, asWritten: bool, id: int, ghost writes: nat)
    returns (r: Outcome, ghost writes': nat)
    modifies channel`versions, channel`loadedVsns, channel.backend`docs, channel.backend`log
    ensures writes' == writes || writes' == writes + 1
    ensures channel.backend.log == old(channel.backend.log) + (if writes' == writes then [] else [Wrote(IndexPath(channel.path))])
    ensures (r, DeleteState(channel.versions, channel.CacheData(), channel.backend.docs, writes'))
         == DeleteOldTurn(channel.path, commit, asWritten, id,
                          DeleteState(old(channel.versions), old(channel.CacheData()), old(channel.backend.docs), writes))
  {
    ghost var st := DeleteState(channel.versions, channel.CacheData(), channel.backend.docs, writes);
    ghost var view := VersionView(st.docs, st.cache, channel.path, st.versions, id);
    writes' := writes;
    var v := channel.GetVersion(id);
    if v.Err? {
      assert view.Err? && DeleteState(channel.versions, channel.CacheData(), channel.backend.docs, writes) == st;
      return Fail(v.error), writes';
    }
    if v.value.None? {
      assert view == Ok(None) && DeleteState(channel.versions, channel.CacheData(), channel.backend.docs, writes) == st;
      return Fail(NoneName), writes';
    }
    ghost var loaded := st.(cache := st.cache[id := v.value.value.Data()]);
    assert view == Ok(Some(v.value.value.Data()));
    assert DeleteState(channel.versions, channel.CacheData(), channel.backend.docs, writes) == loaded;
    if commit {
      if asWritten {
        r := channel.DeleteVersionAsWritten([id]);
        return r, writes';
      }
      channel.DeleteVersion(id);
      writes' := writes + 1;
      assert DeleteState(channel.versions, channel.CacheData(), channel.backend.docs, writes') == DeleteStep(channel.path, loaded, id);
    }
    r := Pass;
  }

  /** The loop of `delete_old`, with the documented `delete_version` or, with `asWritten`, the stub. */
  method DeleteOldRun(channel: Channel, olderThan: int, commit: bool, asWritten: bool) returns (r: Outcome)
    modifies channel`versions, channel`loadedVsns, channel.backend`docs, channel.backend`log
    ensures var run := DeleteOldSpec(channel.path, olderThan, commit, asWritten, old(channel.versions),
                                     DeleteState(old(channel.versions), old(channel.CacheData()), old(channel.backend.docs), 0));
      && r == run.0
      && channel.versions == run.1.versions && channel.CacheData() == run.1.cache && channel.backend.docs == run.1.docs
      && channel.backend.log == old(channel.backend.log) + IndexWrites(channel.path, run.1.writes)
  {
    var all := channel.versions;
    ghost var run := DeleteOldSpec(channel.path, olderThan, commit, asWritten, all,
                                   DeleteState(all, channel.CacheData(), channel.backend.docs, 0));
    ghost var log0 := channel.backend.log;
    ghost var writes: nat := 0;
    assert all[0..] == all;
    for i := 0 to |all|
      invariant channel.backend.log == log0 + IndexWrites(channel.path, writes)
      invariant run == DeleteOldSpec(channel.path, olderThan, commit, asWritten, all[i..],
                                     DeleteState(channel.versions, channel.CacheData(), channel.backend.docs, writes))
    {
      ghost var w0, log1 := writes, channel.backend.log;
      r, writes := DeleteOldNext(channel, olderThan, commit, asWritten, all, i, writes);
      if writes != w0 {
        assert IndexWrites(channel.path, writes) == IndexWrites(channel.path, w0) + [Wrote(IndexPath(channel.path))];
        assert channel.backend.log == log1 + [Wrote(IndexPath(channel.path))];
      }
      assert channel.backend.log == log0 + IndexWrites(channel.path, writes);
      if r.Fail? {
        return;
      }
    }
    assert all[|all|..] == [];
    r := Pass;
  }

  /**
   * `delete_old(channel, older_than, commit)` with `delete_version` as its
   * documentation describes it: each version below the cut is loaded as the
   * generator reaches it and, with `commit`, deleted before the next one
   * is loaded.
   */
  method DeleteOld(channel: Channel, olderThan: int, commit: bool) returns (r: Outcome)
    modifies channel`versions, channel`loadedVsns, channel.backend`docs, channel.backend`log
    ensures var run := DeleteOldSpec(channel.path, olderThan, commit, false, old(channel.versions),
                                     DeleteState(old(channel.versions), old(channel.CacheData()), old(channel.backend.docs), 0));
      && r == run.0
      && channel.versions == run.1.versions && channel.backend.docs == run.1.docs
      && channel.backend.log == old(channel.backend.log) + IndexWrites(channel.path, run.1.writes)
    ensures r.Pass? && commit ==> channel.versions == AtLeast(old(channel.versions), olderThan)
    ensures forall s :: s in old(channel.versions) && s.id >= olderThan ==> s in channel.versions
    ensures forall s :: s in channel.versions ==> s in old(channel.versions)
    ensures !commit ==>
      && channel.versions == old(channel.versions) && channel.backend.docs == old(channel.backend.docs)
      && channel.backend.log == old(channel.backend.log)
      && (r.Pass? <==> ChannelVersionsSpec(old(channel.backend.docs), old(channel.CacheData()), channel.path,
                                           old(channel.versions), old(channel.versions), Below(olderThan)).Ok?)
  {
    ghost var st := DeleteState(channel.versions, channel.CacheData(), channel.backend.docs, 0);
    r := DeleteOldRun(channel, olderThan, commit, false);
    DeleteOldSparesNewer(channel.path, olderThan, commit, false, st.versions, st);
    if r.Pass? && commit {
      DeleteOldKeepsNewer(channel.path, olderThan, st);
    }
    if !commit {
      DeleteOldDryRun(channel.path, olderThan, false, st.versions, st);
    }
  }

  /**
   * `delete_old` as written: with `commit`, the first version below the cut
   * that loads makes `channel.delete_version(vsn.id)` raise TypeError, as
   * the method takes no id; nothing is ever deleted.
   */
  method DeleteOldAsWritten(channel: Channel, olderThan: int, commit: bool) returns (r: Outcome)
    modifies channel`versions, channel`loadedVsns, channel.backend`docs, channel.backend`log
    ensures r == DeleteOldSpec(channel.path, olderThan, commit, true, old(channel.versions),
                               DeleteState(old(channel.versions), old(channel.CacheData()), old(channel.backend.docs), 0)).0
    ensures channel.versions == old(channel.versions) && channel.backend.docs == old(channel.backend.docs)
    ensures channel.backend.log == old(channel.backend.log)
    ensures r.Pass? && commit ==> forall i :: 0 <= i < |old(channel.versions)| ==> old(channel.versions)[i].id >= olderThan
  {
    ghost var st := DeleteState(channel.versions, channel.CacheData(), channel.backend.docs, 0);
    r := DeleteOldRun(channel, olderThan, commit, true);
    AsWrittenDeletesNothing(channel.path, olderThan, commit, st.versions, st);
  }

  // ----- mod-urls -----

  /**
   * The substitution `re.sub(match, replace, url)`. Python's regular
   * expressions are not part of this model: the substitution function is
   * a parameter, applied to the pattern, the replacement and the URL.
   */
  datatype Rewrite = Rewrite(reSub: (string, string, string) -> string, pattern: string, replacement: string)

  /** `mod_url(match, replace, url)`; the message it prints is left out. */
  function ModUrl(rw: Rewrite, url: string): string {
    rw.reSub(rw.pattern, rw.replacement, url)
  }

  /** `[mod_url(match, replace, url) for url in f.sources]`: each source rewritten, in order. */
  function ModSources(rw: Rewrite, sources: seq<string>): (r: seq<string>)
    ensures |r| == |sources| && forall k :: 0 <= k < |sources| ==> r[k] == ModUrl(rw, sources[k])
  {
    if sources == [] then [] else [ModUrl(rw, sources[0])] + ModSources(rw, sources[1..])
  }

  /** A file entry after `f.sources = ...`: only its sources change. */
  function ModFile(rw: Rewrite, f: UpdateFile): UpdateFile {
    f.(sources := ModSources(rw, f.sources))
  }

  /** Every file entry of a version, rewritten in place. */
  function ModFiles(rw: Rewrite, files: seq<UpdateFile>): (r: seq<UpdateFile>)
    ensures |r| == |files|
    ensures forall i :: 0 <= i < |files| ==>
      && r[i].path == files[i].path && r[i].md5 == files[i].md5 && r[i].perms == files[i].perms
      && r[i].executable == files[i].executable
      && |r[i].sources| == |files[i].sources|
      && forall k :: 0 <= k < |files[i].sources| ==> r[i].sources[k] == ModUrl(rw, files[i].sources[k])
  {
    if files == [] then [] else [ModFile(rw, files[0])] + ModFiles(rw, files[1..])
  }

  /** A version whose files are rewritten. */
  function ModData(rw: Rewrite, d: VersionData): VersionData {
    d.(files := ModFiles(rw, d.files))
  }

  /** A channel slot after `chan.url = mod_url(match, replace, chan.url)`. */
  function ModSlot(rw: Rewrite, s: Option<ChannelState>): Option<ChannelState> {
    if s.None? then None else Some(s.value.(info := s.value.info.(url := ModUrl(rw, s.value.info.url))))
  }

  /** Every channel slot of a platform, rewritten. */
  function ModSlots(rw: Rewrite, ss: seq<Option<ChannelState>>): (r: seq<Option<ChannelState>>)
    ensures |r| == |ss|
    ensures forall i :: 0 <= i < |ss| ==> (r[i].None? <==> ss[i].None?)
    ensures forall i :: 0 <= i < |ss| && ss[i].Some? ==>
      && r[i].value.path == ss[i].value.path && r[i].value.versions == ss[i].value.versions
      && r[i].value.info.id == ss[i].value.info.id && r[i].value.info.name == ss[i].value.info.name
      && r[i].value.info.desc == ss[i].value.info.desc && r[i].value.info.url == ModUrl(rw, ss[i].value.info.url)
  {
    if ss == [] then [] else [ModSlot(rw, ss[0])] + ModSlots(rw, ss[1..])
  }

  /** A substitution that leaves every URL as it is leaves every file entry as it is. */
  lemma {:induction false} IdentityKeepsFiles(rw: Rewrite, files: seq<UpdateFile>)
    requires forall u :: ModUrl(rw, u) == u
    ensures ModFiles(rw, files) == files
  {
    forall i | 0 <= i < |files| ensures ModFiles(rw, files)[i] == files[i] {
      assert ModFiles(rw, files)[i].sources == files[i].sources;
    }
  }

  /** ... and every channel slot as it is. */
  lemma {:induction false} IdentityKeepsSlots(rw: Rewrite, ss: seq<Option<ChannelState>>)
    requires forall u :: ModUrl(rw, u) == u
    ensures ModSlots(rw, ss) == ss
  {
    forall i | 0 <= i < |ss| ensures ModSlots(rw, ss)[i] == ss[i] {
      if ss[i].Some? {
        assert ModSlots(rw, ss)[i].value.info == ss[i].value.info;
      }
    }
  }

  /** The entries `channels.json` gets after rewriting: the same channels with rewritten URLs. */
  lemma LiveInfosOfModSlots(rw: Rewrite, ss: seq<Option<ChannelState>>)
    requires None !in ss
    ensures LiveInfos(ModSlots(rw, ss)).Some?
    ensures |LiveInfos(ModSlots(rw, ss)).value| == |ss|
    ensures forall i :: 0 <= i < |ss| ==>
      LiveInfos(ModSlots(rw, ss)).value[i] == LiveInfos(ss).value[i].(url := ModUrl(rw, ss[i].value.info.url))
  {
    assert forall i :: 0 <= i < |ss| ==> ModSlots(rw, ss)[i].Some?;
  }

  /** The documents and the write log as far as the sweep has gone. */
  datatype Store = Store(docs: map<string, Json>, log: seq<Event>)

  /** `save()` of a document, which runs only with `commit`. */
  function SaveIf(commit: bool, st: Store, path: string, doc: Json): Store {
    if commit then Store(st.docs[path := doc], st.log + [Wrote(path)]) else st
  }

  /** The store after a step of the sweep, the cache of the channel at hand, and whether the step raised. */
  datatype ChannelSweep = ChannelSweep(st: Store, cache: map<int, VersionData>, outcome: Outcome)

  /**
   * One version of `mod_urls`' first loop: `get_version(id)` (cached or
   * loaded from the documents as they are now), its files rewritten in
   * place, then `vsn.save()` with `commit`. A version that is already
   * cached, because the index names its id twice, is rewritten again.
   */
  function ModVersionStep(rw: Rewrite, commit: bool, st: Store, cache: map<int, VersionData>, chanDir: string,
                          versions: seq<Summary>, id: int): ChannelSweep
  {
    match VersionView(st.docs, cache, chanDir, versions, id)
    case Err(e) => ChannelSweep(st, cache, Fail(e))
    case Ok(None) => ChannelSweep(st, cache, Fail(NoneFiles))
    case Ok(Some(d)) => ModLoadedStep(rw, commit, st, cache, id, d)
  }

  /** The rewriting and saving of the version `d`, which `get_version(id)` gave. */
  function ModLoadedStep(rw: Rewrite, commit: bool, st: Store, cache: map<int, VersionData>, id: int, d: VersionData): ChannelSweep {
    var d' := ModData(rw, d);
    ChannelSweep(SaveIf(commit, st, VersionPath(d.chanDir, d.id), VersionDoc(d.id, d.name, d'.files)), cache[id := d'], Pass)
  }

  /** The versions of one channel, summary by summary, until one raises. */
  function ModVersionsSpec(rw: Rewrite, commit: bool, st: Store, cache: map<int, VersionData>, chanDir: string,
                           versions: seq<Summary>, vs: seq<Summary>): ChannelSweep
    decreases |vs|
  {
    if vs == [] then ChannelSweep(st, cache, Pass)
    else
      var step := ModVersionStep(rw, commit, st, cache, chanDir, versions, vs[0].id);
      if step.outcome.Fail? then step
      else ModVersionsSpec(rw, commit, step.st, step.cache, chanDir, versions, vs[1..])
  }

  /** The version loop from summary `i` on: summary `i`'s step, then the rest unless that step failed. */
  lemma ModVersionsAt(rw: Rewrite, commit: bool, st: Store, cache: map<int, VersionData>, chanDir: string,
                      versions: seq<Summary>, vs: seq<Summary>, i: nat)
    requires i < |vs|
    ensures var step := ModVersionStep(rw, commit, st, cache, chanDir, versions, vs[i].id);
      ModVersionsSpec(rw, commit, st, cache, chanDir, versions, vs[i..])
        == if step.outcome.Fail? then step else ModVersionsSpec(rw, commit, step.st, step.cache, chanDir, versions, vs[i + 1..])
  {
    assert vs[i..][0] == vs[i] && vs[i..][1..] == vs[i + 1..];
  }

  /** The store after a step and whether it raised. */
  datatype Sweep = Sweep(st: Store, outcome: Outcome)

  /** The channel slots of one freshly loaded platform, in order; a null slot raises. */
  function ModSlotsVersionsSpec(rw: Rewrite, commit: bool, st: Store, ss: seq<Option<ChannelState>>): Sweep
    decreases |ss|
  {
    if ss == [] then Sweep(st, Pass)
    else
      var step := ModSlotStep(rw, commit, st, ss[0]);
      if step.outcome.Fail? then step
      else ModSlotsVersionsSpec(rw, commit, step.st, ss[1..])
  }

  /** One channel slot of a freshly loaded platform: a null slot raises, a channel has its versions rewritten. */
  function ModSlotStep(rw: Rewrite, commit: bool, st: Store, s: Option<ChannelState>): Sweep {
    if s.None? then Sweep(st, Fail(NoneListing))
    else
      var run := ModVersionsSpec(rw, commit, st, map[], s.value.path, s.value.versions, s.value.versions);
      Sweep(run.st, run.outcome)
  }

  /** The store, the collection's cache keys, and whether the step raised. */
  datatype DirSweep = DirSweep(st: Store, known: set<string>, outcome: Outcome)

  /** One platform directory of the first loop: `get_platform`, then its channels' versions. */
  function ModDirStep(rw: Rewrite, commit: bool, st: Store, colPath: string, known: set<string>, name: string): DirSweep {
    match LookupSpec(st.docs, colPath, known, name)
    case Err(e) => DirSweep(st, known, Fail(e))
    case Ok(v) =>
      match ChannelsOf(v)
      case Err(e) => DirSweep(st, known, Fail(e))
      case Ok(ss) =>
        var run := ModSlotsVersionsSpec(rw, commit, st, ss);
        DirSweep(run.st, KnownAfter(known, v), run.outcome)
  }

  /** The first loop of `mod_urls` over the platform directories `dirs`. */
  function ModAllVersionsSpec(rw: Rewrite, commit: bool, st: Store, colPath: string, known: set<string>,
                              dirs: seq<string>): DirSweep
    decreases |dirs|
  {
    if dirs == [] then DirSweep(st, known, Pass)
    else
      var step := ModDirStep(rw, commit, st, colPath, known, dirs[0]);
      if step.outcome.Fail? then step
      else ModAllVersionsSpec(rw, commit, step.st, colPath, step.known, dirs[1..])
  }

  const NoneUrl := AttributeError("'NoneType' object has no attribute 'url'")

  /**
   * One platform directory of the second loop: `get_platform`, every
   * channel's URL rewritten (a null slot raises before anything is saved),
   * then `plat.save()` with `commit`.
   */
  function ModPlatformStep(rw: Rewrite, commit: bool, st: Store, colPath: string, known: set<string>, name: string): DirSweep {
    match LookupSpec(st.docs, colPath, known, name)
    case Err(e) => DirSweep(st, known, Fail(e))
    case Ok(v) =>
      match ChannelsOf(v)
      case Err(e) => DirSweep(st, known, Fail(e))
      case Ok(ss) =>
        var step := ModChannelsStep(rw, commit, st, Join(colPath, name), ss);
        DirSweep(step.st, KnownAfter(known, v), step.outcome)
  }

  /** The channels of a loaded platform: their URLs rewritten (a null slot raises), then `plat.save()` with `commit`. */
  function ModChannelsStep(rw: Rewrite, commit: bool, st: Store, platPath: string, ss: seq<Option<ChannelState>>): Sweep {
    if None in ss then Sweep(st, Fail(NoneUrl))
    else Sweep(SaveIf(commit, st, ChannelsPath(platPath), ChannelsDoc(LiveInfos(ModSlots(rw, ss)).value)), Pass)
  }

  /** The second loop of `mod_urls` over the platform directories `dirs`. */
  function ModPlatformsSpec(rw: Rewrite, commit: bool, st: Store, colPath: string, known: set<string>,
                            dirs: seq<string>): DirSweep
    decreases |dirs|
  {
    if dirs == [] then DirSweep(st, known, Pass)
    else
      var step := ModPlatformStep(rw, commit, st, colPath, known, dirs[0]);
      if step.outcome.Fail? then step
      else ModPlatformsSpec(rw, commit, step.st, colPath, step.known, dirs[1..])
  }

  /** The platform loop from directory `i` on: directory `i`'s step, then the rest unless that step failed. */
  lemma ModPlatformsAt(rw: Rewrite, commit: bool, st: Store, colPath: string, known: set<string>, dirs: seq<string>, i: nat)
    requires i < |dirs|
    ensures var step := ModPlatformStep(rw, commit, st, colPath, known, dirs[i]);
      ModPlatformsSpec(rw, commit, st, colPath, known, dirs[i..])
        == if step.outcome.Fail? then step else ModPlatformsSpec(rw, commit, step.st, colPath, step.known, dirs[i + 1..])
  {
    assert dirs[i..][0] == dirs[i] && dirs[i..][1..] == dirs[i + 1..];
  }

  /** `mod_urls(collection, match, replace, commit)`: the version loop over `dirs`, then the platform loop over `dirs2`. */
  function ModUrlsSpec(rw: Rewrite, commit: bool, st: Store, colPath: string, known: set<string>,
                       dirs: seq<string>, dirs2: seq<string>): DirSweep
  {
    var one := ModAllVersionsSpec(rw, commit, st, colPath, known, dirs);
    if one.outcome.Fail? then one
    else ModPlatformsSpec(rw, commit, one.st, colPath, one.known, dirs2)
  }

  // A dry run (no `commit`) saves nothing.

  lemma {:induction false} DryRunVersions(rw: Rewrite, st: Store, cache: map<int, VersionData>, chanDir: string,
                                          versions: seq<Summary>, vs: seq<Summary>)
    ensures ModVersionsSpec(rw, false, st, cache, chanDir, versions, vs).st == st
    decreases |vs|
  {
    if vs != [] {
      var step := ModVersionStep(rw, false, st, cache, chanDir, versions, vs[0].id);
      DryRunVersions(rw, step.st, step.cache, chanDir, versions, vs[1..]);
    }
  }

  lemma {:induction false} DryRunSlots(rw: Rewrite, st: Store, ss: seq<Option<ChannelState>>)
    ensures ModSlotsVersionsSpec(rw, false, st, ss).st == st
    decreases |ss|
  {
    if ss != [] {
      if ss[0].Some? {
        DryRunVersions(rw, st, map[], ss[0].value.path, ss[0].value.versions, ss[0].value.versions);
      }
      DryRunSlots(rw, st, ss[1..]);
    }
  }

  lemma {:induction false} DryRunDirs(rw: Rewrite, st: Store, colPath: string, known: set<string>, dirs: seq<string>)
    ensures ModAllVersionsSpec(rw, false, st, colPath, known, dirs).st == st
    decreases |dirs|
  {
    if dirs != [] {
      var v := LookupSpec(st.docs, colPath, known, dirs[0]);
      if v.Ok? && ChannelsOf(v.value).Ok? {
        DryRunSlots(rw, st, ChannelsOf(v.value).value);
      }
      var step := ModDirStep(rw, false, st, colPath, known, dirs[0]);
      DryRunDirs(rw, st, colPath, step.known, dirs[1..]);
    }
  }

  lemma {:induction false} DryRunPlatforms(rw: Rewrite, st: Store, colPath: string, known: set<string>, dirs: seq<string>)
    ensures ModPlatformsSpec(rw, false, st, colPath, known, dirs).st == st
    decreases |dirs|
  {
    if dirs != [] {
      var step := ModPlatformStep(rw, false, st, colPath, known, dirs[0]);
      DryRunPlatforms(rw, st, colPath, step.known, dirs[1..]);
    }
  }

  /** Without `commit`, `mod_urls` writes no document. */
  lemma DryRunWritesNothing(rw: Rewrite, st: Store, colPath: string, known: set<string>, dirs: seq<string>, dirs2: seq<string>)
    ensures ModUrlsSpec(rw, false, st, colPath, known, dirs, dirs2).st == st
  {
    DryRunDirs(rw, st, colPath, known, dirs);
    var one := ModAllVersionsSpec(rw, false, st, colPath, known, dirs);
    DryRunPlatforms(rw, st, colPath, one.known, dirs2);
  }

  // `mod_urls` only writes: it uploads and deletes nothing, and every document stays.

  ghost predicate OnlyWrites(st: Store, st': Store) {
    && st.log <= st'.log
    && (forall k :: |st.log| <= k < |st'.log| ==> st'.log[k].Wrote?)
    && st.docs.Keys <= st'.docs.Keys
  }

  lemma OnlyWritesTrans(a: Store, b: Store, c: Store)
    requires OnlyWrites(a, b) && OnlyWrites(b, c)
    ensures OnlyWrites(a, c)
  {
  }

  lemma {:induction false} VersionsOnlyWrite(rw: Rewrite, commit: bool, st: Store, cache: map<int, VersionData>, chanDir: string,
                                             versions: seq<Summary>, vs: seq<Summary>)
    ensures OnlyWrites(st, ModVersionsSpec(rw, commit, st, cache, chanDir, versions, vs).st)
    decreases |vs|
  {
    if vs != [] {
      var step := ModVersionStep(rw, commit, st, cache, chanDir, versions, vs[0].id);
      assert OnlyWrites(st, step.st);
      if step.outcome.Pass? {
        VersionsOnlyWrite(rw, commit, step.st, step.cache, chanDir, versions, vs[1..]);
        OnlyWritesTrans(st, step.st, ModVersionsSpec(rw, commit, st, cache, chanDir, versions, vs).st);
      }
    }
  }

  lemma {:induction false} SlotsOnlyWrite(rw: Rewrite, commit: bool, st: Store, ss: seq<Option<ChannelState>>)
    ensures OnlyWrites(st, ModSlotsVersionsSpec(rw, commit, st, ss).st)
    decreases |ss|
  {
    if ss != [] {
      if ss[0].Some? {
        VersionsOnlyWrite(rw, commit, st, map[], ss[0].value.path, ss[0].value.versions, ss[0].value.versions);
      }
      var step := ModSlotStep(rw, commit, st, ss[0]);
      if step.outcome.Pass? {
        SlotsOnlyWrite(rw, commit, step.st, ss[1..]);
        OnlyWritesTrans(st, step.st, ModSlotsVersionsSpec(rw, commit, st, ss).st);
      }
    }
  }

  lemma {:induction false} DirsOnlyWrite(rw: Rewrite, commit: bool, st: Store, colPath: string, known: set<string>, dirs: seq<string>)
    ensures OnlyWrites(st, ModAllVersionsSpec(rw, commit, st, colPath, known, dirs).st)
    decreases |dirs|
  {
    if dirs != [] {
      var v := LookupSpec(st.docs, colPath, known, dirs[0]);
      if v.Ok? && ChannelsOf(v.value).Ok? {
        SlotsOnlyWrite(rw, commit, st, ChannelsOf(v.value).value);
      }
      var step := ModDirStep(rw, commit, st, colPath, known, dirs[0]);
      if step.outcome.Pass? {
        DirsOnlyWrite(rw, commit, step.st, colPath, step.known, dirs[1..]);
        OnlyWritesTrans(st, step.st, ModAllVersionsSpec(rw, commit, st, colPath, known, dirs).st);
      }
    }
  }

  lemma {:induction false} PlatformsOnlyWrite(rw: Rewrite, commit: bool, st: Store, colPath: string, known: set<string>, dirs: seq<string>)
    ensures OnlyWrites(st, ModPlatformsSpec(rw, commit, st, colPath, known, dirs).st)
    decreases |dirs|
  {
    if dirs != [] {
      var step := ModPlatformStep(rw, commit, st, colPath, known, dirs[0]);
      assert OnlyWrites(st, step.st);
      if step.outcome.Pass? {
        PlatformsOnlyWrite(rw, commit, step.st, colPath, step.known, dirs[1..]);
        OnlyWritesTrans(st, step.st, ModPlatformsSpec(rw, commit, st, colPath, known, dirs).st);
      }
    }
  }

  /** `mod_urls` appends only writes to the log and removes no document. */
  lemma ModUrlsOnlyWrites(rw: Rewrite, commit: bool, st: Store, colPath: string, known: set<string>,
                          dirs: seq<string>, dirs2: seq<string>)
    ensures var run := ModUrlsSpec(rw, commit, st, colPath, known, dirs, dirs2);
      && st.log <= run.st.log && st.docs.Keys <= run.st.docs.Keys
      && forall k :: |st.log| <= k < |run.st.log| ==> run.st.log[k].Wrote?
  {
    DirsOnlyWrite(rw, commit, st, colPath, known, dirs);
    var one := ModAllVersionsSpec(rw, commit, st, colPath, known, dirs);
    if one.outcome.Pass? {
      PlatformsOnlyWrite(rw, commit, one.st, colPath, one.known, dirs2);
      OnlyWritesTrans(st, one.st, ModPlatformsSpec(rw, commit, one.st, colPath, one.known, dirs2).st);
    }
  }

  /** No version object is cached under two ids. */
  ghost predicate Injective(m: map<int, Version>) {
    forall a, b :: a in m && b in m && a != b ==> m[a] != m[b]
  }

  /** `for f in vsn.files: f.sources = [mod_url(match, replace, url) for url in f.sources]`. */
  method ModVersionFiles(rw: Rewrite, v: Version)
    modifies v`files
    ensures v.files == ModFiles(rw, old(v.files))
  {
    var i := 0;
    while i < |v.files|
      invariant i <= |v.files| == |old(v.files)|
      invariant forall k :: 0 <= k < i ==> v.files[k] == ModFile(rw, old(v.files)[k])
      invariant forall k :: i <= k < |v.files| ==> v.files[k] == old(v.files)[k]
    {
      v.files := v.files[i := ModFile(rw, v.files[i])];
      i := i + 1;
    }
    assert forall k :: 0 <= k < |v.files| ==> ModFiles(rw, old(v.files))[k] == ModFile(rw, old(v.files)[k]);
  }

  /** Rewriting the version cached under `vid` changes what the cache holds at that id only. */
  method ModCached(rw: Rewrite, c: Channel, vid: int, v: Version)
    requires vid in c.loadedVsns && c.loadedVsns[vid] == v && Injective(c.loadedVsns)
    modifies v`files
    ensures v.files == ModFiles(rw, old(v.files))
    ensures c.CacheData() == old(c.CacheData())[vid := ModData(rw, old(c.CacheData())[vid])]
  {
    ghost var before := c.CacheData();
    ModVersionFiles(rw, v);
    forall k | k in c.loadedVsns
      ensures c.CacheData()[k] == before[vid := ModData(rw, before[vid])][k]
    {
      if k != vid {
        assert c.loadedVsns[k] != v;
      }
    }
  }

  /** The body of the version loop for the version `v` that `get_version(vid)` gave: its files rewritten, then `vsn.save()` with `commit`. */
  method ModLoaded(rw: Rewrite, commit: bool, c: Channel, vid: int, v: Version)
    requires vid in c.loadedVsns && c.loadedVsns[vid] == v && Injective(c.loadedVsns) && v.backend == c.backend
    modifies v`files, c.backend`docs, c.backend`log
    ensures var step := ModLoadedStep(rw, commit, Store(old(c.backend.docs), old(c.backend.log)), old(c.CacheData()), vid, old(v.Data()));
      && c.backend.docs == step.st.docs && c.backend.log == step.st.log && c.CacheData() == step.cache
  {
    assert old(c.CacheData())[vid] == v.Data();
    ModCached(rw, c, vid, v);
    if commit {
      v.Save();
    }
  }

  /** One turn of the version loop: `get_version(id)`, then the loop's body. */
  method ModNextVersion(rw: Rewrite, commit: bool, c: Channel, vid: int) returns (r: Outcome)
    requires Injective(c.loadedVsns)
    requires forall v :: v in c.loadedVsns.Values ==> v.backend == c.backend
    modifies c`loadedVsns, c.loadedVsns.Values, c.backend`docs, c.backend`log
    ensures var step := ModVersionStep(rw, commit, Store(old(c.backend.docs), old(c.backend.log)), old(c.CacheData()),
                                       c.path, c.versions, vid);
      && r == step.outcome && c.backend.docs == step.st.docs && c.backend.log == step.st.log
      && (r.Pass? ==> c.CacheData() == step.cache)
    ensures Injective(c.loadedVsns)
    ensures forall v :: v in c.loadedVsns.Values ==> v.backend == c.backend && (v in old(c.loadedVsns.Values) || fresh(v))
  {
    ghost var cache0 := c.CacheData();
    ghost var m0 := c.loadedVsns;
    var got := c.GetVersion(vid);
    if got.Err? {
      return Fail(got.error);
    }
    if got.value.None? {
      return Fail(NoneFiles);
    }
    var v := got.value.value;
    if vid !in m0 {
      CachingFresh(m0, vid, v);
    }
    ghost var d := v.Data();
    ModLoaded(rw, commit, c, vid, v);
    UpdateTwice(cache0, vid, d, ModData(rw, d));
    r := Pass;
  }

  /** Caching a version that no id holds yet keeps the cache injective and adds only that version. */
  lemma CachingFresh(m: map<int, Version>, vid: int, v: Version)
    requires Injective(m) && vid !in m && v !in m.Values
    ensures Injective(m[vid := v])
    ensures forall w :: w in m[vid := v].Values ==> w == v || w in m.Values
  {
  }

  lemma UpdateTwice<K, V>(m: map<K, V>, k: K, a: V, b: V)
    ensures m[k := a][k := b] == m[k := b]
  {
  }

  /** `for vsn in ch.all_versions_where(lambda id, name: True)` on a freshly loaded channel, with the loop's body. */
  method ModChannelVersions(rw: Rewrite, commit: bool, c: Channel) returns (r: Outcome)
    requires c.loadedVsns == map[]
    modifies c`loadedVsns, c.backend`docs, c.backend`log
    ensures var run := ModVersionsSpec(rw, commit, Store(old(c.backend.docs), old(c.backend.log)), map[], c.path, c.versions, c.versions);
      r == run.outcome && c.backend.docs == run.st.docs && c.backend.log == run.st.log
  {
    ghost var spec := ModVersionsSpec(rw, commit, Store(c.backend.docs, c.backend.log), map[], c.path, c.versions, c.versions);
    assert c.CacheData() == map[];
    assert c.versions[0..] == c.versions;
    var i := 0;
    while i < |c.versions|
      invariant i <= |c.versions|
      invariant spec == ModVersionsSpec(rw, commit, Store(c.backend.docs, c.backend.log), c.CacheData(), c.path, c.versions, c.versions[i..])
      invariant Injective(c.loadedVsns)
      invariant forall v :: v in c.loadedVsns.Values ==> fresh(v) && v.backend == c.backend
    {
      ModVersionsAt(rw, commit, Store(c.backend.docs, c.backend.log), c.CacheData(), c.path, c.versions, c.versions, i);
      r := ModNextVersion(rw, commit, c, c.versions[i].id);
      if r.Fail? {
        return;
      }
      i := i + 1;
    }
    r := Pass;
  }

  /** `for ch in p.channels: ...` over a freshly loaded platform's channel slots. */
  method ModSlotsVersions(rw: Rewrite, commit: bool, b: Backend, chans: seq<Channel?>) returns (r: Outcome)
    requires SlotsDistinct(chans)
    requires forall c :: c in chans && c != null ==> c.backend == b && c.loadedVsns == map[]
    modifies (set c: Channel | c in chans)`loadedVsns, b`docs, b`log
    ensures var run := ModSlotsVersionsSpec(rw, commit, Store(old(b.docs), old(b.log)), old(StatesOf(chans)));
      r == run.outcome && b.docs == run.st.docs && b.log == run.st.log
  {
    ghost var ss := StatesOf(chans);
    ghost var spec := ModSlotsVersionsSpec(rw, commit, Store(b.docs, b.log), ss);
    assert ss[0..] == ss;
    var j := 0;
    while j < |chans|
      invariant j <= |chans|
      invariant StatesOf(chans) == ss
      invariant spec == ModSlotsVersionsSpec(rw, commit, Store(b.docs, b.log), ss[j..])
      invariant forall k :: j <= k < |chans| && chans[k] != null ==> chans[k].loadedVsns == map[]
    {
      assert ss[j..][0] == ss[j] && ss[j..][1..] == ss[j + 1..];
      if chans[j] == null {
        return Fail(NoneListing);
      }
      r := ModSlotAt(rw, commit, b, chans, j, chans[j]);
      if r.Fail? {
        return;
      }
      j := j + 1;
    }
    r := Pass;
  }

  /** The channel `c` in slot `j`: its versions rewritten, while the later slots' caches stay empty. */
  method ModSlotAt(rw: Rewrite, commit: bool, b: Backend, chans: seq<Channel?>, j: nat, c: Channel) returns (r: Outcome)
    requires j < |chans| && chans[j] == c && SlotsDistinct(chans)
    requires c.backend == b && c.loadedVsns == map[]
    modifies c`loadedVsns, b`docs, b`log
    ensures var step := ModSlotStep(rw, commit, Store(old(b.docs), old(b.log)), Some(c.State()));
      r == step.outcome && b.docs == step.st.docs && b.log == step.st.log
    ensures forall k :: j < k < |chans| && chans[k] != null ==> chans[k].loadedVsns == old(chans[k].loadedVsns)
  {
    r := ModChannelVersions(rw, commit, c);
  }

  /** One platform directory of the version loop. */
  method ModDir(rw: Rewrite, commit: bool, col: Collection, name: string) returns (r: Outcome)
    modifies col`platforms, col.backend`docs, col.backend`log
    ensures var step := ModDirStep(rw, commit, Store(old(col.backend.docs), old(col.backend.log)), col.path, old(col.platforms).Keys, name);
      && r == step.outcome && col.backend.docs == step.st.docs && col.backend.log == step.st.log
      && col.platforms.Keys == step.known
  {
    var look := col.GetPlatform(name);
    if look.Err? {
      return Fail(look.error);
    }
    if look.value.NameOnly? {
      return Fail(StrChannels);
    }
    if look.value.NoPlatform? {
      return Fail(NoneChannels);
    }
    var p := look.value.p;
    r := ModSlotsVersions(rw, commit, col.backend, p.channels);
  }

  /** `for vsn in collection.all_versions_where(lambda id, name: True)` with the loop's body. */
  method ModAllVersions(rw: Rewrite, commit: bool, col: Collection) returns (r: Outcome, ghost dirs: seq<string>)
    modifies col`platforms, col.backend`docs, col.backend`log
    ensures NoDup(dirs) && forall d :: d in dirs <==> d in SubdirsIn(old(col.backend.docs).Keys + col.backend.blobs.Keys, col.path)
    ensures var run := ModAllVersionsSpec(rw, commit, Store(old(col.backend.docs), old(col.backend.log)), col.path,
                                          old(col.platforms).Keys, dirs);
      && r == run.outcome && col.backend.docs == run.st.docs && col.backend.log == run.st.log
      && col.platforms.Keys == run.known
  {
    var names := col.backend.ListDir(col.path, Dirs);
    dirs := names;
    ghost var spec := ModAllVersionsSpec(rw, commit, Store(col.backend.docs, col.backend.log), col.path, col.platforms.Keys, names);
    assert names[0..] == names;
    var i := 0;
    while i < |names|
      invariant i <= |names|
      invariant spec == ModAllVersionsSpec(rw, commit, Store(col.backend.docs, col.backend.log), col.path, col.platforms.Keys, names[i..])
    {
      assert names[i..][0] == names[i] && names[i..][1..] == names[i + 1..];
      r := ModDir(rw, commit, col, names[i]);
      if r.Fail? {
        return;
      }
      i := i + 1;
    }
    r := Pass;
  }

  /** `for chan in plat.channels: chan.url = mod_url(match, replace, chan.url)`. */
  method ModChannelUrls(rw: Rewrite, chans: seq<Channel?>) returns (r: Outcome)
    requires SlotsDistinct(chans)
    modifies (set c: Channel | c in chans)`url
    ensures r.Pass? <==> null !in chans
    ensures r.Fail? ==> r == Fail(NoneUrl)
    ensures r.Pass? ==> forall k :: 0 <= k < |chans| ==> chans[k].url == ModUrl(rw, old(chans[k].url))
  {
    var j := 0;
    while j < |chans|
      invariant j <= |chans|
      invariant forall k :: 0 <= k < j ==> chans[k] != null && chans[k].url == ModUrl(rw, old(chans[k].url))
      invariant forall k :: j <= k < |chans| && chans[k] != null ==> chans[k].url == old(chans[k].url)
    {
      if chans[j] == null {
        return Fail(NoneUrl);
      }
      chans[j].url := ModUrl(rw, chans[j].url);
      j := j + 1;
    }
    r := Pass;
  }

  /** One platform directory of the platform loop: the channels' URLs rewritten, then `plat.save()` with `commit`. */
  method ModPlatform(rw: Rewrite, commit: bool, col: Collection, name: string) returns (r: Outcome)
    modifies col`platforms, col.backend`docs, col.backend`log
    ensures var step := ModPlatformStep(rw, commit, Store(old(col.backend.docs), old(col.backend.log)), col.path, old(col.platforms).Keys, name);
      && r == step.outcome && col.backend.docs == step.st.docs && col.backend.log == step.st.log
      && col.platforms.Keys == step.known
  {
    var look := col.GetPlatform(name);
    if look.Err? {
      return Fail(look.error);
    }
    if look.value.NameOnly? {
      return Fail(StrChannels);
    }
    if look.value.NoPlatform? {
      return Fail(NoneChannels);
    }
    var p := look.value.p;
    r := ModLoadedPlatform(rw, commit, p);
  }

  /** The body of the platform loop for a loaded platform. */
  method ModLoadedPlatform(rw: Rewrite, commit: bool, p: Platform) returns (r: Outcome)
    requires SlotsDistinct(p.channels)
    modifies (set c: Channel | c in p.channels)`url, p.backend`docs, p.backend`log
    ensures var step := ModChannelsStep(rw, commit, Store(old(p.backend.docs), old(p.backend.log)), p.path, old(StatesOf(p.channels)));
      r == step.outcome && p.backend.docs == step.st.docs && p.backend.log == step.st.log
  {
    ghost var st0 := Store(p.backend.docs, p.backend.log);
    ghost var ss := StatesOf(p.channels);
    r := ModSlotUrls(rw, p.channels);
    if r.Fail? {
      return;
    }
    ghost var states := StatesOf(p.channels);
    SavedChannels(rw, commit, st0, p.path, ss, states);
    if commit {
      var saved := p.Save();
    }
  }

  /** With no null slot, the platform step saves the rewritten channels when `commit` is set. */
  lemma SavedChannels(rw: Rewrite, commit: bool, st: Store, platPath: string, ss: seq<Option<ChannelState>>,
                      states: seq<Option<ChannelState>>)
    requires None !in ss && states == ModSlots(rw, ss)
    ensures None !in states && LiveInfos(states).Some?
    ensures ModChannelsStep(rw, commit, st, platPath, ss)
         == Sweep(SaveIf(commit, st, ChannelsPath(platPath), ChannelsDoc(LiveInfos(states).value)), Pass)
  {
    LiveInfosOfModSlots(rw, ss);
  }

  /** The channel loop of a loaded platform, stated over the slots' states. */
  method ModSlotUrls(rw: Rewrite, chans: seq<Channel?>) returns (r: Outcome)
    requires SlotsDistinct(chans)
    modifies (set c: Channel | c in chans)`url
    ensures r.Pass? <==> None !in old(StatesOf(chans))
    ensures r.Fail? ==> r == Fail(NoneUrl)
    ensures r.Pass? ==> StatesOf(chans) == ModSlots(rw, old(StatesOf(chans)))
  {
    ghost var ss := StatesOf(chans);
    r := ModChannelUrls(rw, chans);
    if r.Fail? {
      var k :| 0 <= k < |chans| && chans[k] == null;
      assert ss[k] == None;
      return;
    }
    forall k | 0 <= k < |chans| ensures StatesOf(chans)[k] == ModSlots(rw, ss)[k] {
    }
    assert StatesOf(chans) == ModSlots(rw, ss);
    assert None !in ss;
  }

  /** `for plat in collection.list_platforms()` with the loop's body. */
  method ModPlatforms(rw: Rewrite, commit: bool, col: Collection) returns (r: Outcome, ghost dirs: seq<string>)
    modifies col`platforms, col.backend`docs, col.backend`log
    ensures NoDup(dirs) && forall d :: d in dirs <==> d in SubdirsIn(old(col.backend.docs).Keys + col.backend.blobs.Keys, col.path)
    ensures var run := ModPlatformsSpec(rw, commit, Store(old(col.backend.docs), old(col.backend.log)), col.path,
                                        old(col.platforms).Keys, dirs);
      && r == run.outcome && col.backend.docs == run.st.docs && col.backend.log == run.st.log
      && col.platforms.Keys == run.known
  {
    var names := col.backend.ListDir(col.path, Dirs);
    dirs := names;
    ghost var spec := ModPlatformsSpec(rw, commit, Store(col.backend.docs, col.backend.log), col.path, col.platforms.Keys, names);
    assert names[0..] == names;
    var i := 0;
    while i < |names|
      invariant i <= |names|
      invariant spec == ModPlatformsSpec(rw, commit, Store(col.backend.docs, col.backend.log), col.path, col.platforms.Keys, names[i..])
    {
      ModPlatformsAt(rw, commit, Store(col.backend.docs, col.backend.log), col.path, col.platforms.Keys, names, i);
      r := ModPlatform(rw, commit, col, names[i]);
      if r.Fail? {
        return;
      }
      i := i + 1;
    }
    r := Pass;
  }

  /**
   * `mod_urls(collection, match, replace, commit)`: every version's file
   * sources, then every platform's channel URLs, rewritten in the loaded
   * objects; only with `commit` is each version and each platform saved.
   */
  method ModUrls(col: Collection, rw: Rewrite, commit: bool) returns (r: Outcome, ghost dirs: seq<string>, ghost dirs2: seq<string>)
    modifies col`platforms, col.backend`docs, col.backend`log
    ensures NoDup(dirs) && forall d :: d in dirs <==> d in SubdirsIn(old(col.backend.docs).Keys + col.backend.blobs.Keys, col.path)
    ensures var one := ModAllVersionsSpec(rw, commit, Store(old(col.backend.docs), old(col.backend.log)), col.path,
                                          old(col.platforms).Keys, dirs);
      one.outcome.Pass? ==>
        NoDup(dirs2) && forall d :: d in dirs2 <==> d in SubdirsIn(one.st.docs.Keys + col.backend.blobs.Keys, col.path)
    ensures var run := ModUrlsSpec(rw, commit, Store(old(col.backend.docs), old(col.backend.log)), col.path,
                                   old(col.platforms).Keys, dirs, dirs2);
      r == run.outcome && col.backend.docs == run.st.docs && col.backend.log == run.st.log
    ensures !commit ==> col.backend.docs == old(col.backend.docs) && col.backend.log == old(col.backend.log)
  {
    ghost var st := Store(col.backend.docs, col.backend.log);
    ghost var known := col.platforms.Keys;
    r, dirs := ModAllVersions(rw, commit, col);
    dirs2 := [];
    if r.Pass? {
      r, dirs2 := ModPlatforms(rw, commit, col);
    }
    if !commit {
      DryRunWritesNothing(rw, st, col.path, known, dirs, dirs2);
    }
  }
}

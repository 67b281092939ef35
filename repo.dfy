/**
 * The metadata tree of a collection (repoman/repo.py): a Collection holds
 * Platforms, a Platform an ordered list of Channels, a Channel an ordered
 * list of version summaries and a cache of fully loaded Versions. Every
 * object reads and writes its JSON document through the collection's
 * backend; what loading yields is stated by the functions of `Documents`
 * over the backend's documents.
 */
module Repo {
  import opened Wrappers
  import opened Paths
  import opened Json
  import opened Seqs
  import opened Backends
  import opened Storage
  import opened Documents

  /** A version as the `Version` object holds it. */
  datatype VersionData = VersionData(chanDir: string, id: int, name: string, files: seq<UpdateFile>)

  /** The name of the first summary with this id: the one `get_version` loads under. */
  function FirstName(vs: seq<Summary>, id: int): (r: Option<string>)
    ensures r.Some? <==> exists i :: 0 <= i < |vs| && vs[i].id == id
    ensures r.Some? ==> exists i :: 0 <= i < |vs| && vs[i].id == id && vs[i].name == r.value
  {
    if vs == [] then None
    else if vs[0].id == id then Some(vs[0].name)
    else
      var r := FirstName(vs[1..], id);
      assert r.Some? ==> exists i :: 1 <= i < |vs| && vs[i].id == id && vs[i].name == r.value by {
        if r.Some? {
          var i :| 0 <= i < |vs[1..]| && vs[1..][i].id == id && vs[1..][i].name == r.value;
          assert vs[i + 1] == vs[1..][i];
        }
      }
      assert (exists i :: 0 <= i < |vs| && vs[i].id == id) ==> r.Some? by {
        if exists i :: 0 <= i < |vs| && vs[i].id == id {
          var i :| 0 <= i < |vs| && vs[i].id == id;
          assert vs[1..][i - 1] == vs[i];
        }
      }
      r
  }

  /** The largest id of a non-empty version list: what `sorted(..., key=int(id))[-1]` picks. */
  function MaxId(vs: seq<Summary>): (m: int)
    requires vs != []
    ensures exists i :: 0 <= i < |vs| && vs[i].id == m
    ensures forall i :: 0 <= i < |vs| ==> vs[i].id <= m
  {
    if |vs| == 1 then vs[0].id
    else
      var m := MaxId(vs[1..]);
      assert forall i :: 1 <= i < |vs| ==> vs[i] == vs[1..][i - 1];
      if vs[0].id > m then vs[0].id else m
  }

  /**
   * What `get_version(id)` yields given the cache's contents: the cached
   * version, else the document loaded under the first matching summary's
   * name, else None when no summary has the id.
   */
  function VersionView(docs: map<string, Json>, cache: map<int, VersionData>, chanDir: string,
                       versions: seq<Summary>, id: int): Result<Option<VersionData>>
  {
    if id in cache then Ok(Some(cache[id]))
    else match FirstName(versions, id)
      case None => Ok(None)
      case Some(name) =>
        var files :- LoadVersionSpec(docs, chanDir, id);
        Ok(Some(VersionData(chanDir, id, name, files)))
  }

  /**
   * A cached id yields its cached version; otherwise the lookup is None
   * exactly when no summary has the id, and a loaded version carries the
   * id and directory it was loaded under, failing exactly when its document
   * does not load.
   */
  lemma VersionViewCases(docs: map<string, Json>, cache: map<int, VersionData>, chanDir: string,
                         versions: seq<Summary>, id: int)
    ensures id in cache ==> VersionView(docs, cache, chanDir, versions, id) == Ok(Some(cache[id]))
    ensures id !in cache ==> (VersionView(docs, cache, chanDir, versions, id) == Ok(None) <==> FirstName(versions, id).None?)
    ensures id !in cache && VersionView(docs, cache, chanDir, versions, id).Ok? && VersionView(docs, cache, chanDir, versions, id).value.Some?
      ==> VersionView(docs, cache, chanDir, versions, id).value.value.id == id && VersionView(docs, cache, chanDir, versions, id).value.value.chanDir == chanDir
    ensures id !in cache && FirstName(versions, id).Some?
      ==> (VersionView(docs, cache, chanDir, versions, id).Err? <==> LoadVersionSpec(docs, chanDir, id).Err?)
  {
  }

  /** What `Channel.all_versions_where(pred)` yields over the summaries `vs` (a suffix of the channel's list). */
  function ChannelVersionsSpec(docs: map<string, Json>, cache: map<int, VersionData>, chanDir: string,
                               versions: seq<Summary>, vs: seq<Summary>, pred: (int, string) -> bool): (r: Result<seq<VersionData>>)
    ensures r.Ok? ==> |r.value| <= |vs|
  {
    if vs == [] then Ok([])
    else if !pred(vs[0].id, vs[0].name) then ChannelVersionsSpec(docs, cache, chanDir, versions, vs[1..], pred)
    else
      var v :- VersionView(docs, cache, chanDir, versions, vs[0].id);
      var here := if v.Some? then [v.value] else [];
      var rest :- ChannelVersionsSpec(docs, cache, chanDir, versions, vs[1..], pred);
      Ok(here + rest)
  }

  /**
   * The listing succeeds exactly when every summary the predicate admits
   * looks up without error, and otherwise raises the error of one of them.
   */
  lemma {:induction false} ChannelVersionsCases(docs: map<string, Json>, cache: map<int, VersionData>, chanDir: string,
                                                versions: seq<Summary>, vs: seq<Summary>, pred: (int, string) -> bool)
    ensures var r := ChannelVersionsSpec(docs, cache, chanDir, versions, vs, pred);
      r.Ok? <==> forall k :: 0 <= k < |vs| && pred(vs[k].id, vs[k].name) ==> VersionView(docs, cache, chanDir, versions, vs[k].id).Ok?
    ensures var r := ChannelVersionsSpec(docs, cache, chanDir, versions, vs, pred);
      r.Err? ==> exists k :: 0 <= k < |vs| && pred(vs[k].id, vs[k].name) && VersionView(docs, cache, chanDir, versions, vs[k].id) == Err(r.error)
  {
    if vs != [] {
      ChannelVersionsCases(docs, cache, chanDir, versions, vs[1..], pred);
      assert forall k :: 1 <= k < |vs| ==> vs[1..][k - 1] == vs[k];
    }
  }

  /** A cache whose every entry is what loading its id would give now. */
  ghost predicate CacheAgrees(docs: map<string, Json>, cache: map<int, VersionData>, chanDir: string, versions: seq<Summary>) {
    forall id {:trigger VersionView(docs, map[], chanDir, versions, id)} ::
      id in cache ==> VersionView(docs, map[], chanDir, versions, id) == Ok(Some(cache[id]))
  }

  /** With a cache that agrees with the documents, a channel yields what loading everything afresh yields. */
  lemma AgreeingCacheIsInvisible(docs: map<string, Json>, cache: map<int, VersionData>, chanDir: string,
                                 versions: seq<Summary>, id: int)
    requires CacheAgrees(docs, cache, chanDir, versions)
    ensures VersionView(docs, cache, chanDir, versions, id) == VersionView(docs, map[], chanDir, versions, id)
  {
  }

  /** ... and so does the whole listing. */
  lemma {:induction false} AgreeingCacheListing(docs: map<string, Json>, cache: map<int, VersionData>, chanDir: string,
                                                versions: seq<Summary>, vs: seq<Summary>, pred: (int, string) -> bool)
    requires CacheAgrees(docs, cache, chanDir, versions)
    ensures ChannelVersionsSpec(docs, cache, chanDir, versions, vs, pred) == ChannelVersionsSpec(docs, map[], chanDir, versions, vs, pred)
  {
    if vs != [] {
      AgreeingCacheIsInvisible(docs, cache, chanDir, versions, vs[0].id);
      AgreeingCacheListing(docs, cache, chanDir, versions, vs[1..], pred);
    }
  }

  /** Caching what `get_version` just loaded changes nothing that later lookups see. */
  lemma CachingIsInvisible(docs: map<string, Json>, cache: map<int, VersionData>, chanDir: string,
                           versions: seq<Summary>, id: int, d: VersionData, other: int)
    requires VersionView(docs, cache, chanDir, versions, id) == Ok(Some(d))
    ensures VersionView(docs, cache[id := d], chanDir, versions, other) == VersionView(docs, cache, chanDir, versions, other)
  {
  }

  lemma {:induction false} CachingListingIsInvisible(docs: map<string, Json>, cache: map<int, VersionData>, chanDir: string,
                                                     versions: seq<Summary>, id: int, d: VersionData,
                                                     vs: seq<Summary>, pred: (int, string) -> bool)
    requires VersionView(docs, cache, chanDir, versions, id) == Ok(Some(d))
    ensures ChannelVersionsSpec(docs, cache[id := d], chanDir, versions, vs, pred) == ChannelVersionsSpec(docs, cache, chanDir, versions, vs, pred)
  {
    if vs != [] {
      CachingIsInvisible(docs, cache, chanDir, versions, id, d, vs[0].id);
      CachingListingIsInvisible(docs, cache, chanDir, versions, id, d, vs[1..], pred);
    }
  }

  class Version {
    const backend: Backend
    const chanDir: string
    const id: int
    const name: string
    var files: seq<UpdateFile>

    constructor (backend: Backend, chanDir: string, id: int, name: string, files: seq<UpdateFile>)
      ensures this.backend == backend && Data() == VersionData(chanDir, id, name, files)
    {
      this.backend := backend;
      this.chanDir := chanDir;
      this.id := id;
      this.name := name;
      this.files := files;
    }

    function Data(): VersionData
      reads this`files
    {
      VersionData(chanDir, id, name, files)
    }

    /** `Version.load(backend, chan_dir, id, name)`: the version document's files, checked and parsed in order. */
    static method Load(backend: Backend, chanDir: string, id: int, name: string) returns (r: Result<Version>)
      ensures r.Ok? <==> LoadVersionSpec(backend.docs, chanDir, id).Ok?
      ensures r.Ok? ==>
        && fresh(r.value) && r.value.backend == backend
        && r.value.Data() == VersionData(chanDir, id, name, LoadVersionSpec(backend.docs, chanDir, id).value)
      ensures r.Err? ==> r.error == LoadVersionSpec(backend.docs, chanDir, id).error
    {
      var obj :- backend.ReadJson(VersionPath(chanDir, id));
      var api :- Get(obj, "ApiVersion");
      if !PyEqualsInt(api, 0) {
        return Err(AssertionError("ApiVersion"));
      }
      var docId :- Get(obj, "Id");
      if !PyEqualsInt(docId, id) {
        return Err(AssertionError("Id"));
      }
      var fileObjs :- GetArr(obj, "Files");
      var files: seq<UpdateFile> := [];
      var i := 0;
      assert fileObjs[0..] == fileObjs;
      PrependNil(ParseFiles(fileObjs));
      while i < |fileObjs|
        invariant i <= |fileObjs|
        invariant ParseFiles(fileObjs) == Prepend(files, ParseFiles(fileObjs[i..]))
      {
        assert fileObjs[i..][1..] == fileObjs[i + 1..];
        var f :- ParseFile(fileObjs[i]);
        PrependPrepend(files, [f], ParseFiles(fileObjs[i + 1..]));
        files := files + [f];
        i := i + 1;
      }
      assert files + [] == files;
      var v := new Version(backend, chanDir, id, name, files);
      r := Ok(v);
    }

    /** `Version.save`: the version document at `<chan_dir>/<id>.json`. */
    method Save()
      modifies backend`docs, backend`log
      ensures backend.docs == old(backend.docs)[VersionPath(chanDir, id) := VersionDoc(id, name, files)]
      ensures backend.log == old(backend.log) + [Wrote(VersionPath(chanDir, id))]
    {
      backend.WriteJson(VersionDoc(id, name, files), VersionPath(chanDir, id));
    }
  }

  /** The data of a list of versions, in order. */
  function Datas(vs: seq<Version>): (r: seq<VersionData>)
    reads (set v | v in vs)`files
    ensures |r| == |vs|
    ensures forall i :: 0 <= i < |vs| ==> r[i] == vs[i].Data()
  {
    if vs == [] then [] else [vs[0].Data()] + Datas(vs[1..])
  }

  /** The data of a version that may be None. */
  function OptData(o: Option<Version>): (r: Option<VersionData>)
    reads if o.Some? then {o.value} else {}
    ensures r.Some? <==> o.Some?
  {
    if o.Some? then Some(o.value.Data()) else None
  }

  /** The data of the versions a cache holds, by id. */
  function DataOf(m: map<int, Version>): map<int, VersionData>
    reads m.Values`files
  {
    map i | i in m :: m[i].Data()
  }

  lemma DataOfInsert(m: map<int, Version>, k: int, v: Version)
    ensures DataOf(m[k := v]) == DataOf(m)[k := v.Data()]
  {
  }

  lemma DataOfRemove(m: map<int, Version>, k: int)
    ensures DataOf(m - {k}) == DataOf(m) - {k}
  {
  }

  lemma DataOfHit(m: map<int, Version>, k: int)
    requires k in m
    ensures DataOf(m)[k := m[k].Data()] == DataOf(m)
  {
  }

  class Channel {
    const backend: Backend
    const id: string
    const name: string
    const desc: string
    var url: string
    const path: string
    var versions: seq<Summary>
    var loadedVsns: map<int, Version>

    constructor (backend: Backend, id: string, name: string, desc: string, url: string, path: string, versions: seq<Summary>)
      ensures this.backend == backend && this.id == id && this.name == name && this.desc == desc
      ensures this.url == url && this.path == path && this.versions == versions
      ensures loadedVsns == map[]
    {
      this.backend := backend;
      this.id := id;
      this.name := name;
      this.desc := desc;
      this.url := url;
      this.path := path;
      this.versions := versions;
      loadedVsns := map[];
    }

    function Info(): ChannelInfo
      reads this`url
    {
      ChannelInfo(id, name, desc, url)
    }

    function State(): ChannelState
      reads this`url, this`versions
    {
      ChannelState(Info(), path, versions)
    }

    /** The data of the cached versions, by id. */
    function CacheData(): map<int, VersionData>
      reads this`loadedVsns, loadedVsns.Values`files
    {
      DataOf(loadedVsns)
    }

    /** Every cached version is what loading its id from the documents would give now. */
    ghost predicate Agrees()
      reads this`loadedVsns, loadedVsns.Values`files, this`versions, backend`docs
    {
      CacheAgrees(backend.docs, CacheData(), path, versions)
    }

    /** `todict`: the channel's entry in `channels.json`. */
    function ToDict(): (j: Json)
      reads this`url
      ensures ParseChannelEntry(j) == Ok(Info())
    {
      ChannelEntryRoundTrip(Info());
      ChannelEntry(Info())
    }

    /**
     * `Channel.load(backend, plat_path, obj)`: the channel of an entry of
     * `channels.json` with the summaries of its `index.json`; null when that
     * index's ApiVersion is not 0.
     */
    static method Load(backend: Backend, platPath: string, obj: Json) returns (r: Result<Channel?>)
      ensures r.Ok? <==> LoadChannelSpec(backend.docs, platPath, obj).Ok?
      ensures r.Err? ==> r.error == LoadChannelSpec(backend.docs, platPath, obj).error
      ensures r.Ok? ==> (r.value == null <==> LoadChannelSpec(backend.docs, platPath, obj).value.None?)
      ensures r.Ok? && r.value != null ==>
        && fresh(r.value) && r.value.backend == backend && r.value.loadedVsns == map[]
        && Some(r.value.State()) == LoadChannelSpec(backend.docs, platPath, obj).value
    {
      var id :- GetStr(obj, "id");
      var name :- GetStr(obj, "name");
      var desc :- GetStr(obj, "description");
      var url :- GetStr(obj, "url");
      var path := Join(platPath, id);
      var idx :- backend.ReadJson(IndexPath(path));
      var api :- Get(idx, "ApiVersion");
      if !PyEqualsInt(api, 0) {
        return Ok(null);
      }
      var vsnObjs :- GetArr(idx, "Versions");
      var vs: seq<Summary> := [];
      var i := 0;
      assert vsnObjs[0..] == vsnObjs;
      PrependNil(ParseSummaries(vsnObjs));
      while i < |vsnObjs|
        invariant i <= |vsnObjs|
        invariant ParseSummaries(vsnObjs) == Prepend(vs, ParseSummaries(vsnObjs[i..]))
      {
        assert vsnObjs[i..][1..] == vsnObjs[i + 1..];
        var v :- ParseSummary(vsnObjs[i]);
        PrependPrepend(vs, [v], ParseSummaries(vsnObjs[i + 1..]));
        vs := vs + [v];
        i := i + 1;
      }
      assert vs + [] == vs;
      var c := new Channel(backend, id, name, desc, url, path, vs);
      r := Ok(c);
    }

    /** `save_index`: the summaries, in list order, to `index.json`. */
    method SaveIndex()
      modifies backend`docs, backend`log
      ensures backend.docs == old(backend.docs)[IndexPath(path) := IndexDoc(versions)]
      ensures backend.log == old(backend.log) + [Wrote(IndexPath(path))]
    {
      backend.WriteJson(IndexDoc(versions), IndexPath(path));
    }

    /**
     * `get_version(id)`: the cached version when there is one (no backend
     * read), else the version loaded under the first summary with that id,
     * now cached; None when no summary has the id.
     */
    method GetVersion(vid: int) returns (r: Result<Option<Version>>)
      modifies this`loadedVsns
      ensures r.Ok? <==> VersionView(backend.docs, old(CacheData()), path, versions, vid).Ok?
      ensures r.Err? ==> r.error == VersionView(backend.docs, old(CacheData()), path, versions, vid).error
      ensures r.Ok? ==> OptData(r.value) == VersionView(backend.docs, old(CacheData()), path, versions, vid).value
      ensures vid in old(loadedVsns) ==> loadedVsns == old(loadedVsns) && r == Ok(Some(old(loadedVsns)[vid]))
      ensures vid !in old(loadedVsns) ==>
        if r.Ok? && r.value.Some? then fresh(r.value.value) && r.value.value.backend == backend && loadedVsns == old(loadedVsns)[vid := r.value.value]
        else loadedVsns == old(loadedVsns)
      ensures r.Ok? && r.value.Some? ==> CacheData() == old(CacheData())[vid := r.value.value.Data()]
      ensures !(r.Ok? && r.value.Some?) ==> CacheData() == old(CacheData())
      ensures r == Ok(None) ==> FirstName(versions, vid) == None
      ensures old(Agrees()) ==> Agrees()
    {
      if vid in loadedVsns {
        DataOfHit(loadedVsns, vid);
        return Ok(Some(loadedVsns[vid]));
      }
      var name := FindSummary(versions, vid);
      if name.None? {
        return Ok(None);
      }
      var v :- Version.Load(backend, path, vid, name.value);
      ghost var c0 := CacheData();
      Cache(vid, v);
      if old(Agrees()) {
        CachingKeepsAgreement(backend.docs, c0, path, versions, vid, v.Data());
      }
      return Ok(Some(v));
    }

    /** `loaded_vsns[id] = vsn`. */
    method Cache(vid: int, v: Version)
      modifies this`loadedVsns
      ensures loadedVsns == old(loadedVsns)[vid := v]
      ensures CacheData() == old(CacheData())[vid := v.Data()]
    {
      DataOfInsert(loadedVsns, vid, v);
      loadedVsns := loadedVsns[vid := v];
    }

    /**
     * `add_version(id, name, files)`: the version document is written first,
     * then the summary is appended and `index.json` rewritten; an id that is
     * already listed is not rejected.
     */
    method AddVersion(vid: int, vname: string, files: seq<UpdateFile>) returns (v: Version)
      modifies this`versions, backend`docs, backend`log
      ensures fresh(v) && v.backend == backend && v.Data() == VersionData(path, vid, vname, files)
      ensures versions == old(versions) + [Summary(vid, vname)]
      ensures backend.docs ==
        old(backend.docs)[VersionPath(path, vid) := VersionDoc(vid, vname, files)][IndexPath(path) := IndexDoc(versions)]
      ensures backend.log == old(backend.log) + [Wrote(VersionPath(path, vid)), Wrote(IndexPath(path))]
    {
      v := new Version(backend, path, vid, vname, files);
      v.Save();
      versions := versions + [Summary(vid, vname)];
      SaveIndex();
    }

    /**
     * `delete_version(id)` as its documentation describes it: the summaries
     * with that id leave the list and the cache, and `index.json` is
     * rewritten; the version document and the blobs stay.
     */
    method DeleteVersion(vid: int)
      modifies this`versions, this`loadedVsns, backend`docs, backend`log
      ensures versions == WithoutId(old(versions), vid)
      ensures loadedVsns == old(loadedVsns) - {vid}
      ensures CacheData() == old(CacheData()) - {vid}
      ensures backend.docs == old(backend.docs)[IndexPath(path) := IndexDoc(versions)]
      ensures backend.log == old(backend.log) + [Wrote(IndexPath(path))]
    {
      DataOfRemove(loadedVsns, vid);
      versions := WithoutId(versions, vid);
      loadedVsns := loadedVsns - {vid};
      SaveIndex();
    }

    /** `delete_version` as written: a stub whose only parameter is `self`, so a call with an id raises TypeError. */
    method DeleteVersionAsWritten(args: seq<int>) returns (r: Outcome)
      ensures r.Pass? <==> args == []
      ensures r.Fail? ==> r == Fail(DeleteVersionArity) && r.error.TypeError?
    {
      if args != [] {
        return Fail(DeleteVersionArity);
      }
      return Pass;
    }

    /** `get_latest_vsn`: None for an empty list, else `get_version` of the largest id. */
    method GetLatestVsn() returns (r: Result<Option<Version>>)
      modifies this`loadedVsns
      ensures r.Ok? <==> LatestView(backend.docs, old(CacheData()), path, versions).Ok?
      ensures r.Err? ==> r.error == LatestView(backend.docs, old(CacheData()), path, versions).error
      ensures r.Ok? ==> OptData(r.value) == LatestView(backend.docs, old(CacheData()), path, versions).value
      ensures versions == [] ==> r == Ok(None) && loadedVsns == old(loadedVsns)
      ensures old(Agrees()) ==> Agrees()
    {
      if |versions| > 0 {
        r := GetVersion(MaxId(versions));
      } else {
        r := Ok(None);
      }
    }

    /** `all_versions_where(pred)`: `get_version` of each summary that satisfies `pred`, in list order. */
    method AllVersionsWhere(pred: (int, string) -> bool) returns (r: Result<seq<Version>>)
      modifies this`loadedVsns
      ensures r.Ok? <==> ChannelVersionsSpec(backend.docs, old(CacheData()), path, versions, versions, pred).Ok?
      ensures r.Err? ==> r.error == ChannelVersionsSpec(backend.docs, old(CacheData()), path, versions, versions, pred).error
      ensures r.Ok? ==> Datas(r.value) == ChannelVersionsSpec(backend.docs, old(CacheData()), path, versions, versions, pred).value
      ensures old(Agrees()) ==> Agrees()
    {
      ghost var spec := ChannelVersionsSpec(backend.docs, CacheData(), path, versions, versions, pred);
      ghost var agreed := Agrees();
      ghost var cache := CacheData();
      var acc: seq<Version> := [];
      assert versions[0..] == versions;
      PrependNil(spec);
      ghost var docs, vs := backend.docs, versions;
      for i := 0 to |versions|
        invariant cache == CacheData() && docs == backend.docs && vs == versions
        invariant spec == Prepend(Datas(acc), ChannelVersionsSpec(docs, cache, path, vs, vs[i..], pred))
        invariant agreed ==> Agrees()
      {
        var step;
        step, cache := ListNext(pred, i, acc, cache, spec);
        if step.Err? {
          r := Err(step.error);
          assert spec == Err(r.error);
          return;
        }
        acc := step.value;
      }
      assert Datas(acc) + [] == Datas(acc);
      r := Ok(acc);
      assert spec == Ok(Datas(r.value));
    }

    /** One turn of the loop of `all_versions_where`: the `i`-th summary, checked and loaded when it satisfies `pred`. */
    method ListNext(pred: (int, string) -> bool, i: nat, acc: seq<Version>, ghost cache: map<int, VersionData>,
                    ghost spec: Result<seq<VersionData>>)
      returns (r: Result<seq<Version>>, ghost cache': map<int, VersionData>)
      requires i < |versions| && cache == CacheData()
      requires spec == Prepend(Datas(acc), ChannelVersionsSpec(backend.docs, cache, path, versions, versions[i..], pred))
      modifies this`loadedVsns
      ensures r.Err? ==> spec == Err(r.error)
      ensures r.Ok? ==> cache' == CacheData()
      ensures r.Ok? ==> spec == Prepend(Datas(r.value), ChannelVersionsSpec(backend.docs, cache', path, versions, versions[i + 1..], pred))
      ensures old(Agrees()) ==> Agrees()
    {
      ghost var rest := versions[i..];
      assert rest[1..] == versions[i + 1..];
      cache' := cache;
      if !pred(versions[i].id, versions[i].name) {
        ListingStepSkip(backend.docs, cache, path, versions, rest, pred);
        return Ok(acc), cache';
      }
      var v := GetVersion(versions[i].id);
      if v.Err? {
        return Err(v.error), cache';
      }
      if v.value.None? {
        assert false;
        return Ok(acc), cache';
      }
      ghost var d := v.value.value.Data();
      ListingStepFound(backend.docs, cache, path, versions, rest, pred, d);
      cache' := cache[versions[i].id := d];
      PrependPrepend(Datas(acc), [d], ChannelVersionsSpec(backend.docs, cache', path, versions, versions[i + 1..], pred));
      DatasAppend(acc, v.value.value);
      r := Ok(acc + [v.value.value]);
    }
  }

  /** A listed summary whose version loads contributes it, and the listing goes on with it cached. */
  lemma ListingStepFound(docs: map<string, Json>, cache: map<int, VersionData>, chanDir: string,
                         versions: seq<Summary>, vs: seq<Summary>, pred: (int, string) -> bool, d: VersionData)
    requires vs != [] && pred(vs[0].id, vs[0].name)
    requires VersionView(docs, cache, chanDir, versions, vs[0].id) == Ok(Some(d))
    ensures ChannelVersionsSpec(docs, cache, chanDir, versions, vs, pred)
         == Prepend([d], ChannelVersionsSpec(docs, cache[vs[0].id := d], chanDir, versions, vs[1..], pred))
  {
    CachingListingIsInvisible(docs, cache, chanDir, versions, vs[0].id, d, vs[1..], pred);
  }

  /** A summary that fails the predicate contributes nothing. */
  lemma ListingStepSkip(docs: map<string, Json>, cache: map<int, VersionData>, chanDir: string,
                        versions: seq<Summary>, vs: seq<Summary>, pred: (int, string) -> bool)
    requires vs != [] && !pred(vs[0].id, vs[0].name)
    ensures ChannelVersionsSpec(docs, cache, chanDir, versions, vs, pred)
         == ChannelVersionsSpec(docs, cache, chanDir, versions, vs[1..], pred)
  {
  }

  lemma DatasAppend(vs: seq<Version>, v: Version)
    ensures Datas(vs + [v]) == Datas(vs) + [v.Data()]
  {
    assert forall i :: 0 <= i < |vs| ==> (vs + [v])[i] == vs[i];
  }

  /** The scan of `get_version` over the summaries: the name of the first one with the id. */
  method FindSummary(vs: seq<Summary>, vid: int) returns (name: Option<string>)
    ensures name == FirstName(vs, vid)
  {
    var i := 0;
    while i < |vs|
      invariant i <= |vs|
      invariant forall k :: 0 <= k < i ==> vs[k].id != vid
    {
      if vs[i].id == vid {
        FirstNameAt(vs, vid, i);
        return Some(vs[i].name);
      }
      i := i + 1;
    }
    return None;
  }

  /** The first summary with an id decides `FirstName`. */
  lemma {:induction false} FirstNameAt(vs: seq<Summary>, id: int, i: int)
    requires 0 <= i < |vs| && vs[i].id == id
    requires forall k :: 0 <= k < i ==> vs[k].id != id
    ensures FirstName(vs, id) == Some(vs[i].name)
  {
    if i > 0 {
      FirstNameAt(vs[1..], id, i - 1);
    }
  }

  /** Appending a summary changes the first name of its id only when the id was not listed. */
  lemma {:induction false} FirstNameAppend(vs: seq<Summary>, s: Summary, id: int)
    ensures FirstName(vs + [s], id) ==
      if FirstName(vs, id).Some? then FirstName(vs, id) else if s.id == id then Some(s.name) else None
  {
    if vs != [] {
      assert (vs + [s])[1..] == vs[1..] + [s];
      FirstNameAppend(vs[1..], s, id);
    }
  }

  /** Caching what a lookup gives keeps a cache in agreement with the documents. */
  lemma CachingKeepsAgreement(docs: map<string, Json>, cache: map<int, VersionData>, chanDir: string,
                              versions: seq<Summary>, id: int, d: VersionData)
    requires CacheAgrees(docs, cache, chanDir, versions)
    requires VersionView(docs, cache, chanDir, versions, id) == Ok(Some(d))
    ensures CacheAgrees(docs, cache[id := d], chanDir, versions)
  {
    AgreeingCacheIsInvisible(docs, cache, chanDir, versions, id);
  }

  /** The TypeError of calling `delete_version`, which takes only `self`, with an id. */
  const DeleteVersionArity := TypeError("delete_version() takes 1 positional argument but 2 were given")

  /** The summaries without those that carry the id, in order. */
  function WithoutId(vs: seq<Summary>, id: int): (r: seq<Summary>)
    ensures forall s :: s in r <==> s in vs && s.id != id
    ensures |r| <= |vs|
    ensures (forall i :: 0 <= i < |vs| ==> vs[i].id != id) ==> r == vs
  {
    if vs == [] then []
    else
      var rest := WithoutId(vs[1..], id);
      assert (forall i :: 0 <= i < |vs| ==> vs[i].id != id) ==> rest == vs[1..] by {
        if forall i :: 0 <= i < |vs| ==> vs[i].id != id {
          assert forall i :: 0 <= i < |vs[1..]| ==> vs[1..][i] == vs[i + 1];
        }
      }
      (if vs[0].id == id then [] else [vs[0]]) + rest
  }

  /** No two summaries carry the same id. */
  predicate UniqueIds(vs: seq<Summary>) {
    forall i, j :: 0 <= i < j < |vs| ==> vs[i].id != vs[j].id
  }

  /**
   * The summary list of `add_version` as evidently intended: an id that is
   * already listed is rejected, and a new one is appended.
   */
  function AddSummaryChecked(vs: seq<Summary>, vid: int, vname: string): (r: Result<seq<Summary>>)
    ensures r.Err? <==> exists i :: 0 <= i < |vs| && vs[i].id == vid
    ensures r.Err? ==> r.error.IntegrityError?
    ensures r.Ok? ==> r.value == vs + [Summary(vid, vname)]
  {
    if FirstName(vs, vid).Some? then Err(IntegrityError("duplicate version id")) else Ok(vs + [Summary(vid, vname)])
  }

  /** The checked append keeps ids unique, and the new id then looks up its own name. */
  lemma CheckedAddKeepsIdsUnique(vs: seq<Summary>, vid: int, vname: string)
    requires UniqueIds(vs)
    ensures AddSummaryChecked(vs, vid, vname).Ok? ==> UniqueIds(AddSummaryChecked(vs, vid, vname).value)
    ensures AddSummaryChecked(vs, vid, vname).Ok? ==> FirstName(AddSummaryChecked(vs, vid, vname).value, vid) == Some(vname)
  {
    if AddSummaryChecked(vs, vid, vname).Ok? {
      FirstNameAppend(vs, Summary(vid, vname), vid);
    }
  }

  /** As written, adding an id that is listed succeeds, and the id keeps looking up the old name. */
  lemma DuplicateIdShadowsName()
    ensures var vs := [Summary(1, "a")] + [Summary(1, "b")];
      !UniqueIds(vs) && FirstName(vs, 1) == Some("a")
  {
    var vs := [Summary(1, "a")] + [Summary(1, "b")];
    assert vs[0].id == vs[1].id;
    FirstNameAppend([Summary(1, "a")], Summary(1, "b"), 1);
  }

  /** What `get_latest_vsn` yields given the cache: None for an empty list, else the view of the largest id. */
  function LatestView(docs: map<string, Json>, cache: map<int, VersionData>, chanDir: string,
                      versions: seq<Summary>): Result<Option<VersionData>>
  {
    if versions == [] then Ok(None) else VersionView(docs, cache, chanDir, versions, MaxId(versions))
  }

  /** Loaded afresh, the latest version carries an id no summary exceeds, and it is None only for an empty list. */
  lemma LatestIsMax(docs: map<string, Json>, chanDir: string, versions: seq<Summary>)
    requires LatestView(docs, map[], chanDir, versions).Ok?
    ensures LatestView(docs, map[], chanDir, versions).value.None? <==> versions == []
    ensures LatestView(docs, map[], chanDir, versions).value.Some? ==>
      var d := LatestView(docs, map[], chanDir, versions).value.value;
      && d.chanDir == chanDir
      && (exists i :: 0 <= i < |versions| && versions[i].id == d.id && versions[i].name == d.name)
      && (forall i :: 0 <= i < |versions| ==> versions[i].id <= d.id)
  {
  }

  /** After `add_version`, the index lists the new summary last and its id loads the new files (under the first name listed for it). */
  lemma AddVersionReadsBack(docs: map<string, Json>, chanDir: string, vs: seq<Summary>, vid: int, vname: string,
                            files: seq<UpdateFile>)
    ensures var docs' := docs[VersionPath(chanDir, vid) := VersionDoc(vid, vname, files)]
                             [IndexPath(chanDir) := IndexDoc(vs + [Summary(vid, vname)])];
      && ReadDoc(docs', IndexPath(chanDir)).Ok?
      && ParseIndex(docs'[IndexPath(chanDir)]) == Ok(Some(vs + [Summary(vid, vname)]))
      && VersionView(docs', map[], chanDir, vs + [Summary(vid, vname)], vid)
         == Ok(Some(VersionData(chanDir, vid, if FirstName(vs, vid).Some? then FirstName(vs, vid).value else vname, files)))
  {
    var vs' := vs + [Summary(vid, vname)];
    var docs' := docs[VersionPath(chanDir, vid) := VersionDoc(vid, vname, files)][IndexPath(chanDir) := IndexDoc(vs')];
    IndexRoundTrip(vs');
    VersionPathIsNotIndexPath(chanDir, vid);
    assert docs'[VersionPath(chanDir, vid)] == VersionDoc(vid, vname, files);
    VersionRoundTrip(vid, vname, files, vid + 1);
    assert LoadVersionSpec(docs', chanDir, vid) == Ok(files);
    FirstNameAppend(vs, Summary(vid, vname), vid);
    assert FirstName(vs', vid).Some?;
  }
}

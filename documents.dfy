/**
 * The JSON documents of a collection (repoman/repo.py) and what reading them
 * yields: `config.json` of the collection, `channels.json` of a platform,
 * `index.json` of a channel and `<id>.json` of a version. The builders are
 * what the `save` methods write; the parsers follow the field accesses of
 * the `load` methods in order, with the exception each access raises.
 */
module Documents {
  import opened Wrappers
  import opened Paths
  import opened Json

  /** One file of a version: `UpdateFile`. */
  datatype UpdateFile = UpdateFile(path: string, md5: string, perms: int, sources: seq<string>, executable: bool)

  /** One entry of a channel's version list: `dict(id=..., name=...)`. */
  datatype Summary = Summary(id: int, name: string)

  /** The fields of a channel that `todict` writes to `channels.json`. */
  datatype ChannelInfo = ChannelInfo(id: string, name: string, desc: string, url: string)

  /** A channel as `Channel.load` builds it: its entry, its directory and its version list. */
  datatype ChannelState = ChannelState(info: ChannelInfo, path: string, versions: seq<Summary>)

  /** Python's `j == n` for a decoded JSON value and an int (`False == 0` and `True == 1` hold). */
  function PyEqualsInt(j: Json, n: int): bool {
    match j
    case JInt(m) => m == n
    case JBool(b) => (if b then 1 else 0) == n
    case _ => false
  }

  /** `backend.read_json(p)` over the stored documents. */
  function ReadDoc(docs: map<string, Json>, p: string): (r: Result<Json>)
    ensures r.Ok? <==> p in docs
    ensures r.Ok? ==> r.value == docs[p]
    ensures r.Err? ==> r.error == IOError(p)
  {
    if p in docs then Ok(docs[p]) else Err(IOError(p))
  }

  function ConfigPath(colPath: string): string {
    Join(colPath, "config.json")
  }

  function ChannelsPath(platPath: string): string {
    Join(platPath, "channels.json")
  }

  function IndexPath(chanDir: string): string {
    Join(chanDir, "index.json")
  }

  /** `vsn_file_path`: `<chan_dir>/<id>.json`. */
  function VersionPath(chanDir: string, id: int): string {
    Join(chanDir, IntToString(id) + ".json")
  }

  // ----- <id>.json -----

  function SourceDoc(url: string): Json {
    JObj(map["Url" := JStr(url), "SourceType" := JStr("http")])
  }

  function SourceDocs(urls: seq<string>): (r: seq<Json>)
    ensures |r| == |urls|
    ensures forall i :: 0 <= i < |urls| ==> r[i] == SourceDoc(urls[i])
  {
    if urls == [] then [] else [SourceDoc(urls[0])] + SourceDocs(urls[1..])
  }

  function FileDoc(f: UpdateFile): Json {
    JObj(map[
      "Path" := JStr(f.path),
      "MD5" := JStr(f.md5),
      "Executable" := JBool(f.executable),
      "Perms" := JInt(f.perms),
      "Sources" := JArr(SourceDocs(f.sources))])
  }

  function FileDocs(fs: seq<UpdateFile>): (r: seq<Json>)
    ensures |r| == |fs|
    ensures forall i :: 0 <= i < |fs| ==> r[i] == FileDoc(fs[i])
  {
    if fs == [] then [] else [FileDoc(fs[0])] + FileDocs(fs[1..])
  }

  /** What `Version.save` writes. */
  function VersionDoc(id: int, name: string, files: seq<UpdateFile>): Json {
    JObj(map["ApiVersion" := JInt(0), "Id" := JInt(id), "Name" := JStr(name), "Files" := JArr(FileDocs(files))])
  }

  /** `src['Url']` for every source. */
  function ParseSources(srcs: seq<Json>): (r: Result<seq<string>>)
    ensures r.Ok? ==> |r.value| == |srcs|
  {
    if srcs == [] then Ok([])
    else
      var url :- GetStr(srcs[0], "Url");
      var rest :- ParseSources(srcs[1..]);
      Ok([url] + rest)
  }

  /** One entry of 'Files', in the order `Version.load` reads its fields. */
  function ParseFile(j: Json): Result<UpdateFile> {
    var srcs :- GetArr(j, "Sources");
    var path :- GetStr(j, "Path");
    var executable :- GetBool(j, "Executable");
    var md5 :- GetStr(j, "MD5");
    var perms :- GetInt(j, "Perms");
    var sources :- ParseSources(srcs);
    Ok(UpdateFile(path, md5, perms, sources, executable))
  }

  /** The list `Version.load` builds from 'Files'; the first bad entry raises. */
  function ParseFiles(fs: seq<Json>): (r: Result<seq<UpdateFile>>)
    ensures r.Ok? ==> |r.value| == |fs|
  {
    if fs == [] then Ok([])
    else
      var f :- ParseFile(fs[0]);
      var rest :- ParseFiles(fs[1..]);
      Ok([f] + rest)
  }

  /** `Version.load`'s checks and file list: AssertionError unless ApiVersion is 0 and Id is the requested id. */
  function ParseVersionDoc(doc: Json, id: int): (r: Result<seq<UpdateFile>>)
    ensures r.Ok? ==> Get(doc, "ApiVersion").Ok? && PyEqualsInt(Get(doc, "ApiVersion").value, 0)
    ensures r.Ok? ==> Get(doc, "Id").Ok? && PyEqualsInt(Get(doc, "Id").value, id)
    ensures r.Ok? ==> GetArr(doc, "Files").Ok? && |r.value| == |GetArr(doc, "Files").value|
  {
    var api :- Get(doc, "ApiVersion");
    if !PyEqualsInt(api, 0) then Err(AssertionError("ApiVersion"))
    else
      var docId :- Get(doc, "Id");
      if !PyEqualsInt(docId, id) then Err(AssertionError("Id"))
      else
        var files :- GetArr(doc, "Files");
        ParseFiles(files)
  }

  lemma {:induction false} SourcesRoundTrip(urls: seq<string>)
    ensures ParseSources(SourceDocs(urls)) == Ok(urls)
  {
    if urls != [] {
      var docs := SourceDocs(urls);
      assert GetStr(docs[0], "Url") == Ok(urls[0]);
      SourcesRoundTrip(urls[1..]);
      assert docs[1..] == SourceDocs(urls[1..]);
      assert [urls[0]] + urls[1..] == urls;
    }
  }

  lemma FileRoundTrip(f: UpdateFile)
    ensures ParseFile(FileDoc(f)) == Ok(f)
  {
    SourcesRoundTrip(f.sources);
  }

  /** A list of entries that each parse parses to the list of what each parses to. */
  lemma {:induction false} ParseFilesEach(docs: seq<Json>, fs: seq<UpdateFile>)
    requires |docs| == |fs|
    requires forall i :: 0 <= i < |docs| ==> ParseFile(docs[i]) == Ok(fs[i])
    ensures ParseFiles(docs) == Ok(fs)
  {
    if docs != [] {
      assert ParseFile(docs[0]) == Ok(fs[0]);
      assert forall i :: 0 <= i < |docs| - 1 ==> docs[1..][i] == docs[i + 1] && fs[1..][i] == fs[i + 1];
      ParseFilesEach(docs[1..], fs[1..]);
      assert [fs[0]] + fs[1..] == fs;
    }
  }

  lemma FilesRoundTrip(fs: seq<UpdateFile>)
    ensures ParseFiles(FileDocs(fs)) == Ok(fs)
  {
    var docs := FileDocs(fs);
    forall i | 0 <= i < |docs| ensures ParseFile(docs[i]) == Ok(fs[i]) {
      FileRoundTrip(fs[i]);
    }
    ParseFilesEach(docs, fs);
  }

  /**
   * Saving a version and loading it back under its own id gives its files
   * back; loading it under any other id fails the Id assertion.
   */
  lemma VersionRoundTrip(id: int, name: string, files: seq<UpdateFile>, other: int)
    requires other != id
    ensures ParseVersionDoc(VersionDoc(id, name, files), id) == Ok(files)
    ensures ParseVersionDoc(VersionDoc(id, name, files), other) == Err(AssertionError("Id"))
  {
    FilesRoundTrip(files);
    VersionDocFields(id, name, files);
  }

  lemma VersionDocFields(id: int, name: string, files: seq<UpdateFile>)
    ensures Get(VersionDoc(id, name, files), "ApiVersion") == Ok(JInt(0))
    ensures Get(VersionDoc(id, name, files), "Id") == Ok(JInt(id))
    ensures GetArr(VersionDoc(id, name, files), "Files") == Ok(FileDocs(files))
  {
  }

  // ----- index.json -----

  function SummaryDoc(v: Summary): Json {
    JObj(map["Id" := JInt(v.id), "Name" := JStr(v.name)])
  }

  function SummaryDocs(vs: seq<Summary>): (r: seq<Json>)
    ensures |r| == |vs|
    ensures forall i :: 0 <= i < |vs| ==> r[i] == SummaryDoc(vs[i])
  {
    if vs == [] then [] else [SummaryDoc(vs[0])] + SummaryDocs(vs[1..])
  }

  /** What `save_index` writes: the summaries in list order, an unused empty 'Channels', ApiVersion 0. */
  function IndexDoc(vs: seq<Summary>): Json {
    JObj(map["Versions" := JArr(SummaryDocs(vs)), "Channels" := JArr([]), "ApiVersion" := JInt(0)])
  }

  function ParseSummary(j: Json): Result<Summary> {
    var id :- GetInt(j, "Id");
    var name :- GetStr(j, "Name");
    Ok(Summary(id, name))
  }

  function ParseSummaries(js: seq<Json>): (r: Result<seq<Summary>>)
    ensures r.Ok? ==> |r.value| == |js|
  {
    if js == [] then Ok([])
    else
      var v :- ParseSummary(js[0]);
      var rest :- ParseSummaries(js[1..]);
      Ok([v] + rest)
  }

  /** `Channel.load`'s reading of `index.json`: None when ApiVersion is not 0. */
  function ParseIndex(idx: Json): (r: Result<Option<seq<Summary>>>)
    ensures r.Ok? ==> Get(idx, "ApiVersion").Ok?
    ensures r.Ok? ==> (r.value.Some? <==> PyEqualsInt(Get(idx, "ApiVersion").value, 0))
    ensures r.Ok? && r.value.Some? ==> GetArr(idx, "Versions").Ok? && |r.value.value| == |GetArr(idx, "Versions").value|
  {
    var api :- Get(idx, "ApiVersion");
    if !PyEqualsInt(api, 0) then Ok(None)
    else
      var vs :- GetArr(idx, "Versions");
      var summaries :- ParseSummaries(vs);
      Ok(Some(summaries))
  }

  lemma {:induction false} SummariesRoundTrip(vs: seq<Summary>)
    ensures ParseSummaries(SummaryDocs(vs)) == Ok(vs)
  {
    if vs != [] {
      var docs := SummaryDocs(vs);
      assert ParseSummary(docs[0]) == Ok(vs[0]);
      SummariesRoundTrip(vs[1..]);
      assert docs[1..] == SummaryDocs(vs[1..]);
      assert [vs[0]] + vs[1..] == vs;
    }
  }

  /** Reading back what `save_index` wrote gives the same summaries in the same order. */
  lemma IndexRoundTrip(vs: seq<Summary>)
    ensures ParseIndex(IndexDoc(vs)) == Ok(Some(vs))
  {
    SummariesRoundTrip(vs);
  }

  // ----- channels.json -----

  /** `Channel.todict`. */
  function ChannelEntry(c: ChannelInfo): Json {
    JObj(map["id" := JStr(c.id), "name" := JStr(c.name), "description" := JStr(c.desc), "url" := JStr(c.url)])
  }

  function ChannelEntries(cs: seq<ChannelInfo>): (r: seq<Json>)
    ensures |r| == |cs|
    ensures forall i :: 0 <= i < |cs| ==> r[i] == ChannelEntry(cs[i])
  {
    if cs == [] then [] else [ChannelEntry(cs[0])] + ChannelEntries(cs[1..])
  }

  /** What `Platform.save` writes: format_version 0 and the channels' entries in order. */
  function ChannelsDoc(cs: seq<ChannelInfo>): Json {
    JObj(map["format_version" := JInt(0), "channels" := JArr(ChannelEntries(cs))])
  }

  /** The fields `Channel.load` reads from its entry, in order. */
  function ParseChannelEntry(obj: Json): (r: Result<ChannelInfo>)
    ensures r.Ok? <==> GetStr(obj, "id").Ok? && GetStr(obj, "name").Ok? && GetStr(obj, "description").Ok? && GetStr(obj, "url").Ok?
    ensures r.Ok? ==> r.value == ChannelInfo(GetStr(obj, "id").value, GetStr(obj, "name").value,
                                             GetStr(obj, "description").value, GetStr(obj, "url").value)
  {
    var id :- GetStr(obj, "id");
    var name :- GetStr(obj, "name");
    var desc :- GetStr(obj, "description");
    var url :- GetStr(obj, "url");
    Ok(ChannelInfo(id, name, desc, url))
  }

  lemma ChannelEntryRoundTrip(c: ChannelInfo)
    ensures ParseChannelEntry(ChannelEntry(c)) == Ok(c)
  {
  }

  // ----- config.json -----

  /** What `Collection.save` writes. */
  function ConfigDoc(baseUrl: string, storageUrl: string, storagePath: string): Json {
    JObj(map["base_url" := JStr(baseUrl), "storage_url" := JStr(storageUrl), "storage_path" := JStr(storagePath)])
  }

  /** The three settings `Collection.load` reads, in order. */
  function ParseConfig(obj: Json): (r: Result<(string, string, string)>)
    ensures r.Ok? <==> GetStr(obj, "base_url").Ok? && GetStr(obj, "storage_url").Ok? && GetStr(obj, "storage_path").Ok?
    ensures r.Ok? ==> r.value == (GetStr(obj, "base_url").value, GetStr(obj, "storage_url").value, GetStr(obj, "storage_path").value)
  {
    var baseUrl :- GetStr(obj, "base_url");
    var storageUrl :- GetStr(obj, "storage_url");
    var storagePath :- GetStr(obj, "storage_path");
    Ok((baseUrl, storageUrl, storagePath))
  }

  /** The settings `Collection.save` writes load back unchanged. */
  lemma ConfigRoundTrip(baseUrl: string, storageUrl: string, storagePath: string)
    ensures ParseConfig(ConfigDoc(baseUrl, storageUrl, storagePath)) == Ok((baseUrl, storageUrl, storagePath))
  {
    var m := map["base_url" := JStr(baseUrl), "storage_url" := JStr(storageUrl), "storage_path" := JStr(storagePath)];
    assert m["base_url"] == JStr(baseUrl);
    assert m["storage_url"] == JStr(storageUrl);
    assert m["storage_path"] == JStr(storagePath);
  }

  /** A version document and the channel index never share a path: `<id>.json` starts with a digit or '-'. */
  lemma VersionPathIsNotIndexPath(chanDir: string, id: int)
    ensures VersionPath(chanDir, id) != IndexPath(chanDir)
  {
    var digits := NatToString(if id < 0 then -id else id);
    NatToStringStartsWithDigit(if id < 0 then -id else id);
    var s := IntToString(id) + ".json";
    assert s[0] == (if id < 0 then '-' else digits[0]);
    assert "index.json"[0] == 'i';
    JoinInjective(chanDir, s, "index.json");
  }

  // ----- what loading yields, as functions of the stored documents -----

  /** `Collection.load(backend, path)`: base URL, storage URL and storage path of `config.json`. */
  function LoadConfigSpec(docs: map<string, Json>, colPath: string): Result<(string, string, string)> {
    var obj :- ReadDoc(docs, ConfigPath(colPath));
    ParseConfig(obj)
  }

  /** `Version.load(backend, chan_dir, id, _)`: the files of the version document. */
  function LoadVersionSpec(docs: map<string, Json>, chanDir: string, id: int): (r: Result<seq<UpdateFile>>)
    ensures VersionPath(chanDir, id) !in docs ==> r == Err(IOError(VersionPath(chanDir, id)))
    ensures VersionPath(chanDir, id) in docs ==> r == ParseVersionDoc(docs[VersionPath(chanDir, id)], id)
  {
    var doc :- ReadDoc(docs, VersionPath(chanDir, id));
    ParseVersionDoc(doc, id)
  }

  /** `Channel.load(backend, plat_path, obj)`: None when the index's ApiVersion is not 0. */
  function LoadChannelSpec(docs: map<string, Json>, platPath: string, obj: Json): (r: Result<Option<ChannelState>>)
    ensures r.Ok? ==> ParseChannelEntry(obj).Ok? && IndexPath(Join(platPath, ParseChannelEntry(obj).value.id)) in docs
    ensures r.Ok? && r.value.Some? ==> r.value.value.info == ParseChannelEntry(obj).value
    ensures r.Ok? && r.value.Some? ==> r.value.value.path == Join(platPath, r.value.value.info.id)
    ensures ParseChannelEntry(obj).Ok? && IndexPath(Join(platPath, ParseChannelEntry(obj).value.id)) !in docs
      ==> r == Err(IOError(IndexPath(Join(platPath, ParseChannelEntry(obj).value.id))))
  {
    var info :- ParseChannelEntry(obj);
    var path := Join(platPath, info.id);
    var idx :- ReadDoc(docs, IndexPath(path));
    var vs :- ParseIndex(idx);
    Ok(if vs.Some? then Some(ChannelState(info, path, vs.value)) else None)
  }

  /**
   * The channel list of `Platform.load`: a channel whose load raises is
   * skipped, but reporting it reads `chan_obj['id']`, which can raise in turn.
   */
  function LoadChannelsSpec(docs: map<string, Json>, platPath: string, objs: seq<Json>): (r: Result<seq<Option<ChannelState>>>)
    ensures r.Ok? ==> |r.value| <= |objs|
  {
    if objs == [] then Ok([])
    else
      var here :- (match LoadChannelSpec(docs, platPath, objs[0])
                   case Ok(c) => Ok([c])
                   case Err(_) => var _ :- Get(objs[0], "id"); Ok([]));
      var rest :- LoadChannelsSpec(docs, platPath, objs[1..]);
      Ok(here + rest)
  }

  /**
   * `Platform.load(col, name)`: raising the string 'Format version mismatch.'
   * is itself a TypeError in Python 3.
   */
  function LoadPlatformSpec(docs: map<string, Json>, colPath: string, name: string): (r: Result<seq<Option<ChannelState>>>)
    ensures ChannelsPath(Join(colPath, name)) !in docs ==> r == Err(IOError(ChannelsPath(Join(colPath, name))))
    ensures r.Ok? ==> ChannelsPath(Join(colPath, name)) in docs
    ensures r.Ok? ==> (var objs := GetArr(docs[ChannelsPath(Join(colPath, name))], "channels");
                       objs.Ok? && |r.value| <= |objs.value|)
  {
    var path := Join(colPath, name);
    var obj :- ReadDoc(docs, ChannelsPath(path));
    var fv :- Get(obj, "format_version");
    if !PyEqualsInt(fv, 0) then Err(TypeError("exceptions must derive from BaseException"))
    else
      var objs :- GetArr(obj, "channels");
      LoadChannelsSpec(docs, path, objs)
  }

  /** The entries `Platform.save` writes load back as the same channels, given their index documents. */
  lemma {:induction false} ChannelsRoundTrip(docs: map<string, Json>, platPath: string, cs: seq<ChannelState>)
    requires forall i :: 0 <= i < |cs| ==> cs[i].path == Join(platPath, cs[i].info.id)
    requires forall i :: 0 <= i < |cs| ==> IndexPath(cs[i].path) in docs && docs[IndexPath(cs[i].path)] == IndexDoc(cs[i].versions)
    ensures LoadChannelsSpec(docs, platPath, ChannelEntries(InfosOf(cs))) == Ok(SomeAll(cs))
  {
    if cs != [] {
      var objs := ChannelEntries(InfosOf(cs));
      ChannelEntryRoundTrip(cs[0].info);
      IndexRoundTrip(cs[0].versions);
      assert objs[0] == ChannelEntry(cs[0].info);
      assert LoadChannelSpec(docs, platPath, objs[0]) == Ok(Some(cs[0]));
      assert objs[1..] == ChannelEntries(InfosOf(cs[1..]));
      ChannelsRoundTrip(docs, platPath, cs[1..]);
      assert SomeAll(cs) == [Some(cs[0])] + SomeAll(cs[1..]);
    }
  }

  function InfosOf(cs: seq<ChannelState>): (r: seq<ChannelInfo>)
    ensures |r| == |cs|
    ensures forall i :: 0 <= i < |cs| ==> r[i] == cs[i].info
  {
    if cs == [] then [] else [cs[0].info] + InfosOf(cs[1..])
  }

  function SomeAll(cs: seq<ChannelState>): (r: seq<Option<ChannelState>>)
    ensures |r| == |cs|
    ensures forall i :: 0 <= i < |cs| ==> r[i] == Some(cs[i])
  {
    if cs == [] then [] else [Some(cs[0])] + SomeAll(cs[1..])
  }

  /** A saved platform whose channels' indexes are in place loads back with the same channels in order. */
  lemma {:induction false} PlatformRoundTrip(docs: map<string, Json>, colPath: string, name: string, cs: seq<ChannelState>)
    requires ChannelsPath(Join(colPath, name)) in docs
    requires docs[ChannelsPath(Join(colPath, name))] == ChannelsDoc(InfosOf(cs))
    requires forall i :: 0 <= i < |cs| ==> cs[i].path == Join(Join(colPath, name), cs[i].info.id)
    requires forall i :: 0 <= i < |cs| ==> IndexPath(cs[i].path) in docs && docs[IndexPath(cs[i].path)] == IndexDoc(cs[i].versions)
    ensures LoadPlatformSpec(docs, colPath, name) == Ok(SomeAll(cs))
  {
    var path := Join(colPath, name);
    var objs := ChannelEntries(InfosOf(cs));
    ChannelsDocFields(InfosOf(cs));
    LoadPlatformOf(docs, colPath, name, ChannelsDoc(InfosOf(cs)), objs);
    ChannelsRoundTrip(docs, path, cs);
  }

  lemma ChannelsDocFields(cs: seq<ChannelInfo>)
    ensures Get(ChannelsDoc(cs), "format_version") == Ok(JInt(0))
    ensures GetArr(ChannelsDoc(cs), "channels") == Ok(ChannelEntries(cs))
  {
  }

  /** `Platform.load` past its format check is the channel list of its entries. */
  lemma LoadPlatformOf(docs: map<string, Json>, colPath: string, name: string, obj: Json, objs: seq<Json>)
    requires ReadDoc(docs, ChannelsPath(Join(colPath, name))) == Ok(obj)
    requires Get(obj, "format_version") == Ok(JInt(0)) && GetArr(obj, "channels") == Ok(objs)
    ensures LoadPlatformSpec(docs, colPath, name) == LoadChannelsSpec(docs, Join(colPath, name), objs)
  {
  }
}

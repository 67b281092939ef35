/**
 * The two upper levels of the metadata tree (repoman/repo.py): a Platform
 * is a directory of a collection with an ordered list of channels in
 * `channels.json`; a Collection is the directory with `config.json`, its
 * file storage, and the platforms it has looked up or created so far.
 * Channels whose index has an unsupported ApiVersion stay in a platform's
 * list as null, as they do in the source.
 */
module Collections {
  import opened Wrappers
  import opened Paths
  import opened Json
  import opened Seqs
  import opened Backends
  import opened Storage
  import opened Documents
  import opened Repo

  // ----- what a platform's channel list holds -----

  /** The state of each channel slot; None for a null slot. */
  function StatesOf(cs: seq<Channel?>): (r: seq<Option<ChannelState>>)
    reads (set c: Channel | c in cs)`url, (set c: Channel | c in cs)`versions
    ensures |r| == |cs|
    ensures forall i :: 0 <= i < |cs| ==> (r[i].None? <==> cs[i] == null)
    ensures forall i :: 0 <= i < |cs| && cs[i] != null ==> r[i] == Some(cs[i].State())
  {
    if cs == [] then [] else [if cs[0] == null then None else Some(cs[0].State())] + StatesOf(cs[1..])
  }

  lemma StatesOfConcat(cs: seq<Channel?>, ds: seq<Channel?>)
    ensures StatesOf(cs + ds) == StatesOf(cs) + StatesOf(ds)
  {
    assert forall i :: 0 <= i < |cs| ==> (cs + ds)[i] == cs[i];
    assert forall i :: 0 <= i < |ds| ==> (cs + ds)[|cs| + i] == ds[i];
  }

  /** The id of each channel slot; None for a null slot. */
  function IdsOf(cs: seq<Channel?>): (r: seq<Option<string>>)
    ensures |r| == |cs|
    ensures forall i :: 0 <= i < |cs| ==> r[i] == if cs[i] == null then None else Some(cs[i].id)
  {
    if cs == [] then [] else [if cs[0] == null then None else Some(cs[0].id)] + IdsOf(cs[1..])
  }

  /** The entries `[chan.todict() for chan in channels]` describes; None when a slot is null. */
  function LiveInfos(ss: seq<Option<ChannelState>>): (r: Option<seq<ChannelInfo>>)
    ensures r.Some? <==> None !in ss
    ensures r.Some? ==> |r.value| == |ss| && forall i :: 0 <= i < |ss| ==> r.value[i] == ss[i].value.info
  {
    if ss == [] then Some([])
    else if ss[0].None? then None
    else
      var rest := LiveInfos(ss[1..]);
      if rest.None? then
        assert None in ss[1..];
        None
      else
        assert forall i :: 1 <= i < |ss| ==> ss[i] == ss[1..][i - 1];
        Some([ss[0].value.info] + rest.value)
  }

  /** The channel states of a list without null slots. */
  function Unwrap(ss: seq<Option<ChannelState>>): (r: seq<ChannelState>)
    requires None !in ss
    ensures |r| == |ss| && forall i :: 0 <= i < |ss| ==> ss[i] == Some(r[i])
  {
    if ss == [] then [] else [ss[0].value] + Unwrap(ss[1..])
  }

  /** Without nulls, unwrapping loses nothing: the states and the entries `save` writes for them. */
  lemma UnwrapInverts(ss: seq<Option<ChannelState>>)
    requires None !in ss
    ensures SomeAll(Unwrap(ss)) == ss
    ensures InfosOf(Unwrap(ss)) == LiveInfos(ss).value
  {
  }

  /** What holds of every state in `ss` holds of every unwrapped state: here, the layout `Platform.load` expects. */
  lemma UnwrapKeepsLayout(docs: map<string, Json>, platPath: string, ss: seq<Option<ChannelState>>)
    requires None !in ss
    requires forall i :: 0 <= i < |ss| ==> ss[i].value.path == Join(platPath, ss[i].value.info.id)
    requires forall i :: 0 <= i < |ss| ==>
      IndexPath(ss[i].value.path) in docs && docs[IndexPath(ss[i].value.path)] == IndexDoc(ss[i].value.versions)
    ensures forall i :: 0 <= i < |Unwrap(ss)| ==> Unwrap(ss)[i].path == Join(platPath, Unwrap(ss)[i].info.id)
    ensures forall i :: 0 <= i < |Unwrap(ss)| ==>
      IndexPath(Unwrap(ss)[i].path) in docs && docs[IndexPath(Unwrap(ss)[i].path)] == IndexDoc(Unwrap(ss)[i].versions)
  {
  }

  /**
   * `Platform.save` then `Platform.load` gives back the channel list, given
   * that each channel lives at `<platform>/<id>` and its index is in place.
   */
  lemma PlatformSaveLoads(docs: map<string, Json>, colPath: string, name: string, ss: seq<Option<ChannelState>>)
    requires None !in ss
    requires forall i :: 0 <= i < |ss| ==> ss[i].value.path == Join(Join(colPath, name), ss[i].value.info.id)
    requires forall i :: 0 <= i < |ss| ==>
      IndexPath(ss[i].value.path) in docs && docs[IndexPath(ss[i].value.path)] == IndexDoc(ss[i].value.versions)
    requires ChannelsPath(Join(colPath, name)) in docs
    requires docs[ChannelsPath(Join(colPath, name))] == ChannelsDoc(LiveInfos(ss).value)
    ensures LoadPlatformSpec(docs, colPath, name) == Ok(ss)
  {
    UnwrapInverts(ss);
    UnwrapKeepsLayout(docs, Join(colPath, name), ss);
    PlatformRoundTrip(docs, colPath, name, Unwrap(ss));
  }

  /**
   * The entry `objs[i]` contributes its channel (or its null) when the
   * channel loads, nothing when it does not but its id can be reported,
   * and the error of reading that id otherwise.
   */
  lemma LoadStepAt(docs: map<string, Json>, platPath: string, objs: seq<Json>, i: nat)
    requires i < |objs|
    ensures LoadChannelSpec(docs, platPath, objs[i]).Ok? ==>
      LoadChannelsSpec(docs, platPath, objs[i..])
        == Prepend([LoadChannelSpec(docs, platPath, objs[i]).value], LoadChannelsSpec(docs, platPath, objs[i + 1..]))
    ensures LoadChannelSpec(docs, platPath, objs[i]).Err? && Get(objs[i], "id").Ok? ==>
      LoadChannelsSpec(docs, platPath, objs[i..]) == LoadChannelsSpec(docs, platPath, objs[i + 1..])
    ensures LoadChannelSpec(docs, platPath, objs[i]).Err? && Get(objs[i], "id").Err? ==>
      LoadChannelsSpec(docs, platPath, objs[i..]) == Err(Get(objs[i], "id").error)
  {
    assert objs[i..][0] == objs[i];
    assert objs[i..][1..] == objs[i + 1..];
    var rest := LoadChannelsSpec(docs, platPath, objs[i + 1..]);
    if rest.Ok? {
      assert [] + rest.value == rest.value;
    }
  }

  /** No channel object fills two slots. */
  ghost predicate SlotsDistinct(cs: seq<Channel?>) {
    forall j, k :: 0 <= j < k < |cs| && cs[j] != null ==> cs[j] != cs[k]
  }

  lemma SlotsDistinctAppend(cs: seq<Channel?>, c: Channel?)
    requires SlotsDistinct(cs) && (c != null ==> c !in cs)
    ensures SlotsDistinct(cs + [c])
  {
  }

  /**
   * One turn of `Platform.load`'s loop: `Channel.load` the entry `objs[i]`;
   * when that raises, report the entry's id and go on.
   */
  method LoadEntry(b: Backend, path: string, objs: seq<Json>, i: nat, ghost prior: seq<Channel?>) returns (r: Result<seq<Channel?>>)
    requires i < |objs|
    ensures r.Err? ==> LoadChannelsSpec(b.docs, path, objs[i..]) == Err(r.error)
    ensures r.Ok? ==>
      && LoadChannelsSpec(b.docs, path, objs[i..]) == Prepend(StatesOf(r.value), LoadChannelsSpec(b.docs, path, objs[i + 1..]))
      && (SlotsDistinct(prior) ==> SlotsDistinct(prior + r.value))
      && forall c :: c in r.value && c != null ==> fresh(c) && c.backend == b && c.loadedVsns == map[]
  {
    LoadStepAt(b.docs, path, objs, i);
    var c := Channel.Load(b, path, objs[i]);
    if c.Ok? {
      assert StatesOf([c.value]) == [LoadChannelSpec(b.docs, path, objs[i]).value];
      if SlotsDistinct(prior) {
        SlotsDistinctAppend(prior, c.value);
      }
      return Ok([c.value]);
    }
    var reported :- Get(objs[i], "id");
    assert StatesOf([]) == [];
    assert prior + [] == prior;
    return Ok([]);
  }

  /** The loop of `Platform.load` over the entries of `channels.json`. */
  method LoadChannels(b: Backend, path: string, objs: seq<Json>) returns (r: Result<seq<Channel?>>)
    ensures r.Ok? <==> LoadChannelsSpec(b.docs, path, objs).Ok?
    ensures r.Err? ==> r.error == LoadChannelsSpec(b.docs, path, objs).error
    ensures r.Ok? ==>
      && StatesOf(r.value) == LoadChannelsSpec(b.docs, path, objs).value
      && (forall c :: c in r.value && c != null ==> fresh(c) && c.backend == b && c.loadedVsns == map[])
      && SlotsDistinct(r.value)
  {
    var chans: seq<Channel?> := [];
    ghost var ss: seq<Option<ChannelState>> := [];
    ghost var docs := b.docs;
    ghost var spec := LoadChannelsSpec(docs, path, objs);
    var i := 0;
    assert objs[0..] == objs;
    PrependNil(spec);
    while i < |objs|
      invariant i <= |objs| && b.docs == docs
      invariant ss == StatesOf(chans)
      invariant spec == Prepend(ss, LoadChannelsSpec(docs, path, objs[i..]))
      invariant forall c :: c in chans && c != null ==> fresh(c) && c.backend == b && c.loadedVsns == map[]
      invariant SlotsDistinct(chans)
    {
      var here :- LoadEntry(b, path, objs, i, chans);
      PrependPrepend(ss, StatesOf(here), LoadChannelsSpec(docs, path, objs[i + 1..]));
      StatesOfConcat(chans, here);
      chans := chans + here;
      ss := ss + StatesOf(here);
      i := i + 1;
    }
    assert ss + [] == ss;
    r := Ok(chans);
  }

  /** Where `get_channel(id)`'s scan stops: the first slot with the id, the first null slot, or neither. */
  datatype ChannelSearch = FoundAt(k: nat) | NullAt(k: nat) | NotFound

  function FindChannel(ids: seq<Option<string>>, cid: string): (r: ChannelSearch)
    ensures r.FoundAt? ==> r.k < |ids| && ids[r.k] == Some(cid)
    ensures r.NullAt? ==> r.k < |ids| && ids[r.k] == None
    ensures r.FoundAt? || r.NullAt? ==> forall j :: 0 <= j < r.k ==> ids[j].Some? && ids[j].value != cid
    ensures r.NotFound? <==> forall j :: 0 <= j < |ids| ==> ids[j].Some? && ids[j].value != cid
  {
    if ids == [] then NotFound
    else if ids[0] == None then NullAt(0)
    else if ids[0].value == cid then FoundAt(0)
    else
      var r := FindChannel(ids[1..], cid);
      assert forall j :: 1 <= j < |ids| ==> ids[j] == ids[1..][j - 1];
      match r
      case FoundAt(k) => FoundAt(k + 1)
      case NullAt(k) => NullAt(k + 1)
      case NotFound => NotFound
  }

  /** A scan that runs off the end met no null slot. */
  lemma NotFoundMeansNoNull(cs: seq<Channel?>, cid: string)
    requires FindChannel(IdsOf(cs), cid) == NotFound
    ensures null !in cs
  {
    forall j | 0 <= j < |cs| ensures cs[j] != null {
      assert IdsOf(cs)[j].Some?;
    }
  }

  /** The scan stops at the first slot that is null or carries the id. */
  lemma FindChannelAt(ids: seq<Option<string>>, cid: string, i: nat)
    requires i < |ids|
    requires forall j :: 0 <= j < i ==> ids[j].Some? && ids[j].value != cid
    ensures ids[i] == None ==> FindChannel(ids, cid) == NullAt(i)
    ensures ids[i] == Some(cid) ==> FindChannel(ids, cid) == FoundAt(i)
  {
  }

  /** The state of a channel `new_channel` creates: name defaults to the id, empty version list. */
  function NewChannelState(colUrl: string, platName: string, platPath: string,
                           cid: string, cname: Option<string>, cdesc: string): (s: ChannelState)
    ensures s.versions == [] && s.path == Join(platPath, s.info.id)
    ensures s.info.id == cid && s.info.desc == cdesc
    ensures cname.None? ==> s.info.name == cid
    ensures cname.Some? ==> s.info.name == cname.value
    ensures s.info.url == colUrl + platName + "/" + cid + "/"
  {
    var name := if cname.None? then cid else cname.value;
    ChannelState(ChannelInfo(cid, name, cdesc, colUrl + platName + "/" + cid + "/"), Join(platPath, cid), [])
  }

  const NoneTodict := AttributeError("'NoneType' object has no attribute 'todict'")
  const NoneId := AttributeError("'NoneType' object has no attribute 'id'")

  class Platform {
    const collection: Collection
    const backend: Backend
    const path: string
    const name: string
    var channels: seq<Channel?>

    constructor (col: Collection, name: string, channels: seq<Channel?>)
      ensures collection == col && backend == col.backend && path == Join(col.path, name)
      ensures this.name == name && this.channels == channels
    {
      collection := col;
      backend := col.backend;
      path := Join(col.path, name);
      this.name := name;
      this.channels := channels;
    }

    /**
     * `Platform.load(col, name)`: `channels.json` of `<col>/<name>`, then
     * each entry's channel in order; an entry whose channel fails to load
     * is left out.
     */
    static method Load(col: Collection, name: string) returns (r: Result<Platform>)
      ensures r.Ok? <==> LoadPlatformSpec(col.backend.docs, col.path, name).Ok?
      ensures r.Err? ==> r.error == LoadPlatformSpec(col.backend.docs, col.path, name).error
      ensures r.Ok? ==>
        && fresh(r.value) && r.value.collection == col && r.value.name == name
        && r.value.backend == col.backend && r.value.path == Join(col.path, name)
        && StatesOf(r.value.channels) == LoadPlatformSpec(col.backend.docs, col.path, name).value
        && (forall c :: c in r.value.channels && c != null ==> fresh(c) && c.backend == col.backend && c.loadedVsns == map[])
        && SlotsDistinct(r.value.channels)
    {
      var b := col.backend;
      var path := Join(col.path, name);
      var obj :- b.ReadJson(ChannelsPath(path));
      var fv :- Get(obj, "format_version");
      if !PyEqualsInt(fv, 0) {
        return Err(TypeError("exceptions must derive from BaseException"));
      }
      var objs :- GetArr(obj, "channels");
      var chans :- LoadChannels(b, path, objs);
      var p := new Platform(col, name, chans);
      r := Ok(p);
    }

    /**
     * `Platform.save`: format_version 0 and every channel's `todict` in
     * order to `channels.json`; a null slot raises before anything is written.
     */
    method Save() returns (r: Outcome)
      modifies backend`docs, backend`log
      ensures r.Pass? <==> null !in channels
      ensures StatesOf(channels) == old(StatesOf(channels))
      ensures r.Fail? ==> r == Fail(NoneTodict) && backend.docs == old(backend.docs) && backend.log == old(backend.log)
      ensures r.Pass? ==>
        && LiveInfos(StatesOf(channels)).Some?
        && backend.docs == old(backend.docs)[ChannelsPath(path) := ChannelsDoc(LiveInfos(StatesOf(channels)).value)]
        && backend.log == old(backend.log) + [Wrote(ChannelsPath(path))]
    {
      var infos := LiveInfos(StatesOf(channels));
      if infos.None? {
        return Fail(NoneTodict);
      }
      backend.WriteJson(ChannelsDoc(infos.value), ChannelsPath(path));
      return Pass;
    }

    /**
     * `new_channel(id, name, desc)`: appends a channel with the default name,
     * URL and path and no versions, then saves `channels.json`; the channel
     * stays appended when saving raises.
     */
    method NewChannel(cid: string, cname: Option<string>, cdesc: string) returns (r: Result<Channel>)
      modifies this`channels, backend`docs, backend`log
      ensures |channels| == |old(channels)| + 1 && channels == old(channels) + [channels[|old(channels)|]]
      ensures var c := channels[|old(channels)|];
        && c != null && fresh(c) && c.backend == backend && c.loadedVsns == map[]
        && c.State() == NewChannelState(collection.url, name, path, cid, cname, cdesc)
        && (r.Ok? ==> r.value == c)
      ensures r.Ok? <==> null !in old(channels)
      ensures r.Err? ==> r.error == NoneTodict && backend.docs == old(backend.docs) && backend.log == old(backend.log)
      ensures r.Ok? ==>
        && LiveInfos(StatesOf(channels)).Some?
        && backend.docs == old(backend.docs)[ChannelsPath(path) := ChannelsDoc(LiveInfos(StatesOf(channels)).value)]
        && backend.log == old(backend.log) + [Wrote(ChannelsPath(path))]
    {
      var chanName := if cname.None? then cid else cname.value;
      var chanUrl := collection.url + name + "/" + cid + "/";
      var chanPath := Join(path, cid);
      var c := new Channel(backend, cid, chanName, cdesc, chanUrl, chanPath, []);
      channels := channels + [c];
      var saved := Save();
      if saved.Fail? {
        return Err(saved.error);
      }
      r := Ok(c);
    }

    /** The scan of `get_channel`: the first slot that is null or carries the id. */
    method ScanChannels(cid: string) returns (s: ChannelSearch)
      ensures s == FindChannel(IdsOf(channels), cid)
    {
      ghost var ids := IdsOf(channels);
      var i := 0;
      while i < |channels|
        invariant i <= |channels|
        invariant forall j :: 0 <= j < i ==> ids[j].Some? && ids[j].value != cid
      {
        FindChannelAt(ids, cid, i);
        if channels[i] == null {
          return NullAt(i);
        }
        if channels[i].id == cid {
          return FoundAt(i);
        }
        i := i + 1;
      }
      return NotFound;
    }

    /**
     * `get_channel(id)`: the first channel with the id, unchanged list and
     * no write; when no channel has it, `new_channel(id)`. A null slot met
     * before that raises.
     */
    method GetChannel(cid: string) returns (r: Result<Channel>)
      modifies this`channels, backend`docs, backend`log
      ensures var s := FindChannel(IdsOf(old(channels)), cid);
        && (s.FoundAt? ==> r == Ok(old(channels)[s.k]))
        && (s.NullAt? ==> r == Err(NoneId))
        && (!s.NotFound? ==>
              channels == old(channels) && backend.docs == old(backend.docs) && backend.log == old(backend.log))
        && (s.NotFound? ==>
              && r.Ok? && fresh(r.value) && channels == old(channels) + [r.value]
              && r.value.backend == backend && r.value.loadedVsns == map[]
              && r.value.State() == NewChannelState(collection.url, name, path, cid, None, "")
              && LiveInfos(StatesOf(channels)).Some?
              && backend.docs == old(backend.docs)[ChannelsPath(path) := ChannelsDoc(LiveInfos(StatesOf(channels)).value)]
              && backend.log == old(backend.log) + [Wrote(ChannelsPath(path))])
    {
      var s := ScanChannels(cid);
      match s
      case FoundAt(k) =>
        r := Ok(channels[k]);
      case NullAt(_) =>
        r := Err(NoneId);
      case NotFound =>
        NotFoundMeansNoNull(channels, cid);
        r := NewChannel(cid, None, "");
    }
  }

  // ----- the collection -----

  /** What `get_platform(name)` returns: the platform, the name itself (a hit), or None. */
  datatype PlatformLookup = Found(p: Platform) | NameOnly(name: string) | NoPlatform

  /** `get_platform` over documents: a known name, a platform that does not load (IOError), or the loaded channels. */
  datatype LookupView = HitName(name: string) | Missing | Loaded(chans: seq<Option<ChannelState>>)

  /**
   * What `get_platform(name)` yields when the cache has the keys `known`:
   * a known name is returned as is; otherwise the platform is loaded, an
   * IOError turning into None and other errors propagating.
   */
  function LookupSpec(docs: map<string, Json>, colPath: string, known: set<string>, name: string): (r: Result<LookupView>)
  {
    if name in known then Ok(HitName(name))
    else match LoadPlatformSpec(docs, colPath, name)
      case Ok(chans) => Ok(Loaded(chans))
      case Err(e) => if e.IOError? then Ok(Missing) else Err(e)
  }

  /**
   * A lookup fails only with the loader's own non-IOError; it is Missing
   * exactly when loading raises an IOError, which a missing `channels.json`
   * does; a known name is never loaded again.
   */
  lemma LookupCases(docs: map<string, Json>, colPath: string, known: set<string>, name: string)
    ensures name in known ==> LookupSpec(docs, colPath, known, name) == Ok(HitName(name))
    ensures LookupSpec(docs, colPath, known, name).Err? ==> name !in known
    ensures LookupSpec(docs, colPath, known, name).Err? ==> LoadPlatformSpec(docs, colPath, name) == Err(LookupSpec(docs, colPath, known, name).error)
    ensures LookupSpec(docs, colPath, known, name).Err? ==> !LookupSpec(docs, colPath, known, name).error.IOError?
    ensures LookupSpec(docs, colPath, known, name) == Ok(Missing)
      <==> name !in known && LoadPlatformSpec(docs, colPath, name).Err? && LoadPlatformSpec(docs, colPath, name).error.IOError?
    ensures name !in known && ChannelsPath(Join(colPath, name)) !in docs ==> LookupSpec(docs, colPath, known, name) == Ok(Missing)
  {
  }

  /** The cache keys after a lookup: a loaded platform is stored under the literal key "name". */
  function KnownAfter(known: set<string>, v: LookupView): set<string> {
    if v.Loaded? then known + {"name"} else known
  }

  /**
   * As written, a loaded platform is cached under "name" and not under its
   * own name, so looking it up again loads it again, and the key "name"
   * then answers with a string.
   */
  lemma LookupQuirks(docs: map<string, Json>, colPath: string, name: string, chans: seq<Option<ChannelState>>)
    requires name != "name"
    requires LookupSpec(docs, colPath, {}, name) == Ok(Loaded(chans))
    ensures name !in KnownAfter({}, Loaded(chans))
    ensures LookupSpec(docs, colPath, KnownAfter({}, Loaded(chans)), name) == Ok(Loaded(chans))
    ensures LookupSpec(docs, colPath, KnownAfter({}, Loaded(chans)), "name") == Ok(HitName("name"))
  {
  }

  /**
   * `get_platform(name)` as evidently intended: the cache maps names to
   * platforms, a cached platform comes back as itself, and a loaded one is
   * cached under its own name. None stands for a platform that does not load
   * with an IOError.
   */
  function LookupFixed(docs: map<string, Json>, colPath: string, cache: map<string, seq<Option<ChannelState>>>,
                       name: string): Result<Option<seq<Option<ChannelState>>>>
  {
    if name in cache then Ok(Some(cache[name]))
    else match LoadPlatformSpec(docs, colPath, name)
      case Ok(chans) => Ok(Some(chans))
      case Err(e) => if e.IOError? then Ok(None) else Err(e)
  }

  /** The cache after a corrected lookup: a freshly loaded platform is kept under its own name. */
  function CacheAfterFixed(cache: map<string, seq<Option<ChannelState>>>, name: string,
                           r: Result<Option<seq<Option<ChannelState>>>>): map<string, seq<Option<ChannelState>>>
  {
    if r.Ok? && r.value.Some? then cache[name := r.value.value] else cache
  }

  /**
   * A corrected lookup that finds a platform finds the same platform again,
   * whatever the documents say by then. Before the first load it answers as
   * the source does for a name not yet cached.
   */
  lemma FixedLookupIsStable(docs: map<string, Json>, docs': map<string, Json>, colPath: string,
                            cache: map<string, seq<Option<ChannelState>>>, name: string, known: set<string>)
    requires name !in known
    ensures var r := LookupFixed(docs, colPath, cache, name);
      r.Ok? && r.value.Some? ==> LookupFixed(docs', colPath, CacheAfterFixed(cache, name, r), name) == r
    ensures name !in cache ==> match LookupSpec(docs, colPath, known, name)
      case Ok(Loaded(chans)) => LookupFixed(docs, colPath, cache, name) == Ok(Some(chans))
      case Ok(Missing) => LookupFixed(docs, colPath, cache, name) == Ok(None)
      case Ok(HitName(_)) => false
      case Err(e) => LookupFixed(docs, colPath, cache, name) == Err(e)
  {
  }

  /** `list(list_platforms())` over the directory names `dirs`. */
  function LookupsSpec(docs: map<string, Json>, colPath: string, known: set<string>, dirs: seq<string>): (r: Result<seq<LookupView>>)
    ensures r.Ok? ==> |r.value| == |dirs|
    decreases dirs
  {
    if dirs == [] then Ok([])
    else
      var v :- LookupSpec(docs, colPath, known, dirs[0]);
      var rest :- LookupsSpec(docs, colPath, KnownAfter(known, v), dirs[1..]);
      Ok([v] + rest)
  }

  lemma LookupsAt(docs: map<string, Json>, colPath: string, known: set<string>, dirs: seq<string>, i: nat)
    requires i < |dirs|
    ensures LookupSpec(docs, colPath, known, dirs[i]).Err? ==>
      LookupsSpec(docs, colPath, known, dirs[i..]) == Err(LookupSpec(docs, colPath, known, dirs[i]).error)
    ensures LookupSpec(docs, colPath, known, dirs[i]).Ok? ==>
      var v := LookupSpec(docs, colPath, known, dirs[i]).value;
      LookupsSpec(docs, colPath, known, dirs[i..]) == Prepend([v], LookupsSpec(docs, colPath, KnownAfter(known, v), dirs[i + 1..]))
  {
    assert dirs[i..][0] == dirs[i];
    assert dirs[i..][1..] == dirs[i + 1..];
  }

  const StrChannels := AttributeError("'str' object has no attribute 'channels'")
  const NoneChannels := AttributeError("'NoneType' object has no attribute 'channels'")
  const NoneListing := AttributeError("'NoneType' object has no attribute 'all_versions_where'")
  const NoneLatest := AttributeError("'NoneType' object has no attribute 'get_latest_vsn'")

  /** `p.channels` of what `get_platform` returned. */
  function ChannelsOf(v: LookupView): Result<seq<Option<ChannelState>>> {
    match v
    case Loaded(chans) => Ok(chans)
    case HitName(_) => Err(StrChannels)
    case Missing => Err(NoneChannels)
  }

  /** The versions of one freshly loaded channel slot that satisfy `pred`; a null slot raises. */
  function SlotVersionsSpec(docs: map<string, Json>, s: Option<ChannelState>, pred: (int, string) -> bool): Result<seq<VersionData>> {
    if s.None? then Err(NoneListing)
    else ChannelVersionsSpec(docs, map[], s.value.path, s.value.versions, s.value.versions, pred)
  }

  /** The versions of freshly loaded channel slots that satisfy `pred`, channel by channel. */
  function SlotsVersionsSpec(docs: map<string, Json>, ss: seq<Option<ChannelState>>, pred: (int, string) -> bool): Result<seq<VersionData>> {
    if ss == [] then Ok([])
    else
      var here :- SlotVersionsSpec(docs, ss[0], pred);
      var rest :- SlotsVersionsSpec(docs, ss[1..], pred);
      Ok(here + rest)
  }

  lemma SlotsVersionsAt(docs: map<string, Json>, ss: seq<Option<ChannelState>>, j: nat, pred: (int, string) -> bool)
    requires j < |ss|
    ensures SlotVersionsSpec(docs, ss[j], pred).Err? ==>
      SlotsVersionsSpec(docs, ss[j..], pred) == Err(SlotVersionsSpec(docs, ss[j], pred).error)
    ensures SlotVersionsSpec(docs, ss[j], pred).Ok? ==>
      SlotsVersionsSpec(docs, ss[j..], pred) == Prepend(SlotVersionsSpec(docs, ss[j], pred).value, SlotsVersionsSpec(docs, ss[j + 1..], pred))
  {
    assert ss[j..][0] == ss[j];
    assert ss[j..][1..] == ss[j + 1..];
  }

  /** The versions one platform directory contributes to `all_versions_where(pred)`. */
  function DirVersionsSpec(docs: map<string, Json>, colPath: string, known: set<string>, name: string,
                           pred: (int, string) -> bool): Result<seq<VersionData>> {
    var v :- LookupSpec(docs, colPath, known, name);
    var ss :- ChannelsOf(v);
    SlotsVersionsSpec(docs, ss, pred)
  }

  /**
   * `Collection.all_versions_where(pred)` over the platform directories
   * `dirs`; a directory that contributes has been loaded, so the cache
   * then has the key "name".
   */
  function AllVersionsSpec(docs: map<string, Json>, colPath: string, known: set<string>, dirs: seq<string>,
                           pred: (int, string) -> bool): Result<seq<VersionData>>
    decreases dirs
  {
    if dirs == [] then Ok([])
    else
      var here :- DirVersionsSpec(docs, colPath, known, dirs[0], pred);
      var rest :- AllVersionsSpec(docs, colPath, known + {"name"}, dirs[1..], pred);
      Ok(here + rest)
  }
  /** The listing from directory `i` on: directory `i`'s versions, then the rest, the first error ending it. */
  lemma AllVersionsAt(docs: map<string, Json>, colPath: string, known: set<string>, dirs: seq<string>, i: nat,
                      pred: (int, string) -> bool)
    requires i < |dirs|
    ensures AllVersionsSpec(docs, colPath, known, dirs[i..], pred)
      == match DirVersionsSpec(docs, colPath, known, dirs[i], pred)
         case Err(e) => Err(e)
         case Ok(here) => Prepend(here, AllVersionsSpec(docs, colPath, known + {"name"}, dirs[i + 1..], pred))
  {
    assert dirs[i..][0] == dirs[i] && dirs[i..][1..] == dirs[i + 1..];
  }


  /** The latest version of one freshly loaded channel slot, None for an empty channel; a null slot raises. */
  function SlotLatestSpec(docs: map<string, Json>, s: Option<ChannelState>): Result<Option<VersionData>> {
    if s.None? then Err(NoneLatest) else LatestView(docs, map[], s.value.path, s.value.versions)
  }

  /** What `for ch in p.channels: yield ch.get_latest_vsn()` yields over freshly loaded channel slots. */
  function SlotsLatestSpec(docs: map<string, Json>, ss: seq<Option<ChannelState>>): Yields<Option<VersionData>> {
    if ss == [] then Yields([], Pass)
    else match SlotLatestSpec(docs, ss[0])
      case Err(e) => Yields([], Fail(e))
      case Ok(here) => Then([here], SlotsLatestSpec(docs, ss[1..]))
  }

  lemma SlotsLatestAt(docs: map<string, Json>, ss: seq<Option<ChannelState>>, j: nat)
    requires j < |ss|
    ensures SlotLatestSpec(docs, ss[j]).Err? ==>
      SlotsLatestSpec(docs, ss[j..]) == Yields([], Fail(SlotLatestSpec(docs, ss[j]).error))
    ensures SlotLatestSpec(docs, ss[j]).Ok? ==>
      SlotsLatestSpec(docs, ss[j..]) == Then([SlotLatestSpec(docs, ss[j]).value], SlotsLatestSpec(docs, ss[j + 1..]))
  {
    assert ss[j..][0] == ss[j];
    assert ss[j..][1..] == ss[j + 1..];
  }

  /** What one platform directory yields to `all_latest_versions()`; a failed lookup stops it before any item. */
  function DirLatestSpec(docs: map<string, Json>, colPath: string, known: set<string>, name: string): Yields<Option<VersionData>> {
    match LookupSpec(docs, colPath, known, name)
    case Err(e) => Yields([], Fail(e))
    case Ok(v) =>
      match ChannelsOf(v)
      case Err(e) => Yields([], Fail(e))
      case Ok(ss) => SlotsLatestSpec(docs, ss)
  }

  /** What the generator `Collection.all_latest_versions()` yields over the platform directories `dirs`. */
  function AllLatestSpec(docs: map<string, Json>, colPath: string, known: set<string>, dirs: seq<string>): Yields<Option<VersionData>>
    decreases dirs
  {
    if dirs == [] then Yields([], Pass)
    else
      var here := DirLatestSpec(docs, colPath, known, dirs[0]);
      if here.end.Fail? then here
      else Then(here.items, AllLatestSpec(docs, colPath, known + {"name"}, dirs[1..]))
  }

  /** The predicate of `all_versions_where(lambda id, name: True)`. */
  const AlwaysTrue: (int, string) -> bool := (id, name) => true

  /** A summary that `pred` admits and whose version loads is in the channel's listing. */
  lemma {:induction false} ListedWhenAdmitted(docs: map<string, Json>, cache: map<int, VersionData>, chanDir: string,
                                              versions: seq<Summary>, vs: seq<Summary>, pred: (int, string) -> bool,
                                              k: nat, d: VersionData)
    requires k < |vs| && pred(vs[k].id, vs[k].name)
    requires VersionView(docs, cache, chanDir, versions, vs[k].id) == Ok(Some(d))
    requires ChannelVersionsSpec(docs, cache, chanDir, versions, vs, pred).Ok?
    ensures d in ChannelVersionsSpec(docs, cache, chanDir, versions, vs, pred).value
    decreases k
  {
    if k > 0 {
      assert vs[1..][k - 1] == vs[k];
      ListedWhenAdmitted(docs, cache, chanDir, versions, vs[1..], pred, k - 1, d);
    }
  }

  /** Over channel slots, each latest version is among all the versions. */
  lemma {:induction false} LatestAmongSlots(docs: map<string, Json>, ss: seq<Option<ChannelState>>)
    requires SlotsLatestSpec(docs, ss).end.Pass? && SlotsVersionsSpec(docs, ss, AlwaysTrue).Ok?
    ensures forall d :: Some(d) in SlotsLatestSpec(docs, ss).items ==> d in SlotsVersionsSpec(docs, ss, AlwaysTrue).value
  {
    if ss != [] {
      var st := ss[0].value;
      var here := SlotLatestSpec(docs, ss[0]).value;
      var listed := SlotVersionsSpec(docs, ss[0], AlwaysTrue).value;
      LatestAmongSlots(docs, ss[1..]);
      if here.Some? {
        var i :| 0 <= i < |st.versions| && st.versions[i].id == MaxId(st.versions);
        ListedWhenAdmitted(docs, map[], st.path, st.versions, st.versions, AlwaysTrue, i, here.value);
      }
      assert SlotsLatestSpec(docs, ss).items == [here] + SlotsLatestSpec(docs, ss[1..]).items;
      assert SlotsVersionsSpec(docs, ss, AlwaysTrue).value == listed + SlotsVersionsSpec(docs, ss[1..], AlwaysTrue).value;
    }
  }

  /**
   * `all_latest_versions()` yields no version that `all_versions_where`
   * with an always-true predicate does not, when both complete.
   */
  lemma {:induction false} LatestAmongAll(docs: map<string, Json>, colPath: string, known: set<string>, dirs: seq<string>)
    requires AllLatestSpec(docs, colPath, known, dirs).end.Pass?
    requires AllVersionsSpec(docs, colPath, known, dirs, AlwaysTrue).Ok?
    ensures forall d :: Some(d) in AllLatestSpec(docs, colPath, known, dirs).items ==>
      d in AllVersionsSpec(docs, colPath, known, dirs, AlwaysTrue).value
    decreases dirs
  {
    if dirs != [] {
      var v := LookupSpec(docs, colPath, known, dirs[0]).value;
      var ss := ChannelsOf(v).value;
      LatestAmongSlots(docs, ss);
      LatestAmongAll(docs, colPath, known + {"name"}, dirs[1..]);
      assert AllLatestSpec(docs, colPath, known, dirs).items
        == SlotsLatestSpec(docs, ss).items + AllLatestSpec(docs, colPath, known + {"name"}, dirs[1..]).items;
      assert AllVersionsSpec(docs, colPath, known, dirs, AlwaysTrue).value
        == SlotsVersionsSpec(docs, ss, AlwaysTrue).value + AllVersionsSpec(docs, colPath, known + {"name"}, dirs[1..], AlwaysTrue).value;
    }
  }

  /** Each platform that was loaded sits in the directory of the collection it was listed under. */
  ghost predicate LoadedUnder(looks: seq<PlatformLookup>, colPath: string, dirs: seq<string>) {
    |looks| == |dirs| && forall i :: 0 <= i < |looks| && looks[i].Found? ==> looks[i].p.path == Join(colPath, dirs[i])
  }

  lemma LoadedUnderStep(looks: seq<PlatformLookup>, look: PlatformLookup, colPath: string, dirs: seq<string>, i: nat)
    requires i < |dirs| && LoadedUnder(looks, colPath, dirs[..i])
    requires look.Found? ==> look.p.path == Join(colPath, dirs[i])
    ensures LoadedUnder(looks + [look], colPath, dirs[..i + 1])
  {
    assert dirs[..i + 1] == dirs[..i] + [dirs[i]];
  }

  /** What `get_platform` returned shows the view: the loaded platform has the view's channels. */
  ghost predicate Shows(l: PlatformLookup, v: LookupView)
    reads (if l.Found? then {l.p} else {})`channels
    reads (if l.Found? then set c: Channel | c in l.p.channels else {})`url
    reads (if l.Found? then set c: Channel | c in l.p.channels else {})`versions
  {
    match l
    case Found(p) => v.Loaded? && StatesOf(p.channels) == v.chans
    case NameOnly(n) => v == HitName(n)
    case NoPlatform => v == Missing
  }

  /** A channel with nothing cached agrees with any documents. */
  lemma EmptyCacheAgrees(c: Channel)
    requires c.loadedVsns == map[]
    ensures c.Agrees()
  {
    assert c.CacheData() == map[];
  }

  lemma DatasConcat(a: seq<Version>, b: seq<Version>)
    ensures Datas(a + b) == Datas(a) + Datas(b)
  {
    assert forall i :: 0 <= i < |a| ==> (a + b)[i] == a[i];
    assert forall i :: 0 <= i < |b| ==> (a + b)[|a| + i] == b[i];
  }

  /** The data of versions that may be None, in order. */
  function OptDatas(os: seq<Option<Version>>): (r: seq<Option<VersionData>>)
    reads set o | o in os && o.Some? :: o.value
    ensures |r| == |os|
    ensures forall i :: 0 <= i < |os| ==> r[i] == OptData(os[i])
  {
    if os == [] then [] else [OptData(os[0])] + OptDatas(os[1..])
  }

  lemma OptDatasConcat(a: seq<Option<Version>>, b: seq<Option<Version>>)
    ensures OptDatas(a + b) == OptDatas(a) + OptDatas(b)
  {
    assert forall i :: 0 <= i < |a| ==> (a + b)[i] == a[i];
    assert forall i :: 0 <= i < |b| ==> (a + b)[|a| + i] == b[i];
  }

  lemma OptDatasSnoc(a: seq<Option<Version>>, o: Option<Version>)
    ensures OptDatas(a + [o]) == OptDatas(a) + [OptData(o)]
  {
    OptDatasConcat(a, [o]);
  }

  /**
   * `ch.all_versions_where(pred)` on the slot `c` of `chans`, whose state is `s`,
   * while every channel's cache agrees with the documents.
   */
  method SlotVersionsWhere(b: Backend, chans: seq<Channel?>, c: Channel?, ghost s: Option<ChannelState>,
                           pred: (int, string) -> bool) returns (r: Result<seq<Version>>)
    requires c != null ==> c in chans
    requires s == (if c == null then None else Some(c.State()))
    requires forall c :: c in chans && c != null ==> c.backend == b && c.Agrees()
    modifies (set x: Channel | x in chans && x == c)`loadedVsns
    ensures forall c :: c in chans && c != null ==> c.Agrees()
    ensures r.Ok? <==> SlotVersionsSpec(b.docs, s, pred).Ok?
    ensures r.Err? ==> r.error == SlotVersionsSpec(b.docs, s, pred).error
    ensures r.Ok? ==> Datas(r.value) == SlotVersionsSpec(b.docs, s, pred).value
  {
    if c == null {
      return Err(NoneListing);
    }
    AgreeingCacheListing(b.docs, c.CacheData(), c.path, c.versions, c.versions, pred);
    r := c.AllVersionsWhere(pred);
  }

  /**
   * `for ch in p.channels: for vsn in ch.all_versions_where(pred)` over
   * channels whose caches agree with the documents: what listing freshly
   * loaded channels yields; a null slot raises when its turn comes.
   */
  method SlotsVersionsWhere(b: Backend, chans: seq<Channel?>, pred: (int, string) -> bool) returns (r: Result<seq<Version>>)
    requires forall c :: c in chans && c != null ==> c.backend == b && c.Agrees()
    modifies (set c: Channel | c in chans)`loadedVsns
    ensures r.Ok? <==> SlotsVersionsSpec(b.docs, old(StatesOf(chans)), pred).Ok?
    ensures r.Err? ==> r.error == SlotsVersionsSpec(b.docs, old(StatesOf(chans)), pred).error
    ensures r.Ok? ==> Datas(r.value) == SlotsVersionsSpec(b.docs, old(StatesOf(chans)), pred).value
  {
    ghost var docs := b.docs;
    ghost var ss := StatesOf(chans);
    ghost var spec := SlotsVersionsSpec(docs, ss, pred);
    var acc: seq<Version> := [];
    ghost var ds: seq<VersionData> := [];
    var j := 0;
    assert ss[0..] == ss;
    PrependNil(spec);
    while j < |chans|
      invariant j <= |chans|
      invariant forall c :: c in chans && c != null ==> c.Agrees()
      invariant ds == Datas(acc)
      invariant spec == Prepend(ds, SlotsVersionsSpec(docs, ss[j..], pred))
    {
      SlotsVersionsAt(docs, ss, j, pred);
      var vs :- SlotVersionsWhere(b, chans, chans[j], ss[j], pred);
      PrependPrepend(ds, Datas(vs), SlotsVersionsSpec(docs, ss[j + 1..], pred));
      DatasConcat(acc, vs);
      ds := ds + Datas(vs);
      acc := acc + vs;
      j := j + 1;
    }
    assert ds + [] == ds;
    r := Ok(acc);
  }

  /** `ch.get_latest_vsn()` on the slot `c` of `chans`, whose state is `s`, while every channel's cache agrees with the documents. */
  method SlotLatest(b: Backend, chans: seq<Channel?>, c: Channel?, ghost s: Option<ChannelState>) returns (r: Result<Option<Version>>)
    requires c != null ==> c in chans
    requires s == (if c == null then None else Some(c.State()))
    requires forall c :: c in chans && c != null ==> c.backend == b && c.Agrees()
    modifies (set x: Channel | x in chans && x == c)`loadedVsns
    ensures forall c :: c in chans && c != null ==> c.Agrees()
    ensures r.Ok? <==> SlotLatestSpec(b.docs, s).Ok?
    ensures r.Err? ==> r.error == SlotLatestSpec(b.docs, s).error
    ensures r.Ok? ==> OptData(r.value) == SlotLatestSpec(b.docs, s).value
  {
    if c == null {
      return Err(NoneLatest);
    }
    if c.versions != [] {
      AgreeingCacheIsInvisible(b.docs, c.CacheData(), c.path, c.versions, MaxId(c.versions));
    }
    r := c.GetLatestVsn();
  }

  /** Slot `j` ends the generator with its error, or yields its latest version after those before it. */
  lemma SlotsLatestStep(docs: map<string, Json>, ss: seq<Option<ChannelState>>, j: nat, before: seq<Option<VersionData>>,
                        w: Result<Option<VersionData>>)
    requires j < |ss|
    requires w == SlotLatestSpec(docs, ss[j])
    ensures w.Err? ==> Then(before, SlotsLatestSpec(docs, ss[j..])) == Yields(before, Fail(w.error))
    ensures w.Ok? ==> Then(before, SlotsLatestSpec(docs, ss[j..])) == Then(before + [w.value], SlotsLatestSpec(docs, ss[j + 1..]))
  {
    SlotsLatestAt(docs, ss, j);
    if w.Err? {
      assert before + [] == before;
    } else {
      ThenThen(before, [w.value], SlotsLatestSpec(docs, ss[j + 1..]));
    }
  }

  /**
   * One turn of `for ch in p.channels: yield ch.get_latest_vsn()` after the
   * items `ds`: slot `j` either ends the generator or yields its latest
   * version after them.
   */
  method SlotsLatestNext(b: Backend, chans: seq<Channel?>, j: nat, ghost ss: seq<Option<ChannelState>>,
                         ghost ds: seq<Option<VersionData>>, ghost spec: Yields<Option<VersionData>>) returns (v: Result<Option<Version>>)
    requires j < |chans| == |ss|
    requires ss[j] == (if chans[j] == null then None else Some(chans[j].State()))
    requires forall c :: c in chans && c != null ==> c.backend == b && c.Agrees()
    requires spec == Then(ds, SlotsLatestSpec(b.docs, ss[j..]))
    modifies (set c: Channel | c in chans)`loadedVsns
    ensures forall c :: c in chans && c != null ==> c.Agrees()
    ensures v.Err? ==> spec == Yields(ds, Fail(v.error))
    ensures v.Ok? ==> spec == Then(ds + [OptData(v.value)], SlotsLatestSpec(b.docs, ss[j + 1..]))
  {
    v := SlotLatest(b, chans, chans[j], ss[j]);
    ghost var w: Result<Option<VersionData>> := if v.Ok? then Ok(OptData(v.value)) else Err(v.error);
    SlotsLatestStep(b.docs, ss, j, ds, w);
  }

  /** `for ch in p.channels: yield ch.get_latest_vsn()` over channels whose caches agree with the documents. */
  method SlotsLatest(b: Backend, chans: seq<Channel?>) returns (r: Yields<Option<Version>>)
    requires forall c :: c in chans && c != null ==> c.backend == b && c.Agrees()
    modifies (set c: Channel | c in chans)`loadedVsns
    ensures r.end == SlotsLatestSpec(b.docs, old(StatesOf(chans))).end
    ensures OptDatas(r.items) == SlotsLatestSpec(b.docs, old(StatesOf(chans))).items
  {
    ghost var ss := StatesOf(chans);
    ghost var spec := SlotsLatestSpec(b.docs, ss);
    var acc: seq<Option<Version>> := [];
    var j := 0;
    assert ss[0..] == ss;
    ThenNil(spec);
    while j < |chans|
      invariant j <= |chans|
      invariant forall c :: c in chans && c != null ==> c.Agrees()
      invariant forall k :: 0 <= k < |chans| ==> ss[k] == (if chans[k] == null then None else Some(chans[k].State()))
      invariant spec == Then(OptDatas(acc), SlotsLatestSpec(b.docs, ss[j..]))
    {
      ghost var ds := OptDatas(acc);
      var v := SlotsLatestNext(b, chans, j, ss, ds, spec);
      assert OptDatas(acc) == ds;
      if v.Err? {
        return Yields(acc, Fail(v.error));
      }
      OptDatasSnoc(acc, v.value);
      acc := acc + [v.value];
      j := j + 1;
    }
    assert OptDatas(acc) + [] == OptDatas(acc);
    r := Yields(acc, Pass);
  }

  class Collection {
    const backend: Backend
    const path: string
    const url: string
    const storage: FileStorage
    var platforms: map<string, Platform>

    constructor (backend: Backend, path: string, url: string, storage: FileStorage)
      ensures this.backend == backend && this.path == path && this.url == url && this.storage == storage
      ensures platforms == map[]
    {
      this.backend := backend;
      this.path := path;
      this.url := url;
      this.storage := storage;
      platforms := map[];
    }

    /** `Collection.load(backend, path)`: the settings of `config.json`; the storage starts without an index. */
    static method Load(backend: Backend, path: string) returns (r: Result<Collection>)
      ensures r.Ok? <==> LoadConfigSpec(backend.docs, path).Ok?
      ensures r.Err? ==> r.error == LoadConfigSpec(backend.docs, path).error
      ensures r.Ok? ==>
        && fresh(r.value) && fresh(r.value.storage)
        && r.value.backend == backend && r.value.path == path && r.value.platforms == map[]
        && r.value.storage.backend == backend && r.value.storage.md5Map == None
        && (r.value.url, r.value.storage.url, r.value.storage.path) == LoadConfigSpec(backend.docs, path).value
    {
      var obj :- backend.ReadJson(ConfigPath(path));
      var baseUrl :- GetStr(obj, "base_url");
      var storageUrl :- GetStr(obj, "storage_url");
      var storagePath :- GetStr(obj, "storage_path");
      var storage := new FileStorage(backend, storagePath, storageUrl);
      var c := new Collection(backend, path, baseUrl, storage);
      r := Ok(c);
    }

    /** `Collection.save`: the three settings to `config.json`. */
    method Save()
      modifies backend`docs, backend`log
      ensures backend.docs == old(backend.docs)[ConfigPath(path) := ConfigDoc(url, storage.url, storage.path)]
      ensures backend.log == old(backend.log) + [Wrote(ConfigPath(path))]
    {
      backend.WriteJson(ConfigDoc(url, storage.url, storage.path), ConfigPath(path));
    }

    /**
     * `get_platform(name)` as written: a name already in the cache comes
     * back as the name itself; otherwise the platform is loaded and cached
     * under the literal key "name"; a platform that does not load with an
     * IOError gives None.
     */
    method GetPlatform(name: string) returns (r: Result<PlatformLookup>)
      modifies this`platforms
      ensures r.Ok? <==> LookupSpec(backend.docs, path, old(platforms).Keys, name).Ok?
      ensures r.Err? ==> r.error == LookupSpec(backend.docs, path, old(platforms).Keys, name).error
      ensures r.Ok? ==> Shows(r.value, LookupSpec(backend.docs, path, old(platforms).Keys, name).value)
      ensures r.Ok? && r.value.Found? ==>
        && fresh(r.value.p) && r.value.p.collection == this && r.value.p.name == name
        && r.value.p.backend == backend && r.value.p.path == Join(path, name)
        && (forall c :: c in r.value.p.channels && c != null ==> fresh(c) && c.backend == backend && c.loadedVsns == map[])
        && SlotsDistinct(r.value.p.channels)
        && platforms == old(platforms)["name" := r.value.p]
      ensures !(r.Ok? && r.value.Found?) ==> platforms == old(platforms)
    {
      if name in platforms {
        return Ok(NameOnly(name));
      }
      var loaded := Platform.Load(this, name);
      if loaded.Err? {
        if loaded.error.IOError? {
          return Ok(NoPlatform);
        }
        return Err(loaded.error);
      }
      platforms := platforms["name" := loaded.value];
      r := Ok(Found(loaded.value));
    }

    /** `new_platform(id)`: an empty platform registered under its id; nothing is written. */
    method NewPlatform(id: string) returns (p: Platform)
      modifies this`platforms
      ensures fresh(p) && p.collection == this && p.name == id && p.path == Join(path, id) && p.channels == []
      ensures platforms == old(platforms)[id := p]
    {
      p := new Platform(this, id, []);
      platforms := platforms[id := p];
    }

    /** One turn of `list_platforms`: `get_platform(name)`, which leaves what the earlier lookups show as it was. */
    method LookupNext(name: string, ghost acc: seq<PlatformLookup>, ghost vs: seq<LookupView>) returns (r: Result<PlatformLookup>)
      requires |acc| == |vs| && forall j :: 0 <= j < |acc| ==> Shows(acc[j], vs[j])
      modifies this`platforms
      ensures forall j :: 0 <= j < |acc| ==> Shows(acc[j], vs[j])
      ensures r.Ok? <==> LookupSpec(backend.docs, path, old(platforms).Keys, name).Ok?
      ensures r.Err? ==> r.error == LookupSpec(backend.docs, path, old(platforms).Keys, name).error
      ensures r.Ok? ==>
        && Shows(r.value, LookupSpec(backend.docs, path, old(platforms).Keys, name).value)
        && platforms.Keys == KnownAfter(old(platforms).Keys, LookupSpec(backend.docs, path, old(platforms).Keys, name).value)
      ensures r.Ok? && r.value.Found? ==> r.value.p.path == Join(path, name)
      ensures r.Err? ==> platforms == old(platforms)
    {
      r := GetPlatform(name);
    }

    /** `list(list_platforms())`: `get_platform` of every directory of the collection, in listing order. */
    method ListPlatforms() returns (r: Result<seq<PlatformLookup>>, ghost dirs: seq<string>)
      modifies this`platforms
      ensures NoDup(dirs) && forall d :: d in dirs <==> d in SubdirsIn(backend.docs.Keys + backend.blobs.Keys, path)
      ensures r.Ok? <==> LookupsSpec(backend.docs, path, old(platforms).Keys, dirs).Ok?
      ensures r.Err? ==> r.error == LookupsSpec(backend.docs, path, old(platforms).Keys, dirs).error
      ensures r.Ok? ==>
        && |r.value| == |dirs|
        && (forall i :: 0 <= i < |dirs| ==> Shows(r.value[i], LookupsSpec(backend.docs, path, old(platforms).Keys, dirs).value[i]))
        && LoadedUnder(r.value, path, dirs)
      ensures old(platforms).Keys <= platforms.Keys <= old(platforms).Keys + {"name"}
    {
      var names := backend.ListDir(path, Dirs);
      dirs := names;
      ghost var docs := backend.docs;
      ghost var spec := LookupsSpec(docs, path, platforms.Keys, names);
      var acc: seq<PlatformLookup> := [];
      ghost var vs: seq<LookupView> := [];
      var i := 0;
      assert names[0..] == names;
      PrependNil(spec);
      while i < |names|
        invariant i <= |names| && |acc| == |vs| == i
        invariant spec == Prepend(vs, LookupsSpec(docs, path, platforms.Keys, names[i..]))
        invariant forall j :: 0 <= j < |acc| ==> Shows(acc[j], vs[j])
        invariant LoadedUnder(acc, path, names[..i])
        invariant old(platforms).Keys <= platforms.Keys <= old(platforms).Keys + {"name"}
      {
        ghost var known := platforms.Keys;
        LookupsAt(docs, path, known, names, i);
        var look :- LookupNext(names[i], acc, vs);
        ghost var v := LookupSpec(docs, path, known, names[i]).value;
        PrependPrepend(vs, [v], LookupsSpec(docs, path, KnownAfter(known, v), names[i + 1..]));
        LoadedUnderStep(acc, look, path, names, i);
        acc := acc + [look];
        vs := vs + [v];
        i := i + 1;
      }
      assert vs + [] == vs;
      r := Ok(acc);
    }

    /** One platform directory of `all_versions_where(pred)`: `get_platform`, then its channels' versions. */
    method DirVersions(name: string, pred: (int, string) -> bool) returns (r: Result<seq<Version>>)
      modifies this`platforms
      ensures r.Ok? <==> DirVersionsSpec(backend.docs, path, old(platforms).Keys, name, pred).Ok?
      ensures r.Err? ==> r.error == DirVersionsSpec(backend.docs, path, old(platforms).Keys, name, pred).error
      ensures r.Ok? ==> Datas(r.value) == DirVersionsSpec(backend.docs, path, old(platforms).Keys, name, pred).value
      ensures r.Ok? ==> platforms.Keys == old(platforms).Keys + {"name"}
      ensures old(platforms).Keys <= platforms.Keys <= old(platforms).Keys + {"name"}
    {
      var look :- GetPlatform(name);
      if look.NameOnly? {
        return Err(StrChannels);
      }
      if look.NoPlatform? {
        return Err(NoneChannels);
      }
      var p := look.p;
      forall c | c in p.channels && c != null
        ensures c.Agrees()
      {
        EmptyCacheAgrees(c);
      }
      r := SlotsVersionsWhere(backend, p.channels, pred);
    }

    /** What one platform directory yields to `all_latest_versions()`. */
    method DirLatest(name: string) returns (r: Yields<Option<Version>>)
      modifies this`platforms
      ensures r.end == DirLatestSpec(backend.docs, path, old(platforms).Keys, name).end
      ensures OptDatas(r.items) == DirLatestSpec(backend.docs, path, old(platforms).Keys, name).items
      ensures r.end.Pass? ==> platforms.Keys == old(platforms).Keys + {"name"}
      ensures old(platforms).Keys <= platforms.Keys <= old(platforms).Keys + {"name"}
    {
      var found := GetPlatform(name);
      if found.Err? {
        return Yields([], Fail(found.error));
      }
      var look := found.value;
      if look.NameOnly? {
        return Yields([], Fail(StrChannels));
      }
      if look.NoPlatform? {
        return Yields([], Fail(NoneChannels));
      }
      var p := look.p;
      forall c | c in p.channels && c != null
        ensures c.Agrees()
      {
        EmptyCacheAgrees(c);
      }
      r := SlotsLatest(backend, p.channels);
    }

    /**
     * `all_versions_where(pred)`: for each platform directory in turn,
     * `get_platform`, then every channel's versions that satisfy `pred`.
     */
    method AllVersionsWhere(pred: (int, string) -> bool) returns (r: Result<seq<Version>>, ghost dirs: seq<string>)
      modifies this`platforms
      ensures NoDup(dirs) && forall d :: d in dirs <==> d in SubdirsIn(backend.docs.Keys + backend.blobs.Keys, path)
      ensures r.Ok? <==> AllVersionsSpec(backend.docs, path, old(platforms).Keys, dirs, pred).Ok?
      ensures r.Err? ==> r.error == AllVersionsSpec(backend.docs, path, old(platforms).Keys, dirs, pred).error
      ensures r.Ok? ==> Datas(r.value) == AllVersionsSpec(backend.docs, path, old(platforms).Keys, dirs, pred).value
      ensures old(platforms).Keys <= platforms.Keys <= old(platforms).Keys + {"name"}
    {
      var names := backend.ListDir(path, Dirs);
      dirs := names;
      ghost var docs := backend.docs;
      ghost var spec := AllVersionsSpec(docs, path, platforms.Keys, names, pred);
      var acc: seq<Version> := [];
      ghost var ds: seq<VersionData> := [];
      var i := 0;
      assert names[0..] == names;
      PrependNil(spec);
      while i < |names|
        invariant i <= |names| && docs == backend.docs
        invariant ds == Datas(acc)
        invariant spec == Prepend(ds, AllVersionsSpec(docs, path, platforms.Keys, names[i..], pred))
        invariant old(platforms).Keys <= platforms.Keys <= old(platforms).Keys + {"name"}
      {
        AllVersionsAt(docs, path, platforms.Keys, names, i, pred);
        var got := DirVersions(names[i], pred);
        if got.Err? {
          r := Err(got.error);
          assert spec == Err(r.error);
          return;
        }
        var vs := got.value;
        assert Datas(acc) == ds;
        ghost var here := Datas(vs);
        PrependPrepend(ds, here, AllVersionsSpec(docs, path, platforms.Keys, names[i + 1..], pred));
        DatasConcat(acc, vs);
        acc := acc + vs;
        ds := ds + here;
        i := i + 1;
      }
      assert ds + [] == ds;
      r := Ok(acc);
    }

    /**
     * The generator `all_latest_versions()`: for each platform directory in
     * turn, every channel's latest version (None when empty), as far as it
     * gets before an error.
     */
    method AllLatestVersions() returns (r: Yields<Option<Version>>, ghost dirs: seq<string>)
      modifies this`platforms
      ensures NoDup(dirs) && forall d :: d in dirs <==> d in SubdirsIn(backend.docs.Keys + backend.blobs.Keys, path)
      ensures r.end == AllLatestSpec(backend.docs, path, old(platforms).Keys, dirs).end
      ensures OptDatas(r.items) == AllLatestSpec(backend.docs, path, old(platforms).Keys, dirs).items
      ensures old(platforms).Keys <= platforms.Keys <= old(platforms).Keys + {"name"}
    {
      var names := backend.ListDir(path, Dirs);
      dirs := names;
      ghost var spec := AllLatestSpec(backend.docs, path, platforms.Keys, names);
      var acc: seq<Option<Version>> := [];
      ghost var ds: seq<Option<VersionData>> := [];
      var i := 0;
      assert names[0..] == names;
      ThenNil(spec);
      while i < |names|
        invariant i <= |names|
        invariant ds == OptDatas(acc)
        invariant spec == Then(ds, AllLatestSpec(backend.docs, path, platforms.Keys, names[i..]))
        invariant old(platforms).Keys <= platforms.Keys <= old(platforms).Keys + {"name"}
      {
        assert names[i..][1..] == names[i + 1..];
        var vs := DirLatest(names[i]);
        assert OptDatas(acc) == ds;
        ghost var here := OptDatas(vs.items);
        OptDatasConcat(acc, vs.items);
        if vs.end.Fail? {
          return Yields(acc + vs.items, vs.end), names;
        }
        ThenThen(ds, here, AllLatestSpec(backend.docs, path, platforms.Keys, names[i + 1..]));
        acc := acc + vs.items;
        ds := ds + here;
        i := i + 1;
      }
      assert ds + [] == ds;
      r := Yields(acc, Pass);
    }
  }
}

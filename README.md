# repoman, modelled in Dafny

repoman manages GoUpdate repositories. A repository is a *collection*
directory that holds:

- `config.json`: the base URL, the storage URL and the storage path;
- one directory per *platform*, each with a `channels.json` that lists its
  *channels*;
- one directory per channel, with an `index.json` of version summaries (id
  and name) and one `<id>.json` document per version, which lists the
  version's files (path, MD5, permissions, executable flag, source URLs);
- a flat *storage* directory of blobs named `<md5>-<basename>`.

This project models the `repoman` package:

- the backend interface (`Backends`) and the S3 key-listing helpers (`S3`);
- the file storage with its lazily built MD5 index (`Storage`);
- the JSON documents the repository objects read and write (`Documents`);
- the repository classes `Version` and `Channel` (`Repo`) and `Platform` and
  `Collection` (`Collections`);
- the `push` command (`Push`);
- the maintenance commands of `cleanup.py` (`Cleanup`): mod-urls,
  delete-before, orphan-files, obsolete-files and live-versions.

The classes keep the source's shape. They are Dafny classes whose methods
update their fields in place: a channel's summary list and version cache, a
platform's channel list, a collection's platform cache and the storage's MD5
index. The backend is an in-memory store. It holds a map from paths to JSON
documents, a map from blob paths to bytes, and a ghost log of every write,
upload and deletion, so each contract can state what was written and in
which order. Every method is proved against a specification function over
the documents. The properties the program relies on are lemmas about those
functions:

- save-then-load round trips of every document;
- the soundness and completeness of the MD5 index and of `push`'s upload
  list;
- which blobs the cleanup sweeps delete and which they keep;
- that a dry run writes nothing;
- that `delete_old` keeps exactly the newer versions.

Python's exceptions are modelled as errors carried in `Result` and
`Outcome` values, with the kind of exception the source raises:

- a missing document is an `IOError`;
- a missing key in a JSON object is a `KeyError`;
- a value of the wrong JSON type is a `TypeError`;
- a failed `assert` is an `AssertionError`;
- an unknown listing kind is a `ValueError`.

Some behaviours are modelled exactly as the source has them:

- `Collection.get_platform` returns the *name* for a platform that is
  already cached, and caches a freshly loaded platform under the literal
  key `"name"`;
- `raise 'Format version mismatch.'` is itself a `TypeError` in Python 3;
- `Platform.load` reads `chan_obj['id']` to report a channel that failed
  to load, and that read can raise in turn;
- `Channel.get_version` caches what it loads, and the lemmas show that a
  cache which agrees with the documents is invisible to every later
  lookup.

## Model

| member | source | states |
|---|---|---|
| Backends.FilesInIff | repoman/backend/__init__.py:25-32 | A name is listed as a file of a directory exactly when it is a single path component whose join with the directory is a stored blob. |
| Backends.Backend.constructor | repoman/backend/__init__.py:10-11 | A backend starts over the given documents and blobs with an empty log. |
| Backends.Backend.ReadJson | repoman/backend/__init__.py:13-17 | `read_json` returns the stored document, or raises IOError naming the path when there is none. |
| Backends.Backend.WriteJson | repoman/backend/__init__.py:19-23 | `write_json` replaces or creates the document at the path and logs one write. |
| Backends.Backend.ListDir | repoman/backend/__init__.py:25-32 | `list_dir` with 'files' lists exactly the blobs directly in the directory, with 'dirs' exactly the subdirectories that hold some document or blob, and with 'all' both; 'files' and 'dirs' list no name twice, but under 'all' a name that is both a blob and a subdirectory (blobs `p/a` and `p/a/x`) is listed twice. |
| Backends.Backend.UploadFile | repoman/backend/__init__.py:34-39 | The local file's contents become the blob at the destination, and one upload is logged. |
| Backends.Backend.DeleteFile | repoman/backend/__init__.py:41-45 | A stored blob is removed and one deletion logged; a missing blob raises IOError and changes nothing. |
| Backends.Backend.GetMd5 | repoman/backend/__init__.py:47-51 | The digest of the blob, or None when no blob is at the path. |
| Backends.Backend.Md5Dir | repoman/backend/__init__.py:53-65 | The map from hash to location is an index of the directory: every entry points at a blob directly in the directory with that hash, every such blob's hash is a key, and there are at most as many entries as files. Of several files with one hash, the entry is the one listed last by `list_dir` (the ghost listing is returned alongside). |
| Backends.LastListedStep | repoman/backend/__init__.py:61-64 | Hashing the next listed file makes it the last file seen with its hash, and keeps every other hash's last file. |
| Backends.Md5DirStep | repoman/backend/__init__.py:61-64 | Hashing the next listed file keeps both halves of the loop state: the partial index and the last-listed file per hash. |
| Backends.Md5DirDone | repoman/backend/__init__.py:53-65 | Once every listed file is hashed, the map is an index of the directory, no larger than its file count, in which each hash names its last listed file. |
| Backends.LastListedDone | repoman/backend/__init__.py:61-64 | After the whole listing, each hash maps to a listed file with that hash that no later listed file shares. |
| Backends.Md5IndexSize | repoman/backend/__init__.py:53-65 | An index of a directory has at most one entry per file in it. |
| Backends.Md5IndexOfListing | repoman/backend/__init__.py:60-65 | Hashing every name of a complete file listing into the map gives an index of the directory, whatever the listing order. |
| Backends.ListedFilesAreBlobs | repoman/backend/__init__.py:60-64 | Every name of a file listing joins with the directory to a stored blob, so `get_md5` finds each one. |
| Backends.InjectiveMapCard | repoman/backend/__init__.py:61-64 | A map whose values are pairwise distinct members of a set has no more entries than the set. |
| S3.KeyDirSetMembers | repoman/backend/s3.py:95-104 | `key_dirs` collects exactly the parent directories of the keys that lie two levels below the path, with one trailing '/' of the path ignored. |
| S3.KeyDirs | repoman/backend/s3.py:95-104 | The list returned holds each such directory once. |
| S3.IsFileKey | repoman/backend/s3.py:91-93 | A key is a file key exactly when it is empty or its basename is not empty, i.e. it has no trailing '/'. |
| S3.FileKeyOfJoin | repoman/backend/s3.py:91-93 | A single component joined to any path is a file key, and the same key with a trailing '/' is not. |
| S3.PathLastComponent | repoman/backend/s3.py:107-111 | The last component keeps a trailing '/' exactly when the key has one, holds no other '/', and is the basename for a file key. |
| S3.LastComponentOfName | repoman/backend/s3.py:107-111 | A single component is its own last component. |
| S3.FileKeys | repoman/backend/s3.py:59-60 | The file keys are exactly the keys without a trailing '/'. |
| S3.LastComponents | repoman/backend/s3.py:63 | Each listed key is replaced by its last component, in order. |
| S3.KeyDirsAreLastComponents | repoman/backend/s3.py:59-63 | The directory names `key_dirs` gives are single components, so taking their last component leaves them unchanged. |
| S3.ListDir | repoman/backend/s3.py:47-63 | An unknown kind raises ValueError; 'files' gives the last components of all file keys under the prefix; 'dirs' gives each directory of `key_dirs` once; 'all' gives the files followed by the directories. |
| S3.ShallowFileNames | repoman/backend/s3.py:47-63 | The shallow file listing names exactly the keys that are single components directly below the path. |
| S3.ShallowFileNamesIff | repoman/backend/s3.py:47-63 | A name is in the shallow listing exactly when it is a single component whose join with the path is a key. |
| S3.ShallowListingMatchesBackend | repoman/backend/s3.py:47-63 | Over the keys of a blob store, the shallow listing is the in-memory backend's file listing, as the interface's "non-recursively" requires. |
| S3.FilesListingReachesIntoSubdirs | repoman/backend/s3.py:59-63 | As written, 'files' also lists a key two levels down by its last component, which the shallow listing does not. |
| Storage.BlobNameIsPlain | repoman/storage.py:36-38 | The name `<hash>-<basename>` is a single component, so the blob sits directly in the storage directory and `relpath` recovers its name. |
| Storage.BlobName | repoman/storage.py:36-38 | The blob name is the hash, then '-', then the basename of the local file. |
| Storage.Md5IndexIsSound | repoman/storage.py:50-55 | The index `load_md5s` builds maps each hash to a stored blob with that hash. |
| Storage.DropLocationKeepsSound | repoman/storage.py:42-48 | Dropping the entries that point at a deleted blob keeps the index sound and keeps every other entry. |
| Storage.RemovedBlobStaysIndexed | repoman/storage.py:46-48 | When `remove_file` leaves the index unchanged, the index points at a deleted blob and is no longer sound. |
| Storage.Basenames | repoman/storage.py:76 | Each listed path is replaced by its basename, in order. |
| Storage.FileStorage.constructor | repoman/storage.py:22-27 | A storage starts with its backend, path and URL and with no index loaded. |
| Storage.FileStorage.LoadMd5s | repoman/storage.py:50-55 | The index is rebuilt as an index of the storage directory. |
| Storage.FileStorage.EnsureMd5s | repoman/storage.py:3-9 | The decorator loads the index only when none is loaded, so a loaded index is never rebuilt. |
| Storage.FileStorage.AddFile | repoman/storage.py:29-40 | The file is uploaded to `<path>/<hash>-<basename>` and that destination is returned; the index is loaded first if it was not, over the blobs before the upload, and the new blob is not added to it. |
| Storage.FileStorage.RemoveFile | repoman/storage.py:42-48 | As written: a missing blob raises IOError and changes nothing; otherwise the blob is deleted, and with a loaded index the call then raises TypeError and leaves the index as it was. |
| Storage.FileStorage.RemoveFileAndForget | repoman/storage.py:42-48 | As intended: the blob is deleted (IOError and no change when it is missing), the entries pointing at it leave a loaded index, and a sound index stays sound. |
| Storage.FileStorage.IsMd5Present | repoman/storage.py:57-62 | After loading the index if need be, the answer is whether the hash is a key of the index. |
| Storage.FileStorage.FileForMd5 | repoman/storage.py:64-73 | After loading the index if need be, the result is the indexed location of the hash, or None exactly when the index lacks it. |
| Storage.FileStorage.GetAllFiles | repoman/storage.py:75-76 | The names of exactly the blobs directly in the storage directory, each once, read from the backend each time. |
| Documents.ReadDoc | repoman/repo.py:21 | A read gives the stored document, or IOError naming the path exactly when none is stored. |
| Documents.SourceDocs | repoman/repo.py:322 | One source document per URL, in order. |
| Documents.FileDocs | repoman/repo.py:321-329 | One file document per file entry, in order. |
| Documents.ParseSources | repoman/repo.py:311 | Reading the 'Url' of each source gives one URL per source. |
| Documents.ParseFiles | repoman/repo.py:308-316 | Reading 'Files' gives one file entry per document, and the first bad entry raises. |
| Documents.VersionDoc | repoman/repo.py:319-337 | What `Version.save` writes: ApiVersion 0, the id, the name and the files; `Documents.VersionRoundTrip` reads it back. |
| Documents.ParseVersionDoc | repoman/repo.py:298-317 | A version document parses only when ApiVersion is 0 and Id equals the requested id, and then gives one file entry per element of 'Files'. |
| Documents.SourcesRoundTrip | repoman/repo.py:311 | The sources `Version.save` writes read back as the same URLs. |
| Documents.FileRoundTrip | repoman/repo.py:312-316 | A file document `Version.save` writes reads back as the same file entry. |
| Documents.FilesRoundTrip | repoman/repo.py:308-316 | The files `Version.save` writes read back as the same list, in order. |
| Documents.ParseFilesEach | repoman/repo.py:308-316 | A list of file entries that each parse parses to the list of their results, in order. |
| Documents.VersionRoundTrip | repoman/repo.py:298-317 | A saved version document loads back under its own id with the same files; under any other id it fails the Id assertion. |
| Documents.VersionDocFields | repoman/repo.py:330-335 | The version document carries ApiVersion 0, the version's id and its file list. |
| Documents.SummaryDocs | repoman/repo.py:209 | One summary document per summary, in order. |
| Documents.ParseSummaries | repoman/repo.py:196-201 | Reading 'Versions' gives one summary per entry. |
| Documents.IndexDoc | repoman/repo.py:205-214 | What `save_index` writes: the summaries in order, an empty 'Channels' and ApiVersion 0; `Documents.IndexRoundTrip` reads it back. |
| Documents.ParseIndex | repoman/repo.py:191-201 | An index reads as None exactly when its ApiVersion is not 0, and otherwise as one summary per element of 'Versions'. |
| Documents.SummariesRoundTrip | repoman/repo.py:196-201 | The summaries `save_index` writes read back as the same list. |
| Documents.IndexRoundTrip | repoman/repo.py:191-201 | An `index.json` written by `save_index` reads back as the same summaries in the same order. |
| Documents.ChannelEntries | repoman/repo.py:136 | One `todict` entry per channel, in order. |
| Documents.ChannelsDoc | repoman/repo.py:131-137 | What `Platform.save` writes: format_version 0 and the channels' entries; `Documents.ChannelsRoundTrip` reads it back. |
| Documents.ParseChannelEntry | repoman/repo.py:184-187 | An entry reads exactly when its id, name, description and url are strings, and gives those four fields. |
| Documents.ChannelEntryRoundTrip | repoman/repo.py:184-187 | The entry `todict` writes reads back as the same id, name, description and URL. |
| Documents.ConfigDoc | repoman/repo.py:32-38 | What `Collection.save` writes: the three settings; `Documents.ConfigRoundTrip` reads them back. |
| Documents.ParseConfig | repoman/repo.py:21-27 | `config.json` reads exactly when base_url, storage_url and storage_path are strings, and gives those three settings. |
| Documents.ConfigRoundTrip | repoman/repo.py:21-27 | The settings `Collection.save` writes load back unchanged. |
| Documents.ChannelsRoundTrip | repoman/repo.py:121-128 | The entries `Platform.save` writes load back as the same channels in order, given each channel's index document at `<platform>/<id>`. |
| Documents.PlatformRoundTrip | repoman/repo.py:111-129 | A saved platform whose channels' indexes are in place loads back with the same channels in order. |
| Documents.ChannelsDocFields | repoman/repo.py:134-137 | `channels.json` carries format_version 0 and the channels' entries. |
| Documents.LoadPlatformOf | repoman/repo.py:115-129 | Past its format check, `Platform.load` is the channel list of the entries it read. |
| Documents.LoadChannelsSpec | repoman/repo.py:121-128 | A platform has no more channels than its `channels.json` has entries. |
| Documents.LoadVersionSpec | repoman/repo.py:298-317 | A missing `<chan_dir>/<id>.json` raises IOError naming it; a present one loads as its parse under the requested id. |
| Documents.LoadChannelSpec | repoman/repo.py:177-203 | A channel loads only when its entry parses and `<platform>/<id>/index.json` exists, whose absence raises IOError naming it; a loaded channel carries the entry and the path `<platform>/<id>`. |
| Documents.LoadPlatformSpec | repoman/repo.py:111-129 | A missing `channels.json` raises IOError naming it; a loaded platform has no more channels than the document has entries. |
| Documents.VersionPathIsNotIndexPath | repoman/repo.py:346-347 | A version document never overwrites the channel index, because `<id>.json` starts with a digit or '-'. |
| Paths.BasenameOfJoin | repoman/cleanup.py:105 | Joining a single component to a directory and taking the basename gives the component back. |
| Paths.RelPathOfJoin | repoman/push.py:54 | The path of `join(start, n)` relative to `start` is `n` for a single component `n`. |
| Paths.Join | repoman/storage.py:38 | `os.path.join` of two parts, as `Paths.JoinParts` states it. |
| Paths.JoinParts | repoman/storage.py:38 | `join(a, b)` ends with `b`; an absolute `b` is the whole result; a relative `b` follows `a` with one '/' between them when `a` is not empty and does not end with one. |
| Paths.Basename | repoman/cleanup.py:105 | `os.path.basename`, as `Paths.BasenameParts` states it. |
| Paths.BasenameParts | repoman/cleanup.py:105 | The basename is the final stretch of the path that holds no '/'; it is empty exactly when the path is empty or ends with '/'. |
| Paths.NormWalked | repoman/push.py:56 | The path a walk yields loses its leading "./" and nothing else. |
| Repo.FirstName | repoman/repo.py:240-244 | The name `get_version` loads under: present exactly when some summary has the id, and then the name of a summary with that id. |
| Repo.FirstNameAt | repoman/repo.py:240-244 | The first summary with the id decides the name. |
| Repo.FirstNameAppend | repoman/repo.py:253 | Appending a summary changes the name looked up for its id only when the id was not listed before. |
| Repo.FindSummary | repoman/repo.py:240-244 | The scan over the summaries finds the name of the first summary with the id. |
| Repo.VersionView | repoman/repo.py:234-244 | What `get_version` gives, as `Repo.VersionViewCases` states it. |
| Repo.VersionViewCases | repoman/repo.py:234-244 | A cached id gives the cached version; otherwise None exactly when no summary has the id, and a loaded version carries that id and the channel directory, and fails exactly when its document does not load. |
| Repo.ChannelVersionsSpec | repoman/repo.py:273-285 | A successful listing has no more versions than summaries. |
| Repo.ChannelVersionsCases | repoman/repo.py:273-285 | The listing succeeds exactly when every summary the predicate admits looks up without error, and otherwise fails with the error of one of those lookups. |
| Repo.MaxId | repoman/repo.py:269 | The id `sorted(..., key=int(id))[-1]` picks is carried by some summary and no summary's id exceeds it. |
| Repo.LatestIsMax | repoman/repo.py:265-271 | Loaded afresh, the latest version is None exactly for an empty channel, and otherwise carries an id that no summary exceeds. |
| Repo.Datas | repoman/repo.py:283-285 | The data of each version of a list, in order. |
| Repo.OptData | repoman/repo.py:265-271 | The data of a version that may be None is None exactly when the version is. |
| Repo.WithoutId | repoman/repo.py:257-262 | The summaries left after deleting an id are exactly those without it, and nothing changes when no summary has the id. |
| Repo.AgreeingCacheListing | repoman/repo.py:234-244 | With a cache that agrees with the documents, a listing yields what loading every version afresh yields. |
| Repo.CachingListingIsInvisible | repoman/repo.py:243 | Caching what `get_version` just loaded changes nothing that the rest of the listing yields. |
| Repo.CachingKeepsAgreement | repoman/repo.py:243 | Caching what a lookup gives keeps a cache in agreement with the documents. |
| Repo.AddVersionReadsBack | repoman/repo.py:246-255 | After `add_version` the index lists the new summary last, and its id loads the new files under the first name listed for that id. |
| Repo.DuplicateIdShadowsName | repoman/repo.py:246-255 | As written, adding id 1 named "b" to a list that has id 1 named "a" leaves two summaries with id 1, and the id still looks up "a". |
| Repo.AddSummaryChecked | repoman/repo.py:246-255 | As intended: the append is rejected with an IntegrityError exactly when some summary already has the id, and otherwise appends the new summary. |
| Repo.CheckedAddKeepsIdsUnique | repoman/repo.py:246-255 | The checked append keeps ids unique, and the new id then looks up its own name. |
| Repo.Version.constructor | repoman/repo.py:339-344 | A version holds its backend, channel directory, id, name and files. |
| Repo.Version.Load | repoman/repo.py:298-317 | The load succeeds exactly when the document at `<chan_dir>/<id>.json` parses with ApiVersion 0 and the requested id; the version then holds that document's files, and otherwise the load raises the parsing error. |
| Repo.Version.Save | repoman/repo.py:319-337 | The version document is written at `<chan_dir>/<id>.json`, and only there. |
| Repo.Channel.constructor | repoman/repo.py:224-232 | A channel holds the given fields and an empty version cache. |
| Repo.Channel.ToDict | repoman/repo.py:216-222 | The entry reads back as the channel's id, name, description and URL. |
| Repo.Channel.Load | repoman/repo.py:177-203 | The channel of an entry, with the summaries of its `index.json` and an empty cache; null when that index's ApiVersion is not 0; the reading error otherwise. |
| Repo.Channel.SaveIndex | repoman/repo.py:205-214 | `index.json` gets the summaries in list order, and nothing else is written. |
| Repo.Channel.GetVersion | repoman/repo.py:234-244 | A cached version comes back with no read. Otherwise the version is loaded under the first summary with the id and cached; None means no summary has the id. The result is what the documents show, and a cache that agreed still agrees. |
| Repo.Channel.AddVersion | repoman/repo.py:246-255 | The version document is written first, then the summary is appended and `index.json` rewritten; an id already listed is not rejected. |
| Repo.Channel.DeleteVersion | repoman/repo.py:257-262 | As the documentation describes it: the summaries with the id leave the list and the cache, and `index.json` is rewritten; the version document and the blobs stay. |
| Repo.Channel.DeleteVersionAsWritten | repoman/repo.py:257-263 | As written, the method takes no id: a call with one raises TypeError, and one without succeeds and does nothing. |
| Repo.Channel.GetLatestVsn | repoman/repo.py:265-271 | None for an empty channel, with the cache untouched; else `get_version` of the largest id, as the documents show it. |
| Repo.Channel.AllVersionsWhere | repoman/repo.py:273-285 | The versions of the summaries that satisfy the predicate, each loaded through `get_version`, in list order; the first load that raises ends the listing with its error. |
| Repo.Channel.ListNext | repoman/repo.py:283-285 | One summary of the listing moves the result on by what the specification yields for that summary. |
| Collections.StatesOf | repoman/repo.py:145 | The state of each channel slot of a platform, None exactly for a null slot. |
| Collections.IdsOf | repoman/repo.py:156-157 | The id of each channel slot, None for a null slot. |
| Collections.LiveInfos | repoman/repo.py:136 | The entries `save` writes, one per slot; None exactly when some slot is null, where `todict` raises. |
| Collections.Unwrap | repoman/repo.py:123-128 | Without null slots, the channel states in order. |
| Collections.UnwrapInverts | repoman/repo.py:131-137 | Without nulls, unwrapping loses nothing, neither the states nor the entries `save` writes. |
| Collections.PlatformSaveLoads | repoman/repo.py:111-137 | `Platform.save` then `Platform.load` gives back the channel list, when each channel lives at `<platform>/<id>` and its index is in place. |
| Collections.LoadStepAt | repoman/repo.py:124-128 | An entry contributes its channel (or null) when the channel loads. When it does not, it contributes nothing if its id can be reported, and the error of reading the id otherwise. |
| Collections.LoadEntry | repoman/repo.py:124-128 | One entry of the load loop moves the channel list on by exactly what that entry contributes. |
| Collections.LoadChannels | repoman/repo.py:121-128 | The loop over the entries builds the channels the specification gives, in order, each a distinct fresh object with an empty cache. |
| Collections.FindChannel | repoman/repo.py:156-159 | The scan stops at the first slot that carries the id or is null (where `ch.id` raises); it finds nothing exactly when every slot is a channel with another id. |
| Collections.FindChannelAt | repoman/repo.py:156-158 | The first null slot or the first slot with the id decides the scan. |
| Collections.NotFoundMeansNoNull | repoman/repo.py:156-159 | A scan that runs off the end met no null slot. |
| Collections.NewChannelState | repoman/repo.py:161-165 | The channel `new_channel` builds: name defaulting to the id, URL `<base><platform>/<id>/`, path `<platform path>/<id>`, no versions. |
| Collections.LookupSpec | repoman/repo.py:50-64 | What `get_platform` gives, as `Collections.LookupCases` states it. |
| Collections.LookupCases | repoman/repo.py:50-64 | A cached name is never loaded again and comes back as the name. A lookup fails only with the loader's non-IOError, and it is None exactly when loading raises an IOError, which a missing `channels.json` does. |
| Collections.LookupQuirks | repoman/repo.py:57-60 | As written, a loaded platform is cached under "name" and not its own name: looking it up again loads it again, and the key "name" answers with the string "name". |
| Collections.LookupFixed | repoman/repo.py:50-64 | As intended: the cache maps names to platforms, and a cached platform comes back as itself. |
| Collections.CacheAfterFixed | repoman/repo.py:60 | As intended, a freshly loaded platform is cached under its own name. |
| Collections.FixedLookupIsStable | repoman/repo.py:50-64 | A corrected lookup that finds a platform finds the same one again, whatever the documents say by then; before the first load it answers as the source does for a name not yet cached. |
| Collections.LookupsSpec | repoman/repo.py:75-78 | One lookup per listed platform directory. |
| Collections.OptDatas | repoman/repo.py:99-102 | The data of each version that may be None, in order. |
| Collections.ListedWhenAdmitted | repoman/repo.py:283-285 | A summary that the predicate admits and whose version loads is in the channel's listing. |
| Collections.LatestAmongSlots | repoman/repo.py:99-102 | Over the channels of a platform, when the generator runs out, every latest version it yielded is among all their versions. |
| Collections.LatestAmongAll | repoman/repo.py:95-102 | When both generators run out, `all_latest_versions` yields no version that `all_versions_where` with an always-true predicate does not. |
| Collections.SlotVersionsWhere | repoman/repo.py:91-93 | One channel slot's versions that satisfy the predicate; a null slot raises. |
| Collections.SlotsVersionsWhere | repoman/repo.py:91-93 | Over the channels of a platform whose caches agree with the documents, the listing is what listing freshly loaded channels yields, channel by channel. |
| Collections.SlotLatest | repoman/repo.py:100-102 | One channel slot's latest version; a null slot raises. |
| Collections.SlotsLatest | repoman/repo.py:100-102 | The loop yields each channel's latest version in order, as the documents show it; the first channel that raises (a null slot, a document that does not load) ends the generator with that error after the versions yielded before it. |
| Collections.SlotsLatestAt | repoman/repo.py:100-102 | One channel slot either ends the generator with its error, yielding nothing more, or yields its latest version ahead of the later slots' ones. |
| Collections.SlotsLatestStep | repoman/repo.py:100-102 | With any items already yielded, one slot either ends the generator with its error after them, or adds its latest version after them ahead of the later slots. |
| Collections.SlotsLatestNext | repoman/repo.py:100-102 | One turn of the loop, with every channel's cache still agreeing: `get_latest_vsn` of slot `j` either ends the generator with its error after the items so far, or adds that version's data after them. |
| Collections.Platform.constructor | repoman/repo.py:139-145 | A platform holds its collection, backend, name, channels and the path `<collection>/<name>`. |
| Collections.Platform.Load | repoman/repo.py:111-129 | `channels.json` of `<collection>/<name>` with format_version 0, then each entry's channel in order, leaving out an entry whose channel fails to load; any other outcome is the error the specification names. |
| Collections.Platform.Save | repoman/repo.py:131-137 | format_version 0 and every channel's entry in order go to `channels.json`; a null slot raises before anything is written. |
| Collections.Platform.NewChannel | repoman/repo.py:161-168 | A fresh channel with the default name, URL and path and no versions is appended, then `channels.json` is saved; the channel stays appended when saving raises. |
| Collections.Platform.ScanChannels | repoman/repo.py:156-158 | The scan finds the first slot that is null or carries the id. |
| Collections.Platform.GetChannel | repoman/repo.py:147-159 | The first channel with the id comes back with the list unchanged and nothing written; a null slot met first raises; when no channel has the id, `new_channel(id)` runs. |
| Collections.Collection.constructor | repoman/repo.py:40-48 | A collection holds its backend, path, URL and storage, and an empty platform cache. |
| Collections.Collection.Load | repoman/repo.py:17-30 | The three settings of `config.json`, with a storage that has no index yet; a missing document or setting raises. |
| Collections.Collection.Save | repoman/repo.py:32-38 | The three settings go to `config.json`, and only there. |
| Collections.Collection.GetPlatform | repoman/repo.py:50-64 | A cached name comes back as the name itself. Otherwise the platform is loaded and cached under the key "name"; an IOError gives None, and any other error propagates. |
| Collections.Collection.NewPlatform | repoman/repo.py:66-73 | An empty platform is registered under its id, and nothing is written. |
| Collections.Collection.LookupNext | repoman/repo.py:77-78 | One lookup of `list_platforms` leaves what the earlier lookups show as it was. |
| Collections.Collection.ListPlatforms | repoman/repo.py:75-78 | `get_platform` of every platform directory, each listed once, in listing order; only the key "name" joins the cache. |
| Collections.Collection.DirVersions | repoman/repo.py:90-93 | One platform directory of `all_versions_where`: the platform's channels' versions that satisfy the predicate. |
| Collections.Collection.DirLatest | repoman/repo.py:99-102 | One platform directory of `all_latest_versions`: what `get_platform` gives, then the latest version of each of its channels, as a generator that may end with an error. |
| Collections.Collection.AllVersionsWhere | repoman/repo.py:80-93 | For each platform directory in turn, the versions of its channels that satisfy the predicate, as freshly loaded objects would give them; the first error ends the listing. |
| Collections.AllVersionsAt | repoman/repo.py:80-93 | From directory `i` on, the listing is that directory's versions followed by the rest, and the first error ends it. |
| Collections.Collection.AllLatestVersions | repoman/repo.py:95-102 | For each platform directory in turn, every channel's latest version (None for an empty channel), in the order yielded; an error ends the generator after the versions yielded before it. |
| Push.Keys | repoman/push.py:67-72 | The keys of the dict, in insertion order. |
| Push.KeyIndex | repoman/push.py:71 | A key sits at a position whose item has that key. |
| Push.PutKeys | repoman/push.py:71 | Assigning to a dict key appends the key when it is new and leaves the keys as they are otherwise. |
| Push.PutItems | repoman/push.py:71 | After an assignment, every item is the new one or was there before. |
| Push.Hashes | repoman/push.py:68-71 | The hash of each walked file, in walk order. |
| Push.Md5DirSound | repoman/push.py:62-72 | Every key of `md5_dir` maps to a walked file with that hash. |
| Push.Md5DirComplete | repoman/push.py:62-72 | Every walked file's hash is a key of `md5_dir`. |
| Push.Md5DirOrder | repoman/push.py:62-72 | The keys are the distinct hashes in the order they first occur in the walk. |
| Push.Md5DirNoDup | repoman/push.py:62-72 | No hash is a key twice, so there are at most as many keys as walked files. |
| Push.Md5DirLastWins | repoman/push.py:71 | Of the walked files with one hash, the dict keeps the one walked last. |
| Push.Md5Dir | repoman/push.py:62-72 | The loop over the walk builds the dict the specification describes. |
| Push.Md5IndexIsLocal | repoman/storage.py:50-55 | Every location of the storage index names a single-component file directly in the storage directory. |
| Push.RemoteRelPath | repoman/push.py:54 | The remote location relative to the storage directory is its basename, whether the index had the hash or `add_file` just chose it. |
| Push.ExecutableIffOwnerBit | repoman/push.py:51-52 | A file is marked executable exactly when its mode has the owner-execute bit 0o100. |
| Push.PushFiles | repoman/push.py:43-56 | One UpdateFile per dict item. |
| Push.PushFilesAt | repoman/push.py:44-56 | The k-th UpdateFile is built from the k-th item. |
| Push.EntryDescribes | repoman/push.py:47-56 | An UpdateFile carries the normalised walked path, the hash, the permission bits and the executable flag. Its one source is the storage URL plus the blob's name: the indexed blob's, or else the name `add_file` gives the upload. |
| Push.PushFilesShape | repoman/push.py:44-56 | The k-th UpdateFile carries the k-th hash and the walked path and permissions of its file. |
| Push.PushFilesDistinct | repoman/push.py:38-56 | Each distinct hash gets one UpdateFile, so there are no more UpdateFiles than walked files. |
| Push.IdenticalFilesCollapse | repoman/push.py:62-72 | As written, two walked files with the same contents give one UpdateFile, for the file walked last. |
| Push.BlobFor | repoman/push.py:47-50 | The one blob `push` leaves for a hash: the indexed location, or where the dict's file for it is uploaded. |
| Push.EntryPerFile | repoman/push.py:51-56 | As intended, the UpdateFile of one walked file: its own path, permissions and flag, and the source of the one blob for its contents. |
| Push.PushFilesPerFile | repoman/push.py:43-56 | As intended: one UpdateFile per walked file, while uploads stay one per distinct hash. |
| Push.PushFilesPerFileAt | repoman/push.py:43-56 | The corrected k-th UpdateFile is the per-file entry of the k-th walked file. |
| Push.PerFileKeepsEveryFile | repoman/push.py:43-56 | Every walked file keeps its own UpdateFile with its path, hash and permissions, and its source is the source of the as-written UpdateFile for that hash, so identical files share one blob. |
| Push.PushFilesHas | repoman/push.py:44-56 | Every hash of the dict has an UpdateFile. |
| Push.PushFilesComplete | repoman/push.py:38-56 | Every walked file's hash has an UpdateFile. |
| Push.PushFilesSound | repoman/push.py:38-56 | Every UpdateFile describes a walked file with its hash, its walked path and its permissions. |
| Push.UploadsSound | repoman/push.py:47-50 | `push` uploads only files whose hash the index lacks, each to where `add_file` puts it. |
| Push.UploadsComplete | repoman/push.py:47-50 | `push` uploads every file whose hash the index lacks. |
| Push.PushOne | repoman/push.py:47-56 | One item: the index is loaded on the first lookup, the file is uploaded exactly when the index lacks its hash, and its UpdateFile is built. |
| Push.PushNext | repoman/push.py:44-56 | One turn of the loop moves the blobs, the log and the UpdateFiles on by that item. |
| Push.PushAll | repoman/push.py:43-56 | The loop over the dict items in order: the first turn loads the index when none is loaded, and the uploads, log and UpdateFiles are those of all the items. |
| Push.PushRest | repoman/push.py:43-56 | The later turns of the loop, with the index loaded and unchanged. |
| Push.Push | repoman/push.py:20-59 | The storage index is consulted (and loaded, the first time) for every hash. Only hashes it lacks are uploaded. The version is added once, after all the uploads, with one UpdateFile per hash; the version document and the index are the only documents written. |
| Cleanup.FileNamesIff | repoman/cleanup.py:119-121 | A name a version links to is the basename of some source of some file, and every such basename is one. |
| Cleanup.LinkedIff | repoman/cleanup.py:112-122 | `linked_files` holds exactly the names some listed version links to. |
| Cleanup.AddFileNames | repoman/cleanup.py:119-121 | Adding one version's names adds exactly the names it links to. |
| Cleanup.VersionsNames | repoman/cleanup.py:118-121 | The loop collects the names of all the listed versions. |
| Cleanup.LinkedFiles | repoman/cleanup.py:112-122 | The names that the versions of every channel link to, or the error listing them raises. |
| Cleanup.LatestNamesWithin | repoman/cleanup.py:124-134 | The names of the latest versions are among the names of all the versions they come from. |
| Cleanup.LatestWithinLinked | repoman/cleanup.py:124-134 | Over the same documents, `latest_files` is a subset of `linked_files` whenever both return. |
| Cleanup.LatestNamesErrPrefix | repoman/cleanup.py:130-133 | Once a prefix of the latest versions raises (a None has no `files`), so does the whole list, with that error. |
| Cleanup.LatestNamesOf | repoman/cleanup.py:130-133 | The loop collects each latest version's names until a None raises. |
| Cleanup.LatestNamesNone | repoman/cleanup.py:130-131 | Collecting the latest versions' names raises exactly when one of them is None, and then with AttributeError on `files`. |
| Cleanup.LatestErrorOrder | repoman/cleanup.py:130-133 | Because the generator is consumed as it yields, a None it yields raises AttributeError whatever error would end it later; without a None, only the generator's own error is raised. |
| Cleanup.EmptyChannelRaises | repoman/cleanup.py:130-131 | As written, one empty channel among the others makes `latest_files` raise instead of returning the others' names. |
| Cleanup.LatestNamesSkippingEmpty | repoman/cleanup.py:124-134 | As intended, an empty channel contributes no names; `Cleanup.SkippingEmptyIff` states the result. |
| Cleanup.SkippingEmptyIff | repoman/cleanup.py:124-134 | The corrected set holds exactly the names of the channels that have a latest version, and equals what the source returns whenever no channel is empty. |
| Cleanup.LatestFiles | repoman/cleanup.py:124-134 | The names the yielded latest versions link to, each version's names taken as it is yielded: a None raises AttributeError before any error that ends the generator later, and that error is raised otherwise. |
| Cleanup.NoneDead | repoman/cleanup.py:106-107 | `len(files - stored) == 0` holds exactly when all the names are stored. |
| Cleanup.LiveIff | repoman/cleanup.py:101-109 | A live name is a name of some version whose every name is stored, and every name of such a version is live. |
| Cleanup.LiveWithinStorage | repoman/cleanup.py:101-109 | Every live name is stored and linked. |
| Cleanup.LiveStep | repoman/cleanup.py:106-109 | One more version adds its names exactly when none of them is missing. |
| Cleanup.LiveNext | repoman/cleanup.py:102-109 | One turn of the loop adds the version's names when none is missing from storage. |
| Cleanup.LiveNames | repoman/cleanup.py:101-109 | The loop collects the live names of all the listed versions. |
| Cleanup.LiveVersions | repoman/cleanup.py:97-110 | The names of the versions that miss no blob, against the blobs in storage, or the error listing the versions raises. |
| Cleanup.LocationsMiss | repoman/cleanup.py:70-71 | Names without a '/' have distinct locations, so a name not yet deleted still has its blob. |
| Cleanup.RemoveNext | repoman/cleanup.py:71 | One `remove_file` deletes that name's blob and logs it, or raises IOError and changes nothing; a sound index stays sound. |
| Cleanup.RemoveAll | repoman/cleanup.py:69-71 | The names are deleted one by one in an order the model leaves open, each at most once, until one raises. When every name is a stored file, all are deleted. Exactly the blobs of the names deleted are gone, and a sound index stays sound. |
| Cleanup.Orphans | repoman/cleanup.py:66 | The orphans are the stored names that no version links to, and every other stored name is linked. |
| Cleanup.OrphanFiles | repoman/cleanup.py:58-71 | The orphans are computed from the linked names and the stored blobs; only with `delete` are they removed, and then exactly their blobs are gone. |
| Cleanup.Obsolete | repoman/cleanup.py:86-87 | The stored names split into those no latest version links to and those a latest version links to. |
| Cleanup.ObsoleteFiles | repoman/cleanup.py:78-91 | The obsolete names are computed from the latest versions' names; only with `delete` are they removed, and then exactly their blobs are gone. |
| Cleanup.VersionIds | repoman/cleanup.py:49-51 | The ids of the listed versions, in order. |
| Cleanup.KeepWithoutId | repoman/repo.py:257-262 | Deleting an id and then keeping the summaries outside a set of ids is keeping those outside the set with the id added. |
| Cleanup.BelowIds | repoman/cleanup.py:49 | The ids below the cut among the summaries: every summary below the cut has its id there, and no id there reaches the cut. |
| Cleanup.KeepAtLeast | repoman/cleanup.py:49 | Keeping the summaries whose id lies outside exactly the ids below the cut keeps those at or above the cut. |
| Cleanup.ListedBelow | repoman/cleanup.py:49 | `all_versions_where(lambda id, name: id < older_than)` lists only versions below the cut. |
| Cleanup.ListedAllBelow | repoman/cleanup.py:49 | Every summary below the cut has its version in the listing. |
| Cleanup.ListedIffBelow | repoman/cleanup.py:49 | A summary's id is among the listed ids exactly when it is below the cut. |
| Cleanup.DeleteOldSpec | repoman/cleanup.py:48-51 | The loop of `delete_old` over the summaries still to visit: those at or above the cut are skipped, and the others are visited in turn until one fails. |
| Cleanup.DeleteOldTurn | repoman/cleanup.py:49-51 | One visit: `get_version` of the id, which fails with its error or, on None, with AttributeError on `name`; then, with `commit`, the deletion or, as written, the TypeError. |
| Cleanup.DeletePassKeeps | repoman/cleanup.py:48-51 | A committed run that completes has deleted every id below the cut that it visited, and only those. |
| Cleanup.DeleteOldSparesNewer | repoman/cleanup.py:48-51 | Whatever the outcome, no summary at or above the cut is deleted and no summary is added. |
| Cleanup.DeleteOldDryRun | repoman/cleanup.py:48-51 | Without `commit`, the summaries, the documents and the write count stay, and the run completes exactly when the listing `all_versions_where` gives does, with the same error otherwise. |
| Cleanup.AsWrittenDeletesNothing | repoman/cleanup.py:48-51 | With the stub `delete_version`, nothing is ever deleted or written, and a committed run completes only when no summary it visits is below the cut. |
| Cleanup.DeleteOldKeepsNewer | repoman/cleanup.py:48-51 | A committed run that completes leaves exactly the summaries whose id is at least `older_than`, in their order. |
| Cleanup.DeleteOldNext | repoman/cleanup.py:49-51 | One turn of the loop moves the channel and the log on as the specification's step says. |
| Cleanup.DeleteOldVisit | repoman/cleanup.py:49-51 | The body of the loop for a summary below the cut, as the specification's visit says, with one `index.json` write per deletion. |
| Cleanup.DeleteOldRun | repoman/cleanup.py:48-51 | The whole loop, with either `delete_version`, as the specification says; the log gains one `index.json` write per deletion. |
| Cleanup.DeleteOld | repoman/cleanup.py:48-51 | The loop walks the summary list as it was at the start, as the generator does. Each summary below the cut is looked up through `get_version`, which may raise or give None, so `vsn.name` raises AttributeError. With `commit` its summary is then deleted and `index.json` rewritten before the next lookup, so an error leaves the deletions made before it. A committed run that completes keeps exactly the summaries at or above the cut. Summaries at or above the cut always stay. Without `commit` nothing is written, and the run completes exactly when the listing does. |
| Cleanup.DeleteOldAsWritten | repoman/cleanup.py:48-51 | As written: with `commit`, the first summary below the cut that loads makes `delete_version(vsn.id)` raise TypeError; the summaries, the documents and the log are always unchanged, and a committed run completes only when no summary is below the cut. |
| Cleanup.ModSources | repoman/cleanup.py:22 | Every source URL is rewritten by the substitution, in order. |
| Cleanup.ModUrl | repoman/cleanup.py:32-35 | `mod_url` is the substitution applied to the URL; `Cleanup.IdentityKeepsFiles` and `Cleanup.IdentityKeepsSlots` show that a substitution which changes no URL changes nothing. |
| Cleanup.ModFiles | repoman/cleanup.py:21-22 | Every file entry keeps its path, MD5, permissions and executable flag, and gets its sources rewritten. |
| Cleanup.ModSlots | repoman/cleanup.py:27-28 | Every channel keeps its id, name, description, path and versions and gets its URL rewritten; null slots stay null. |
| Cleanup.IdentityKeepsFiles | repoman/cleanup.py:21-22 | A substitution that leaves every URL as it is leaves every file entry as it is. |
| Cleanup.IdentityKeepsSlots | repoman/cleanup.py:27-28 | A substitution that leaves every URL as it is leaves every channel as it is. |
| Cleanup.LiveInfosOfModSlots | repoman/cleanup.py:27-29 | After rewriting, `channels.json` gets the same channels with rewritten URLs. |
| Cleanup.DryRunVersions | repoman/cleanup.py:20-23 | Without `commit`, the version loop of one channel writes nothing. |
| Cleanup.DryRunSlots | repoman/cleanup.py:20-23 | Without `commit`, the version loop over a platform's channels writes nothing. |
| Cleanup.DryRunDirs | repoman/cleanup.py:20-23 | Without `commit`, the version loop over the platform directories writes nothing. |
| Cleanup.DryRunPlatforms | repoman/cleanup.py:26-29 | Without `commit`, the platform loop writes nothing. |
| Cleanup.DryRunWritesNothing | repoman/cleanup.py:18-29 | Without `commit`, `mod_urls` writes no document. |
| Cleanup.VersionsOnlyWrite | repoman/cleanup.py:20-23 | The version loop of one channel only adds writes to the log and removes no document. |
| Cleanup.SlotsOnlyWrite | repoman/cleanup.py:20-23 | The version loop over a platform's channels only adds writes and removes no document. |
| Cleanup.DirsOnlyWrite | repoman/cleanup.py:20-23 | The version loop over the platform directories only adds writes and removes no document. |
| Cleanup.PlatformsOnlyWrite | repoman/cleanup.py:26-29 | The platform loop only adds writes and removes no document. |
| Cleanup.ModUrlsOnlyWrites | repoman/cleanup.py:18-29 | `mod_urls` only adds writes to the log and removes no document. |
| Cleanup.ModVersionFiles | repoman/cleanup.py:21-22 | The loaded version's files are rewritten in place. |
| Cleanup.ModCached | repoman/cleanup.py:21-22 | Rewriting the version cached under an id changes what the cache holds at that id only. |
| Cleanup.ModLoaded | repoman/cleanup.py:21-23 | The loaded version's files are rewritten, then, with `commit`, its document is saved: as the specification's step says. |
| Cleanup.ModNextVersion | repoman/cleanup.py:20-23 | One version of the loop: `get_version`, then the rewrite and the save, as the specification's step says; no version object is cached under two ids. |
| Cleanup.CachingFresh | repoman/repo.py:243 | Caching a version that no id holds yet keeps the cache free of aliases and adds only that version. |
| Cleanup.ModChannelVersions | repoman/cleanup.py:20-23 | The version loop over one freshly loaded channel, as the specification says. |
| Cleanup.ModVersionsAt | repoman/cleanup.py:20-23 | From summary `i` on, the version loop is that summary's step, then the rest unless the step raised. |
| Cleanup.ModSlotsVersions | repoman/cleanup.py:20-23 | The version loop over a platform's channels, as the specification says. |
| Cleanup.ModSlotAt | repoman/cleanup.py:20-23 | One channel of a platform has its versions rewritten while the later channels' caches stay empty. |
| Cleanup.ModDir | repoman/cleanup.py:20-23 | One platform directory of the version loop, as the specification says. |
| Cleanup.ModAllVersions | repoman/cleanup.py:20-23 | The version loop over every platform directory, as the specification says. |
| Cleanup.ModChannelUrls | repoman/cleanup.py:27-28 | Every channel's URL is rewritten; a null slot raises (None has no `url`). |
| Cleanup.ModSlotUrls | repoman/cleanup.py:27-28 | Stated over the channels' states: without null slots, the states after the loop are the rewritten states. |
| Cleanup.ModLoadedPlatform | repoman/cleanup.py:27-29 | A loaded platform's channel URLs are rewritten, then, with `commit`, `channels.json` is saved: as the specification's step says. |
| Cleanup.SavedChannels | repoman/cleanup.py:27-29 | With no null slot, the platform step saves the rewritten channels exactly when `commit` is set. |
| Cleanup.ModPlatform | repoman/cleanup.py:26-29 | One platform directory of the platform loop, as the specification says. |
| Cleanup.ModPlatforms | repoman/cleanup.py:26-29 | The platform loop over every platform directory, listed after the version loop, as the specification says. |
| Cleanup.ModPlatformsAt | repoman/cleanup.py:26-29 | From directory `i` on, the platform loop is that directory's step, then the rest unless the step raised. |
| Cleanup.ModUrls | repoman/cleanup.py:18-29 | Every version's file sources, then every platform's channel URLs, are rewritten in the loaded objects, as the specification says. Only with `commit` is anything saved; a dry run leaves the documents and the log as they were. |

## Left out

- Python's `re.sub` is not modelled. The substitution is a function parameter (`Cleanup.Rewrite.reSub`) applied to the pattern, the replacement and the URL.
- Every `print` is left out. This includes the messages of `mod_url`, `delete_old`, the sweeps and `live_versions`, whose output is what the command is for: `Cleanup.LiveVersions` returns the set it would print.
- Files, the network, S3 through boto, `os.chdir` and `os.walk` are left out. The backend is an in-memory store of documents and blobs, and the release directory `push` walks is a given list of local files (path, contents, mode) in walk order.
- `hash_file` and MD5 itself are left out. The digest is a function the backend carries; `get_md5` and local hashing both use it. An S3 ETag is not in every case the MD5 of the object, and that is not modelled.
- `sanitize_file_name` and the `NotImplementedError` bodies of the base `Backend` are not modelled; the in-memory backend stands in for a concrete backend.
- `repoman/pushfile.py`, the command-line wiring (`command.py`, `repoman.py`, `create.py`) and the disk backend are not part of this model.
- `os.path.relpath` is modelled only for a path that is a single component joined to the start directory, the only case `push` meets. `os.path.normpath` is modelled only for the paths the walk yields.
- Integer ids: version ids are ints throughout. `push` receives `vsn_id` as a string from the command line, and the comparison in `Version.load` and the `int(id)` sort of `get_latest_vsn` are then about strings; that case is not modelled.
- JSON values are typed: a field read with the wrong JSON type raises TypeError in the model, where Python would carry the value along and fail later or not at all.
- The generators are modelled in three ways, depending on their consumer:
  - `linked_files` and `live_versions` only read what is yielded and raise nothing of their own, so there the listing is built eagerly together with the error that ends it;
  - `latest_files` raises on a yielded None, so `all_latest_versions` gives its items together with how it ended (`Yields`), and the consumer handles every item before that ending;
  - `delete_old` and `mod_urls` change state as they go, so their loops run the body on each version as it is yielded.
- `delete_old`: the loop walks the summary list as it was when the generator started. The documented `delete_version` is modelled as assigning a new list without the id, so the generator keeps walking the old list object while `get_version` sees the new one. An in-place removal, which would make a Python list iterator skip the next summary, is not modelled.
- The iteration order of a Python set (`key_dirs`, `to_delete` in the sweeps) is left open. The methods report the order they used, and their contracts hold for every order.
- The lazy `map` of `Version.load` is modelled eagerly: a bad source entry raises at load time.
- Concurrent writers to one repository are not modelled.
- Backends.Backend.DeleteFile: a missing blob raises IOError, as the disk backend does; the S3 backend would raise AttributeError on the missing key instead.
- Push.Push: requires that an index that is already loaded is local to the storage directory. `Push.Md5IndexIsLocal` proves this of every index `load_md5s` builds, so it holds whenever the index came from the storage itself.
- Cleanup.OrphanFiles, Cleanup.ObsoleteFiles: the storage's `remove_file` used by the sweeps is the corrected `Storage.FileStorage.RemoveFileAndForget` (see Findings); with the method as written, a sweep over a storage whose index is loaded would stop with TypeError after the first deletion.

- `add_version`, `push`'s dict, `latest_files` and `get_platform` keep the source's behaviour in the methods (`Repo.Channel.AddVersion`, `Push.Push`, `Cleanup.LatestFiles`, `Collections.Collection.GetPlatform`). The corrected behaviour of each is stated as specification functions with their lemmas beside it (see Findings). It is not wired into the methods, because later operations in the model depend on what the source does.

## Findings

| source | as written | input that shows it | evidently intended | confidence | as-written member | corrected member |
|---|---|---|---|---|---|---|
| repoman/backend/s3.py:59-63 | 'files' takes every file key the bucket lists under the prefix and keeps its last component, so files in subdirectories are listed too | keys "p/a" and "p/sub/b" listed for path "p" give ["a", "b"] | only "a": the docstring says "non-recursively", and `md5_dir` then joins each name to the directory | high; not executed | S3.FilesListingReachesIntoSubdirs | S3.ShallowFileNames, S3.ShallowListingMatchesBackend |
| repoman/storage.py:46-48 | iterates the method `self.md5_map.items` without calling it, so the call raises TypeError after deleting the blob; the comprehension would also bind a local and compare with an undefined `path` | `remove_file("f")` with a loaded index that maps a hash to "s/f" | the entries pointing at the deleted blob leave `self.md5_map` | high; not executed | Storage.FileStorage.RemoveFile, Storage.RemovedBlobStaysIndexed | Storage.FileStorage.RemoveFileAndForget, Storage.DropLocationKeepsSound |
| repoman/repo.py:257-263 | `delete_version` takes only `self` and does nothing, so `delete_old` with `--commit` raises TypeError on its first listed version | `delete_old(channel, older_than=5, commit=True)` on a channel listing id 1 | the summary with the id leaves the list and `index.json` is rewritten, as the docstring says | high; not executed | Cleanup.DeleteOldAsWritten, Cleanup.AsWrittenDeletesNothing, Repo.Channel.DeleteVersionAsWritten | Cleanup.DeleteOld, Cleanup.DeleteOldKeepsNewer |
| repoman/repo.py:246-255 | `add_version` appends a summary whose id is already listed; the id then keeps loading under the first summary's name | `add_version(1, "b", files)` on a channel listing id 1 named "a" | a duplicate id is rejected, so ids stay unique | medium; not executed | Repo.Channel.AddVersion, Repo.DuplicateIdShadowsName | Repo.AddSummaryChecked, Repo.CheckedAddKeepsIdsUnique |
| repoman/push.py:62-72 | `md5_dir` keys the walked files by hash, so files with the same contents collapse to one dict item and one UpdateFile | a release with files `a` and `b` of equal contents gives one UpdateFile, for `b` | one UpdateFile per file, all of them pointing at the one blob for that content | high; not executed | Push.IdenticalFilesCollapse, Push.PushFilesDistinct | Push.PushFilesPerFile, Push.PerFileKeepsEveryFile |
| repoman/cleanup.py:130-131 | `vsn.files` is read on the None that `get_latest_vsn` returns for an empty channel, so `latest_files` raises AttributeError | a collection with one channel that has a version and one that has none | an empty channel contributes no names | high; not executed | Cleanup.EmptyChannelRaises, Cleanup.LatestErrorOrder | Cleanup.LatestNamesSkippingEmpty, Cleanup.SkippingEmptyIff |
| repoman/repo.py:56-60 | a cached name is returned as the name itself, and a loaded platform is cached under the literal key 'name' | `get_platform("win")` twice: both calls load the platform, and `get_platform("name")` then returns the string "name" | the cache maps each name to its platform, which a later lookup returns | high; not executed | Collections.LookupQuirks, Collections.Collection.GetPlatform | Collections.LookupFixed, Collections.FixedLookupIsStable |

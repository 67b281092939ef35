/**
 * A collection's content-addressed file storage (repoman/storage.py): blobs
 * named `<md5>-<basename>` in one directory of the backend, and an index
 * from hash to blob location that is built from the backend the first time
 * an operation needs it and never rebuilt.
 */
module Storage {
  import opened Wrappers
  import opened Paths
  import opened Seqs
  import opened Backends

  /** A file on the local disk: its path, its contents and its `st_mode`. */
  datatype LocalFile = LocalFile(path: string, contents: Bytes, mode: int)

  /** The name a file is stored under: its hash, a '-', and its own basename. */
  function BlobName(hash: HexDigest, file: string): (r: string)
    ensures |r| == |hash| + 1 + |Basename(file)|
    ensures r[..|hash|] == hash && r[|hash|] == '-' && r[|hash| + 1..] == Basename(file)
  {
    hash + "-" + Basename(file)
  }

  /** A blob name is a single component, so it sits directly in the storage directory and `relpath` recovers it. */
  lemma BlobNameIsPlain(path: string, hash: HexDigest, file: string)
    ensures Plain(BlobName(hash, file))
    ensures Basename(Join(path, BlobName(hash, file))) == BlobName(hash, file)
    ensures RelPath(Join(path, BlobName(hash, file)), path) == Some(BlobName(hash, file))
  {
    var n := BlobName(hash, file);
    assert n[|hash|] == '-';
    BasenameHasNoSlash(file);
    assert '/' !in hash;
    forall k | 0 <= k < |n| ensures n[k] != '/' {
      if k < |hash| {
        assert n[k] == hash[k];
      } else if k > |hash| {
        assert n[k] == Basename(file)[k - |hash| - 1];
      }
    }
    assert n != "." && n != ".." by {
      if |n| <= 2 {
        assert |hash| <= 1;
        if |hash| == 1 { assert n[1] == '-'; } else { assert n[0] == '-'; }
      }
    }
    BasenameOfJoin(path, n);
    RelPathOfJoin(path, n);
  }

  /** Every entry of `m` names a blob directly in `path` whose hash is the entry's key. */
  ghost predicate SoundIndex(m: map<string, string>, blobs: map<string, Bytes>, path: string, digest: Bytes -> HexDigest) {
    forall h :: h in m ==> m[h] in blobs && digest(blobs[m[h]]) == h && Join(path, Basename(m[h])) == m[h]
  }

  /** What `md5_dir` builds is sound. */
  lemma Md5IndexIsSound(m: map<string, string>, blobs: map<string, Bytes>, path: string, digest: Bytes -> HexDigest)
    requires IsMd5Index(m, blobs, path, digest)
    ensures SoundIndex(m, blobs, path, digest)
  {
    forall h | h in m ensures m[h] in blobs {
      FilesInIff(blobs, path, Basename(m[h]));
    }
  }

  /** The index with every entry that points at `loc` removed. */
  function DropLocation(m: map<string, string>, loc: string): map<string, string> {
    map h | h in m && m[h] != loc :: m[h]
  }

  /** Dropping the entries of a deleted blob keeps an index sound. */
  lemma DropLocationKeepsSound(m: map<string, string>, blobs: map<string, Bytes>, path: string,
                               digest: Bytes -> HexDigest, loc: string)
    requires SoundIndex(m, blobs, path, digest)
    ensures SoundIndex(DropLocation(m, loc), blobs - {loc}, path, digest)
    ensures forall h :: h in m && m[h] != loc ==> h in DropLocation(m, loc)
  {
  }

  /** As written, deleting a blob that the index knows leaves the index pointing at nothing. */
  lemma RemovedBlobStaysIndexed(digest: Bytes -> HexDigest)
    ensures SoundIndex(map[digest([]) := "s/f"], map["s/f" := []], "s", digest)
    ensures !SoundIndex(map[digest([]) := "s/f"], map["s/f" := []] - {"s/f"}, "s", digest)
  {
    assert TailStart("s/f") == 2;
    assert Join("s", "f") == "s/f";
    var blobs: map<string, Bytes> := map["s/f" := []];
    var m := map[digest([]) := "s/f"];
    assert digest([]) in m && m[digest([])] !in blobs - {"s/f"};
  }

  class FileStorage {
    const backend: Backend
    const path: string
    const url: string
    /** None until the index is first needed. */
    var md5Map: Option<map<string, string>>

    constructor (backend: Backend, path: string, url: string)
      ensures this.backend == backend && this.path == path && this.url == url
      ensures md5Map == None
    {
      this.backend := backend;
      this.path := path;
      this.url := url;
      md5Map := None;
    }

    /** `load_md5s`: (re)builds the index from the backend's listing of the storage directory. */
    method LoadMd5s()
      modifies this`md5Map
      ensures md5Map.Some? && IsMd5Index(md5Map.value, backend.blobs, path, backend.digest)
    {
      var m, _ := backend.Md5Dir(path);
      md5Map := Some(m);
    }

    /** The `md5s_loaded` decorator: load the index only while there is none, so it is built at most once. */
    method EnsureMd5s()
      modifies this`md5Map
      ensures old(md5Map).Some? ==> md5Map == old(md5Map)
      ensures old(md5Map).None? ==> md5Map.Some? && IsMd5Index(md5Map.value, backend.blobs, path, backend.digest)
      ensures md5Map.Some?
    {
      if md5Map == None {
        LoadMd5s();
      }
    }

    /**
     * `add_file(file)`: upload the file as `path/<hash>-<basename>` and return
     * that destination. The index is loaded first if it was not, and the new
     * blob is never added to it.
     */
    method AddFile(file: LocalFile) returns (dest: string)
      modifies this`md5Map, backend`blobs, backend`log
      ensures dest == Join(path, BlobName(backend.digest(file.contents), file.path))
      ensures backend.blobs == old(backend.blobs)[dest := file.contents]
      ensures backend.log == old(backend.log) + [Uploaded(dest)]
      ensures old(md5Map).Some? ==> md5Map == old(md5Map)
      ensures old(md5Map).None? ==> md5Map.Some? && IsMd5Index(md5Map.value, old(backend.blobs), path, backend.digest)
    {
      EnsureMd5s();
      var hash := backend.digest(file.contents);
      dest := Join(path, BlobName(hash, file.path));
      backend.UploadFile(file.contents, dest);
    }

    /**
     * `remove_file(name)` as written: the backend deletes `path/name`; then,
     * when the index is loaded, iterating the uncalled `md5_map.items` raises
     * TypeError, so the index is never updated.
     */
    method RemoveFile(name: string) returns (r: Outcome)
      modifies backend`blobs, backend`log
      ensures Join(path, name) !in old(backend.blobs) ==>
        r == Fail(IOError(Join(path, name))) && backend.blobs == old(backend.blobs) && backend.log == old(backend.log)
      ensures Join(path, name) in old(backend.blobs) ==>
        && backend.blobs == old(backend.blobs) - {Join(path, name)}
        && backend.log == old(backend.log) + [Deleted(Join(path, name))]
        && (r.Pass? <==> md5Map.None?)
        && (r.Fail? ==> r.error.TypeError?)
    {
      r := backend.DeleteFile(Join(path, name));
      if r.Pass? && md5Map != None {
        r := Fail(TypeError("'builtin_function_or_method' object is not iterable"));
      }
    }

    /** `remove_file(name)` as evidently intended: the deleted blob's entries leave the index too. */
    method RemoveFileAndForget(name: string) returns (r: Outcome)
      modifies this`md5Map, backend`blobs, backend`log
      ensures r.Pass? <==> Join(path, name) in old(backend.blobs)
      ensures r.Fail? ==>
        && r == Fail(IOError(Join(path, name)))
        && backend.blobs == old(backend.blobs) && backend.log == old(backend.log) && md5Map == old(md5Map)
      ensures r.Pass? ==>
        && backend.blobs == old(backend.blobs) - {Join(path, name)}
        && backend.log == old(backend.log) + [Deleted(Join(path, name))]
        && md5Map == (if old(md5Map).Some? then Some(DropLocation(old(md5Map).value, Join(path, name))) else None)
      ensures old(md5Map).Some? && SoundIndex(old(md5Map).value, old(backend.blobs), path, backend.digest) ==>
        md5Map.Some? && SoundIndex(md5Map.value, backend.blobs, path, backend.digest)
    {
      var loc := Join(path, name);
      r := backend.DeleteFile(loc);
      if r.Pass? && md5Map != None {
        if SoundIndex(md5Map.value, old(backend.blobs), path, backend.digest) {
          DropLocationKeepsSound(md5Map.value, old(backend.blobs), path, backend.digest, loc);
        }
        md5Map := Some(DropLocation(md5Map.value, loc));
      }
    }

    /** `is_md5_present(md5)`: whether the (loaded) index has the hash. */
    method IsMd5Present(md5: string) returns (b: bool)
      modifies this`md5Map
      ensures old(md5Map).Some? ==> md5Map == old(md5Map)
      ensures old(md5Map).None? ==> md5Map.Some? && IsMd5Index(md5Map.value, backend.blobs, path, backend.digest)
      ensures md5Map.Some? && (b <==> md5 in md5Map.value)
    {
      EnsureMd5s();
      b := md5 in md5Map.value;
    }

    /** `file_for_md5(md5)`: the indexed location of the hash, None when the index lacks it. */
    method FileForMd5(md5: string) returns (r: Option<string>)
      modifies this`md5Map
      ensures old(md5Map).Some? ==> md5Map == old(md5Map)
      ensures old(md5Map).None? ==> md5Map.Some? && IsMd5Index(md5Map.value, backend.blobs, path, backend.digest)
      ensures md5Map.Some? && (r.Some? <==> md5 in md5Map.value)
      ensures r.Some? ==> r.value == md5Map.value[md5]
    {
      EnsureMd5s();
      if md5 in md5Map.value {
        r := Some(md5Map.value[md5]);
      } else {
        r := None;
      }
    }

    /** `get_all_files`: the basenames of the files the backend lists in the storage directory now; no cache. */
    method GetAllFiles() returns (names: seq<string>)
      ensures NoDup(names)
      ensures forall n :: n in names <==> n in FilesIn(backend.blobs, path)
    {
      var listed := backend.ListDir(path, Files);
      names := Basenames(listed);
      forall i | 0 <= i < |listed| ensures Basename(listed[i]) == listed[i] {
        FilesInIff(backend.blobs, path, listed[i]);
        BasenameOfJoin("", listed[i]);
      }
      assert names == listed;
    }
  }

  /** `[os.path.basename(f) for f in fs]`. */
  function Basenames(fs: seq<string>): (r: seq<string>)
    ensures |r| == |fs|
    ensures forall i :: 0 <= i < |fs| ==> r[i] == Basename(fs[i])
  {
    if fs == [] then [] else [Basename(fs[0])] + Basenames(fs[1..])
  }
}

/**
 * The key arithmetic of the S3 backend (repoman/backend/s3.py): which keys
 * are files, which directories a key list implies, the last component of a
 * key, and how `list_dir` assembles its answer from the keys that
 * `bucket.list(path)` returns (every key that starts with `path`).
 */
module S3 {
  import opened Wrappers
  import opened Paths
  import opened Seqs
  import Backends

  /** `is_file_key`: S3 marks directories by a trailing '/'. */
  function IsFileKey(k: string): (r: bool)
    ensures r <==> k == [] || Basename(k) != []
  {
    BasenameParts(k);
    !EndsWithSlash(k)
  }

  /** A component joined to any path is a file key; the same key with a trailing '/' is a directory key. */
  lemma FileKeyOfJoin(path: string, n: string)
    requires Plain(n)
    ensures IsFileKey(Join(path, n))
    ensures !IsFileKey(Join(path, n) + "/")
  {
    BasenameOfJoin(path, n);
  }

  /** `path[:-1]` when `path` ends with '/'. */
  function TrimOneSlash(path: string): string {
    if EndsWithSlash(path) then path[..|path| - 1] else path
  }

  /** Key `k` lies two levels below `path` and `d` is the directory between. */
  predicate DirOfKey(path: string, k: string, d: string) {
    Dirname(Dirname(k)) == TrimOneSlash(path) && d == Basename(Dirname(k))
  }

  /** The directory that key `k` contributes to `key_dirs(path, ...)`, if any. */
  function KeyDirOf(path: string, k: string): set<string> {
    if Dirname(Dirname(k)) == TrimOneSlash(path) then {Basename(Dirname(k))} else {}
  }

  /** The set `key_dirs` accumulates over a key list. */
  function KeyDirSet(path: string, keys: seq<string>): set<string> {
    if keys == [] then {} else KeyDirSet(path, keys[..|keys| - 1]) + KeyDirOf(path, keys[|keys| - 1])
  }

  /** The directories are exactly the parents of keys that lie two levels below `path`. */
  lemma {:induction false} KeyDirSetMembers(path: string, keys: seq<string>, d: string)
    ensures d in KeyDirSet(path, keys) <==> exists k :: k in keys && DirOfKey(path, k, d)
  {
    if keys != [] {
      var init := keys[..|keys| - 1];
      var last := keys[|keys| - 1];
      assert keys == init + [last];
      KeyDirSetMembers(path, init, d);
      assert d in KeyDirOf(path, last) <==> DirOfKey(path, last, d);
    }
  }

  lemma KeyDirSetSnoc(path: string, keys: seq<string>, i: nat)
    requires i < |keys|
    ensures KeyDirSet(path, keys[..i + 1]) == KeyDirSet(path, keys[..i]) + KeyDirOf(path, keys[i])
  {
    assert keys[..i + 1][..i] == keys[..i];
  }

  /** `key_dirs(path, keys)`: the directory set turned into a list. */
  method KeyDirs(path: string, keys: seq<string>) returns (dirs: seq<string>)
    ensures NoDup(dirs)
    ensures forall d :: d in dirs <==> d in KeyDirSet(path, keys)
  {
    var p := TrimOneSlash(path);
    var dirset: set<string> := {};
    var i := 0;
    while i < |keys|
      invariant i <= |keys|
      invariant dirset == KeyDirSet(path, keys[..i])
    {
      KeyDirSetSnoc(path, keys, i);
      var kp := Dirname(keys[i]);
      if Dirname(kp) == p {
        dirset := dirset + {Basename(kp)};
      }
      i := i + 1;
    }
    assert keys[..i] == keys;
    dirs := SetToSeq(dirset);
  }

  /** `path_last_component`: the final component, keeping the '/' that marks a directory. */
  function PathLastComponent(p: string): (r: string)
    ensures EndsWithSlash(r) <==> EndsWithSlash(p)
    ensures forall i :: 0 <= i < |r| - 1 ==> r[i] != '/'
    ensures !EndsWithSlash(p) ==> r == Basename(p)
  {
    if EndsWithSlash(p) then Basename(StripSlashes(p)) + "/" else Basename(p)
  }

  /** A single component is its own last component. */
  lemma LastComponentOfName(d: string)
    requires '/' !in d
    ensures PathLastComponent(d) == d
  {
    assert TailStart(d) == 0;
  }

  /** `[k for k in keys if is_file_key(k)]`. */
  function FileKeys(keys: seq<string>): (r: seq<string>)
    ensures forall k :: k in r <==> k in keys && IsFileKey(k)
  {
    if keys == [] then []
    else if IsFileKey(keys[0]) then [keys[0]] + FileKeys(keys[1..])
    else FileKeys(keys[1..])
  }

  /** `[path_last_component(p) for p in ps]`. */
  function LastComponents(ps: seq<string>): (r: seq<string>)
    ensures |r| == |ps|
    ensures forall i :: 0 <= i < |ps| ==> r[i] == PathLastComponent(ps[i])
  {
    seq(|ps|, i requires 0 <= i < |ps| => PathLastComponent(ps[i]))
  }

  /** The 'files' part of `list_dir` as written: the last component of every file key under the prefix. */
  function FilesListing(keys: seq<string>): seq<string> {
    LastComponents(FileKeys(keys))
  }

  /** The directories of a key list are single components, so `path_last_component` leaves them as they are. */
  lemma KeyDirsAreLastComponents(path: string, keys: seq<string>, dirs: seq<string>)
    requires forall d :: d in dirs <==> d in KeyDirSet(path, keys)
    ensures LastComponents(dirs) == dirs
  {
    forall j | 0 <= j < |dirs| ensures PathLastComponent(dirs[j]) == dirs[j] {
      KeyDirSetMembers(path, keys, dirs[j]);
      var k :| k in keys && DirOfKey(path, k, dirs[j]);
      BasenameHasNoSlash(Dirname(k));
      LastComponentOfName(dirs[j]);
    }
  }

  /**
   * `list_dir(path, kind)` over the keys the bucket lists for `path`:
   * ValueError for an unknown kind; 'files' gives the file keys' last
   * components, 'dirs' the directory set, 'all' the files followed by the
   * directories.
   */
  method ListDir(path: string, kind: string, keys: seq<string>) returns (r: Result<seq<string>>)
    ensures r.Err? <==> kind != "dirs" && kind != "files" && kind != "all"
    ensures r.Err? ==> r.error.ValueError?
    ensures kind == "files" ==> r == Ok(FilesListing(keys))
    ensures kind == "dirs" ==> r.Ok? && NoDup(r.value) && forall d :: d in r.value <==> d in KeyDirSet(path, keys)
    ensures kind == "all" ==>
      && r.Ok? && |FilesListing(keys)| <= |r.value|
      && r.value[..|FilesListing(keys)|] == FilesListing(keys)
      && NoDup(r.value[|FilesListing(keys)|..])
      && (forall d :: d in r.value[|FilesListing(keys)|..] <==> d in KeyDirSet(path, keys))
  {
    if kind != "dirs" && kind != "files" && kind != "all" {
      return Err(ValueError("Invalid list_dir type: " + kind));
    }
    var list: seq<string> := [];
    if kind == "files" || kind == "all" {
      list := FileKeys(keys);
    }
    ghost var nFiles := |list|;
    if kind == "dirs" || kind == "all" {
      var dirs := KeyDirs(path, keys);
      KeyDirsAreLastComponents(path, keys, dirs);
      list := list + dirs;
    }
    var names := LastComponents(list);
    assert names[..nFiles] == LastComponents(list[..nFiles]);
    assert names[nFiles..] == LastComponents(list[nFiles..]);
    r := Ok(names);
  }

  /**
   * What 'files' evidently should list, as the docstring ("non-recursively")
   * and the disk backend do: the keys that are plain names directly below `path`.
   */
  function ShallowFileNames(path: string, keys: seq<string>): (r: seq<string>)
    ensures forall n :: n in r <==> exists k :: k in keys && Plain(Basename(k)) && Join(path, Basename(k)) == k && n == Basename(k)
  {
    if keys == [] then []
    else
      var k := keys[0];
      (if Plain(Basename(k)) && Join(path, Basename(k)) == k then [Basename(k)] else []) + ShallowFileNames(path, keys[1..])
  }

  /** The shallow listing names a file exactly when joining it to `path` gives a listed key. */
  lemma ShallowFileNamesIff(path: string, keys: seq<string>, n: string)
    ensures n in ShallowFileNames(path, keys) <==> Plain(n) && Join(path, n) in keys
  {
    if Plain(n) && Join(path, n) in keys {
      BasenameOfJoin(path, n);
    }
  }

  /** Over the keys of a blob store, the shallow listing is the in-memory backend's file listing. */
  lemma ShallowListingMatchesBackend(path: string, keys: seq<string>, blobs: map<string, Backends.Bytes>)
    requires forall k :: k in keys <==> k in blobs
    ensures forall n :: n in ShallowFileNames(path, keys) <==> n in Backends.FilesIn(blobs, path)
  {
    forall n ensures n in ShallowFileNames(path, keys) <==> n in Backends.FilesIn(blobs, path) {
      ShallowFileNamesIff(path, keys, n);
      Backends.FilesInIff(blobs, path, n);
    }
  }

  /** As written, 'files' reaches into subdirectories: a key two levels down is listed by its last component. */
  lemma FilesListingReachesIntoSubdirs()
    ensures FilesListing(["p/a", "p/sub/b"]) == ["a", "b"]
    ensures ShallowFileNames("p", ["p/a", "p/sub/b"]) == ["a"]
  {
    assert TailStart("p/a") == 2;
    assert TailStart("p/sub/b") == 6;
    assert FileKeys(["p/a", "p/sub/b"]) == ["p/a", "p/sub/b"];
    assert Join("p", "a") == "p/a";
  }
}

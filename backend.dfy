/**
 * The storage backend (repoman/backend/__init__.py) as an in-memory store:
 * JSON documents and file blobs, both keyed by path, plus a ghost log of
 * every write, upload and delete in the order they happen. The MD5 digest
 * is the uninterpreted function `digest` that the backend is built with;
 * `md5_dir` is the base class's own loop.
 */
module Backends {
  import opened Wrappers
  import opened Paths
  import opened Json
  import opened Seqs

  type Bytes = seq<bv8>

  predicate IsHex(s: string) {
    forall k :: 0 <= k < |s| ==> s[k] in "0123456789abcdef"
  }

  /** What `hexdigest()` returns. */
  type HexDigest = s: string | IsHex(s) witness ""

  /** The `type` argument of `list_dir`. */
  datatype ListKind = All | Dirs | Files

  /** One effect on the backend, as recorded in `Backend.log`. */
  datatype Event = Wrote(path: string) | Uploaded(path: string) | Deleted(path: string)

  /** The names `n` such that `join(path, n)` is a blob: the files directly inside `path`. */
  function FilesIn(blobs: map<string, Bytes>, path: string): set<string> {
    set k | k in blobs && Plain(Basename(k)) && Join(path, Basename(k)) == k :: Basename(k)
  }

  /** The prefix every key below directory `path` starts with. */
  function DirPrefix(path: string): string {
    if path == [] || EndsWithSlash(path) then path else path + "/"
  }

  predicate HasPrefix(s: string, pre: string) {
    |pre| <= |s| && s[..|pre|] == pre
  }

  /** Index of the first '/' of `s`, or |s| when there is none. */
  function FirstSlash(s: string): (i: nat)
    ensures i <= |s|
    ensures forall k :: 0 <= k < i ==> s[k] != '/'
    ensures i < |s| ==> s[i] == '/'
  {
    if s == [] || s[0] == '/' then 0 else 1 + FirstSlash(s[1..])
  }

  /** The component right below `path` on the way to `k`, for a key lying below `path`. */
  function ChildOf(path: string, k: string): string
    requires HasPrefix(k, DirPrefix(path))
  {
    var rest := k[|DirPrefix(path)|..];
    rest[..FirstSlash(rest)]
  }

  /** The key lies at least one directory below `path`. */
  predicate DeeperThan(path: string, k: string) {
    HasPrefix(k, DirPrefix(path)) && FirstSlash(k[|DirPrefix(path)|..]) < |k| - |DirPrefix(path)|
  }

  /** The names of the directories directly inside `path` that hold some key. */
  function SubdirsIn(keys: set<string>, path: string): set<string> {
    set k | k in keys && DeeperThan(path, k) && Plain(ChildOf(path, k)) :: ChildOf(path, k)
  }

  /** `m` maps each hash to a file directly in `path` with that hash, and every such file's hash is a key. */
  ghost predicate IsMd5Index(m: map<string, string>, blobs: map<string, Bytes>, path: string, digest: Bytes -> HexDigest) {
    && (forall h :: h in m ==>
          Basename(m[h]) in FilesIn(blobs, path) && Join(path, Basename(m[h])) == m[h] && digest(blobs[m[h]]) == h)
    && (forall n :: n in FilesIn(blobs, path) ==> digest(blobs[Join(path, n)]) in m)
  }

  /** A name is listed as a file of `path` exactly when it is a plain component whose join with `path` is a blob. */
  lemma FilesInIff(blobs: map<string, Bytes>, path: string, n: string)
    ensures n in FilesIn(blobs, path) <==> Plain(n) && Join(path, n) in blobs
  {
    if Plain(n) && Join(path, n) in blobs {
      BasenameOfJoin(path, n);
      assert Basename(Join(path, n)) == n;
    }
  }

  class Backend {
    var docs: map<string, Json>
    var blobs: map<string, Bytes>
    ghost var log: seq<Event>
    const digest: Bytes -> HexDigest

    constructor (digest: Bytes -> HexDigest, docs: map<string, Json>, blobs: map<string, Bytes>)
      ensures this.digest == digest && this.docs == docs && this.blobs == blobs && log == []
    {
      this.digest := digest;
      this.docs := docs;
      this.blobs := blobs;
      log := [];
    }

    /** `read_json`: the stored document, IOError when there is none. */
    method ReadJson(path: string) returns (r: Result<Json>)
      ensures r == if path in docs then Ok(docs[path]) else Err(IOError(path))
    {
      if path in docs {
        r := Ok(docs[path]);
      } else {
        r := Err(IOError(path));
      }
    }

    /** `write_json`: replaces (or creates) the document at `path`. */
    method WriteJson(obj: Json, path: string)
      modifies this`docs, this`log
      ensures docs == old(docs)[path := obj]
      ensures log == old(log) + [Wrote(path)]
    {
      docs := docs[path := obj];
      log := log + [Wrote(path)];
    }

    /** `list_dir(path, kind)`: the files (blobs) and directories (of blobs or documents) directly in `path`. */
    method ListDir(path: string, kind: ListKind) returns (names: seq<string>)
      ensures NoDup(names) || kind == All
      ensures kind == Files ==> forall n :: n in names <==> n in FilesIn(blobs, path)
      ensures kind == Dirs ==> forall n :: n in names <==> n in SubdirsIn(docs.Keys + blobs.Keys, path)
      ensures kind == All ==>
        forall n :: n in names <==> n in FilesIn(blobs, path) || n in SubdirsIn(docs.Keys + blobs.Keys, path)
    {
      var files := SetToSeq(FilesIn(blobs, path));
      var dirs := SetToSeq(SubdirsIn(docs.Keys + blobs.Keys, path));
      match kind
      case Files => names := files;
      case Dirs => names := dirs;
      case All => names := files + dirs;
    }

    /** `upload_file(src, dest)`: the local file's contents become the blob at `dest`. */
    method UploadFile(contents: Bytes, dest: string)
      modifies this`blobs, this`log
      ensures blobs == old(blobs)[dest := contents]
      ensures log == old(log) + [Uploaded(dest)]
    {
      blobs := blobs[dest := contents];
      log := log + [Uploaded(dest)];
    }

    /** `delete_file(path)`: removes the blob; a missing blob is an error and changes nothing. */
    method DeleteFile(path: string) returns (r: Outcome)
      modifies this`blobs, this`log
      ensures r.Pass? <==> path in old(blobs)
      ensures r.Fail? ==> r.error == IOError(path) && blobs == old(blobs) && log == old(log)
      ensures r.Pass? ==> blobs == old(blobs) - {path} && log == old(log) + [Deleted(path)]
    {
      if path in blobs {
        blobs := blobs - {path};
        log := log + [Deleted(path)];
        r := Pass;
      } else {
        r := Fail(IOError(path));
      }
    }

    /** `get_md5(path)`: the digest of the blob, None when there is no blob. */
    method GetMd5(path: string) returns (r: Option<HexDigest>)
      ensures r == if path in blobs then Some(digest(blobs[path])) else None
    {
      if path in blobs {
        r := Some(digest(blobs[path]));
      } else {
        r := None;
      }
    }

    /**
     * `md5_dir(path)`: hash every file listed directly in `path` (no recursion)
     * into a map from hash to `join(path, f)`; of two files with one hash, the
     * one listed later wins, so the map has at most one entry per listed file.
     * `files` is the listing, in the order `list_dir` returned it.
     */
    method Md5Dir(path: string) returns (m: map<string, string>, ghost files: seq<string>)
      ensures NoDup(files) && forall n :: n in files <==> n in FilesIn(blobs, path)
      ensures forall k :: 0 <= k < |files| ==> Join(path, files[k]) in blobs
      ensures IsMd5Index(m, blobs, path, digest)
      ensures |m| <= |FilesIn(blobs, path)|
      ensures forall h :: h in m ==> exists k :: LastWithDigest(blobs, path, digest, files, k, h) && m[h] == Join(path, files[k])
    {
      var names := ListDir(path, Files);
      files := names;
      ListedFilesAreBlobs(blobs, path, files);
      m := map[];
      ghost var at: map<string, nat> := map[];
      var i := 0;
      while i < |names|
        invariant i <= |files|
        invariant Md5DirLoop(m, at, blobs, path, digest, files, i)
      {
        var filePath := Join(path, names[i]);
        var h := GetMd5(filePath);
        Md5DirStep(m, at, blobs, path, digest, files, i);
        m := m[h.value := filePath];
        at := at[h.value := i];
        i := i + 1;
      }
      Md5DirDone(m, at, blobs, path, digest, files);
    }
  }

  /** The loop state of `md5_dir` after hashing the first `i` listed files. */
  ghost predicate Md5DirLoop(m: map<string, string>, at: map<string, nat>, blobs: map<string, Bytes>, path: string,
                             digest: Bytes -> HexDigest, files: seq<string>, i: nat)
    requires i <= |files|
    requires forall k :: 0 <= k < |files| ==> Join(path, files[k]) in blobs
  {
    PartialMd5Index(m, blobs, path, digest, files, i) && LastListed(m, at, blobs, path, digest, files, i)
  }

  /** Hashing the next listed file keeps the loop state of `md5_dir`. */
  lemma Md5DirStep(m: map<string, string>, at: map<string, nat>, blobs: map<string, Bytes>, path: string,
                   digest: Bytes -> HexDigest, files: seq<string>, i: nat)
    requires i < |files|
    requires forall k :: 0 <= k < |files| ==> Plain(files[k]) && Join(path, files[k]) in blobs
    requires Md5DirLoop(m, at, blobs, path, digest, files, i)
    ensures var f := Join(path, files[i]); var h := digest(blobs[f]);
      Md5DirLoop(m[h := f], at[h := i], blobs, path, digest, files, i + 1)
  {
    PartialMd5IndexStep(m, blobs, path, digest, files, i);
    LastListedStep(m, at, blobs, path, digest, files, i);
  }

  /** After the whole listing, the loop state of `md5_dir` is an index in which each hash names its last listed file. */
  lemma Md5DirDone(m: map<string, string>, at: map<string, nat>, blobs: map<string, Bytes>, path: string,
                   digest: Bytes -> HexDigest, files: seq<string>)
    requires forall n :: n in files <==> n in FilesIn(blobs, path)
    requires forall k :: 0 <= k < |files| ==> Join(path, files[k]) in blobs
    requires Md5DirLoop(m, at, blobs, path, digest, files, |files|)
    ensures IsMd5Index(m, blobs, path, digest)
    ensures |m| <= |FilesIn(blobs, path)|
    ensures forall h :: h in m ==> exists k :: LastWithDigest(blobs, path, digest, files, k, h) && m[h] == Join(path, files[k])
  {
    Md5IndexOfListing(m, blobs, path, digest, files);
    Md5IndexSize(m, blobs, path, digest);
    LastListedDone(m, at, blobs, path, digest, files);
  }

  /** Once every file is hashed, each hash maps to the last listed file with that hash. */
  lemma LastListedDone(m: map<string, string>, at: map<string, nat>, blobs: map<string, Bytes>, path: string,
                       digest: Bytes -> HexDigest, files: seq<string>)
    requires forall k :: 0 <= k < |files| ==> Join(path, files[k]) in blobs
    requires LastListed(m, at, blobs, path, digest, files, |files|)
    ensures forall h :: h in m ==> exists k :: LastWithDigest(blobs, path, digest, files, k, h) && m[h] == Join(path, files[k])
  {
    forall h | h in m
      ensures exists k :: LastWithDigest(blobs, path, digest, files, k, h) && m[h] == Join(path, files[k])
    {
      var k := at[h];
      assert LastWithDigest(blobs, path, digest, files, k, h);
    }
  }

  /** `files[k]` is listed and no file listed after it has digest `h`. */
  ghost predicate LastWithDigest(blobs: map<string, Bytes>, path: string, digest: Bytes -> HexDigest,
                                 files: seq<string>, k: int, h: HexDigest)
  {
    && 0 <= k < |files|
    && forall j :: k < j < |files| ==> Join(path, files[j]) in blobs && digest(blobs[Join(path, files[j])]) != h
  }

  /** Each hash of `m` maps to the file at position `at[h]`, the last of the first `i` listed files with that hash. */
  ghost predicate LastListed(m: map<string, string>, at: map<string, nat>, blobs: map<string, Bytes>, path: string,
                             digest: Bytes -> HexDigest, files: seq<string>, i: nat)
    requires i <= |files|
    requires forall k :: 0 <= k < |files| ==> Join(path, files[k]) in blobs
  {
    forall h :: h in m ==>
      && h in at && at[h] < i && m[h] == Join(path, files[at[h]])
      && forall j :: at[h] < j < i ==> digest(blobs[Join(path, files[j])]) != h
  }

  /** Hashing the next listed file makes it the last one seen with its hash. */
  lemma LastListedStep(m: map<string, string>, at: map<string, nat>, blobs: map<string, Bytes>, path: string,
                       digest: Bytes -> HexDigest, files: seq<string>, i: nat)
    requires i < |files|
    requires forall k :: 0 <= k < |files| ==> Join(path, files[k]) in blobs
    requires LastListed(m, at, blobs, path, digest, files, i)
    ensures var h := digest(blobs[Join(path, files[i])]);
      LastListed(m[h := Join(path, files[i])], at[h := i], blobs, path, digest, files, i + 1)
  {
  }

  /** The loop state of `md5_dir` after hashing the first `i` listed files. */
  ghost predicate PartialMd5Index(m: map<string, string>, blobs: map<string, Bytes>, path: string,
                                  digest: Bytes -> HexDigest, files: seq<string>, i: nat)
    requires i <= |files|
  {
    && (forall h :: h in m ==> Basename(m[h]) in files)
    && (forall h :: h in m ==> Join(path, Basename(m[h])) == m[h])
    && (forall h :: h in m ==> m[h] in blobs && digest(blobs[m[h]]) == h)
    && (forall k :: 0 <= k < i ==> Join(path, files[k]) in blobs && digest(blobs[Join(path, files[k])]) in m)
  }

  /** Hashing the next listed file keeps the loop state. */
  lemma PartialMd5IndexStep(m: map<string, string>, blobs: map<string, Bytes>, path: string,
                            digest: Bytes -> HexDigest, files: seq<string>, i: nat)
    requires i < |files|
    requires forall k :: 0 <= k < |files| ==> Plain(files[k]) && Join(path, files[k]) in blobs
    requires PartialMd5Index(m, blobs, path, digest, files, i)
    ensures PartialMd5Index(m[digest(blobs[Join(path, files[i])]) := Join(path, files[i])], blobs, path, digest, files, i + 1)
  {
    var fp := Join(path, files[i]);
    BasenameOfJoin(path, files[i]);
    var m' := m[digest(blobs[fp]) := fp];
    forall k | 0 <= k < i + 1 ensures digest(blobs[Join(path, files[k])]) in m' {
    }
  }

  /** A map whose values are pairwise distinct members of `target` has no more entries than `target`. */
  lemma {:induction false} InjectiveMapCard(m: map<string, string>, target: set<string>)
    requires forall h :: h in m ==> m[h] in target
    requires forall h1, h2 :: h1 in m && h2 in m && m[h1] == m[h2] ==> h1 == h2
    ensures |m| <= |target|
    decreases |m|
  {
    if m != map[] {
      var h :| h in m;
      var m' := m - {h};
      assert m'.Keys == m.Keys - {h};
      forall h1 | h1 in m' ensures m'[h1] in target - {m[h]} {
      }
      InjectiveMapCard(m', target - {m[h]});
    }
  }

  /** An index of the files in `path` has at most one entry per file. */
  lemma Md5IndexSize(m: map<string, string>, blobs: map<string, Bytes>, path: string, digest: Bytes -> HexDigest)
    requires IsMd5Index(m, blobs, path, digest)
    ensures |m| <= |FilesIn(blobs, path)|
  {
    var names := map h | h in m :: Basename(m[h]);
    assert names.Keys == m.Keys;
    InjectiveMapCard(names, FilesIn(blobs, path));
  }

  /** Every name of a file listing of `path` joins with `path` to a blob. */
  lemma ListedFilesAreBlobs(blobs: map<string, Bytes>, path: string, files: seq<string>)
    requires forall n :: n in files <==> n in FilesIn(blobs, path)
    ensures forall k :: 0 <= k < |files| ==> Plain(files[k]) && Join(path, files[k]) in blobs
  {
    forall k | 0 <= k < |files|
      ensures Plain(files[k]) && Join(path, files[k]) in blobs
    {
      FilesInIff(blobs, path, files[k]);
    }
  }

  /** A hash map built over a complete listing of `path` is an index of the files in `path`. */
  lemma Md5IndexOfListing(m: map<string, string>, blobs: map<string, Bytes>, path: string,
                          digest: Bytes -> HexDigest, files: seq<string>)
    requires forall n :: n in files <==> n in FilesIn(blobs, path)
    requires forall k :: 0 <= k < |files| ==> Join(path, files[k]) in blobs
    requires PartialMd5Index(m, blobs, path, digest, files, |files|)
    ensures IsMd5Index(m, blobs, path, digest)
  {
    forall n | n in FilesIn(blobs, path)
      ensures digest(blobs[Join(path, n)]) in m
    {
      var k :| 0 <= k < |files| && files[k] == n;
    }
  }
}

/**
 * Publishing a release (repoman/push.py): hash every file of the release
 * directory into a dict keyed by hash, upload the files whose hash the
 * storage index does not know, build one UpdateFile per hash and hand the
 * list to `Channel.add_version`. The directory walk and the reads of the
 * files and their modes are the `walked` list of local files, in walk order.
 */
module Push {
  import opened Wrappers
  import opened Paths
  import opened Seqs
  import opened Backends
  import opened Storage
  import opened Documents
  import opened Repo

  /** A Python dict from hashes to walked files, as its items in insertion order. */
  type HashDict = seq<(HexDigest, LocalFile)>

  /** The keys of the dict, in order. */
  function Keys(d: HashDict): (r: seq<HexDigest>)
    ensures |r| == |d|
    ensures forall k :: 0 <= k < |d| ==> r[k] == d[k].0
  {
    if d == [] then [] else Keys(d[..|d| - 1]) + [d[|d| - 1].0]
  }

  /** Where the key `h` sits in the dict. */
  function KeyIndex(d: HashDict, h: HexDigest): (k: nat)
    requires h in Keys(d)
    ensures k < |d| && d[k].0 == h
  {
    if d[|d| - 1].0 == h then |d| - 1
    else
      assert Keys(d) == Keys(d[..|d| - 1]) + [d[|d| - 1].0];
      KeyIndex(d[..|d| - 1], h)
  }

  /** `d[h] = f`: a key already present keeps its place and takes the new value; a new key goes last. */
  function Put(d: HashDict, h: HexDigest, f: LocalFile): HashDict {
    if h in Keys(d) then d[KeyIndex(d, h) := (h, f)] else d + [(h, f)]
  }

  /** Putting a key adds it to the keys when it is new and leaves them as they are otherwise. */
  lemma PutKeys(d: HashDict, h: HexDigest, f: LocalFile)
    ensures Keys(Put(d, h, f)) == if h in Keys(d) then Keys(d) else Keys(d) + [h]
  {
  }

  /** The dict `md5_dir` builds from the files the walk yields, in walk order. */
  function Md5DirSpec(digest: Bytes -> HexDigest, walked: seq<LocalFile>): HashDict {
    if walked == [] then []
    else
      var last := walked[|walked| - 1];
      Put(Md5DirSpec(digest, walked[..|walked| - 1]), digest(last.contents), last)
  }

  /** The hashes of the walked files, in walk order. */
  function Hashes(digest: Bytes -> HexDigest, walked: seq<LocalFile>): (r: seq<HexDigest>)
    ensures |r| == |walked|
    ensures forall i :: 0 <= i < |walked| ==> r[i] == digest(walked[i].contents)
  {
    if walked == [] then [] else Hashes(digest, walked[..|walked| - 1]) + [digest(walked[|walked| - 1].contents)]
  }

  /** The elements of `s` in the order of their first occurrence. */
  function Dedup(s: seq<HexDigest>): seq<HexDigest> {
    if s == [] then []
    else
      var p := Dedup(s[..|s| - 1]);
      if s[|s| - 1] in p then p else p + [s[|s| - 1]]
  }

  /** Every item after a put is the new one or was there before. */
  lemma PutItems(d: HashDict, h: HexDigest, f: LocalFile)
    ensures forall x :: x in Put(d, h, f) ==> x == (h, f) || x in d
  {
    if h in Keys(d) {
      forall x | x in Put(d, h, f) ensures x == (h, f) || x in d {
        var k :| 0 <= k < |d| && Put(d, h, f)[k] == x;
      }
    }
  }

  /** `md5_dir`: each key maps to a walked file with that hash. */
  lemma {:induction false} Md5DirSound(digest: Bytes -> HexDigest, walked: seq<LocalFile>)
    ensures forall x :: x in Md5DirSpec(digest, walked) ==> x.1 in walked && digest(x.1.contents) == x.0
    decreases |walked|
  {
    if walked != [] {
      var init := walked[..|walked| - 1];
      var last := walked[|walked| - 1];
      Md5DirSound(digest, init);
      PutItems(Md5DirSpec(digest, init), digest(last.contents), last);
      assert forall y :: y in init ==> y in walked;
    }
  }

  /** `md5_dir`: every walked file's hash is a key. */
  lemma {:induction false} Md5DirComplete(digest: Bytes -> HexDigest, walked: seq<LocalFile>)
    ensures forall i :: 0 <= i < |walked| ==> digest(walked[i].contents) in Keys(Md5DirSpec(digest, walked))
    decreases |walked|
  {
    if walked != [] {
      var init := walked[..|walked| - 1];
      var last := walked[|walked| - 1];
      Md5DirComplete(digest, init);
      PutKeys(Md5DirSpec(digest, init), digest(last.contents), last);
      forall i | 0 <= i < |walked| - 1 ensures walked[i] == init[i] {
      }
    }
  }

  /** `md5_dir`: the keys are the distinct hashes, in the order they first occur. */
  lemma {:induction false} Md5DirOrder(digest: Bytes -> HexDigest, walked: seq<LocalFile>)
    ensures Keys(Md5DirSpec(digest, walked)) == Dedup(Hashes(digest, walked))
    decreases |walked|
  {
    if walked != [] {
      var init := walked[..|walked| - 1];
      var last := walked[|walked| - 1];
      Md5DirOrder(digest, init);
      PutKeys(Md5DirSpec(digest, init), digest(last.contents), last);
      assert Hashes(digest, walked)[..|walked| - 1] == Hashes(digest, init);
    }
  }

  /** `md5_dir`: no hash is a key twice, so there are at most as many keys as walked files. */
  lemma {:induction false} Md5DirNoDup(digest: Bytes -> HexDigest, walked: seq<LocalFile>)
    ensures NoDup(Keys(Md5DirSpec(digest, walked)))
    ensures |Md5DirSpec(digest, walked)| <= |walked|
    decreases |walked|
  {
    if walked != [] {
      var init := walked[..|walked| - 1];
      var last := walked[|walked| - 1];
      Md5DirNoDup(digest, init);
      var keys := Keys(Md5DirSpec(digest, init));
      var h := digest(last.contents);
      PutKeys(Md5DirSpec(digest, init), h, last);
      if h !in keys {
        assert forall i :: 0 <= i < |keys| ==> (keys + [h])[i] == keys[i];
      }
    }
  }

  /** Of the walked files with one hash, the dict keeps the one walked last. */
  lemma {:induction false} Md5DirLastWins(digest: Bytes -> HexDigest, walked: seq<LocalFile>, i: nat)
    requires i < |walked|
    requires forall j :: i < j < |walked| ==> digest(walked[j].contents) != digest(walked[i].contents)
    ensures (digest(walked[i].contents), walked[i]) in Md5DirSpec(digest, walked)
    decreases |walked|
  {
    var init := walked[..|walked| - 1];
    var last := walked[|walked| - 1];
    var d := Md5DirSpec(digest, init);
    var h := digest(last.contents);
    if i < |walked| - 1 {
      assert init[i] == walked[i];
      Md5DirLastWins(digest, init, i);
      var k :| 0 <= k < |d| && d[k] == (digest(walked[i].contents), walked[i]);
      if h in Keys(d) {
        assert Put(d, h, last)[k] == d[k];
      } else {
        assert (d + [(h, last)])[k] == d[k];
      }
    } else if h in Keys(d) {
      assert Put(d, h, last)[KeyIndex(d, h)] == (h, last);
    } else {
      assert Put(d, h, last)[|d|] == (h, last);
    }
  }

  /** `md5_dir(path)` over the walked files. */
  method Md5Dir(digest: Bytes -> HexDigest, walked: seq<LocalFile>) returns (d: HashDict)
    ensures d == Md5DirSpec(digest, walked)
  {
    d := [];
    var i := 0;
    while i < |walked|
      invariant i <= |walked|
      invariant d == Md5DirSpec(digest, walked[..i])
    {
      assert walked[..i + 1][..i] == walked[..i];
      d := Put(d, digest(walked[i].contents), walked[i]);
      i := i + 1;
    }
    assert walked[..i] == walked;
  }

  /** Every location in the index names a plain file directly in the storage directory. */
  ghost predicate LocalIndex(index: map<string, string>, path: string) {
    forall h :: h in index ==> Plain(Basename(index[h])) && Join(path, Basename(index[h])) == index[h]
  }

  /** What `load_md5s` builds is local to the storage directory. */
  lemma Md5IndexIsLocal(m: map<string, string>, blobs: map<string, Bytes>, path: string, digest: Bytes -> HexDigest)
    requires IsMd5Index(m, blobs, path, digest)
    ensures LocalIndex(m, path)
  {
  }

  /** Where the blob for the hash is: the index's location, or else where `add_file` puts the local file. */
  function Remote(path: string, index: map<string, string>, h: HexDigest, f: LocalFile): string {
    if h in index then index[h] else Join(path, BlobName(h, f.path))
  }

  /** A remote location relative to the storage directory is its basename. */
  lemma RemoteRelPath(path: string, index: map<string, string>, h: HexDigest, f: LocalFile)
    requires LocalIndex(index, path)
    ensures RelPath(Remote(path, index, h, f), path) == Some(Basename(Remote(path, index, h, f)))
  {
    if h !in index {
      BlobNameIsPlain(path, h, f.path);
    }
  }

  /** `stat.S_IMODE(mode)`: the permission bits, `mode & 0o7777`. */
  function Perms(mode: int): int {
    mode % 4096
  }

  /** `perms & stat.S_IXUSR != 0`: the owner-execute bit, 0o100. */
  predicate OwnerExecutable(perms: int) {
    (perms / 64) % 2 == 1
  }

  /** The permission bits keep the owner-execute bit of the mode: a file is executable iff its mode has bit 0o100. */
  lemma ExecutableIffOwnerBit(mode: int)
    ensures OwnerExecutable(Perms(mode)) <==> (mode / 64) % 2 == 1
  {
    var q := mode / 4096;
    var r := mode % 4096;
    assert mode == 4096 * q + r;
    assert mode / 64 == 64 * q + r / 64;
    assert (64 * q + r / 64) % 2 == (r / 64) % 2;
  }

  /**
   * The UpdateFile `push` builds for the hash and the local file the dict
   * holds for it. Its source is the storage URL followed by the remote
   * location relative to the storage directory, which RemoteRelPath shows is
   * the location's basename.
   */
  function Entry(url: string, path: string, index: map<string, string>, h: HexDigest, f: LocalFile): UpdateFile {
    var perms := Perms(f.mode);
    UpdateFile(NormWalked(f.path), h, perms, [url + Basename(Remote(path, index, h, f))], OwnerExecutable(perms))
  }

  /** The UpdateFiles of the dict items, in order. */
  function PushFiles(url: string, path: string, index: map<string, string>, items: HashDict): (r: seq<UpdateFile>)
    ensures |r| == |items|
  {
    if items == [] then []
    else
      var last := items[|items| - 1];
      PushFiles(url, path, index, items[..|items| - 1]) + [Entry(url, path, index, last.0, last.1)]
  }

  /** As written, two walked files with the same contents leave one dict item, and so one UpdateFile: the one walked last. */
  lemma IdenticalFilesCollapse(url: string, path: string, index: map<string, string>, digest: Bytes -> HexDigest,
                               a: LocalFile, b: LocalFile)
    requires a.contents == b.contents
    ensures var r := PushFiles(url, path, index, Md5DirSpec(digest, [a, b]));
      |r| == 1 && r[0].path == NormWalked(b.path)
  {
    var h := digest(a.contents);
    assert [a, b][..1] == [a];
    assert [a][..0] == [];
    assert Md5DirSpec(digest, [a]) == [(h, a)];
    assert Keys([(h, a)]) == [h];
    assert Md5DirSpec(digest, [a, b]) == [(h, b)];
    PushFilesAt(url, path, index, [(h, b)], 0);
  }

  /** The one blob `push` leaves for the hash `h`: the indexed location, or where the dict's file for it is uploaded. */
  function BlobFor(path: string, index: map<string, string>, items: HashDict, h: HexDigest): string
    requires h in Keys(items)
  {
    Remote(path, index, h, items[KeyIndex(items, h)].1)
  }

  /**
   * The UpdateFile of one walked file as evidently intended: its own path,
   * permissions and flag, and as its source the one blob for its contents.
   */
  function EntryPerFile(url: string, path: string, index: map<string, string>, items: HashDict, h: HexDigest, f: LocalFile): UpdateFile
    requires h in Keys(items)
  {
    var perms := Perms(f.mode);
    UpdateFile(NormWalked(f.path), h, perms, [url + Basename(BlobFor(path, index, items, h))], OwnerExecutable(perms))
  }

  /** The UpdateFiles of the files `fs`, one each, in walk order. */
  function EntriesPerFile(url: string, path: string, index: map<string, string>, items: HashDict,
                          digest: Bytes -> HexDigest, fs: seq<LocalFile>): seq<UpdateFile>
    requires forall k :: 0 <= k < |fs| ==> digest(fs[k].contents) in Keys(items)
  {
    seq(|fs|, k requires 0 <= k < |fs| => EntryPerFile(url, path, index, items, digest(fs[k].contents), fs[k]))
  }

  /**
   * The UpdateFiles of `push` as evidently intended: one per walked file,
   * while the uploads stay one per distinct hash.
   */
  function PushFilesPerFile(url: string, path: string, index: map<string, string>, digest: Bytes -> HexDigest,
                            walked: seq<LocalFile>): seq<UpdateFile>
  {
    Md5DirComplete(digest, walked);
    EntriesPerFile(url, path, index, Md5DirSpec(digest, walked), digest, walked)
  }

  /** The corrected UpdateFiles are the per-file entries over the dict `md5_dir` builds. */
  lemma PushFilesPerFileAt(url: string, path: string, index: map<string, string>, digest: Bytes -> HexDigest,
                           walked: seq<LocalFile>, k: nat)
    requires k < |walked|
    ensures digest(walked[k].contents) in Keys(Md5DirSpec(digest, walked))
    ensures |PushFilesPerFile(url, path, index, digest, walked)| == |walked|
    ensures PushFilesPerFile(url, path, index, digest, walked)[k]
      == EntryPerFile(url, path, index, Md5DirSpec(digest, walked), digest(walked[k].contents), walked[k])
  {
    Md5DirComplete(digest, walked);
  }

  /**
   * Every walked file keeps its own UpdateFile, with its path, hash and
   * permissions, and its source is the one the source's own UpdateFile for
   * that hash carries, so identical files share one blob.
   */
  lemma PerFileKeepsEveryFile(url: string, path: string, index: map<string, string>, digest: Bytes -> HexDigest,
                              walked: seq<LocalFile>, k: nat)
    requires k < |walked|
    ensures |PushFilesPerFile(url, path, index, digest, walked)| == |walked|
    ensures var e := PushFilesPerFile(url, path, index, digest, walked)[k];
      e.path == NormWalked(walked[k].path) && e.md5 == digest(walked[k].contents) && e.perms == Perms(walked[k].mode)
    ensures var d := Md5DirSpec(digest, walked);
      exists j :: 0 <= j < |d| && d[j].0 == digest(walked[k].contents)
        && PushFilesPerFile(url, path, index, digest, walked)[k].sources == PushFiles(url, path, index, d)[j].sources
  {
    var d := Md5DirSpec(digest, walked);
    var h := digest(walked[k].contents);
    PushFilesPerFileAt(url, path, index, digest, walked, k);
    var e := EntryPerFile(url, path, index, d, h, walked[k]);
    var j := KeyIndex(d, h);
    PushFilesAt(url, path, index, d, j);
    assert e.sources == Entry(url, path, index, d[j].0, d[j].1).sources;
  }

  /** The uploads of `push`: for each item whose hash the index lacks, the destination and the local file. */
  function Uploads(path: string, index: map<string, string>, items: HashDict): seq<(string, LocalFile)> {
    if items == [] then []
    else
      var rest := Uploads(path, index, items[..|items| - 1]);
      var (h, f) := items[|items| - 1];
      if h in index then rest else rest + [(Join(path, BlobName(h, f.path)), f)]
  }

  /** The blobs after the uploads, one after the other. */
  function PutBlobs(blobs: map<string, Bytes>, ups: seq<(string, LocalFile)>): map<string, Bytes> {
    if ups == [] then blobs
    else PutBlobs(blobs, ups[..|ups| - 1])[ups[|ups| - 1].0 := ups[|ups| - 1].1.contents]
  }

  /** The log entries of the uploads. */
  function UploadEvents(ups: seq<(string, LocalFile)>): seq<Event> {
    if ups == [] then [] else UploadEvents(ups[..|ups| - 1]) + [Uploaded(ups[|ups| - 1].0)]
  }

  /** The UpdateFile of each item is built from that item. */
  lemma {:induction false} PushFilesAt(url: string, path: string, index: map<string, string>, items: HashDict, k: nat)
    requires k < |items|
    ensures PushFiles(url, path, index, items)[k] == Entry(url, path, index, items[k].0, items[k].1)
    decreases |items|
  {
    if k < |items| - 1 {
      assert items[..|items| - 1][k] == items[k];
      PushFilesAt(url, path, index, items[..|items| - 1], k);
    }
  }

  /**
   * The UpdateFile of a hash describes the walked file under its walked
   * path, and its one source is the storage URL followed by the blob's name:
   * the indexed blob's when the storage already has the hash, else the name
   * `add_file` gives the upload.
   */
  lemma EntryDescribes(url: string, path: string, index: map<string, string>, h: HexDigest, f: LocalFile)
    ensures var e := Entry(url, path, index, h, f);
      && e.path == NormWalked(f.path) && e.md5 == h && e.perms == Perms(f.mode)
      && (e.executable <==> (f.mode / 64) % 2 == 1)
      && e.sources == [url + (if h in index then Basename(index[h]) else BlobName(h, f.path))]
  {
    ExecutableIffOwnerBit(f.mode);
    if h !in index {
      BlobNameIsPlain(path, h, f.path);
    }
  }

  /** The k-th UpdateFile carries the k-th hash, and the walked path and permissions of its file. */
  lemma PushFilesShape(url: string, path: string, index: map<string, string>, items: HashDict)
    ensures var r := PushFiles(url, path, index, items);
      forall k :: 0 <= k < |r| ==>
        r[k].md5 == items[k].0 && r[k].path == NormWalked(items[k].1.path) && r[k].perms == Perms(items[k].1.mode)
  {
    var r := PushFiles(url, path, index, items);
    forall k | 0 <= k < |r|
      ensures r[k].md5 == items[k].0 && r[k].path == NormWalked(items[k].1.path) && r[k].perms == Perms(items[k].1.mode)
    {
      PushFilesAt(url, path, index, items, k);
    }
  }

  /** `push` over the dict of the walked files lists each distinct hash once, so no more UpdateFiles than files. */
  lemma PushFilesDistinct(url: string, path: string, index: map<string, string>,
                          digest: Bytes -> HexDigest, walked: seq<LocalFile>)
    ensures var r := PushFiles(url, path, index, Md5DirSpec(digest, walked));
      && |r| <= |walked|
      && (forall k, l :: 0 <= k < l < |r| ==> r[k].md5 != r[l].md5)
  {
    var d := Md5DirSpec(digest, walked);
    Md5DirNoDup(digest, walked);
    PushFilesShape(url, path, index, d);
    assert forall k :: 0 <= k < |d| ==> Keys(d)[k] == d[k].0;
  }

  /** A hash of the dict has an UpdateFile. */
  lemma PushFilesHas(url: string, path: string, index: map<string, string>, items: HashDict, h: HexDigest)
    requires h in Keys(items)
    ensures exists k :: 0 <= k < |items| && PushFiles(url, path, index, items)[k].md5 == h
  {
    var k := KeyIndex(items, h);
    PushFilesAt(url, path, index, items, k);
  }

  /** Every walked file's hash has an UpdateFile. */
  lemma PushFilesComplete(url: string, path: string, index: map<string, string>,
                          digest: Bytes -> HexDigest, walked: seq<LocalFile>, i: nat)
    requires i < |walked|
    ensures exists k :: (0 <= k < |Md5DirSpec(digest, walked)|
                         && PushFiles(url, path, index, Md5DirSpec(digest, walked))[k].md5 == digest(walked[i].contents))
  {
    Md5DirComplete(digest, walked);
    PushFilesHas(url, path, index, Md5DirSpec(digest, walked), digest(walked[i].contents));
  }

  /** Every UpdateFile describes a walked file with its hash: the walked path and the file's permissions. */
  lemma PushFilesSound(url: string, path: string, index: map<string, string>,
                       digest: Bytes -> HexDigest, walked: seq<LocalFile>, k: nat)
    requires k < |Md5DirSpec(digest, walked)|
    ensures var e := PushFiles(url, path, index, Md5DirSpec(digest, walked))[k];
      exists i :: (0 <= i < |walked| && e.md5 == digest(walked[i].contents)
                   && e.path == NormWalked(walked[i].path) && e.perms == Perms(walked[i].mode))
  {
    var d := Md5DirSpec(digest, walked);
    assert d[k] in d;
    Md5DirSound(digest, walked);
    PushFilesAt(url, path, index, d, k);
    var i :| 0 <= i < |walked| && walked[i] == d[k].1;
  }

  /** `push` uploads only items whose hash the index lacks, each to where `add_file` puts it. */
  lemma {:induction false} UploadsSound(path: string, index: map<string, string>, items: HashDict)
    ensures forall u :: u in Uploads(path, index, items) ==>
      exists x :: x in items && x.0 !in index && u == (Join(path, BlobName(x.0, x.1.path)), x.1)
    decreases |items|
  {
    if items != [] {
      var init := items[..|items| - 1];
      UploadsSound(path, index, init);
      assert forall x :: x in init ==> x in items;
    }
  }

  /** `push` uploads every item whose hash the index lacks. */
  lemma {:induction false} UploadsComplete(path: string, index: map<string, string>, items: HashDict)
    ensures forall x :: x in items && x.0 !in index ==> (Join(path, BlobName(x.0, x.1.path)), x.1) in Uploads(path, index, items)
    decreases |items|
  {
    if items != [] {
      var init := items[..|items| - 1];
      UploadsComplete(path, index, init);
      assert forall x :: x in items ==> x in init || x == items[|items| - 1];
    }
  }

  /** One more item: its UpdateFile goes last. */
  lemma PushFilesStep(url: string, path: string, index: map<string, string>, items: HashDict, i: nat)
    requires i < |items|
    ensures PushFiles(url, path, index, items[..i + 1])
      == PushFiles(url, path, index, items[..i]) + [Entry(url, path, index, items[i].0, items[i].1)]
  {
    assert items[..i + 1][..i] == items[..i];
  }

  /** One more item: its upload goes last when the index lacks its hash. */
  lemma UploadsStep(path: string, index: map<string, string>, items: HashDict, i: nat)
    requires i < |items|
    ensures Uploads(path, index, items[..i + 1])
      == Uploads(path, index, items[..i])
         + (if items[i].0 in index then [] else [(Join(path, BlobName(items[i].0, items[i].1.path)), items[i].1)])
  {
    assert items[..i + 1][..i] == items[..i];
  }

  /** The blobs after one more upload. */
  lemma PutBlobsAppend(blobs: map<string, Bytes>, ups: seq<(string, LocalFile)>, up: (string, LocalFile))
    ensures PutBlobs(blobs, ups + [up]) == PutBlobs(blobs, ups)[up.0 := up.1.contents]
  {
    assert (ups + [up])[..|ups|] == ups;
  }

  /** The log entries of one more upload. */
  lemma UploadEventsAppend(ups: seq<(string, LocalFile)>, up: (string, LocalFile))
    ensures UploadEvents(ups + [up]) == UploadEvents(ups) + [Uploaded(up.0)]
  {
    assert (ups + [up])[..|ups|] == ups;
  }

  /** The uploads before the first turn are none, whatever the index. */
  lemma UploadsSameBefore(path: string, index0: map<string, string>, index: map<string, string>, items: HashDict, i: nat)
    requires i <= |items|
    requires i > 0 ==> index == index0
    ensures Uploads(path, index0, items[..i]) == Uploads(path, index, items[..i])
  {
    if i == 0 {
      assert items[..i] == [];
    }
  }

  /**
   * The UpdateFiles after one turn of `push`'s loop: the index the turn
   * looks the hash up in is the one before (or, on the first turn, the one
   * it loads), and the turn adds the item's UpdateFile.
   */
  lemma FilesStep(url: string, path: string, index0: map<string, string>, index: map<string, string>,
                  items: HashDict, i: nat, files: seq<UpdateFile>, f: UpdateFile)
    requires i < |items|
    requires i > 0 ==> index == index0
    requires files == PushFiles(url, path, index0, items[..i])
    requires f == Entry(url, path, index, items[i].0, items[i].1)
    ensures files + [f] == PushFiles(url, path, index, items[..i + 1])
  {
    if i == 0 {
      assert items[..i] == [];
    }
    PushFilesStep(url, path, index, items, i);
  }

  /** The blobs after one turn of `push`'s loop: the item's file is uploaded when the index lacks its hash. */
  lemma BlobsStep(path: string, index0: map<string, string>, index: map<string, string>, items: HashDict, i: nat,
                  blobs0: map<string, Bytes>, blobs: map<string, Bytes>, blobs': map<string, Bytes>)
    requires i < |items|
    requires i > 0 ==> index == index0
    requires blobs == PutBlobs(blobs0, Uploads(path, index0, items[..i]))
    requires items[i].0 in index ==> blobs' == blobs
    requires items[i].0 !in index ==> blobs' == blobs[Join(path, BlobName(items[i].0, items[i].1.path)) := items[i].1.contents]
    ensures blobs' == PutBlobs(blobs0, Uploads(path, index, items[..i + 1]))
  {
    var ups := Uploads(path, index, items[..i]);
    assert blobs == PutBlobs(blobs0, ups) by {
      UploadsSameBefore(path, index0, index, items, i);
    }
    if items[i].0 !in index {
      var up := (Join(path, BlobName(items[i].0, items[i].1.path)), items[i].1);
      assert Uploads(path, index, items[..i + 1]) == ups + [up] by {
        UploadsStep(path, index, items, i);
      }
      PutBlobsAppend(blobs0, ups, up);
    } else {
      assert Uploads(path, index, items[..i + 1]) == ups by {
        UploadsStep(path, index, items, i);
        assert ups + [] == ups;
      }
    }
  }

  /** The log after one turn of `push`'s loop: one Uploaded event when the index lacks the hash. */
  lemma LogStep(path: string, index0: map<string, string>, index: map<string, string>, items: HashDict, i: nat,
                log0: seq<Event>, log: seq<Event>, log': seq<Event>)
    requires i < |items|
    requires i > 0 ==> index == index0
    requires log == log0 + UploadEvents(Uploads(path, index0, items[..i]))
    requires items[i].0 in index ==> log' == log
    requires items[i].0 !in index ==> log' == log + [Uploaded(Join(path, BlobName(items[i].0, items[i].1.path)))]
    ensures log' == log0 + UploadEvents(Uploads(path, index, items[..i + 1]))
  {
    var ups := Uploads(path, index, items[..i]);
    var e := UploadEvents(ups);
    assert log == log0 + e by {
      UploadsSameBefore(path, index0, index, items, i);
    }
    if items[i].0 !in index {
      var up := (Join(path, BlobName(items[i].0, items[i].1.path)), items[i].1);
      assert Uploads(path, index, items[..i + 1]) == ups + [up] by {
        UploadsStep(path, index, items, i);
      }
      assert UploadEvents(ups + [up]) == e + [Uploaded(up.0)] by {
        UploadEventsAppend(ups, up);
      }
      assert (log0 + e) + [Uploaded(up.0)] == log0 + (e + [Uploaded(up.0)]);
    } else {
      assert Uploads(path, index, items[..i + 1]) == ups by {
        UploadsStep(path, index, items, i);
        assert ups + [] == ups;
      }
    }
  }

  /** The index `push` consults: the one loaded before, or else the one its first lookup loads. */
  function IndexOf(m: Option<map<string, string>>): map<string, string> {
    if m.Some? then m.value else map[]
  }

  /**
   * One turn of `push`'s loop: look the hash up (loading the index the
   * first time), upload the file when the index lacks the hash, and build
   * its UpdateFile.
   */
  method PushOne(storage: FileStorage, h: HexDigest, local: LocalFile) returns (f: UpdateFile)
    requires storage.backend.digest(local.contents) == h
    requires storage.md5Map.Some? ==> LocalIndex(storage.md5Map.value, storage.path)
    modifies storage`md5Map, storage.backend`blobs, storage.backend`log
    ensures storage.md5Map.Some? && LocalIndex(storage.md5Map.value, storage.path)
    ensures old(storage.md5Map).Some? ==> storage.md5Map == old(storage.md5Map)
    ensures old(storage.md5Map).None? ==>
      IsMd5Index(storage.md5Map.value, old(storage.backend.blobs), storage.path, storage.backend.digest)
    ensures f == Entry(storage.url, storage.path, storage.md5Map.value, h, local)
    ensures h in storage.md5Map.value ==>
      storage.backend.blobs == old(storage.backend.blobs) && storage.backend.log == old(storage.backend.log)
    ensures h !in storage.md5Map.value ==>
      var dest := Join(storage.path, BlobName(h, local.path));
      && storage.backend.blobs == old(storage.backend.blobs)[dest := local.contents]
      && storage.backend.log == old(storage.backend.log) + [Uploaded(dest)]
  {
    var remote := storage.FileForMd5(h);
    if old(storage.md5Map).None? {
      Md5IndexIsLocal(storage.md5Map.value, storage.backend.blobs, storage.path, storage.backend.digest);
    }
    if remote == None {
      var dest := storage.AddFile(local);
      remote := Some(dest);
    }
    var perms := Perms(local.mode);
    var executable := OwnerExecutable(perms);
    RemoteRelPath(storage.path, storage.md5Map.value, h, local);
    var sources := [storage.url + RelPath(remote.value, storage.path).value];
    f := UpdateFile(NormWalked(local.path), h, perms, sources, executable);
  }

  /**
   * Where `push`'s loop stands after the first `i` items, looking hashes up
   * in `index`: the UpdateFiles so far are those of the items so far, and
   * exactly their missing blobs have been uploaded and logged.
   */
  ghost predicate Pushed(url: string, path: string, index: map<string, string>, blobs0: map<string, Bytes>,
                         log0: seq<Event>, items: HashDict, i: nat,
                         files: seq<UpdateFile>, blobs: map<string, Bytes>, log: seq<Event>)
  {
    && i <= |items|
    && files == PushFiles(url, path, index, items[..i])
    && blobs == PutBlobs(blobs0, Uploads(path, index, items[..i]))
    && log == log0 + UploadEvents(Uploads(path, index, items[..i]))
  }

  /**
   * One turn of `push`'s loop, from where it stands after `i` items to where
   * it stands after `i + 1`. Before the first turn the index may not be
   * loaded yet; the turn loads it, and the items before it are none.
   */
  method PushNext(storage: FileStorage, ghost index0: map<string, string>, ghost blobs0: map<string, Bytes>,
                  ghost log0: seq<Event>, items: HashDict, i: nat, files: seq<UpdateFile>)
    returns (files': seq<UpdateFile>)
    requires i < |items|
    requires storage.md5Map.Some? ==> LocalIndex(storage.md5Map.value, storage.path)
    requires storage.md5Map.Some? ==> index0 == storage.md5Map.value
    requires storage.md5Map.None? ==> i == 0
    requires storage.backend.digest(items[i].1.contents) == items[i].0
    requires Pushed(storage.url, storage.path, index0, blobs0, log0, items, i, files,
                    storage.backend.blobs, storage.backend.log)
    modifies storage`md5Map, storage.backend`blobs, storage.backend`log
    ensures storage.md5Map.Some? && LocalIndex(storage.md5Map.value, storage.path)
    ensures old(storage.md5Map).Some? ==> storage.md5Map == old(storage.md5Map)
    ensures old(storage.md5Map).None? ==>
      IsMd5Index(storage.md5Map.value, old(storage.backend.blobs), storage.path, storage.backend.digest)
    ensures Pushed(storage.url, storage.path, storage.md5Map.value, blobs0, log0, items, i + 1, files',
                   storage.backend.blobs, storage.backend.log)
  {
    ghost var blobs1, log1 := storage.backend.blobs, storage.backend.log;
    var f := PushOne(storage, items[i].0, items[i].1);
    files' := files + [f];
    ghost var index := storage.md5Map.value;
    FilesStep(storage.url, storage.path, index0, index, items, i, files, f);
    BlobsStep(storage.path, index0, index, items, i, blobs0, blobs1, storage.backend.blobs);
    LogStep(storage.path, index0, index, items, i, log0, log1, storage.backend.log);
  }

  /**
   * `push`'s loop over the items of the dict, in order. The first turn is
   * the one that loads the index when none was loaded; the index stays the
   * same on the later turns.
   */
  method PushAll(storage: FileStorage, items: HashDict) returns (files: seq<UpdateFile>)
    requires forall k :: 0 <= k < |items| ==> storage.backend.digest(items[k].1.contents) == items[k].0
    requires storage.md5Map.Some? ==> LocalIndex(storage.md5Map.value, storage.path)
    modifies storage`md5Map, storage.backend`blobs, storage.backend`log
    ensures items == [] ==> storage.md5Map == old(storage.md5Map)
    ensures items != [] ==> storage.md5Map.Some?
    ensures old(storage.md5Map).Some? ==> storage.md5Map == old(storage.md5Map)
    ensures items != [] && old(storage.md5Map).None? ==>
      IsMd5Index(storage.md5Map.value, old(storage.backend.blobs), storage.path, storage.backend.digest)
    ensures Pushed(storage.url, storage.path, IndexOf(storage.md5Map), old(storage.backend.blobs),
                   old(storage.backend.log), items, |items|, files, storage.backend.blobs, storage.backend.log)
  {
    files := [];
    assert items[..0] == [];
    if items == [] {
      return;
    }
    ghost var blobs0, log0 := storage.backend.blobs, storage.backend.log;
    files := PushNext(storage, IndexOf(storage.md5Map), blobs0, log0, items, 0, files);
    files := PushRest(storage, storage.md5Map.value, blobs0, log0, items, 1, files);
  }

  /** The later turns of `push`'s loop, from the `start`-th item on, with the index loaded. */
  method PushRest(storage: FileStorage, ghost index: map<string, string>, ghost blobs0: map<string, Bytes>,
                  ghost log0: seq<Event>, items: HashDict, start: nat, files0: seq<UpdateFile>)
    returns (files: seq<UpdateFile>)
    requires storage.md5Map == Some(index) && LocalIndex(index, storage.path)
    requires forall k :: 0 <= k < |items| ==> storage.backend.digest(items[k].1.contents) == items[k].0
    requires Pushed(storage.url, storage.path, index, blobs0, log0, items, start, files0,
                    storage.backend.blobs, storage.backend.log)
    modifies storage`md5Map, storage.backend`blobs, storage.backend`log
    ensures storage.md5Map == old(storage.md5Map)
    ensures Pushed(storage.url, storage.path, index, blobs0, log0, items, |items|, files,
                   storage.backend.blobs, storage.backend.log)
  {
    files := files0;
    var i := start;
    while i < |items|
      invariant start <= i <= |items|
      invariant storage.md5Map == Some(index)
      invariant Pushed(storage.url, storage.path, index, blobs0, log0, items, i, files,
                       storage.backend.blobs, storage.backend.log)
    {
      files := PushNext(storage, index, blobs0, log0, items, i, files);
      i := i + 1;
    }
  }

  /**
   * `push(channel, collection, vsn_id, vsn_name, vsn_path)`: the storage
   * index is consulted (and loaded, the first time) for every hash; only
   * hashes it lacks are uploaded; the version is added once, after all the
   * uploads, with one UpdateFile per item of the dict, in order.
   */
  method Push(storage: FileStorage, channel: Channel, vid: int, vname: string, walked: seq<LocalFile>)
    returns (v: Version)
    requires channel.backend == storage.backend
    requires storage.md5Map.Some? ==> LocalIndex(storage.md5Map.value, storage.path)
    modifies storage`md5Map, storage.backend`blobs, storage.backend`log, storage.backend`docs, channel`versions
    ensures var d := Md5DirSpec(storage.backend.digest, walked);
      && (d == [] ==> storage.md5Map == old(storage.md5Map))
      && (d != [] ==>
            && storage.md5Map.Some?
            && (old(storage.md5Map).Some? ==> storage.md5Map == old(storage.md5Map))
            && (old(storage.md5Map).None? ==>
                  IsMd5Index(storage.md5Map.value, old(storage.backend.blobs), storage.path, storage.backend.digest)))
    ensures var d := Md5DirSpec(storage.backend.digest, walked);
      var index := IndexOf(storage.md5Map);
      var ups := Uploads(storage.path, index, d);
      && fresh(v) && v.backend == storage.backend
      && v.Data() == VersionData(channel.path, vid, vname, PushFiles(storage.url, storage.path, index, d))
      && channel.versions == old(channel.versions) + [Summary(vid, vname)]
      && storage.backend.blobs == PutBlobs(old(storage.backend.blobs), ups)
      && storage.backend.docs == old(storage.backend.docs)
           [VersionPath(channel.path, vid) := VersionDoc(vid, vname, v.Data().files)]
           [IndexPath(channel.path) := IndexDoc(channel.versions)]
      && storage.backend.log == old(storage.backend.log) + UploadEvents(ups)
           + [Wrote(VersionPath(channel.path, vid)), Wrote(IndexPath(channel.path))]
  {
    var d := Md5Dir(storage.backend.digest, walked);
    Md5DirSound(storage.backend.digest, walked);
    var files := PushAll(storage, d);
    assert d[..|d|] == d;
    v := channel.AddVersion(vid, vname, files);
  }
}

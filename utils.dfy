/** Model of diffuzers/utils.py: pruning the session state, and the file and
    archive layout used when generated images are saved and offered for
    download. The file system is a map from path to file content; PNG
    encoding, base64 and zip encoding are kept as structured values. */
module Utils {
  import opened Wrappers
  import opened Strings

  // ---------------------------------------------------------------------
  // clear_memory

  /** Whatever the web framework keeps under a session key (a pipeline object,
      a widget value); opaque here. */
  datatype SessionValue = SessionValue(id: nat)

  /** The framework's per-session dictionary, which `clear_memory` edits in
      place. */
  class SessionState {
    var entries: map<string, SessionValue>

    constructor (entries: map<string, SessionValue>)
      ensures this.entries == entries
    {
      this.entries := entries;
    }
  }

  /** The keys `clear_memory` considers, in the order it visits them. */
  const ToClear: seq<string> := ["inpainting", "text2img", "img2text"]

  /** The dictionary after visiting `keys` in order and deleting each key that
      is present and not in `preserve`. */
  function Prune(state: map<string, SessionValue>, keys: seq<string>, preserve: set<string>): (r: map<string, SessionValue>)
    ensures forall k :: k in r ==> k in state && r[k] == state[k]
    ensures forall k :: k in state && (k !in keys || k in preserve) ==> k in r
    decreases |keys|
  {
    if |keys| == 0 then state
    else
      var next := if keys[0] !in preserve && keys[0] in state then state - {keys[0]} else state;
      Prune(next, keys[1..], preserve)
  }

  /** Visiting the keys one by one removes exactly the listed, unpreserved keys. */
  lemma {:induction false} PruneRemoves(state: map<string, SessionValue>, keys: seq<string>, preserve: set<string>)
    ensures Prune(state, keys, preserve) == state - (set k | k in keys && k !in preserve)
    decreases |keys|
  {
    if |keys| > 0 {
      var next := if keys[0] !in preserve && keys[0] in state then state - {keys[0]} else state;
      PruneRemoves(next, keys[1..], preserve);
      assert forall k :: k in keys <==> k == keys[0] || k in keys[1..];
      assert next - (set k | k in keys[1..] && k !in preserve) == state - (set k | k in keys && k !in preserve);
    }
  }

  /** A key survives `clear_memory` exactly when it was there and is either
      not one of the three listed keys or is preserved; survivors keep their
      values. */
  lemma ClearMemoryKeeps(state: map<string, SessionValue>, preserve: set<string>)
    ensures forall k :: k in Prune(state, ToClear, preserve) <==> k in state && (k !in ToClear || k in preserve)
    ensures forall k :: k in Prune(state, ToClear, preserve) ==> Prune(state, ToClear, preserve)[k] == state[k]
  {
    PruneRemoves(state, ToClear, preserve);
  }

  /** Running `clear_memory` twice with the same `preserve` is the same as
      running it once. */
  lemma ClearMemoryIdempotent(state: map<string, SessionValue>, preserve: set<string>)
    ensures Prune(Prune(state, ToClear, preserve), ToClear, preserve) == Prune(state, ToClear, preserve)
  {
    PruneRemoves(state, ToClear, preserve);
    PruneRemoves(Prune(state, ToClear, preserve), ToClear, preserve);
  }

  /** `clear_memory(preserve)`, without the cache and garbage collector calls. */
  method ClearMemory(session: SessionState, preserve: set<string>)
    modifies session
    ensures session.entries == Prune(old(session.entries), ToClear, preserve)
    ensures forall k :: k in session.entries <==> k in old(session.entries) && (k !in ToClear || k in preserve)
  {
    for j := 0 to |ToClear|
      invariant Prune(session.entries, ToClear[j..], preserve) == Prune(old(session.entries), ToClear, preserve)
    {
      var key := ToClear[j];
      assert ToClear[j..][1..] == ToClear[j + 1..];
      if key !in preserve && key in session.entries {
        session.entries := session.entries - {key};
      }
    }
    assert ToClear[|ToClear|..] == [];
    ClearMemoryKeeps(old(session.entries), preserve);
  }

  // ---------------------------------------------------------------------
  // Images, PNG text chunks and files

  /** Pixel data of a generated image; opaque. */
  datatype Image = Image(pixels: seq<int>)

  /** The text chunks a PNG carries, as (key, text) pairs in the order added. */
  datatype PngInfo = PngInfo(texts: seq<(string, string)>)

  function AddText(info: PngInfo, key: string, text: string): (r: PngInfo)
    ensures |r.texts| == |info.texts| + 1
    ensures r.texts[..|info.texts|] == info.texts && r.texts[|info.texts|] == (key, text)
  {
    PngInfo(info.texts + [(key, text)])
  }

  /** What a file holds: an image saved with its text chunks, a text file, or
      a zip archive mapping entry names to contents. */
  datatype FileContent =
    | Png(image: Image, info: PngInfo)
    | Text(text: string)
    | Zip(entries: map<string, FileContent>)

  /** A `data:` URI, standing for "data:" + mime + ";base64," + the base64 of
      the payload's bytes. */
  datatype DataUri = DataUri(mime: string, payload: FileContent)

  /** The part of the file system `save_images` touches. */
  class FileSystem {
    var files: map<string, FileContent>
    var dirs: set<string>

    constructor (files: map<string, FileContent>, dirs: set<string>)
      ensures this.files == files && this.dirs == dirs
    {
      this.files := files;
      this.dirs := dirs;
    }
  }

  /** `f"{prefix}{n}.png"`. */
  function PngName(prefix: string, n: nat): (r: string)
    ensures prefix <= r
  {
    prefix + NatToString(n) + ".png"
  }

  lemma PngNameInjective(prefix: string, m: nat, n: nat)
    ensures PngName(prefix, m) == PngName(prefix, n) ==> m == n
  {
    var a, b := PngName(prefix, m), PngName(prefix, n);
    if a == b {
      assert NatToString(m) == a[|prefix|..|a| - 4];
      assert NatToString(n) == b[|prefix|..|b| - 4];
      NatToStringInjective(m, n);
    }
  }

  lemma PngNameEndsWithPng(prefix: string, n: nat)
    ensures EndsWith(PngName(prefix, n), ".png")
  {
    var s := PngName(prefix, n);
    assert s[|s| - 4..] == ".png";
  }

  /** The files left by saving `images[j]` as `PngName(prefix, first + j)`,
      for j = 0, 1, ... in order. */
  function NumberedPngs(prefix: string, first: nat, images: seq<Image>, info: PngInfo): (r: map<string, FileContent>)
    decreases |images|
  {
    if |images| == 0 then map[]
    else
      var last := |images| - 1;
      NumberedPngs(prefix, first, images[..last], info)[PngName(prefix, first + last) := Png(images[last], info)]
  }

  /** Image j ends up under number `first + j`. */
  lemma {:induction false} NumberedPngsHold(prefix: string, first: nat, images: seq<Image>, info: PngInfo)
    ensures forall n :: first <= n < first + |images| ==>
      PngName(prefix, n) in NumberedPngs(prefix, first, images, info) &&
      NumberedPngs(prefix, first, images, info)[PngName(prefix, n)] == Png(images[n - first], info)
    decreases |images|
  {
    if |images| > 0 {
      var last := |images| - 1;
      var before := NumberedPngs(prefix, first, images[..last], info);
      NumberedPngsHold(prefix, first, images[..last], info);
      forall n | first <= n < first + last
        ensures PngName(prefix, n) in before && before[PngName(prefix, n)] == Png(images[n - first], info)
        ensures PngName(prefix, n) != PngName(prefix, first + last)
      {
        PngNameInjective(prefix, n, first + last);
      }
    }
  }

  /** Nothing but the numbered images is written. */
  lemma {:induction false} NumberedPngsOnly(prefix: string, first: nat, images: seq<Image>, info: PngInfo)
    ensures forall p :: p in NumberedPngs(prefix, first, images, info) ==>
      exists n :: first <= n < first + |images| && p == PngName(prefix, n)
    decreases |images|
  {
    if |images| > 0 {
      NumberedPngsOnly(prefix, first, images[..|images| - 1], info);
    }
  }

  /** Every file the image loop writes has a ".png" name. */
  lemma NumberedPngsArePng(prefix: string, first: nat, images: seq<Image>, info: PngInfo)
    ensures forall p :: p in NumberedPngs(prefix, first, images, info) ==> EndsWith(p, ".png")
  {
    NumberedPngsOnly(prefix, first, images, info);
    forall p | p in NumberedPngs(prefix, first, images, info)
      ensures EndsWith(p, ".png")
    {
      var n :| first <= n < first + |images| && p == PngName(prefix, n);
      PngNameEndsWithPng(prefix, n);
    }
  }

  // ---------------------------------------------------------------------
  // save_images

  /** `f"{output_path}/{module}/{current_datetime}"`. */
  function ImageDir(outputPath: string, moduleName: string, timestamp: string): (r: string)
    ensures outputPath + "/" <= r
    ensures outputPath + "/" + moduleName + "/" <= r
  {
    outputPath + "/" + moduleName + "/" + timestamp
  }

  /** `{dir}/metadata.txt`: a file of `dir` that is not a PNG name. */
  function MetadataPath(dir: string): (r: string)
    ensures dir + "/" <= r
    ensures !EndsWith(r, ".png")
  {
    var r := dir + "/metadata.txt";
    assert r[|r| - 1] == 't';
    r
  }

  /** The text chunks `save_images` attaches to every image: the metadata
      under the key "text2img", whatever the module. */
  function SavedPngInfo(metadata: string): (r: PngInfo)
    ensures r.texts == [("text2img", metadata)]
  {
    AddText(PngInfo([]), "text2img", metadata)
  }

  /** The files `save_images` writes into `dir`. */
  function SavedFiles(dir: string, images: seq<Image>, metadata: string): (r: map<string, FileContent>)
  {
    NumberedPngs(dir + "/", 0, images, SavedPngInfo(metadata))[MetadataPath(dir) := Text(metadata)]
  }

  /** Every file `save_images` writes lies below `dir`. */
  lemma SavedFilesBelow(dir: string, images: seq<Image>, metadata: string)
    ensures forall p :: p in SavedFiles(dir, images, metadata) ==> dir + "/" <= p
  {
    SavedFilesOnly(dir, images, metadata);
  }

  /** Image i is at `{dir}/{i}.png` with the metadata under the key
      "text2img". */
  lemma SavedFilesImages(dir: string, images: seq<Image>, metadata: string)
    ensures forall i :: 0 <= i < |images| ==>
      PngName(dir + "/", i) in SavedFiles(dir, images, metadata) &&
      SavedFiles(dir, images, metadata)[PngName(dir + "/", i)] == Png(images[i], SavedPngInfo(metadata))
  {
    var pngs := NumberedPngs(dir + "/", 0, images, SavedPngInfo(metadata));
    NumberedPngsHold(dir + "/", 0, images, SavedPngInfo(metadata));
    forall i | 0 <= i < |images|
      ensures PngName(dir + "/", i) in pngs && pngs[PngName(dir + "/", i)] == Png(images[i], SavedPngInfo(metadata))
      ensures PngName(dir + "/", i) != MetadataPath(dir)
    {
      PngNameIsNotMetadataPath(dir, i);
    }
  }

  /** No numbered image is written over `metadata.txt`. */
  lemma PngNameIsNotMetadataPath(dir: string, n: nat)
    ensures PngName(dir + "/", n) != MetadataPath(dir)
  {
    PngNameEndsWithPng(dir + "/", n);
  }

  /** The metadata text is at `{dir}/metadata.txt`, and nothing else but it
      and the images is written. */
  lemma SavedFilesOnly(dir: string, images: seq<Image>, metadata: string)
    ensures MetadataPath(dir) in SavedFiles(dir, images, metadata)
    ensures SavedFiles(dir, images, metadata)[MetadataPath(dir)] == Text(metadata)
    ensures forall p :: p in SavedFiles(dir, images, metadata) ==>
      p == MetadataPath(dir) || exists i :: 0 <= i < |images| && p == PngName(dir + "/", i)
  {
    NumberedPngsOnly(dir + "/", 0, images, SavedPngInfo(metadata));
  }

  /** Why `save_images` can fail: `os.makedirs("")` raises
      FileNotFoundError. */
  datatype SaveError = FileNotFound(path: string)

  /** The directories `os.makedirs(path, exist_ok=True)` leaves: `path`
      itself and each of its ancestors, the prefixes that stop just before a
      '/'. */
  function MadeDirs(path: string): (r: set<string>)
    ensures path in r
    ensures forall d :: d in r ==> d <= path
  {
    {path} + (set i | 0 < i < |path| && path[i] == '/' :: path[..i])
  }

  /** Making `p + "/" + q` also makes `p` and every directory making `p` does. */
  lemma MadeDirsExtend(p: string, q: string)
    requires p != ""
    ensures MadeDirs(p) <= MadeDirs(p + "/" + q)
  {
    var pq := p + "/" + q;
    assert pq[..|p|] == p;
    forall d | d in MadeDirs(p)
      ensures d in MadeDirs(pq)
    {
      if d != p {
        var i :| 0 < i < |p| && p[i] == '/' && d == p[..i];
        assert pq[i] == '/' && pq[..i] == d;
      }
    }
  }

  /** The files after `save_images`: unchanged without an output path or
      when the first `os.makedirs` raises, otherwise overlaid with the files
      written below `{output_path}/{module}/{timestamp}`. */
  function FilesAfterSave(files: map<string, FileContent>, images: seq<Image>, moduleName: string, metadata: string,
                          outputPath: Option<string>, timestamp: string): (r: map<string, FileContent>)
    ensures outputPath.None? || outputPath == Some("") ==> r == files
    ensures forall p :: p in files ==> p in r
    ensures outputPath.Some? ==> forall p :: p in r && (p !in files || r[p] != files[p]) ==>
      ImageDir(outputPath.value, moduleName, timestamp) + "/" <= p
  {
    match outputPath
    case None => files
    case Some(out) =>
      if out == "" then files
      else
        var saved := SavedFiles(ImageDir(out, moduleName, timestamp), images, metadata);
        SavedFilesBelow(ImageDir(out, moduleName, timestamp), images, metadata);
        files + saved
  }

  /** The directories after `save_images`: those the three `os.makedirs`
      calls make, or none when the first one raises. */
  function DirsAfterSave(dirs: set<string>, moduleName: string, outputPath: Option<string>, timestamp: string): (r: set<string>)
    ensures outputPath.None? || outputPath == Some("") ==> r == dirs
    ensures dirs <= r
    ensures outputPath.Some? && outputPath.value != "" ==>
      var out := outputPath.value;
      && out in r && out + "/" + moduleName in r && ImageDir(out, moduleName, timestamp) in r
      && forall d :: d in r && d !in dirs ==> d <= ImageDir(out, moduleName, timestamp)
  {
    match outputPath
    case None => dirs
    case Some(out) =>
      if out == "" then dirs
      else dirs + MadeDirs(out) + MadeDirs(out + "/" + moduleName) + MadeDirs(ImageDir(out, moduleName, timestamp))
  }

  /** The three `os.makedirs` calls make exactly the image directory and its
      ancestors: every prefix of it that stops before a '/'. */
  lemma DirsAfterSaveAncestors(dirs: set<string>, moduleName: string, out: string, timestamp: string)
    requires out != ""
    ensures DirsAfterSave(dirs, moduleName, Some(out), timestamp) == dirs + MadeDirs(ImageDir(out, moduleName, timestamp))
  {
    MadeDirsExtend(out, moduleName);
    MadeDirsExtend(out + "/" + moduleName, timestamp);
  }

  /** `save_images`: nothing happens without an output path; an empty one
      makes the first `os.makedirs` raise before anything is written;
      otherwise the directories are created and the images and the metadata
      text are written below `{output_path}/{module}/{timestamp}`. The current
      time is the `timestamp` parameter. */
  method SaveImages(fs: FileSystem, images: seq<Image>, moduleName: string, metadata: string,
                    outputPath: Option<string>, timestamp: string)
    returns (saved: Outcome<SaveError>)
    modifies fs
    ensures saved.Fail? <==> outputPath == Some("")
    ensures saved.Fail? ==> saved.error == FileNotFound("")
    ensures outputPath.None? || saved.Fail? ==> fs.files == old(fs.files) && fs.dirs == old(fs.dirs)
    ensures fs.files == FilesAfterSave(old(fs.files), images, moduleName, metadata, outputPath, timestamp)
    ensures fs.dirs == DirsAfterSave(old(fs.dirs), moduleName, outputPath, timestamp)
  {
    if outputPath.None? {
      return Pass;
    }
    var out := outputPath.value;
    if out == "" {
      return Fail(FileNotFound(out));
    }
    var dir := ImageDir(out, moduleName, timestamp);
    fs.dirs := fs.dirs + MadeDirs(out);
    fs.dirs := fs.dirs + MadeDirs(out + "/" + moduleName);
    fs.dirs := fs.dirs + MadeDirs(dir);
    WriteSavedFiles(fs, dir, images, metadata);
    saved := Pass;
  }

  /** The writes of `save_images` into `dir`: the numbered images, then
      `metadata.txt`. */
  method WriteSavedFiles(fs: FileSystem, dir: string, images: seq<Image>, metadata: string)
    modifies fs
    ensures fs.files == old(fs.files) + SavedFiles(dir, images, metadata)
    ensures fs.dirs == old(fs.dirs)
  {
    WritePngs(fs, dir + "/", images, SavedPngInfo(metadata));
    ghost var pngs := NumberedPngs(dir + "/", 0, images, SavedPngInfo(metadata));
    fs.files := fs.files[MetadataPath(dir) := Text(metadata)];
    assert fs.files == old(fs.files) + pngs[MetadataPath(dir) := Text(metadata)];
  }

  /** The image loop of `save_images`: image i is written to
      `{prefix}{i}.png`. */
  method WritePngs(fs: FileSystem, prefix: string, images: seq<Image>, info: PngInfo)
    modifies fs
    ensures fs.files == old(fs.files) + NumberedPngs(prefix, 0, images, info)
    ensures fs.dirs == old(fs.dirs)
  {
    for i := 0 to |images|
      invariant fs.dirs == old(fs.dirs)
      invariant fs.files == old(fs.files) + NumberedPngs(prefix, 0, images[..i], info)
    {
      assert images[..i + 1][..i] == images[..i];
      fs.files := fs.files[PngName(prefix, i) := Png(images[i], info)];
    }
    assert images[..|images|] == images;
  }

  // ---------------------------------------------------------------------
  // display_and_download_images

  /** The name the zip archive gets inside the temporary directory. */
  const ZipName: string := "images.zip"

  /** The zip loop of `display_and_download_images`: walks the directory
      listing, in whatever order it comes, and adds every file whose name
      ends with ".png" under that name. The result holds exactly the `.png`
      files of the directory, with their contents. */
  method ZipPngFiles(dir: map<string, FileContent>) returns (archive: map<string, FileContent>)
    ensures forall f :: f in archive <==> f in dir && EndsWith(f, ".png")
    ensures forall f :: f in archive ==> archive[f] == dir[f]
  {
    var remaining := dir.Keys;
    archive := map[];
    while remaining != {}
      invariant remaining <= dir.Keys
      invariant forall f :: f in archive <==> f in dir.Keys - remaining && EndsWith(f, ".png")
      invariant forall f :: f in archive ==> archive[f] == dir[f]
      decreases remaining
    {
      var f :| f in remaining;
      if EndsWith(f, ".png") {
        archive := archive[f := dir[f]];
      }
      remaining := remaining - {f};
    }
  }

  /** `display_and_download_images`: each image is saved in a fresh temporary
      directory as `{i + 1}.png` and read back into the gallery as a data URI;
      then every `.png` file of the directory is put into the zip archive,
      whose contents are returned (the link offers its base64). The directory
      listing comes in no particular order, so the entries are picked in an
      arbitrary one. */
  method DisplayAndDownload(images: seq<Image>, info: PngInfo) returns (gallery: seq<DataUri>, archive: map<string, FileContent>)
    ensures |gallery| == |images|
    ensures forall i :: 0 <= i < |images| ==> gallery[i] == DataUri("image/jpeg", Png(images[i], info))
    ensures forall n :: 1 <= n <= |images| ==>
      PngName("", n) in archive && archive[PngName("", n)] == Png(images[n - 1], info)
    ensures forall name :: name in archive ==> exists n :: 1 <= n <= |images| && name == PngName("", n)
  {
    var tmp: map<string, FileContent> := map[];
    gallery := [];
    for i := 0 to |images|
      invariant tmp == NumberedPngs("", 1, images[..i], info)
      invariant |gallery| == i
      invariant forall j :: 0 <= j < i ==> gallery[j] == DataUri("image/jpeg", Png(images[j], info))
    {
      assert images[..i + 1][..i] == images[..i];
      var name := PngName("", i + 1);
      tmp := tmp[name := Png(images[i], info)];
      gallery := gallery + [DataUri("image/jpeg", tmp[name])];
    }
    assert images[..|images|] == images;
    ghost var pngs := tmp;
    NumberedPngsHold("", 1, images, info);
    NumberedPngsOnly("", 1, images, info);
    NumberedPngsArePng("", 1, images, info);

    // Opening the archive for writing creates it before the listing.
    tmp := tmp[ZipName := Zip(map[])];
    assert !EndsWith(ZipName, ".png");
    archive := ZipPngFiles(tmp);
    assert forall f :: f in archive <==> f in pngs;
  }
}

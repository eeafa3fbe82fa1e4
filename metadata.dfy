/**
 * metadata.py: set or delete the album tag (`©alb`) on every `.m4a` file of a folder, and
 * its `set <folder> [album_name]` / `del <folder>` command line.
 */
module AlbumTag {
  import opened Wrappers
  import opened Media
  import Paths

  /**
   * The tag update of `update_m4a_metadata` (metadata.py lines 16-22): the album entry is
   * removed, then set to the one-element list `[name]` when the name is truthy. Nothing
   * else in the tag set changes.
   */
  function SetAlbum(tags: Tags, albumName: Option<string>): (r: Tags)
    ensures Truthy(albumName) ==> AlbumKey in r.text && r.text[AlbumKey] == [albumName.value]
    ensures !Truthy(albumName) ==> AlbumKey !in r.text
    ensures forall k :: k != AlbumKey ==> (k in r.text <==> k in tags.text)
    ensures forall k :: k != AlbumKey && k in tags.text ==> r.text[k] == tags.text[k]
    ensures r.covr == tags.covr
  {
    var text := if AlbumKey in tags.text then tags.text - {AlbumKey} else tags.text;
    tags.(text := if Truthy(albumName) then text[AlbumKey := [albumName.value]] else text)
  }

  /** Applying the update a second time with the same name changes nothing. */
  lemma SetAlbumIdempotent(tags: Tags, albumName: Option<string>)
    ensures SetAlbum(SetAlbum(tags, albumName), albumName) == SetAlbum(tags, albumName)
  {
  }

  /** The outcome does not depend on the album the file had before. */
  lemma SetAlbumForgetsOldAlbum(a: Tags, b: Tags, albumName: Option<string>)
    requires a.covr == b.covr && a.text - {AlbumKey} == b.text - {AlbumKey}
    ensures SetAlbum(a, albumName) == SetAlbum(b, albumName)
  {
    var ra, rb := SetAlbum(a, albumName), SetAlbum(b, albumName);
    forall k | k != AlbumKey
      ensures (k in ra.text <==> k in rb.text) && (k in ra.text ==> ra.text[k] == rb.text[k])
    {
      assert k in a.text <==> k in a.text - {AlbumKey};
      assert k in b.text <==> k in b.text - {AlbumKey};
      if k in a.text {
        assert (a.text - {AlbumKey})[k] == a.text[k];
        assert (b.text - {AlbumKey})[k] == b.text[k];
      }
    }
    assert ra.text.Keys == rb.text.Keys;
    assert ra.text == rb.text;
  }

  /** A file after the update: rewritten when it opens and saves, untouched otherwise. */
  function Retagged(f: M4aFile, albumName: Option<string>): (g: M4aFile)
    ensures g.stem == f.stem && g.opens == f.opens && g.saves == f.saves && g.tags.covr == f.tags.covr
    ensures Writable(f) ==> (AlbumKey in g.tags.text <==> Truthy(albumName))
    ensures Writable(f) && Truthy(albumName) ==> g.tags.text[AlbumKey] == [albumName.value]
    ensures Writable(f) ==> forall k :: k != AlbumKey ==> (k in g.tags.text <==> k in f.tags.text)
    ensures Writable(f) ==> forall k :: k != AlbumKey && k in f.tags.text ==> g.tags.text[k] == f.tags.text[k]
    ensures !Writable(f) ==> g == f
  {
    if Writable(f) then f.(tags := SetAlbum(f.tags, albumName)) else f
  }

  /** `update_m4a_metadata`: a non-directory exits; otherwise one ✓ or ✗ line per file. */
  datatype UpdateStatus = NotADirectory | Processed(reports: seq<bool>)

  /**
   * `update_m4a_metadata` (metadata.py lines 5-27). A path that is not a directory (null)
   * ends the run before any file is touched. Otherwise every file is processed: those that
   * open and save get the new album tag; an exception on one file is reported as false and
   * the remaining files are still processed.
   */
  method UpdateM4aMetadata(folder: Folder?, albumName: Option<string>) returns (status: UpdateStatus)
    modifies folder
    ensures folder == null <==> status == NotADirectory
    ensures folder != null ==>
      && folder.cover == old(folder.cover)
      && |folder.files| == |old(folder.files)| == |status.reports|
      && (forall i :: 0 <= i < |folder.files| ==> folder.files[i] == Retagged(old(folder.files[i]), albumName))
      && (forall i :: 0 <= i < |status.reports| ==> status.reports[i] == Writable(old(folder.files[i])))
  {
    if folder == null {
      return NotADirectory;
    }
    var files := folder.files;
    var reports := [];
    var i := 0;
    while i < |files|
      invariant 0 <= i <= |files|
      invariant |folder.files| == |files| && folder.cover == old(folder.cover)
      invariant forall k :: 0 <= k < i ==> folder.files[k] == Retagged(files[k], albumName)
      invariant forall k :: i <= k < |files| ==> folder.files[k] == files[k]
      invariant |reports| == i && forall k :: 0 <= k < i ==> reports[k] == Writable(files[k])
    {
      var f := files[i];
      var ok := false;
      if f.opens {
        var text := f.tags.text;
        if AlbumKey in text {
          text := text - {AlbumKey};
        }
        if Truthy(albumName) {
          text := text[AlbumKey := [albumName.value]];
        }
        if f.saves {
          folder.files := folder.files[i := f.(tags := f.tags.(text := text))];
          ok := true;
        }
      }
      reports := reports + [ok];
      i := i + 1;
    }
    return Processed(reports);
  }

  /** What the command line of metadata.py asks for. */
  datatype TagInvocation = Update(folderPath: string, albumName: Option<string>) | Usage | UnknownCommand(command: string)

  /**
   * The command dispatch of metadata.py (lines 29-52); `argv[0]` is the script. Fewer than
   * three entries is a usage error; `set` takes the album from `argv[3]` when given and
   * otherwise from the folder path's last component; `del` clears the album; any other
   * command is unknown. Entries after those are ignored.
   */
  function ParseMetadataArgs(argv: seq<string>): (r: TagInvocation)
    ensures r.Usage? <==> |argv| < 3
    ensures r.UnknownCommand? <==> |argv| >= 3 && argv[1] != "set" && argv[1] != "del"
    ensures r.Update? ==> r.folderPath == argv[2] && r.albumName.None? == (argv[1] == "del")
    ensures r.Update? && |argv| > 3 && argv[1] == "set" ==> r.albumName == Some(argv[3])
    ensures r.Update? && |argv| == 3 && argv[1] == "set" ==> r.albumName == Some(Paths.PathName(argv[2]))
  {
    if |argv| < 3 then Usage
    else if argv[1] == "set" then
      Update(argv[2], Some(if |argv| > 3 then argv[3] else Paths.PathName(argv[2])))
    else if argv[1] == "del" then Update(argv[2], None)
    else UnknownCommand(argv[1])
  }

  /** `set <dir>/<name>` with no album argument names the album after the folder. */
  lemma SetDefaultsToFolderName(program: string, dir: string, name: string)
    requires Paths.Kept(name) && '/' !in name
    ensures ParseMetadataArgs([program, "set", dir + "/" + name]) == Update(dir + "/" + name, Some(name))
  {
    Paths.NameOfChild(dir, name);
  }

  /**
   * The `__main__` block of metadata.py. Usage errors, unknown commands and paths that are
   * not directories exit with 1 and change no file; otherwise the named folder's files are
   * retagged and the exit status is 0.
   */
  method RunMetadata(argv: seq<string>, fs: map<string, Folder>) returns (exitCode: int)
    modifies fs.Values
    ensures var r := ParseMetadataArgs(argv);
      exitCode == 1 <==> !r.Update? || r.folderPath !in fs
    ensures exitCode == 0 || exitCode == 1
    ensures exitCode == 1 ==> forall p :: p in fs ==> fs[p].files == old(fs[p].files) && fs[p].cover == old(fs[p].cover)
    ensures exitCode == 0 ==>
      var r := ParseMetadataArgs(argv);
      var target := fs[r.folderPath];
      && |target.files| == |old(target.files)|
      && (forall i :: 0 <= i < |target.files| ==> target.files[i] == Retagged(old(target.files[i]), r.albumName))
      && (forall p :: p in fs && fs[p] != target ==> fs[p].files == old(fs[p].files))
      && (forall p :: p in fs ==> fs[p].cover == old(fs[p].cover))
  {
    var invocation := ParseMetadataArgs(argv);
    if !invocation.Update? {
      return 1;
    }
    var folder: Folder? := if invocation.folderPath in fs then fs[invocation.folderPath] else null;
    var status := UpdateM4aMetadata(folder, invocation.albumName);
    if status.NotADirectory? {
      return 1;
    }
    return 0;
  }
}

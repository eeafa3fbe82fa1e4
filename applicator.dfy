/**
 * The two artwork strategies of albumArt.py: `add_album_art_to_folder` (one artwork for the
 * whole folder) and `add_album_art_per_song` (one lookup per file). Each is a method that
 * rewrites the folder's files in place and counts successes and failures; each is proved
 * against pure functions, and the accounting facts are lemmas about those functions.
 */
module Applicator {
  import opened Wrappers
  import opened Media
  import opened Resolver
  import Paths

  /** Counts of processed files, as the scripts return them. */
  datatype Tally = Tally(succeeded: nat, failed: nat)

  /**
   * One file after `audio['covr'] = [MP4Cover(art, JPEG)]; audio.save()`: when it opens and
   * saves, its picture list becomes exactly the new JPEG; otherwise the file is as it was.
   */
  function WithCover(f: M4aFile, art: Bytes): (g: M4aFile)
    ensures g.stem == f.stem && g.opens == f.opens && g.saves == f.saves
    ensures g.tags.text == f.tags.text
    ensures Writable(f) ==> g.tags.covr == [Cover(art, Jpeg)]
    ensures !Writable(f) ==> g == f
  {
    if Writable(f) then f.(tags := f.tags.(covr := [Cover(art, Jpeg)])) else f
  }

  /** `g` is `f` with at most its pictures changed: what either strategy does to a file. */
  predicate OnlyCoverChanged(f: M4aFile, g: M4aFile) {
    g.stem == f.stem && g.tags.text == f.tags.text && g.opens == f.opens && g.saves == f.saves
  }

  /** File by file, `b` is `a` with at most the pictures changed. */
  predicate OnlyCoversChanged(a: seq<M4aFile>, b: seq<M4aFile>) {
    |a| == |b| && forall i :: 0 <= i < |a| ==> OnlyCoverChanged(a[i], b[i])
  }

  lemma OnlyCoversChangedTrans(a: seq<M4aFile>, b: seq<M4aFile>, c: seq<M4aFile>)
    requires OnlyCoversChanged(a, b) && OnlyCoversChanged(b, c)
    ensures OnlyCoversChanged(a, c)
  {
  }

  /** The number of files whose read-modify-save completes. */
  function CountWritable(files: seq<M4aFile>): (n: nat)
    ensures n <= |files|
  {
    if files == [] then 0
    else CountWritable(files[..|files| - 1]) + (if Writable(files[|files| - 1]) then 1 else 0)
  }

  /** Every file is counted as a success exactly when every file opens and saves. */
  lemma {:induction false} AllWritable(files: seq<M4aFile>)
    ensures CountWritable(files) == |files| <==> forall i :: 0 <= i < |files| ==> Writable(files[i])
    decreases |files|
  {
    if files != [] {
      var init := files[..|files| - 1];
      AllWritable(init);
      assert forall i :: 0 <= i < |init| ==> init[i] == files[i];
    }
  }

  /**
   * The clean-up rule of folder mode (albumArt.py line 192): `cover.jpg` is deleted when
   * the local cover was used, nothing failed and something succeeded. With the counts that
   * folder mode produces, that is: the local cover was used, the folder has files, and all
   * of them open and save.
   */
  predicate DeletesCover(usedLocalCover: bool, t: Tally) {
    usedLocalCover && t.failed == 0 && t.succeeded > 0
  }

  lemma CoverDeletedIffAllSaved(usedLocalCover: bool, files: seq<M4aFile>)
    ensures var s := CountWritable(files);
      DeletesCover(usedLocalCover, Tally(s, |files| - s)) <==>
        usedLocalCover && files != [] && forall i :: 0 <= i < |files| ==> Writable(files[i])
  {
    AllWritable(files);
  }

  /**
   * The loop of folder mode (albumArt.py lines 180-189): the same artwork goes into every
   * file that opens and saves; each file adds one to exactly one of the two counters.
   */
  method WriteCoverToAll(folder: Folder, art: Artwork) returns (succeeded: nat, failed: nat)
    modifies folder
    ensures |folder.files| == |old(folder.files)| && folder.cover == old(folder.cover)
    ensures forall i :: 0 <= i < |folder.files| ==> folder.files[i] == WithCover(old(folder.files[i]), art)
    ensures succeeded == CountWritable(old(folder.files)) && succeeded + failed == |old(folder.files)|
  {
    succeeded, failed := 0, 0;
    var files := folder.files;
    var i := 0;
    while i < |files|
      invariant 0 <= i <= |files|
      invariant |folder.files| == |files| && folder.cover == old(folder.cover)
      invariant forall k :: 0 <= k < i ==> folder.files[k] == WithCover(files[k], art)
      invariant forall k :: i <= k < |files| ==> folder.files[k] == files[k]
      invariant succeeded == CountWritable(files[..i]) && succeeded + failed == i
    {
      var f := files[i];
      if f.opens && f.saves {
        folder.files := folder.files[i := f.(tags := f.tags.(covr := [Cover(art, Jpeg)]))];
        succeeded := succeeded + 1;
      } else {
        failed := failed + 1;
      }
      assert files[..i + 1][..i] == files[..i];
      i := i + 1;
    }
    assert files[..i] == files;
  }

  /**
   * The resolution step of `add_album_art_to_folder` (albumArt.py lines 131-177), statement
   * by statement: local cover, else online lookup, else the default artwork. It yields the
   * artwork, the flag and the requests ResolveFolderArt describes.
   */
  method ResolveArt(folderPath: string, cover: CoverJpg, first: M4aFile, env: Env)
    returns (art: Artwork, usedLocalCover: bool, requests: seq<Request>)
    ensures var r := ResolveFolderArt(Paths.PathName(folderPath), cover, first, env);
      art == r.art && usedLocalCover == r.usedLocalCover && requests == r.requests
  {
    usedLocalCover, requests := false, [];
    var imageData := LoadLocalCover(cover);
    if Truthy(imageData) {
      imageData := env.resize(imageData.value);
      usedLocalCover := true;
    } else {
      var terms := FolderSearchTerms(Paths.PathName(folderPath), first);
      var found := SearchAlbumArt(terms.title, terms.artist, env.net);
      requests := found.requests;
      imageData := found.value;
      if Truthy(imageData) {
        imageData := env.resize(imageData.value);
      }
    }
    art := if Truthy(imageData) then imageData.value else env.defaultArt;
  }

  /**
   * `add_album_art_to_folder` (albumArt.py lines 115-204). A missing directory (null) or a
   * folder without `.m4a` files gives (0, 0) and changes nothing. Otherwise the artwork is
   * resolved once, the same bytes are written into every file that opens and saves, each
   * file adds one to exactly one counter, and `cover.jpg` is removed exactly under the
   * clean-up rule (and only if `unlink` succeeds, which does not affect the counts).
   */
  method AddAlbumArtToFolder(folderPath: string, folder: Folder?, env: Env)
    returns (succeeded: nat, failed: nat, requests: seq<Request>)
    modifies folder
    ensures folder == null || old(folder.files) == [] ==>
      succeeded == 0 && failed == 0 && requests == []
    ensures folder != null && old(folder.files) == [] ==> folder.cover == old(folder.cover) && folder.files == []
    ensures folder != null ==> OnlyCoversChanged(old(folder.files), folder.files)
    ensures folder != null && old(folder.files) != [] ==>
      var r := ResolveFolderArt(Paths.PathName(folderPath), old(folder.cover), old(folder.files[0]), env);
      && requests == r.requests
      && |folder.files| == |old(folder.files)|
      && (forall i :: 0 <= i < |folder.files| ==> folder.files[i] == WithCover(old(folder.files[i]), r.art))
      && succeeded == CountWritable(old(folder.files))
      && succeeded + failed == |old(folder.files)|
      && folder.cover ==
           if DeletesCover(r.usedLocalCover, Tally(succeeded, failed)) && old(folder.cover).removable
           then NoCoverJpg else old(folder.cover)
  {
    succeeded, failed, requests := 0, 0, [];
    if folder == null {
      return;
    }
    var files := folder.files;
    if files == [] {
      return;
    }
    var art, usedLocalCover;
    art, usedLocalCover, requests := ResolveArt(folderPath, folder.cover, files[0], env);
    succeeded, failed := WriteCoverToAll(folder, art);

    if usedLocalCover && failed == 0 && succeeded > 0 {
      if folder.cover.removable {
        folder.cover := NoCoverJpg;
      }
    }
  }

  // ---------------------------------------------------------------------------
  // Per-song mode

  /** What processing one file in per-song mode does: counts, the file afterwards, requests. */
  datatype SongOutcome = SongOutcome(tally: Tally, file: M4aFile, requests: seq<Request>)

  /** Lines 245-248: look the terms up online and resize what comes back. */
  function SongImage(t: SearchTerms, env: Env): (r: Option<Bytes>)
    ensures var found := SearchAlbumArt(t.title, t.artist, env.net).value;
      && (!Truthy(found) ==> r.None?)
      && (Truthy(found) ==> r == env.resize(found.value))
    ensures r.Some? ==> |SearchAlbumArt(t.title, t.artist, env.net).requests| == 2
  {
    var found := SearchAlbumArt(t.title, t.artist, env.net).value;
    if Truthy(found) then env.resize(found.value) else None
  }

  /**
   * One iteration of `add_album_art_per_song` (albumArt.py lines 225-267). A file that
   * does not open or whose tags cannot be read counts one failure and is untouched. Else
   * the lookup runs: a usable image counts a success, otherwise the default artwork is
   * used and a failure is counted; either image is then written, and a failed save counts
   * one more failure. So each file adds one or two to the counters.
   */
  function ProcessSong(f: M4aFile, env: Env): (o: SongOutcome)
    ensures 1 <= o.tally.succeeded + o.tally.failed <= 2 && o.tally.succeeded <= 1
    ensures OnlyCoverChanged(f, o.file)
    ensures !f.opens || SongSearchTerms(f).Err? ==> o == SongOutcome(Tally(0, 1), f, [])
    ensures f.opens && SongSearchTerms(f).Ok? ==>
      var t := SongSearchTerms(f).value;
      var image := SongImage(t, env);
      && o.requests == SearchAlbumArt(t.title, t.artist, env.net).requests
      && (o.tally.succeeded == 1 <==> Truthy(image))
      && (o.tally.failed == 2 <==> !Truthy(image) && !f.saves)
      && o.tally == Tally(if Truthy(image) then 1 else 0,
                          (if Truthy(image) then 0 else 1) + (if f.saves then 0 else 1))
      && o.file == WithCover(f, if Truthy(image) then image.value else env.defaultArt)
  {
    if !f.opens then SongOutcome(Tally(0, 1), f, [])
    else
      match SongSearchTerms(f)
      case Err(_) => SongOutcome(Tally(0, 1), f, [])
      case Ok(t) =>
        var found := SearchAlbumArt(t.title, t.artist, env.net);
        var image := SongImage(t, env);
        var counted := if Truthy(image) then Tally(1, 0) else Tally(0, 1);
        var art := if Truthy(image) then image.value else env.defaultArt;
        if f.saves then SongOutcome(counted, WithCover(f, art), found.requests)
        else SongOutcome(Tally(counted.succeeded, counted.failed + 1), f, found.requests)
  }

  /**
   * The per-song totals over a list of files: at least one and at most two increments per
   * file, and at most one success per file.
   */
  function SongTotals(files: seq<M4aFile>, env: Env): (t: Tally)
    ensures |files| <= t.succeeded + t.failed <= 2 * |files|
    ensures t.succeeded <= |files|
  {
    if files == [] then Tally(0, 0)
    else
      var prev := SongTotals(files[..|files| - 1], env);
      var o := ProcessSong(files[|files| - 1], env).tally;
      Tally(prev.succeeded + o.succeeded, prev.failed + o.failed)
  }

  /**
   * Neither strategy's counts depend on the pictures a file already has: only its name, its
   * text tags and whether it opens and saves matter. So a folder processed a second time
   * is counted as it was the first time.
   */
  lemma {:induction false} CountsIgnoreCovers(a: seq<M4aFile>, b: seq<M4aFile>, env: Env)
    requires OnlyCoversChanged(a, b)
    ensures CountWritable(a) == CountWritable(b)
    ensures SongTotals(a, env) == SongTotals(b, env)
    decreases |a|
  {
    if a != [] {
      var n := |a| - 1;
      OnlyCoversChangedPrefix(a, b, n);
      CountsIgnoreCovers(a[..n], b[..n], env);
      SongIgnoresCover(a[n], b[n], env);
    }
  }

  /** Prefixes of file lists that differ only in pictures differ only in pictures. */
  lemma OnlyCoversChangedPrefix(a: seq<M4aFile>, b: seq<M4aFile>, n: nat)
    requires OnlyCoversChanged(a, b) && n <= |a|
    ensures OnlyCoversChanged(a[..n], b[..n])
  {
    forall i | 0 <= i < n ensures OnlyCoverChanged(a[..n][i], b[..n][i]) {
      assert a[..n][i] == a[i] && b[..n][i] == b[i];
    }
  }

  /** One file's per-song counts and requests do not depend on its pictures. */
  lemma SongIgnoresCover(f: M4aFile, g: M4aFile, env: Env)
    requires OnlyCoverChanged(f, g)
    ensures ProcessSong(f, env).tally == ProcessSong(g, env).tally
    ensures ProcessSong(f, env).requests == ProcessSong(g, env).requests
  {
    SearchTermsIgnoreCover(f, g);
  }

  /** The search terms of a file do not depend on its pictures. */
  lemma SearchTermsIgnoreCover(f: M4aFile, g: M4aFile)
    requires OnlyCoverChanged(f, g)
    ensures SongSearchTerms(f) == SongSearchTerms(g)
  {
    assert ReadTag(f.tags, TitleKey) == ReadTag(g.tags, TitleKey);
    assert ReadTag(f.tags, ArtistKey) == ReadTag(g.tags, ArtistKey);
  }

  /** All requests made in per-song mode, file after file. */
  function SongRequests(files: seq<M4aFile>, env: Env): seq<Request> {
    if files == [] then []
    else SongRequests(files[..|files| - 1], env) + ProcessSong(files[|files| - 1], env).requests
  }

  /** Extending the processed prefix by one file adds that file's outcome. */
  lemma SongPrefixStep(files: seq<M4aFile>, i: nat, env: Env)
    requires i < |files|
    ensures SongTotals(files[..i + 1], env) == Tally(
      SongTotals(files[..i], env).succeeded + ProcessSong(files[i], env).tally.succeeded,
      SongTotals(files[..i], env).failed + ProcessSong(files[i], env).tally.failed)
    ensures SongRequests(files[..i + 1], env)
      == SongRequests(files[..i], env) + ProcessSong(files[i], env).requests
  {
    assert files[..i + 1][..i] == files[..i];
  }

  /**
   * The body of the per-song loop, statement by statement (albumArt.py lines 225-267): it
   * returns the counter increments, the file as it is on disk afterwards and the requests.
   */
  method ProcessOneSong(f: M4aFile, defaultArtwork: Artwork, env: Env)
    returns (tally: Tally, file: M4aFile, requests: seq<Request>)
    requires defaultArtwork == env.defaultArt
    ensures SongOutcome(tally, file, requests) == ProcessSong(f, env)
  {
    var succeeded, failed := 0, 0;
    file, requests := f, [];
    if !f.opens {
      failed := failed + 1;
    } else {
      var terms := SongSearchTerms(f);
      if terms.Err? {
        failed := failed + 1;
      } else {
        var found := SearchAlbumArt(terms.value.title, terms.value.artist, env.net);
        requests := found.requests;
        var imageData := found.value;
        if Truthy(imageData) {
          imageData := env.resize(imageData.value);
        }
        var art: Bytes;
        if !Truthy(imageData) {
          art := defaultArtwork;
          failed := failed + 1;
        } else {
          art := imageData.value;
          succeeded := succeeded + 1;
        }
        if f.saves {
          file := f.(tags := f.tags.(covr := [Cover(art, Jpeg)]));
        } else {
          failed := failed + 1;
        }
      }
    }
    tally := Tally(succeeded, failed);
  }

  /**
   * `add_album_art_per_song` (albumArt.py lines 206-273): every file is processed in turn
   * as ProcessSong says, and the returned counts are the sums over the files.
   */
  method AddAlbumArtPerSong(folder: Folder?, env: Env)
    returns (succeeded: nat, failed: nat, requests: seq<Request>)
    modifies folder
    ensures folder == null ==> succeeded == 0 && failed == 0 && requests == []
    ensures folder != null ==>
      && |folder.files| == |old(folder.files)|
      && folder.cover == old(folder.cover)
      && (forall i :: 0 <= i < |folder.files| ==> folder.files[i] == ProcessSong(old(folder.files[i]), env).file)
      && Tally(succeeded, failed) == SongTotals(old(folder.files), env)
      && requests == SongRequests(old(folder.files), env)
    ensures folder != null ==> OnlyCoversChanged(old(folder.files), folder.files)
  {
    succeeded, failed, requests := 0, 0, [];
    if folder == null {
      return;
    }
    var files := folder.files;
    if files == [] {
      return;
    }
    var defaultArtwork := env.defaultArt;
    var i := 0;
    while i < |files|
      invariant 0 <= i <= |files|
      invariant |folder.files| == |files| && folder.cover == old(folder.cover)
      invariant forall k :: 0 <= k < i ==> folder.files[k] == ProcessSong(files[k], env).file
      invariant forall k :: i <= k < |files| ==> folder.files[k] == files[k]
      invariant Tally(succeeded, failed) == SongTotals(files[..i], env)
      invariant requests == SongRequests(files[..i], env)
    {
      var tally, file, made := ProcessOneSong(files[i], defaultArtwork, env);
      folder.files := folder.files[i := file];
      succeeded, failed := succeeded + tally.succeeded, failed + tally.failed;
      requests := requests + made;
      SongPrefixStep(files, i, env);
      i := i + 1;
    }
    assert files[..i] == files;
  }
}

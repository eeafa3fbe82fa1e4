/**
 * The command line of albumArt.py (`<tool> [album] <folder>...`): the argument grammar and
 * the driver that runs one strategy per folder and adds up the per-folder counts.
 */
module ArtCli {
  import opened Media
  import opened Resolver
  import opened Applicator

  /** `album` selects the shared folder strategy; otherwise each song is looked up. */
  datatype Mode = AlbumMode | PerSongMode

  datatype ArtCommand = ArtCommand(mode: Mode, folders: seq<string>)

  /** Either a command to run or an immediate `sys.exit(code)`. */
  datatype ArtInvocation = RunArt(command: ArtCommand) | ExitArt(code: int)

  const AlbumWord: string := "album"

  /**
   * The argument grammar (albumArt.py lines 276-292); `argv[0]` is the script. Fewer than
   * two entries, or `album` with no folder after it, exits with status 1. Otherwise the
   * folders are everything after `album` in album mode, or everything after the script.
   */
  function ParseArtArgs(argv: seq<string>): (r: ArtInvocation)
    ensures r.ExitArt? ==> r.code == 1
    ensures r.ExitArt? <==> |argv| < 2 || (argv[1] == AlbumWord && |argv| < 3)
    ensures r.RunArt? ==> r.command.folders != [] && (r.command.mode == AlbumMode <==> argv[1] == AlbumWord)
    ensures r.RunArt? ==>
      var skipped := if r.command.mode == AlbumMode then 2 else 1;
      |argv| == skipped + |r.command.folders| && argv[skipped..] == r.command.folders
  {
    if |argv| < 2 then ExitArt(1)
    else if argv[1] == AlbumWord then
      if |argv| < 3 then ExitArt(1) else RunArt(ArtCommand(AlbumMode, argv[2..]))
    else RunArt(ArtCommand(PerSongMode, argv[1..]))
  }

  /** The command line that asks for `c`. */
  function ArtArgv(program: string, c: ArtCommand): seq<string> {
    [program] + (if c.mode == AlbumMode then [AlbumWord] else []) + c.folders
  }

  /**
   * Every command with at least one folder can be asked for, except a per-song run whose
   * first folder is literally named `album`.
   */
  lemma ParseArtArgvRoundTrip(program: string, c: ArtCommand)
    requires c.folders != []
    requires c.mode == PerSongMode ==> c.folders[0] != AlbumWord
    ensures ParseArtArgs(ArtArgv(program, c)) == RunArt(c)
  {
  }

  /** Conversely, whatever runs is exactly what its command line asks for. */
  lemma ParseArtArgsComplete(argv: seq<string>)
    requires ParseArtArgs(argv).RunArt?
    ensures ArtArgv(argv[0], ParseArtArgs(argv).command) == argv
  {
  }

  /** Sum of per-folder counts, folder after folder. */
  function SumTallies(ts: seq<Tally>): Tally {
    if ts == [] then Tally(0, 0)
    else
      var prev := SumTallies(ts[..|ts| - 1]);
      var last := ts[|ts| - 1];
      Tally(prev.succeeded + last.succeeded, prev.failed + last.failed)
  }

  /** Number of `.m4a` files at each path that is a directory. */
  function FileCounts(fs: map<string, Folder>): (counts: map<string, nat>)
    reads fs.Values
    ensures counts.Keys == fs.Keys
    ensures forall p :: p in fs ==> counts[p] == |fs[p].files|
  {
    map p | p in fs :: |fs[p].files|
  }

  /** Total number of `.m4a` files over a list of paths (0 for one that is not a directory). */
  function TotalFiles(counts: map<string, nat>, paths: seq<string>): nat {
    if paths == [] then 0
    else
      var p := paths[|paths| - 1];
      TotalFiles(counts, paths[..|paths| - 1]) + (if p in counts then counts[p] else 0)
  }

  /**
   * The counts `mode` gives for a folder holding `files`: in album mode one success per
   * file that opens and saves and one failure per other file; in per-song mode the sum of
   * the per-file outcomes.
   */
  function FolderTally(mode: Mode, files: seq<M4aFile>, env: Env): (t: Tally)
    ensures mode == AlbumMode ==> t.succeeded == CountWritable(files) && t.succeeded + t.failed == |files|
    ensures mode == PerSongMode ==> t == SongTotals(files, env)
  {
    if mode == AlbumMode then Tally(CountWritable(files), |files| - CountWritable(files))
    else SongTotals(files, env)
  }

  /** The files of every directory, as they are now. */
  function Snapshot(fs: map<string, Folder>): (m: map<string, seq<M4aFile>>)
    reads fs.Values
    ensures m.Keys == fs.Keys
    ensures forall p :: p in fs ==> m[p] == fs[p].files
  {
    map p | p in fs :: fs[p].files
  }

  /** The `cover.jpg` of every directory, as it is now. */
  function CoverSnapshot(fs: map<string, Folder>): (m: map<string, CoverJpg>)
    reads fs.Values
    ensures m.Keys == fs.Keys
    ensures forall p :: p in fs ==> m[p] == fs[p].cover
  {
    map p | p in fs :: fs[p].cover
  }

  /** The directories that the paths in `names` denote. */
  function NamedFolders(fs: map<string, Folder>, names: seq<string>): set<Folder> {
    set q | q in names && q in fs :: fs[q]
  }

  /** The directory at `p` is none of the directories named in `names`. */
  predicate NotNamed(fs: map<string, Folder>, names: seq<string>, p: string)
    requires p in fs
  {
    fs[p] !in NamedFolders(fs, names)
  }

  /** Directory by directory, `b` is `a` with at most the pictures changed. */
  predicate DirsCoversOnly(a: map<string, seq<M4aFile>>, b: map<string, seq<M4aFile>>) {
    a.Keys == b.Keys && forall p :: p in a ==> OnlyCoversChanged(a[p], b[p])
  }

  lemma DirsCoversOnlyTrans(a: map<string, seq<M4aFile>>, b: map<string, seq<M4aFile>>, c: map<string, seq<M4aFile>>)
    requires DirsCoversOnly(a, b) && DirsCoversOnly(b, c)
    ensures DirsCoversOnly(a, c)
  {
    forall p | p in a ensures OnlyCoversChanged(a[p], c[p]) {
      OnlyCoversChangedTrans(a[p], b[p], c[p]);
    }
  }

  /** Every `cover.jpg` is as in `before`, or was deleted in album mode. */
  predicate OnlyDeletions(mode: Mode, before: map<string, CoverJpg>, after: map<string, CoverJpg>) {
    before.Keys == after.Keys &&
    forall p :: p in before ==> after[p] == before[p] || (mode == AlbumMode && after[p] == NoCoverJpg)
  }

  lemma OnlyDeletionsTrans(mode: Mode, a: map<string, CoverJpg>, b: map<string, CoverJpg>, c: map<string, CoverJpg>)
    requires OnlyDeletions(mode, a, b) && OnlyDeletions(mode, b, c)
    ensures OnlyDeletions(mode, a, c)
  {
  }

  /** Every directory that none of `names` denotes has the same files and cover in both states. */
  predicate KeptUnnamed(fs: map<string, Folder>, names: seq<string>,
                        sF: map<string, seq<M4aFile>>, sC: map<string, CoverJpg>,
                        nF: map<string, seq<M4aFile>>, nC: map<string, CoverJpg>)
    requires sF.Keys == sC.Keys == nF.Keys == nC.Keys == fs.Keys
  {
    forall p :: p in fs && NotNamed(fs, names, p) ==> nF[p] == sF[p] && nC[p] == sC[p]
  }

  /**
   * What processing the folder at `path` may do, from the files and covers `bF`, `bC` to
   * `aF`, `aC`: files change only their pictures, every other directory is untouched, and
   * a `cover.jpg` can only be deleted, and only in album mode.
   */
  predicate Stepped(mode: Mode, fs: map<string, Folder>, path: string,
                    bF: map<string, seq<M4aFile>>, bC: map<string, CoverJpg>,
                    aF: map<string, seq<M4aFile>>, aC: map<string, CoverJpg>)
  {
    && bF.Keys == bC.Keys == aF.Keys == aC.Keys == fs.Keys
    && DirsCoversOnly(bF, aF)
    && KeptUnnamed(fs, [path], bF, bC, aF, aC)
    && OnlyDeletions(mode, bC, aC)
  }

  /**
   * The driver's frame after the folders `names`, from the starting files and covers `sF`,
   * `sC` to `nF`, `nC`: files change only their pictures, a directory none of `names`
   * denotes keeps its files and `cover.jpg`, and a `cover.jpg` can only have been deleted,
   * and only in album mode.
   */
  predicate Framed(mode: Mode, fs: map<string, Folder>, names: seq<string>,
                   sF: map<string, seq<M4aFile>>, sC: map<string, CoverJpg>,
                   nF: map<string, seq<M4aFile>>, nC: map<string, CoverJpg>)
  {
    && sF.Keys == sC.Keys == nF.Keys == nC.Keys == fs.Keys
    && DirsCoversOnly(sF, nF)
    && KeptUnnamed(fs, names, sF, sC, nF, nC)
    && OnlyDeletions(mode, sC, nC)
  }

  /** The folders named by one more path are those named before plus the new one. */
  lemma NamedFoldersSnoc(fs: map<string, Folder>, names: seq<string>, i: nat)
    requires i < |names|
    ensures NamedFolders(fs, names[..i + 1]) == NamedFolders(fs, names[..i]) + NamedFolders(fs, [names[i]])
  {
    assert names[..i + 1] == names[..i] + [names[i]];
  }

  /** Directories untouched so far and by one more folder are untouched after it. */
  lemma KeptUnnamedStep(fs: map<string, Folder>, names: seq<string>, i: nat,
                        sF: map<string, seq<M4aFile>>, sC: map<string, CoverJpg>,
                        bF: map<string, seq<M4aFile>>, bC: map<string, CoverJpg>,
                        aF: map<string, seq<M4aFile>>, aC: map<string, CoverJpg>)
    requires i < |names|
    requires sF.Keys == sC.Keys == bF.Keys == bC.Keys == aF.Keys == aC.Keys == fs.Keys
    requires KeptUnnamed(fs, names[..i], sF, sC, bF, bC)
    requires KeptUnnamed(fs, [names[i]], bF, bC, aF, aC)
    ensures KeptUnnamed(fs, names[..i + 1], sF, sC, aF, aC)
  {
    NamedFoldersSnoc(fs, names, i);
  }

  /**
   * Stepped, shown from the directory at `path` alone: every other directory is as it was,
   * and every path denoting the processed directory sees the same files and cover.
   */
  lemma SteppedFromOne(mode: Mode, fs: map<string, Folder>, path: string,
                       bF: map<string, seq<M4aFile>>, bC: map<string, CoverJpg>,
                       aF: map<string, seq<M4aFile>>, aC: map<string, CoverJpg>)
    requires bF.Keys == bC.Keys == aF.Keys == aC.Keys == fs.Keys
    requires forall p :: p in fs && (path !in fs || fs[p] != fs[path]) ==> aF[p] == bF[p] && aC[p] == bC[p]
    requires forall p :: p in fs && path in fs && fs[p] == fs[path] ==>
      aF[p] == aF[path] && aC[p] == aC[path] && bF[p] == bF[path] && bC[p] == bC[path]
    requires path in fs ==> OnlyCoversChanged(bF[path], aF[path])
    requires path in fs ==> aC[path] == bC[path] || (mode == AlbumMode && aC[path] == NoCoverJpg)
    ensures Stepped(mode, fs, path, bF, bC, aF, aC)
  {
    assert NamedFolders(fs, [path]) == if path in fs then {fs[path]} else {};
  }

  /** One more folder processed keeps the driver's frame. */
  lemma FrameStep(mode: Mode, fs: map<string, Folder>, names: seq<string>, i: nat,
                  sF: map<string, seq<M4aFile>>, sC: map<string, CoverJpg>,
                  bF: map<string, seq<M4aFile>>, bC: map<string, CoverJpg>,
                  aF: map<string, seq<M4aFile>>, aC: map<string, CoverJpg>)
    requires i < |names|
    requires Framed(mode, fs, names[..i], sF, sC, bF, bC)
    requires Stepped(mode, fs, names[i], bF, bC, aF, aC)
    ensures Framed(mode, fs, names[..i + 1], sF, sC, aF, aC)
  {
    DirsCoversOnlyTrans(sF, bF, aF);
    OnlyDeletionsTrans(mode, sC, bC, aC);
    KeptUnnamedStep(fs, names, i, sF, sC, bF, bC, aF, aC);
  }

  /** The counts for the folder named `path`; a path that is not a directory gives (0, 0). */
  function FolderResult(mode: Mode, path: string, dirs: map<string, seq<M4aFile>>, env: Env): Tally {
    if path in dirs then FolderTally(mode, dirs[path], env) else Tally(0, 0)
  }

  /** The counts of each folder of `names`, in order. */
  function FolderResults(mode: Mode, names: seq<string>, dirs: map<string, seq<M4aFile>>, env: Env): (r: seq<Tally>)
    ensures |r| == |names|
    ensures forall k :: 0 <= k < |names| ==> r[k] == FolderResult(mode, names[k], dirs, env)
  {
    seq(|names|, k requires 0 <= k < |names| => FolderResult(mode, names[k], dirs, env))
  }

  /** One more folder adds its counts at the end. */
  lemma FolderResultsSnoc(mode: Mode, names: seq<string>, i: nat, dirs: map<string, seq<M4aFile>>, env: Env)
    requires i < |names|
    ensures FolderResults(mode, names[..i + 1], dirs, env)
      == FolderResults(mode, names[..i], dirs, env) + [FolderResult(mode, names[i], dirs, env)]
  {
  }

  /** Adding one more folder's counts adds them to the sum. */
  lemma SumTalliesSnoc(ts: seq<Tally>, t: Tally)
    ensures SumTallies(ts + [t]) == Tally(SumTallies(ts).succeeded + t.succeeded, SumTallies(ts).failed + t.failed)
  {
    assert (ts + [t])[..|ts|] == ts;
  }

  /** Changing pictures only, anywhere, changes no folder's counts. */
  lemma FolderResultIgnoresCovers(mode: Mode, path: string, a: map<string, seq<M4aFile>>,
                                  b: map<string, seq<M4aFile>>, env: Env)
    requires DirsCoversOnly(a, b)
    ensures FolderResult(mode, path, a, env) == FolderResult(mode, path, b, env)
  {
    if path in a {
      CountsIgnoreCovers(a[path], b[path], env);
    }
  }

  /**
   * With each folder's counts as FolderTally gives them, the overall counts add up to the
   * number of files in the named folders in album mode, and lie between that number and
   * twice it in per-song mode.
   */
  lemma {:induction false} TotalsMatchFiles(mode: Mode, folders: seq<string>, dirs: map<string, seq<M4aFile>>,
                                            counts: map<string, nat>, perFolder: seq<Tally>, env: Env)
    requires counts.Keys == dirs.Keys && forall p :: p in dirs ==> counts[p] == |dirs[p]|
    requires |perFolder| == |folders|
    requires forall k :: 0 <= k < |folders| ==> perFolder[k] == FolderResult(mode, folders[k], dirs, env)
    ensures var t, n := SumTallies(perFolder), TotalFiles(counts, folders);
      && (mode == AlbumMode ==> t.succeeded + t.failed == n)
      && (mode == PerSongMode ==> n <= t.succeeded + t.failed <= 2 * n)
    decreases |folders|
  {
    if folders != [] {
      var m := |folders| - 1;
      TotalsMatchFiles(mode, folders[..m], dirs, counts, perFolder[..m], env);
    }
  }

  /**
   * One iteration of the driver loop (albumArt.py lines 304-307): the folder at `path` is
   * processed with the strategy of `mode` and its counts are returned; no file of any
   * folder changes anything but its pictures, every other directory is untouched, and a
   * `cover.jpg` can only be deleted, and only in album mode.
   */
  method ProcessFolder(mode: Mode, path: string, fs: map<string, Folder>, env: Env) returns (t: Tally)
    modifies fs.Values
    ensures t == FolderResult(mode, path, old(Snapshot(fs)), env)
    ensures Stepped(mode, fs, path, old(Snapshot(fs)), old(CoverSnapshot(fs)), Snapshot(fs), CoverSnapshot(fs))
  {
    ghost var bF, bC := Snapshot(fs), CoverSnapshot(fs);
    var folder: Folder? := if path in fs then fs[path] else null;
    var s, f, requests;
    if mode == AlbumMode {
      s, f, requests := AddAlbumArtToFolder(path, folder, env);
    } else {
      s, f, requests := AddAlbumArtPerSong(folder, env);
    }
    t := Tally(s, f);
    SteppedFromOne(mode, fs, path, bF, bC, Snapshot(fs), CoverSnapshot(fs));
  }
  /**
   * The driver loop of albumArt.py (lines 300-307): the folders are processed in order with
   * the strategy of `mode`. Each folder's counts are those of its files as they were at the
   * start (a folder named twice is processed twice and counted the same both times), and
   * the totals are their sums. Files change only their pictures, directories not named
   * keep their files and `cover.jpg`, and a `cover.jpg` is only ever deleted, and only in
   * album mode.
   */
  method ProcessFolders(mode: Mode, folders: seq<string>, fs: map<string, Folder>, env: Env)
    returns (totals: Tally, perFolder: seq<Tally>)
    modifies fs.Values
    ensures |perFolder| == |folders|
    ensures perFolder == FolderResults(mode, folders, old(Snapshot(fs)), env)
    ensures totals == SumTallies(perFolder)
    ensures Framed(mode, fs, folders, old(Snapshot(fs)), old(CoverSnapshot(fs)), Snapshot(fs), CoverSnapshot(fs))
  {
    totals, perFolder := Tally(0, 0), [];
    ghost var start, covers := Snapshot(fs), CoverSnapshot(fs);
    var i := 0;
    while i < |folders|
      invariant 0 <= i <= |folders|
      invariant Framed(mode, fs, folders[..i], start, covers, Snapshot(fs), CoverSnapshot(fs))
      invariant |perFolder| == i && totals == SumTallies(perFolder)
      invariant perFolder == FolderResults(mode, folders[..i], start, env)
    {
      ghost var before, beforeC := Snapshot(fs), CoverSnapshot(fs);
      FolderResultIgnoresCovers(mode, folders[i], start, before, env);
      var t := ProcessFolder(mode, folders[i], fs, env);
      FrameStep(mode, fs, folders, i, start, covers, before, beforeC, Snapshot(fs), CoverSnapshot(fs));
      FolderResultsSnoc(mode, folders, i, start, env);
      SumTalliesSnoc(perFolder, t);
      perFolder := perFolder + [t];
      totals := Tally(totals.succeeded + t.succeeded, totals.failed + t.failed);
      i := i + 1;
    }
    assert folders[..i] == folders;
  }

  /**
   * The `__main__` block of albumArt.py (lines 275-319). A bad command line exits with 1
   * and touches nothing. Otherwise the named folders are processed as ProcessFolders says
   * and the exit status is 0; in album mode the totals add up to the number of files in
   * the named folders, in per-song mode each file adds one or two.
   */
  method RunAlbumArt(argv: seq<string>, fs: map<string, Folder>, env: Env)
    returns (exitCode: int, totals: Tally, perFolder: seq<Tally>)
    modifies fs.Values
    ensures ParseArtArgs(argv).ExitArt? ==>
      && exitCode == 1 && perFolder == []
      && forall p :: p in fs ==> fs[p].files == old(fs[p].files) && fs[p].cover == old(fs[p].cover)
    ensures ParseArtArgs(argv).RunArt? ==>
      var c := ParseArtArgs(argv).command;
      var n := TotalFiles(old(FileCounts(fs)), c.folders);
      && exitCode == 0
      && |perFolder| == |c.folders|
      && (forall i :: 0 <= i < |perFolder| ==> perFolder[i] == FolderResult(c.mode, c.folders[i], old(Snapshot(fs)), env))
      && totals == SumTallies(perFolder)
      && (c.mode == AlbumMode ==> totals.succeeded + totals.failed == n)
      && (c.mode == PerSongMode ==> n <= totals.succeeded + totals.failed <= 2 * n)
      && (forall p :: p in fs ==> OnlyCoversChanged(old(fs[p].files), fs[p].files))
      && (forall p :: p in fs && NotNamed(fs, c.folders, p) ==>
            fs[p].files == old(fs[p].files) && fs[p].cover == old(fs[p].cover))
      && (forall p :: p in fs ==>
            fs[p].cover == old(fs[p].cover) || (c.mode == AlbumMode && fs[p].cover == NoCoverJpg))
  {
    totals, perFolder := Tally(0, 0), [];
    var invocation := ParseArtArgs(argv);
    if invocation.ExitArt? {
      exitCode := invocation.code;
      return;
    }
    var mode, folders := invocation.command.mode, invocation.command.folders;
    ghost var counts, start := FileCounts(fs), Snapshot(fs);
    totals, perFolder := ProcessFolders(mode, folders, fs, env);
    TotalsMatchFiles(mode, folders, start, counts, perFolder, env);
    exitCode := 0;
  }
}

# MusicFileTools in Dafny

A verified model of the two scripts of MusicFileTools:

- **albumArt.py** embeds cover art into the `.m4a` files of one or more folders. In
  *album mode* it resolves one artwork per folder. A local `cover.jpg` comes first, then a
  MusicBrainz recording search followed by a Cover Art Archive fetch, then a generated grey
  placeholder. It writes that artwork into every file and deletes `cover.jpg` after a fully
  successful run that used it. In *per-song mode* each file gets its own lookup, keyed on
  its title and artist tags, or on a "Title - Artist" filename when both tags are empty.
  Both modes count successes and failures per folder, and the command line adds the counts
  up over all folders.
- **metadata.py** sets or removes the album tag (`©alb`) on every `.m4a` file of a folder,
  through `set <folder> [album_name]` and `del <folder>`.

The files:

- `wrappers.dfy` (`Wrappers`): `Option` and `Result`.
- `paths.dfy` (`Paths`): `Path(p).name`.
- `media.dfy` (`Media`): the data model. It holds the byte strings, the MP4 tags (text
  atoms as lists of strings, plus the `covr` picture list) and the `.m4a` file. It also
  holds `cover.jpg` and the `Folder` class, whose methods rewrite its files in place.
- `resolver.dfy` (`Resolver`): query building, the lookup chain, the search terms of both
  modes, the filename split and the folder-mode fallback chain.
- `applicator.dfy` (`Applicator`): the two per-folder loops and their accounting.
- `art_cli.dfy` (`ArtCli`): albumArt.py's argument grammar and driver.
- `metadata.py` is modelled in `metadata.dfy` (`AlbumTag`).

The external collaborators are parameters, not code:

- the two web services are total functions from query text (or release id) to an optional
  answer;
- `resize_image` is a function from bytes to optional bytes;
- the default artwork is a given non-empty byte string;
- each file says whether `MP4(path)` opens it and whether `save()` succeeds;
- a path with no `Folder` object is not a directory.

Every request to the network is recorded in order, so "no request is made" is a fact the
model can state.

## Model

| member | source | states |
|---|---|---|
| `Paths.PathName` | metadata.py:41 | `Path(p).name` never contains '/', and is either empty or a component other than "" and "." |
| `Paths.NameOfChild` | metadata.py:41 | the name of `dir/n` is `n` for any single component `n` |
| `Paths.TrailingSlashIgnored` | metadata.py:41 | a trailing '/' does not change the name |
| `Paths.TrailingDotIgnored` | metadata.py:41 | a trailing "/." does not change the name |
| `Resolver.BuildQuery` | albumArt.py:12-21 | no query iff title and artist are both falsy; the recording clause comes first and the artist clause last, joined by " AND " when both are present; a single clause when only one is |
| `Resolver.SearchMusicBrainz` | albumArt.py:10-41 | no request and None when both terms are falsy; otherwise exactly one recording search carrying the built query, and the value is that search's answer |
| `Resolver.SearchAlbumArt` | albumArt.py:56-74 | at most two requests; a truthy term always makes the recording search with the built query; the cover is fetched exactly when that search returned a truthy release id, and with that id; a result is always non-empty and is what the fetch returned |
| `Resolver.ReadTag` | albumArt.py:147-149 | raises exactly when the key is present with an empty list; otherwise the first value, or None when the key is absent |
| `Resolver.LoadLocalCover` | albumArt.py:76-88 | bytes exactly when `cover.jpg` exists and is readable, and then its contents |
| `Resolver.FolderSearchTerms` | albumArt.py:144-167 | album with artist if the album is truthy, else title with artist if the title is truthy, else folder name with no artist; folder name with no artist when the file does not open or a tag read raises |
| `Applicator.ResolveArt` | albumArt.py:131-177 | the statement-by-statement resolution yields exactly the artwork, flag and requests of `ResolveFolderArt` |
| `Resolver.ResolveFolderArt` | albumArt.py:131-177 | the local cover is used iff `cover.jpg` is readable and non-empty, and then no request is made; otherwise the lookup runs on the chosen terms (no request iff the chosen title is falsy); the written bytes are the resized local or online image, or the default when there is none or resizing fails |
| `Resolver.StripLeft` | albumArt.py:237-238 | the result is a suffix, everything removed is whitespace, and it does not start with whitespace |
| `Resolver.Strip` | albumArt.py:237-238 | the result has no leading or trailing whitespace and is no longer than the input |
| `Resolver.StripRemovesOnlySpaces` | albumArt.py:237-238 | the stripped text is a contiguous piece of the input, and everything before and after it is whitespace |
| `Resolver.StripRight` | albumArt.py:237-238 | the result is a prefix, everything removed is whitespace, and it does not end with whitespace |
| `Resolver.StripStripped` | albumArt.py:237-238 | stripping a string without outer whitespace changes nothing |
| `Resolver.FindSeparator` | albumArt.py:235-236 | returns the first occurrence of " - " at or after the start index, or None when there is none |
| `Resolver.ParseStem` | albumArt.py:234-240 | with a " - ", the title and artist are the stripped parts before and after its first occurrence; without one, the whole stem is the title and there is no artist |
| `Resolver.ParseStemRoundTrip` | albumArt.py:234-240 | splitting `title + " - " + artist` gives back both when they are stripped and the title contains no " - " and does not end in " -" |
| `Resolver.StemSplitExample` | albumArt.py:233-240 | "Title - Artist" splits into title "Title" and artist "Artist" |
| `Resolver.SongSearchTerms` | albumArt.py:228-240 | an error iff reading the title or artist raises; the tags when either is truthy; the filename split only when both are falsy |
| `Applicator.WithCover` | albumArt.py:181-184 | a file that opens and saves ends with exactly one JPEG picture holding the artwork, and its text tags are unchanged; any other file is left as it was |
| `Applicator.CountWritable` | albumArt.py:180-189 | the number of successes is at most the number of files |
| `Applicator.AllWritable` | albumArt.py:180-192 | every file is counted as a success iff every file opens and saves |
| `Applicator.CoverDeletedIffAllSaved` | albumArt.py:191-192 | the clean-up condition (local cover used, failed = 0, succeeded > 0) holds iff the local cover was used, the folder has files and all of them open and save |
| `Applicator.WriteCoverToAll` | albumArt.py:179-189 | the same artwork goes into every writable file; successes equal the writable files, and succeeded + failed equals the number of files |
| `Applicator.AddAlbumArtToFolder` | albumArt.py:115-204 | (0, 0) with no change and no request for a non-directory or a folder without `.m4a` files; otherwise the artwork is resolved once and written into every writable file; every file counts exactly once; `cover.jpg` is deleted exactly under the clean-up condition when `unlink` succeeds, and the counts do not depend on the deletion |
| `Applicator.SongImage` | albumArt.py:245-248 | no image when the lookup finds nothing truthy; otherwise what resizing the found bytes gives, and an image implies both requests were made |
| `Applicator.SongIgnoresCover` | albumArt.py:225-267 | a file's per-song counts and requests are the same whatever pictures it already has |
| `Applicator.CountsIgnoreCovers` | albumArt.py:179-267 | files that differ only in their pictures give the same album-mode and per-song counts |
| `Applicator.ProcessSong` | albumArt.py:224-267 | each file adds one or two to the counters and at most one success, and only its pictures can change; a file that does not open, or whose tags cannot be read, is one failure and untouched with no request; otherwise the file counts one success if the lookup and resize give an image and one failure if not, plus one more failure if the save fails; a failed lookup still writes the default artwork |
| `Applicator.ProcessOneSong` | albumArt.py:225-267 | the statement-by-statement loop body computes exactly what `ProcessSong` states |
| `Applicator.SongPrefixStep` | albumArt.py:220-273 | processing one more file adds exactly that file's counts and requests to the running totals |
| `Applicator.SongTotals` | albumArt.py:220-273 | over n files the counts sum to at least n and at most 2n, with at most n successes |
| `Applicator.AddAlbumArtPerSong` | albumArt.py:206-273 | every file is processed in order as `ProcessSong` says; `cover.jpg` is untouched; the counts and the requests are the sums over the files |
| `ArtCli.ParseArtArgs` | albumArt.py:276-292 | exit 1 iff there are fewer than two arguments, or `album` is followed by no folder; album mode iff `argv[1]` is `album`; the folders are the non-empty tail after `album`, or after the script name |
| `ArtCli.ParseArtArgvRoundTrip` | albumArt.py:283-292 | any command with at least one folder parses back from its command line, unless it is per-song mode with a first folder named `album` |
| `ArtCli.ParseArtArgsComplete` | albumArt.py:283-292 | a command line that runs is exactly the rendering of the command it parses to |
| `ArtCli.FolderTally` | albumArt.py:179-189 | in album mode the successes are the files that open and save and every other file is one failure; in per-song mode the counts are `SongTotals` |
| `ArtCli.FolderResultIgnoresCovers` | albumArt.py:304-307 | a folder's counts depend only on file names, text tags and whether files open and save, not on pictures already written |
| `ArtCli.TotalsMatchFiles` | albumArt.py:300-310 | summing the per-folder counts gives exactly the number of files in album mode and between it and twice it in per-song mode |
| `ArtCli.ProcessFolder` | albumArt.py:304-307 | the returned counts are the folder's `FolderTally` under the chosen mode ((0, 0) for a path that is not a directory); files change at most their pictures, every directory other than the one at the path keeps its files and `cover.jpg`, and a `cover.jpg` can only be deleted, and only in album mode |
| `ArtCli.FrameStep` | albumArt.py:300-307 | processing one more folder keeps the driver's frame: only pictures change, directories not named so far are untouched, `cover.jpg` only deleted in album mode |
| `ArtCli.ProcessFolders` | albumArt.py:300-307 | one result per folder, in order, each the folder's `FolderTally` on the files as they were at the start; the totals are their sums; files change at most their pictures; directories not named keep their files and `cover.jpg`; a `cover.jpg` is only deleted, and only in album mode |
| `ArtCli.RunAlbumArt` | albumArt.py:275-319 | a bad command line exits 1 and changes no file and no `cover.jpg`; otherwise exit 0, one result per named folder, each equal to that folder's `FolderTally` on the files as they were at the start, and totals that are their sums; over N files they equal N in album mode and lie between N and 2N in per-song mode; files change at most their pictures; directories not named keep their files and `cover.jpg`; a `cover.jpg` is only deleted, and only in album mode |
| `AlbumTag.SetAlbum` | metadata.py:16-22 | after the update `©alb` is `[name]` when the name is truthy and absent otherwise; every other tag and the pictures are unchanged |
| `AlbumTag.SetAlbumIdempotent` | metadata.py:16-22 | applying the update twice with the same name equals applying it once |
| `AlbumTag.SetAlbumForgetsOldAlbum` | metadata.py:16-22 | the result does not depend on the album the file had before |
| `AlbumTag.Retagged` | metadata.py:13-24 | a file that opens and saves has `©alb` present iff the name is truthy, holding `[name]`, with every other key and its values, the name and the pictures kept; any other file is unchanged |
| `AlbumTag.UpdateM4aMetadata` | metadata.py:5-27 | a non-directory stops before any file is touched; otherwise every file that opens and saves is retagged, every other file is unchanged, and every file is reported whether or not an earlier one failed |
| `AlbumTag.ParseMetadataArgs` | metadata.py:29-52 | usage error iff there are fewer than three arguments; unknown command iff the command is neither `set` nor `del`; `set` takes `argv[3]` when present and the folder path's name otherwise; `del` passes None |
| `AlbumTag.SetDefaultsToFolderName` | metadata.py:39-42 | `set <dir>/<name>` without an album argument sets the album to `<name>` |
| `AlbumTag.RunMetadata` | metadata.py:29-52 | exit 1, with no file and no `cover.jpg` changed, iff the command line is bad or the path is not a directory; otherwise exit 0, and the named folder's files are retagged while every other folder's files and every `cover.jpg` are unchanged |

## Left out

- HTTP: `requests.get`, status codes, JSON decoding, timeouts and the User-Agent header are
  not modelled. A recording search is a function from the query text to the first
  recording's first release id (None on any failure). A cover fetch is a function from a
  release id to bytes. The same query therefore always gets the same answer within a run.
- URL percent-encoding (`urllib.parse.quote`) and the URL text: the model stops at the
  query string before encoding.
- Image work: decode, RGB conversion, LANCZOS thumbnailing and JPEG encoding
  (`resize_image`, `create_default_artwork`). Resizing is an oracle that may fail. The
  default artwork is a given non-empty byte string that is assumed always to be produced.
- MP4 parsing and writing through mutagen. Each file says whether it opens and whether its
  save succeeds. A failed save leaves the file as it was. Tags are the state on disk after
  the save, so `audio['©alb'] = name` shows as the one-element list `[name]`. Text atoms
  holding values other than strings are not modelled.
- Filesystem: `is_dir` is modelled by the presence of a `Folder` object. The order of
  `glob("*.m4a")` is the given order of the files. `cover.jpg` is absent, unreadable, or
  readable with a flag for whether `unlink` succeeds. `Path.name` follows POSIX rules;
  Windows separators are not modelled.
- `time.sleep(1.1)` between per-song lookups: timing only.
- All `print` output. The per-file ✓/✗ lines of metadata.py appear only as a list of
  booleans.
- Exceptions other than failed opens, failed saves and empty tag lists, such as
  interrupts, are not modelled.
- `ArtCli.RunAlbumArt`: states the counts of every folder, the totals and the frame (only
  pictures change, unnamed directories are untouched, `cover.jpg` only deleted in album
  mode), but not each file's final pictures or which `cover.jpg` ends up deleted. The same
  folder may be named twice and is then processed twice, so its final pictures and cover
  depend on the earlier pass; the per-folder contracts of `AddAlbumArtToFolder` and
  `AddAlbumArtPerSong` state them for each single call.
- `ArtCli.ProcessFolder` and `ArtCli.ProcessFolders`: state the same counts and frame; the
  exact pictures and whether `cover.jpg` is deleted are in the contracts of the two
  strategy methods.

## Behaviour worth knowing

- A folder without a usable `cover.jpg` makes **no** recording search when the chosen
  search title is empty. This can happen, for example, when the folder name is empty (the
  path `/` or `.`) and the first file has no album or title tag, holds `""` there, does
  not open, or has a tag whose value list is empty. The default artwork is used then.
- In per-song mode a failed lookup counts as a **failure** even though the default artwork
  is written and saved. A failed save after that counts a second failure, so one file can
  add two to the counts.
- An empty `cover.jpg` is treated as absent: the online lookup runs, and `cover.jpg` is
  never deleted.
- `set <folder> ""` and `set .` (empty folder name) remove the album tag rather than set
  it, because the name is falsy.
- In folder mode a tag whose value list is empty makes reading raise, and the search falls
  back to the folder name. Per-song mode reads only the title and artist: an empty title or
  artist list makes the file count as a failure and leaves it untouched, while an empty
  album list does not matter there.

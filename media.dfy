/**
 * The audio files both scripts work on: an MP4 tag container per `.m4a` file, and a
 * folder holding those files and possibly a `cover.jpg`. Opening and saving a file are
 * external; whether each succeeds is given with the file.
 */
module Media {
  import opened Wrappers

  newtype byte = x: int | 0 <= x < 256
  type Bytes = seq<byte>

  /** Image bytes Python treats as truthy: present and not empty. */
  type Artwork = b: Bytes | |b| > 0 witness [0]

  /** The iTunes-style atom names the scripts use. */
  const AlbumKey: string := "\U{A9}alb"
  const ArtistKey: string := "\U{A9}ART"
  const TitleKey: string := "\U{A9}nam"

  /** Python truthiness of an optional string or byte string: not None and not empty. */
  predicate Truthy<T>(v: Option<seq<T>>) {
    v.Some? && |v.value| > 0
  }

  datatype ImageFormat = Jpeg | Png

  /** One embedded picture (`MP4Cover`): its bytes and its format marker. */
  datatype Cover = Cover(data: Bytes, format: ImageFormat)

  /**
   * The tags of one file as stored on disk: each text atom holds a list of strings, and
   * the `covr` atom holds a list of pictures.
   */
  datatype Tags = Tags(text: map<string, seq<string>>, covr: seq<Cover>)

  /**
   * One `*.m4a` file: its stem (the name without `.m4a`), its stored tags, whether
   * `MP4(path)` opens it and whether `save()` writes it back.
   */
  datatype M4aFile = M4aFile(stem: string, tags: Tags, opens: bool, saves: bool)

  /** The state of `cover.jpg` in a folder; `removable` says whether `unlink()` succeeds. */
  datatype CoverJpg = NoCoverJpg | UnreadableCoverJpg | CoverJpg(data: Bytes, removable: bool)

  /** A file whose read-modify-save completes: it opens and it saves. */
  predicate Writable(f: M4aFile) {
    f.opens && f.saves
  }

  /** A directory: its `*.m4a` files in the order `glob` lists them, and its `cover.jpg`. */
  class Folder {
    var files: seq<M4aFile>
    var cover: CoverJpg

    constructor (files: seq<M4aFile>, cover: CoverJpg)
      ensures this.files == files && this.cover == cover
    {
      this.files := files;
      this.cover := cover;
    }
  }
}

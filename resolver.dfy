/**
 * Artwork resolution in albumArt.py: the MusicBrainz query, the two-step lookup chain,
 * the folder-mode search-term priority, the per-song filename split and the
 * local-then-online-then-default fallback. HTTP and image processing are oracles in `Env`;
 * every request the model makes is recorded so that "no request" is a statable fact.
 */
module Resolver {
  import opened Wrappers
  import opened Media

  /** A request sent to the network: a recording search or a front-cover fetch. */
  datatype Request = RecordingSearch(query: string) | CoverFetch(releaseId: string)

  /**
   * What the two web services answer. `recordingSearch` maps the (pre-encoding) query text
   * to the first recording's first release id, or None for any failure; `frontCover` maps
   * a release id to the cover bytes, or None for any failure.
   */
  datatype Network = Network(
    recordingSearch: string -> Option<string>,
    frontCover: string -> Option<Bytes>)

  /**
   * The collaborators: the network, `resize_image` (None when PIL fails) and the
   * bytes `create_default_artwork` produces.
   */
  datatype Env = Env(net: Network, resize: Bytes -> Option<Bytes>, defaultArt: Artwork)

  /** A looked-up value together with the requests made to get it, in order. */
  datatype Fetched<T> = Fetched(value: Option<T>, requests: seq<Request>)

  /** Title and artist to search for; either may be None. */
  datatype SearchTerms = SearchTerms(title: Option<string>, artist: Option<string>)

  // ---------------------------------------------------------------------------
  // Query construction and the lookup chain

  const AndSeparator: string := " AND "

  function RecordingClause(title: string): string {
    "recording:\"" + title + "\""
  }

  function ArtistClause(artist: string): string {
    "artist:\"" + artist + "\""
  }

  /** `sep.join(parts)`. */
  function Join(parts: seq<string>, sep: string): string {
    if |parts| == 0 then ""
    else if |parts| == 1 then parts[0]
    else parts[0] + sep + Join(parts[1..], sep)
  }

  predicate IsSuffix(suffix: string, s: string) {
    |suffix| <= |s| && s[|s| - |suffix|..] == suffix
  }

  /**
   * The MusicBrainz query of `search_musicbrainz`: the recording clause when the title is
   * truthy, then the artist clause when the artist is truthy, joined with " AND ";
   * None when neither is truthy (and then no request is made).
   */
  function BuildQuery(title: Option<string>, artist: Option<string>): (q: Option<string>)
    ensures q.None? <==> !Truthy(title) && !Truthy(artist)
    ensures Truthy(title) ==> q.Some? && RecordingClause(title.value) <= q.value
    ensures Truthy(artist) ==> q.Some? && IsSuffix(ArtistClause(artist.value), q.value)
    ensures Truthy(title) && Truthy(artist) ==>
      q.value == RecordingClause(title.value) + AndSeparator + ArtistClause(artist.value)
    ensures Truthy(title) && !Truthy(artist) ==> q.value == RecordingClause(title.value)
    ensures !Truthy(title) && Truthy(artist) ==> q.value == ArtistClause(artist.value)
  {
    var parts :=
      (if Truthy(title) then [RecordingClause(title.value)] else []) +
      (if Truthy(artist) then [ArtistClause(artist.value)] else []);
    if parts == [] then None
    else
      var q := Join(parts, AndSeparator);
      assert |parts| == 2 ==> parts[1..] == [parts[1]] && Join(parts[1..], AndSeparator) == parts[1];
      assert IsSuffix(parts[|parts| - 1], q) by {
        var prefix := if |parts| == 2 then parts[0] + AndSeparator else "";
        assert q == prefix + parts[|parts| - 1];
      }
      Some(q)
  }

  /** `search_musicbrainz`: one recording search when there is a query, none otherwise. */
  function SearchMusicBrainz(title: Option<string>, artist: Option<string>, net: Network): (r: Fetched<string>)
    ensures r.requests == [] <==> !Truthy(title) && !Truthy(artist)
    ensures r.requests == [] ==> r.value.None?
    ensures r.requests != [] ==>
      var q := BuildQuery(title, artist).value;
      r.requests == [RecordingSearch(q)] && r.value == net.recordingSearch(q)
  {
    match BuildQuery(title, artist)
    case None => Fetched(None, [])
    case Some(q) => Fetched(net.recordingSearch(q), [RecordingSearch(q)])
  }

  /**
   * `search_album_art`: a truthy term always leads to the recording search, the cover is
   * fetched exactly when a truthy release id comes back, and only truthy cover bytes are
   * returned.
   */
  function SearchAlbumArt(title: Option<string>, artist: Option<string>, net: Network): (r: Fetched<Bytes>)
    ensures !Truthy(title) && !Truthy(artist) ==> r == Fetched(None, [])
    ensures |r.requests| <= 2
    ensures Truthy(title) || Truthy(artist) ==> r.requests != []
    ensures r.requests != [] && Truthy(net.recordingSearch(BuildQuery(title, artist).value)) ==>
      |r.requests| == 2
    ensures r.requests != [] ==> r.requests[0] == RecordingSearch(BuildQuery(title, artist).value)
    ensures |r.requests| == 2 ==>
      var id := net.recordingSearch(BuildQuery(title, artist).value);
      Truthy(id) && r.requests[1] == CoverFetch(id.value)
    ensures |r.requests| == 1 ==> !Truthy(net.recordingSearch(BuildQuery(title, artist).value))
    ensures r.value.Some? ==>
      |r.value.value| > 0 && |r.requests| == 2 && r.value == net.frontCover(r.requests[1].releaseId)
    ensures |r.requests| == 2 && Truthy(net.frontCover(r.requests[1].releaseId)) ==> r.value.Some?
  {
    var release := SearchMusicBrainz(title, artist, net);
    if !Truthy(release.value) then Fetched(None, release.requests)
    else
      var id := release.value.value;
      var cover := net.frontCover(id);
      Fetched(if Truthy(cover) then cover else None, release.requests + [CoverFetch(id)])
  }

  // ---------------------------------------------------------------------------
  // Reading tags

  /** Reading `audio[key][0]` on a key whose list is empty raises IndexError. */
  datatype TagError = EmptyTagList(key: string)

  /** `audio.get(key, [None])[0] if key in audio else None`. */
  function ReadTag(tags: Tags, key: string): (r: Result<Option<string>, TagError>)
    ensures r.Err? <==> key in tags.text && tags.text[key] == []
    ensures r.Ok? ==> r.value == FirstValue(tags, key)
  {
    if key !in tags.text then Ok(None)
    else if |tags.text[key]| == 0 then Err(EmptyTagList(key))
    else Ok(Some(tags.text[key][0]))
  }

  /** The first value stored under `key`, or None when the key is absent or its list empty. */
  function FirstValue(tags: Tags, key: string): Option<string> {
    if key in tags.text && |tags.text[key]| > 0 then Some(tags.text[key][0]) else None
  }

  /** Reading `key` does not raise. */
  predicate ReadsCleanly(tags: Tags, key: string) {
    key in tags.text ==> |tags.text[key]| > 0
  }

  // ---------------------------------------------------------------------------
  // Folder mode: search terms and the artwork fallback chain

  /**
   * The search terms of `add_album_art_to_folder`, from the folder's first file: the album
   * with the artist when the album is truthy, else the title with the artist when the title
   * is truthy, else the folder name with no artist. When the file cannot be opened or one
   * of the three reads raises, the folder name with no artist.
   */
  function FolderSearchTerms(folderName: string, first: M4aFile): (t: SearchTerms)
    ensures t.title.Some?
    ensures var g := first.tags;
      first.opens && ReadsCleanly(g, AlbumKey) && ReadsCleanly(g, ArtistKey) && ReadsCleanly(g, TitleKey) ==>
        if Truthy(FirstValue(g, AlbumKey)) then
          t == SearchTerms(FirstValue(g, AlbumKey), FirstValue(g, ArtistKey))
        else if Truthy(FirstValue(g, TitleKey)) then
          t == SearchTerms(FirstValue(g, TitleKey), FirstValue(g, ArtistKey))
        else t == SearchTerms(Some(folderName), None)
    ensures var g := first.tags;
      !first.opens || !ReadsCleanly(g, AlbumKey) || !ReadsCleanly(g, ArtistKey) || !ReadsCleanly(g, TitleKey) ==>
        t == SearchTerms(Some(folderName), None)
  {
    var fallback := SearchTerms(Some(folderName), None);
    if !first.opens then fallback
    else
      match (ReadTag(first.tags, AlbumKey), ReadTag(first.tags, ArtistKey), ReadTag(first.tags, TitleKey))
      case (Ok(album), Ok(artist), Ok(title)) =>
        if Truthy(album) then SearchTerms(album, artist)
        else if Truthy(title) then SearchTerms(title, artist)
        else fallback
      case _ => fallback
  }

  /** Where the artwork that ends up in the files came from. */
  datatype Provenance = LocalCover | OnlineCover | DefaultCover

  /**
   * The outcome of folder-mode resolution: the bytes to write, their provenance, the
   * `used_local_cover` flag and the requests made.
   */
  datatype Resolution = Resolution(art: Artwork, source: Provenance, usedLocalCover: bool, requests: seq<Request>)

  /** `load_local_cover`: the bytes of a readable `cover.jpg`, else None. */
  function LoadLocalCover(cover: CoverJpg): (r: Option<Bytes>)
    ensures r.Some? <==> cover.CoverJpg?
    ensures r.Some? ==> r.value == cover.data
  {
    if cover.CoverJpg? then Some(cover.data) else None
  }

  /** The image resize produced, or the default artwork when there was none or it was falsy. */
  function OrDefault(image: Option<Bytes>, used: bool, requests: seq<Request>, source: Provenance, env: Env): Resolution {
    if Truthy(image) then Resolution(image.value, source, used, requests)
    else Resolution(env.defaultArt, DefaultCover, used, requests)
  }

  /**
   * Folder-mode resolution (albumArt.py lines 131-177): non-empty local `cover.jpg` bytes
   * win and no request is made; otherwise the online lookup runs on the chosen terms;
   * the candidate is resized, and the default artwork replaces a missing or failed one.
   */
  function ResolveFolderArt(folderName: string, cover: CoverJpg, first: M4aFile, env: Env): (r: Resolution)
    ensures r.usedLocalCover <==> cover.CoverJpg? && |cover.data| > 0
    ensures r.usedLocalCover ==> r.requests == [] && r.source != OnlineCover
    ensures !r.usedLocalCover ==>
      var terms := FolderSearchTerms(folderName, first);
      (r.requests == [] <==> !Truthy(terms.title)) &&
      (r.requests != [] ==> r.requests[0] == RecordingSearch(BuildQuery(terms.title, terms.artist).value))
    ensures !r.usedLocalCover ==>
      var terms := FolderSearchTerms(folderName, first);
      r.requests == SearchAlbumArt(terms.title, terms.artist, env.net).requests && r.source != LocalCover
    ensures r.source == LocalCover ==> env.resize(cover.data) == Some(r.art)
    ensures r.source == OnlineCover ==>
      var terms := FolderSearchTerms(folderName, first);
      var found := SearchAlbumArt(terms.title, terms.artist, env.net).value;
      found.Some? && env.resize(found.value) == Some(r.art)
    ensures r.source == DefaultCover ==> r.art == env.defaultArt
    ensures r.source == DefaultCover <==>
      if r.usedLocalCover then !Truthy(env.resize(cover.data))
      else
        var terms := FolderSearchTerms(folderName, first);
        var found := SearchAlbumArt(terms.title, terms.artist, env.net).value;
        found.None? || !Truthy(env.resize(found.value))
  {
    var local := LoadLocalCover(cover);
    if Truthy(local) then
      OrDefault(env.resize(local.value), true, [], LocalCover, env)
    else
      var terms := FolderSearchTerms(folderName, first);
      var found := SearchAlbumArt(terms.title, terms.artist, env.net);
      var image := if Truthy(found.value) then env.resize(found.value.value) else None;
      OrDefault(image, false, found.requests, OnlineCover, env)
  }

  // ---------------------------------------------------------------------------
  // Per-song mode: the filename split and the search terms

  /** The characters Python's `str.isspace` accepts, which `str.strip()` removes. */
  predicate IsSpace(c: char) {
    ('\t' <= c <= '\r') || ('\U{1C}' <= c <= ' ') || c == '\U{85}' || c == '\U{A0}'
    || c == '\U{1680}' || ('\U{2000}' <= c <= '\U{200A}') || c == '\U{2028}' || c == '\U{2029}'
    || c == '\U{202F}' || c == '\U{205F}' || c == '\U{3000}'
  }

  predicate AllSpaces(s: string) {
    forall k :: 0 <= k < |s| ==> IsSpace(s[k])
  }

  /** `s.lstrip()`: the suffix of `s` left after removing every leading space. */
  function StripLeft(s: string): (r: string)
    ensures IsSuffix(r, s)
    ensures AllSpaces(s[..|s| - |r|])
    ensures r == [] || !IsSpace(r[0])
  {
    if s == [] || !IsSpace(s[0]) then s
    else
      var r := StripLeft(s[1..]);
      assert s[..|s| - |r|] == [s[0]] + s[1..][..|s| - 1 - |r|];
      r
  }

  /** `s.rstrip()`: the prefix of `s` left after removing every trailing space. */
  function StripRight(s: string): (r: string)
    ensures r <= s
    ensures AllSpaces(s[|r|..])
    ensures r == [] || !IsSpace(r[|r| - 1])
  {
    if s == [] || !IsSpace(s[|s| - 1]) then s
    else
      var r := StripRight(s[..|s| - 1]);
      assert s[|r|..] == s[..|s| - 1][|r|..] + [s[|s| - 1]];
      r
  }

  /** `s.strip()`. */
  function Strip(s: string): (r: string)
    ensures Stripped(r)
    ensures |r| <= |s|
  {
    StripRight(StripLeft(s))
  }

  /** `r` is the piece of `s` starting at `i`, and everything before and after it is whitespace. */
  predicate SpacesAround(s: string, i: nat, r: string) {
    i + |r| <= |s| && s[i..i + |r|] == r && AllSpaces(s[..i]) && AllSpaces(s[i + |r|..])
  }

  /**
   * A prefix `r` of a suffix `l` of `s`, with whitespace before `l` and after `r`, is a
   * contiguous piece of `s` with only whitespace around it.
   */
  lemma PieceWithSpacesAround(s: string, l: string, r: string)
    requires IsSuffix(l, s) && r <= l
    requires AllSpaces(s[..|s| - |l|]) && AllSpaces(l[|r|..])
    ensures SpacesAround(s, |s| - |l|, r)
  {
    var i := |s| - |l|;
    assert s[i..] == l;
    assert s[i..i + |r|] == l[..|r|];
    assert s[i + |r|..] == l[|r|..];
  }

  /** `Strip` keeps a contiguous piece of its input and removes only whitespace around it. */
  lemma StripRemovesOnlySpaces(s: string)
    ensures SpacesAround(s, |s| - |StripLeft(s)|, Strip(s))
  {
    PieceWithSpacesAround(s, StripLeft(s), StripRight(StripLeft(s)));
  }

  /** Neither starts nor ends with a space: what `strip()` returns. */
  predicate Stripped(s: string) {
    s == [] || (!IsSpace(s[0]) && !IsSpace(s[|s| - 1]))
  }

  const Separator: string := " - "

  /** `s` has the separator " - " starting at index `i`. */
  predicate SeparatorAt(s: string, i: int) {
    0 <= i && i + |Separator| <= |s| && s[i..i + |Separator|] == Separator
  }

  /** The index of the first " - " in `s` at or after `from`, or None. */
  function FindSeparator(s: string, from: nat): (r: Option<nat>)
    requires from <= |s|
    ensures r.Some? ==> from <= r.value && SeparatorAt(s, r.value)
    ensures r.Some? ==> forall j :: from <= j < r.value ==> !SeparatorAt(s, j)
    ensures r.None? ==> forall j :: from <= j ==> !SeparatorAt(s, j)
    decreases |s| - from
  {
    if from + |Separator| > |s| then None
    else if SeparatorAt(s, from) then Some(from)
    else FindSeparator(s, from + 1)
  }

  /**
   * The "Title - Artist" split of a file stem (albumArt.py lines 234-240): around the
   * first " - " (the one FindSeparator finds), both sides stripped; with no separator, the
   * whole stem is the title and the artist stays None. (The script leaves the artist at the
   * falsy value it already had, None or ""; only its truthiness is read afterwards, so None
   * stands for both.)
   */
  function ParseStem(stem: string): (t: SearchTerms)
    ensures t.title.Some?
    ensures t.artist.Some? <==> FindSeparator(stem, 0).Some?
    ensures t.artist.None? ==> t.title.value == stem
    ensures t.artist.Some? ==>
      var i := FindSeparator(stem, 0).value;
      t.title.value == Strip(stem[..i]) && t.artist.value == Strip(stem[i + |Separator|..])
  {
    match FindSeparator(stem, 0)
    case None => SearchTerms(Some(stem), None)
    case Some(i) => SearchTerms(Some(Strip(stem[..i])), Some(Strip(stem[i + |Separator|..])))
  }

  /**
   * The search terms of `add_album_art_per_song` for one opened file: the title and artist
   * tags, or the filename split when both are falsy. A read that raises is an Err.
   */
  function SongSearchTerms(f: M4aFile): (r: Result<SearchTerms, TagError>)
    ensures r.Err? <==> !ReadsCleanly(f.tags, TitleKey) || !ReadsCleanly(f.tags, ArtistKey)
    ensures r.Ok? && (Truthy(FirstValue(f.tags, TitleKey)) || Truthy(FirstValue(f.tags, ArtistKey))) ==>
      r.value == SearchTerms(FirstValue(f.tags, TitleKey), FirstValue(f.tags, ArtistKey))
    ensures r.Ok? && !Truthy(FirstValue(f.tags, TitleKey)) && !Truthy(FirstValue(f.tags, ArtistKey)) ==>
      r.value == ParseStem(f.stem)
  {
    match (ReadTag(f.tags, TitleKey), ReadTag(f.tags, ArtistKey))
    case (Ok(title), Ok(artist)) =>
      if !Truthy(title) && !Truthy(artist) then Ok(ParseStem(f.stem))
      else Ok(SearchTerms(title, artist))
    case (Err(e), _) => Err(e)
    case (_, Err(e)) => Err(e)
  }

  /** Stripping a stripped string changes nothing. */
  lemma StripStripped(s: string)
    requires Stripped(s)
    ensures Strip(s) == s
  {
  }

  /**
   * The split inverts the "Title - Artist" naming: a stripped title without " - " and a
   * stripped artist come back as they were.
   */
  /** With the side conditions of ParseStemRoundTrip, no " - " starts inside the title. */
  lemma NoSeparatorBefore(title: string, artist: string)
    requires Stripped(title)
    requires forall j :: !SeparatorAt(title, j)
    requires !IsSuffix(" -", title)
    ensures forall j :: 0 <= j < |title| ==> !SeparatorAt(title + Separator + artist, j)
  {
    var s := title + Separator + artist;
    var i := |title|;
    forall j | 0 <= j < i
      ensures !SeparatorAt(s, j)
    {
      if j + |Separator| <= i {
        assert s[j..j + |Separator|] == title[j..j + |Separator|];
        assert !SeparatorAt(title, j);
      } else {
        // an occurrence straddling the boundary needs the title to end in " " or " -"
        if j == i - 1 {
          assert !IsSpace(title[i - 1]);
          assert j + |Separator| <= |s| ==> s[j..j + |Separator|][0] == title[i - 1];
        } else {
          assert j == i - 2;
          assert title[i - 2..] == [title[i - 2], title[i - 1]];
          assert s[j..j + |Separator|][0] == title[i - 2] && s[j..j + |Separator|][1] == title[i - 1];
        }
      }
    }
  }

  lemma ParseStemRoundTrip(title: string, artist: string)
    requires Stripped(title) && Stripped(artist)
    requires forall j :: !SeparatorAt(title, j)
    requires !IsSuffix(" -", title)
    ensures ParseStem(title + Separator + artist) == SearchTerms(Some(title), Some(artist))
  {
    var s := title + Separator + artist;
    var i := |title|;
    assert s[..i] == title;
    assert forall k :: 0 <= k < i ==> s[k] == title[k];
    assert s[i + |Separator|..] == artist;
    assert SeparatorAt(s, i) by { assert s[i..i + |Separator|] == Separator; }
    NoSeparatorBefore(title, artist);
    assert FindSeparator(s, 0) == Some(i);
    StripStripped(title);
    StripStripped(artist);
  }

  /** The example of a file named "Title - Artist.m4a" without tags. */
  lemma StemSplitExample()
    ensures ParseStem("Title - Artist") == SearchTerms(Some("Title"), Some("Artist"))
  {
    forall j | 0 <= j && j + |Separator| <= |"Title"|
      ensures !SeparatorAt("Title", j)
    {
      assert "Title"[j..j + |Separator|][0] == "Title"[j] != ' ';
    }
    assert "Title" + Separator + "Artist" == "Title - Artist";
    ParseStemRoundTrip("Title", "Artist");
  }
}

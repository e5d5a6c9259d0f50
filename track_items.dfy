/**
  The recently-played items the Spotify API returns, the fields of them the
  pipeline reads, and how `pd.json_normalize` flattens one item into a
  record whose keys are the key paths joined by a separator.
*/
module TrackItems {
  import opened Schema
  import opened Frames

  datatype Image = Image(url: string, height: int)

  datatype Artist = Artist(id: string, name: string, kind: string)

  /** `track.artists`: the API's list, or the one artist the normalising loop put in its place. */
  datatype Artists = ArtistList(list: seq<Artist>) | OneArtist(artist: Artist)

  /** `album.images` (and an artist's `images`): the API's list, or the first image put in its place. */
  datatype Images = ImageList(list: seq<Image>) | OneImage(image: Image)

  /** The playback context: JSON null, the API's object, or the substitute
      `{"type": None, "context_external_urls_spotify": None}` the current
      variant puts in place of null. */
  datatype Context = NoContext | ApiContext(kind: string, spotifyUrl: string) | SubstituteContext

  datatype Album = Album(albumType: string, id: string, name: string, releaseDate: string,
                         releaseDatePrecision: string, totalTracks: int, images: Images)

  datatype Track = Track(name: string, explicit: bool, popularity: int, id: string, trackNumber: int,
                         kind: string, durationMs: int, album: Album, artists: Artists)

  /** One element of the `items` list; `played_at` is the API's ISO-8601 text. */
  datatype Item = Item(track: Track, playedAt: string, context: Context)

  /** The shape the API sends: lists for artists and images, and a context that is null or an object. */
  predicate FromApi(item: Item)
  {
    item.track.artists.ArtistList? && item.track.album.images.ImageList? && !item.context.SubstituteContext?
  }

  /** The leaves of an item the pipeline reads, and the one the substitute context adds. */
  datatype Leaf =
    | TrackName | TrackExplicit | TrackPopularity | TrackId | TrackNumber | TrackType
    | PlayedAt | ContextType | ContextUrl
    | ArtistId | ArtistName | ArtistType
    | AlbumType | AlbumId | ImageUrl | ImageHeight | AlbumName
    | ReleaseDate | ReleaseDatePrecision | TotalTracks | DurationMs
    | SubstituteUrl

  /** The columns `json_normalize(..., sep="_")` gives the leaves, in the
      order of AllLeaves: each leaf's key path joined by `_`. */
  const UnderscoreKeys: seq<string> := [
    "track_name", "track_explicit", "track_popularity", "track_id", "track_track_number",
    "track_type", "played_at", "context_type", "context_external_urls_spotify", "track_artists_id",
    "track_artists_name", "track_artists_type", "track_album_album_type", "track_album_id",
    "track_album_images_url", "track_album_images_height", "track_album_name",
    "track_album_release_date", "track_album_release_date_precision", "track_album_total_tracks",
    "track_duration_ms", "context_context_external_urls_spotify" ]

  /** The columns `json_normalize(...)` gives the leaves with its default
      separator: each key path joined by `.`. */
  const DotKeys: seq<string> := [
    "track.name", "track.explicit", "track.popularity", "track.id", "track.track_number",
    "track.type", "played_at", "context.type", "context.external_urls.spotify", "track.artists.id",
    "track.artists.name", "track.artists.type", "track.album.album_type", "track.album.id",
    "track.album.images.url", "track.album.images.height", "track.album.name",
    "track.album.release_date", "track.album.release_date_precision", "track.album.total_tracks",
    "track.duration_ms", "context.context_external_urls_spotify" ]

  /** The separators the variants flatten with. */
  predicate Separator(sep: char)
  {
    sep == '_' || sep == '.'
  }

  /** The column a leaf becomes when flattening with `sep`. */
  function Key(l: Leaf, sep: char): string
    requires Separator(sep)
  {
    (if sep == '_' then UnderscoreKeys else DotKeys)[Position(l)]
  }

  /** Every leaf once. */
  const AllLeaves: seq<Leaf> := [
    TrackName, TrackExplicit, TrackPopularity, TrackId, TrackNumber, TrackType,
    PlayedAt, ContextType, ContextUrl, ArtistId, ArtistName, ArtistType,
    AlbumType, AlbumId, ImageUrl, ImageHeight, AlbumName,
    ReleaseDate, ReleaseDatePrecision, TotalTracks, DurationMs, SubstituteUrl ]

  /** The 21 leaves the projection keeps, in the order of its allow-list. */
  const KeptLeaves: seq<Leaf> := AllLeaves[..21]

  /** The position of a leaf in AllLeaves. */
  function Position(l: Leaf): (i: nat)
    ensures i < |AllLeaves| && AllLeaves[i] == l
  {
    match l
    case TrackName => 0
    case TrackExplicit => 1
    case TrackPopularity => 2
    case TrackId => 3
    case TrackNumber => 4
    case TrackType => 5
    case PlayedAt => 6
    case ContextType => 7
    case ContextUrl => 8
    case ArtistId => 9
    case ArtistName => 10
    case ArtistType => 11
    case AlbumType => 12
    case AlbumId => 13
    case ImageUrl => 14
    case ImageHeight => 15
    case AlbumName => 16
    case ReleaseDate => 17
    case ReleaseDatePrecision => 18
    case TotalTracks => 19
    case DurationMs => 20
    case SubstituteUrl => 21
  }

  /** The allow-list a variant selects: the keys of the kept leaves, in order. */
  function KeptColumns(sep: char): (keys: seq<string>)
    requires Separator(sep)
    ensures |keys| == 21
    ensures forall j :: 0 <= j < 21 ==> keys[j] == Key(KeptLeaves[j], sep)
  {
    seq(21, j requires 0 <= j < 21 => Key(KeptLeaves[j], sep))
  }

  /** The allow-list is the first 21 keys of the separator's table. */
  lemma KeptColumnsArePrefix(sep: char)
    requires Separator(sep)
    ensures KeptColumns(sep) == (if sep == '_' then UnderscoreKeys else DotKeys)[..21]
  {
    forall j | 0 <= j < 21 ensures Position(KeptLeaves[j]) == j {
      PositionOfListed(j);
    }
  }

  /** Position undoes indexing into AllLeaves. */
  lemma PositionOfListed(j: nat)
    requires j < |AllLeaves|
    ensures Position(AllLeaves[j]) == j
  {
  }

  /** Length and third-last character of each key, per separator, in the order of AllLeaves. */
  const UnderscoreTags: seq<int> := [1377, 1891, 2153, 1119, 2402, 1401, 1247, 1657, 3817, 2143, 2401, 2425, 2937, 1887, 2933, 3303, 2145, 3169, 4457, 3171, 2271, 4841]
  const DotTags: seq<int> := [1377, 1891, 2153, 1070, 2402, 1401, 1247, 1657, 3817, 2094, 2401, 2425, 2937, 1838, 2933, 3303, 2145, 3169, 4457, 3171, 2271, 4841]

  lemma UnderscoreTag(l: Leaf)
    ensures Tag(UnderscoreKeys[Position(l)]) == UnderscoreTags[Position(l)]
  {
  }

  lemma DotTag(l: Leaf)
    ensures Tag(DotKeys[Position(l)]) == DotTags[Position(l)]
  {
  }

  lemma UnderscoreTagsDistinct()
    ensures Distinct'(UnderscoreTags)
  {
  }

  lemma DotTagsDistinct()
    ensures Distinct'(DotTags)
  {
  }

  /** Different leaves get different columns, with either separator. */
  lemma KeyInjective(sep: char)
    requires Separator(sep)
    ensures forall l1, l2 :: Key(l1, sep) == Key(l2, sep) ==> l1 == l2
  {
    UnderscoreTagsDistinct();
    DotTagsDistinct();
    forall l1, l2 | Key(l1, sep) == Key(l2, sep) ensures l1 == l2 {
      if sep == '_' {
        UnderscoreTag(l1);
        UnderscoreTag(l2);
      } else {
        DotTag(l1);
        DotTag(l2);
      }
    }
  }

  /** The cell an item gives a leaf's column: its value, or NaN when the
      item lacks the leaf (JSON has no NaN, so a leaf that is there never
      reads as NaN). */
  function Cell(item: Item, l: Leaf): Value
  {
    var t := item.track;
    match l
    case TrackName => Str(t.name)
    case TrackExplicit => Bool(t.explicit)
    case TrackPopularity => Int(t.popularity)
    case TrackId => Str(t.id)
    case TrackNumber => Int(t.trackNumber)
    case TrackType => Str(t.kind)
    case PlayedAt => Str(item.playedAt)
    case ContextType =>
      (match item.context case ApiContext(k, _) => Str(k) case SubstituteContext => Null case NoContext => NaN)
    case ContextUrl =>
      (match item.context case ApiContext(_, u) => Str(u) case _ => NaN)
    case ArtistId => (match t.artists case OneArtist(a) => Str(a.id) case _ => NaN)
    case ArtistName => (match t.artists case OneArtist(a) => Str(a.name) case _ => NaN)
    case ArtistType => (match t.artists case OneArtist(a) => Str(a.kind) case _ => NaN)
    case AlbumType => Str(t.album.albumType)
    case AlbumId => Str(t.album.id)
    case ImageUrl => (match t.album.images case OneImage(i) => Str(i.url) case _ => NaN)
    case ImageHeight => (match t.album.images case OneImage(i) => Int(i.height) case _ => NaN)
    case AlbumName => Str(t.album.name)
    case ReleaseDate => Str(t.album.releaseDate)
    case ReleaseDatePrecision => Str(t.album.releaseDatePrecision)
    case TotalTracks => Int(t.album.totalTracks)
    case DurationMs => Int(t.durationMs)
    case SubstituteUrl => (match item.context case SubstituteContext => Null case _ => NaN)
  }

  /** The flattened item has a column for the leaf. */
  predicate Has(item: Item, l: Leaf)
  {
    Cell(item, l) != NaN
  }

  /** Which part of an item a leaf lives in. */
  datatype Origin = Fixed | InArtist | InImage | InContext | InApiContext | InSubstitute

  function OriginOf(l: Leaf): Origin
  {
    match l
    case ArtistId | ArtistName | ArtistType => InArtist
    case ImageUrl | ImageHeight => InImage
    case ContextType => InContext
    case ContextUrl => InApiContext
    case SubstituteUrl => InSubstitute
    case _ => Fixed
  }

  /** Whether an item has that part as an object `json_normalize` descends
      into: a list of artists or images is kept whole and yields no leaf. */
  predicate Provides(item: Item, o: Origin)
  {
    match o
    case Fixed => true
    case InArtist => item.track.artists.OneArtist?
    case InImage => item.track.album.images.OneImage?
    case InContext => !item.context.NoContext?
    case InApiContext => item.context.ApiContext?
    case InSubstitute => item.context.SubstituteContext?
  }

  /** An item has a leaf exactly when it has the part the leaf lives in. */
  lemma HasLeaf(item: Item, l: Leaf)
    ensures Has(item, l) <==> Provides(item, OriginOf(l))
  {
  }

  /** One item flattened by `json_normalize` with separator `sep`, restricted
      to the leaves above: reading any leaf's key gives that leaf's cell, and
      the key is there exactly when the item has the leaf. */
  function Flatten(item: Item, sep: char): (r: Record)
    requires Separator(sep)
    ensures forall l :: Lookup(r, Key(l, sep)) == Cell(item, l)
    ensures forall l :: Key(l, sep) in r <==> Has(item, l)
  {
    KeyInjective(sep);
    var key := l => Key(l, sep);
    var value := l => Cell(item, l);
    var r := Gather(AllLeaves, key, value);
    assert forall l :: Lookup(r, Key(l, sep)) == Cell(item, l) && (Key(l, sep) in r <==> Has(item, l)) by {
      forall l ensures Lookup(r, Key(l, sep)) == Cell(item, l) && (Key(l, sep) in r <==> Has(item, l)) {
        assert AllLeaves[Position(l)] == l;
        assert key(l) == Key(l, sep) && value(l) == Cell(item, l);
      }
    }
    r
  }

  /** The records of a list of items, each flattened with `sep`. */
  function FlattenAll(items: seq<Item>, sep: char): (records: seq<Record>)
    requires Separator(sep)
    ensures |records| == |items|
    ensures forall i :: 0 <= i < |items| ==> records[i] == Flatten(items[i], sep)
  {
    seq(|items|, i requires 0 <= i < |items| => Flatten(items[i], sep))
  }

  /** Some item has leaf `l`. */
  ghost predicate Covered(items: seq<Item>, l: Leaf)
  {
    exists i :: 0 <= i < |items| && Has(items[i], l)
  }

  /** A leaf's column is in some record exactly when some item has the leaf. */
  lemma ColumnInSomeRecord(items: seq<Item>, l: Leaf, sep: char)
    requires Separator(sep)
    ensures (exists i :: 0 <= i < |items| && Key(l, sep) in FlattenAll(items, sep)[i]) <==> Covered(items, l)
  {
    var records := FlattenAll(items, sep);
    forall i | 0 <= i < |items| ensures Key(l, sep) in records[i] <==> Has(items[i], l) {
      assert records[i] == Flatten(items[i], sep);
    }
  }

  /** `json_normalize(...)[allow-list]` succeeds exactly when every kept leaf
      is present in some item. */
  lemma SelectKeptSucceeds(items: seq<Item>, sep: char)
    requires Separator(sep)
    ensures Select(FlattenAll(items, sep), KeptColumns(sep)).Ok? <==>
              forall j :: 0 <= j < 21 ==> Covered(items, KeptLeaves[j])
  {
    var keep := KeptColumns(sep);
    forall j | 0 <= j < 21 {
      ColumnInSomeRecord(items, KeptLeaves[j], sep);
    }
    forall j | 0 <= j < 21 ensures keep[j] in keep {
    }
  }

  /** Some item has the part `o`. */
  ghost predicate Supplied(items: seq<Item>, o: Origin)
  {
    exists i :: 0 <= i < |items| && Provides(items[i], o)
  }

  /** Some item has a leaf exactly when some item has the part it lives in. */
  lemma CoveredBySupplied(items: seq<Item>)
    ensures forall l :: Covered(items, l) <==> Supplied(items, OriginOf(l))
  {
    forall l, i | 0 <= i < |items| ensures Has(items[i], l) <==> Provides(items[i], OriginOf(l)) {
      HasLeaf(items[i], l);
    }
  }

  /** The parts the allow-list needs: every kept leaf lives in the fixed
      fields, the artist, the image, the context or the API's context, and
      each of these holds some kept leaf. */
  lemma KeptOrigins()
    ensures forall j :: 0 <= j < 21 ==> OriginOf(KeptLeaves[j]) != InSubstitute
    ensures OriginOf(KeptLeaves[0]) == Fixed && OriginOf(KeptLeaves[7]) == InContext
    ensures OriginOf(KeptLeaves[8]) == InApiContext && OriginOf(KeptLeaves[9]) == InArtist
    ensures OriginOf(KeptLeaves[14]) == InImage
  {
    SubstituteNotKept();
  }

  /** The allow-list is satisfied exactly when the five parts it needs are
      each supplied by some item. */
  lemma KeptSupplied(items: seq<Item>)
    ensures (forall j :: 0 <= j < 21 ==> Supplied(items, OriginOf(KeptLeaves[j]))) <==>
              && Supplied(items, Fixed) && Supplied(items, InContext) && Supplied(items, InApiContext)
              && Supplied(items, InArtist) && Supplied(items, InImage)
  {
    KeptOrigins();
    if Supplied(items, Fixed) && Supplied(items, InContext) && Supplied(items, InApiContext)
       && Supplied(items, InArtist) && Supplied(items, InImage) {
      forall j | 0 <= j < 21 ensures Supplied(items, OriginOf(KeptLeaves[j])) {
        assert OriginOf(KeptLeaves[j]) != InSubstitute;
      }
    }
  }

  /** `json_normalize(...)[allow-list]` succeeds exactly when some item has
      each of the five parts the allow-list reads. */
  lemma SelectKeptSupplied(items: seq<Item>, sep: char)
    requires Separator(sep)
    ensures Select(FlattenAll(items, sep), KeptColumns(sep)).Ok? <==>
              && Supplied(items, Fixed) && Supplied(items, InContext) && Supplied(items, InApiContext)
              && Supplied(items, InArtist) && Supplied(items, InImage)
  {
    SelectKeptSucceeds(items, sep);
    CoveredBySupplied(items);
    KeptSupplied(items);
  }

  /** After a successful selection, row i holds item i's cell for each kept leaf. */
  lemma SelectKeptCells(items: seq<Item>, sep: char)
    requires Separator(sep)
    requires Select(FlattenAll(items, sep), KeptColumns(sep)).Ok?
    ensures var f := Select(FlattenAll(items, sep), KeptColumns(sep)).value;
            && f.columns == KeptColumns(sep) && |f.rows| == |items| && WellFormed(f)
            && forall i, j :: 0 <= i < |items| && 0 <= j < 21 ==> f.rows[i][j] == Cell(items[i], KeptLeaves[j])
  {
    var records := FlattenAll(items, sep);
    var f := Select(records, KeptColumns(sep)).value;
    forall i, j | 0 <= i < |items| && 0 <= j < 21 ensures f.rows[i][j] == Cell(items[i], KeptLeaves[j]) {
      assert f.rows[i][j] == Lookup(records[i], Key(KeptLeaves[j], sep));
    }
  }

  /** The substitute's nested key is not one of the kept leaves. */
  lemma SubstituteNotKept()
    ensures SubstituteUrl !in KeptLeaves
  {
  }
}

/**
  spotify/get_track_data.py, the current variant of the track job: the loop
  that normalises the items in place, the flattening and projection onto the
  allow-list, and the `queried_at` stamp.
*/
module GetTrackData {
  import opened Wrappers
  import opened Schema
  import opened Frames
  import opened Coercion
  import opened TrackItems

  /** The item's artists are the API's list, and it is not empty. */
  predicate HasArtist(item: Item)
  {
    item.track.artists.ArtistList? && item.track.artists.list != []
  }

  /** The item's album images are the API's list, and it is not empty. */
  predicate HasImage(item: Item)
  {
    item.track.album.images.ImageList? && item.track.album.images.list != []
  }

  /** The three guarded assignments of the loop body, for one item: a
      non-empty artists list becomes its first artist, a non-empty images
      list its first image, a null context the substitute object; anything
      else is left as it is, and nothing else changes. */
  function NormaliseItem(item: Item): (r: Item)
    ensures r.playedAt == item.playedAt
    ensures r.track == item.track.(artists := r.track.artists, album := item.track.album.(images := r.track.album.images))
    ensures HasArtist(item) ==> r.track.artists == OneArtist(item.track.artists.list[0])
    ensures !HasArtist(item) ==> r.track.artists == item.track.artists
    ensures HasImage(item) ==> r.track.album.images == OneImage(item.track.album.images.list[0])
    ensures !HasImage(item) ==> r.track.album.images == item.track.album.images
    ensures item.context == NoContext ==> r.context == SubstituteContext
    ensures item.context != NoContext ==> r.context == item.context
  {
    var t := item.track;
    var artists := match t.artists
      case ArtistList(list) => if list != [] then OneArtist(list[0]) else t.artists
      case OneArtist(_) => t.artists;
    var images := match t.album.images
      case ImageList(list) => if list != [] then OneImage(list[0]) else t.album.images
      case OneImage(_) => t.album.images;
    var context := if item.context == NoContext then SubstituteContext else item.context;
    Item(t.(artists := artists, album := t.album.(images := images)), item.playedAt, context)
  }

  /** The items after the loop. */
  function NormalisedItems(items: seq<Item>): (r: seq<Item>)
    ensures |r| == |items| && forall i :: 0 <= i < |items| ==> r[i] == NormaliseItem(items[i])
  {
    seq(|items|, i requires 0 <= i < |items| => NormaliseItem(items[i]))
  }

  /** `for index, item in enumerate(data["items"])`: rewrites every item in place. */
  method NormaliseItems(items: array<Item>)
    modifies items
    ensures items[..] == NormalisedItems(old(items[..]))
  {
    var index := 0;
    while index < items.Length
      invariant 0 <= index <= items.Length
      invariant forall i :: 0 <= i < index ==> items[i] == NormaliseItem(old(items[i]))
      invariant forall i :: index <= i < items.Length ==> items[i] == old(items[i])
    {
      var item := items[index];
      var track := item.track;
      if track.artists.ArtistList? && track.artists.list != [] {
        track := track.(artists := OneArtist(track.artists.list[0]));
      }
      if track.album.images.ImageList? && track.album.images.list != [] {
        track := track.(album := track.album.(images := OneImage(track.album.images.list[0])));
      }
      var context := item.context;
      if context == NoContext {
        context := SubstituteContext;
      }
      items[index] := Item(track, item.playedAt, context);
      index := index + 1;
    }
  }

  /** After normalisation an item from the API has an artist object exactly
      when its artists list was non-empty, an image object exactly when its
      images list was, a context object in every case, and the API's context
      exactly when the API sent one; the substitute replaces a null context. */
  lemma NormalisedProvides(item: Item)
    requires FromApi(item)
    ensures var r := NormaliseItem(item);
            && Provides(r, Fixed)
            && (Provides(r, InArtist) <==> HasArtist(item))
            && (Provides(r, InImage) <==> HasImage(item))
            && Provides(r, InContext)
            && (Provides(r, InApiContext) <==> item.context.ApiContext?)
            && (Provides(r, InSubstitute) <==> item.context == NoContext)
  {
  }

  /** The columns the loop does not touch read the same before and after it. */
  lemma UntouchedCells(item: Item, l: Leaf)
    requires OriginOf(l) == Fixed
    ensures Cell(NormaliseItem(item), l) == Cell(item, l)
  {
  }

  /** The artist and image cells of a normalised item: the first artist and
      the first image when there is one, NaN when the list was empty. */
  lemma FirstArtistAndImageCells(item: Item)
    requires FromApi(item)
    ensures var r := NormaliseItem(item);
            var artists := item.track.artists.list;
            var images := item.track.album.images.list;
            && Cell(r, ArtistId) == (if artists != [] then Str(artists[0].id) else NaN)
            && Cell(r, ArtistName) == (if artists != [] then Str(artists[0].name) else NaN)
            && Cell(r, ArtistType) == (if artists != [] then Str(artists[0].kind) else NaN)
            && Cell(r, ImageUrl) == (if images != [] then Str(images[0].url) else NaN)
            && Cell(r, ImageHeight) == (if images != [] then Int(images[0].height) else NaN)
  {
    var r := NormaliseItem(item);
    if HasArtist(item) {
      assert r.track.artists == OneArtist(item.track.artists.list[0]);
    } else {
      assert r.track.artists == ArtistList([]);
    }
    if HasImage(item) {
      assert r.track.album.images == OneImage(item.track.album.images.list[0]);
    } else {
      assert r.track.album.images == ImageList([]);
    }
  }

  /** The context cells of a normalised item: None for the type of a null
      context, and NaN for its link, since the substitute's nested key is not
      the projected column. */
  lemma ContextCells(item: Item)
    requires FromApi(item)
    ensures var r := NormaliseItem(item);
            && Cell(r, ContextType) == (match item.context case ApiContext(k, _) => Str(k) case _ => Null)
            && Cell(r, ContextUrl) == (match item.context case ApiContext(_, u) => Str(u) case _ => NaN)
  {
  }

  /** `transform_spotify_track_data` after the loop: flatten the normalised
      items with `sep="_"`, select the allow-list (KeyError when one of its
      columns is in no record), and add `queried_at`. */
  function Transform(items: seq<Item>, now: int): Result<Frame, Failure>
  {
    match Select(FlattenAll(NormalisedItems(items), '_'), KeptColumns('_'))
    case Err(e) => Err(e)
    case Ok(f) => Ok(WithColumn(f, "queried_at", Time(now)))
  }

  /** `transform_spotify_track_data(data, current_datetime)` as the handler
      calls it: the items are normalised in place, then the frame is built. */
  method TransformTrackData(items: array<Item>, now: int) returns (r: Result<Frame, Failure>)
    modifies items
    ensures items[..] == NormalisedItems(old(items[..]))
    ensures r == Transform(old(items[..]), now)
  {
    NormaliseItems(items);
    var records := FlattenAll(items[..], '_');
    var selected := Select(records, KeptColumns('_'));
    if selected.Err? {
      return Err(selected.error);
    }
    r := Ok(WithColumn(selected.value, "queried_at", Time(now)));
  }

  /** The allow-list is the schema without its last column, in the same order. */
  lemma KeptColumnsAreSchema()
    ensures KeptColumns('_') == TrackColumns[..21]
  {
    KeptColumnsArePrefix('_');
  }

  /** The projected frame has the schema's 22 columns, in schema order. */
  lemma TransformColumns(items: seq<Item>, now: int)
    requires Transform(items, now).Ok?
    ensures Transform(items, now).value.columns == Names(TrackSchema())
  {
    KeptColumnsAreSchema();
    QueriedAtLast();
  }

  /** For items from the API, the normalised items supply each part under
      these conditions: any item gives the fixed fields and a context object,
      the artist, the image and the API's context need an item that has one. */
  lemma NormalisedSupplied(items: seq<Item>)
    requires forall i :: 0 <= i < |items| ==> FromApi(items[i])
    ensures var normal := NormalisedItems(items);
            && (Supplied(normal, Fixed) <==> |items| > 0)
            && (Supplied(normal, InContext) <==> |items| > 0)
            && (Supplied(normal, InArtist) <==> exists i :: 0 <= i < |items| && HasArtist(items[i]))
            && (Supplied(normal, InImage) <==> exists i :: 0 <= i < |items| && HasImage(items[i]))
            && (Supplied(normal, InApiContext) <==> exists i :: 0 <= i < |items| && items[i].context.ApiContext?)
  {
    var normal := NormalisedItems(items);
    forall i | 0 <= i < |items| {
      NormalisedProvides(items[i]);
    }
    if |items| > 0 {
      assert Provides(normal[0], Fixed) && Provides(normal[0], InContext);
    }
  }

  /** Which inputs the projection accepts: there must be at least one item,
      some item must have an artist, some item an album image, and some item
      a context from the API; otherwise selecting the allow-list raises. */
  lemma TransformSucceeds(items: seq<Item>, now: int)
    requires forall i :: 0 <= i < |items| ==> FromApi(items[i])
    ensures Transform(items, now).Ok? <==>
              && |items| > 0
              && (exists i :: 0 <= i < |items| && HasArtist(items[i]))
              && (exists i :: 0 <= i < |items| && HasImage(items[i]))
              && (exists i :: 0 <= i < |items| && items[i].context.ApiContext?)
  {
    var normal := NormalisedItems(items);
    SelectKeptSupplied(normal, '_');
    NormalisedSupplied(items);
    assert Transform(items, now).Ok? <==> Select(FlattenAll(normal, '_'), KeptColumns('_')).Ok?;
  }

  /** One row per item, in input order: column j < 21 holds the normalised
      item's cell for the j-th kept leaf, and the last column the shared
      `queried_at`. */
  lemma TransformRows(items: seq<Item>, now: int)
    requires Transform(items, now).Ok?
    ensures var f := Transform(items, now).value;
            && WellFormed(f) && |f.rows| == |items| && |f.columns| == 22
            && (forall i, j :: 0 <= i < |items| && 0 <= j < 21 ==>
                 f.rows[i][j] == Cell(NormaliseItem(items[i]), KeptLeaves[j]))
            && (forall i :: 0 <= i < |items| ==> f.rows[i][21] == Time(now))
  {
    var normal := NormalisedItems(items);
    SelectKeptCells(normal, '_');
    TransformColumns(items, now);
    var s := Select(FlattenAll(normal, '_'), KeptColumns('_')).value;
    var f := Transform(items, now).value;
    assert "queried_at" !in s.columns by {
      KeptColumnsAreSchema();
      TrackSchemaNames();
      TrackSchemaDistinct();
      assert forall j :: 0 <= j < 21 ==> TrackColumns[j] != TrackColumns[21];
    }
    assert IndexOf(f.columns, "queried_at") == 21;
    forall i, j | 0 <= i < |items| && 0 <= j < 21
      ensures f.rows[i][j] == Cell(NormaliseItem(items[i]), KeptLeaves[j])
    {
      assert f.rows[i][..21] == s.rows[i];
      assert f.rows[i][j] == s.rows[i][j];
    }
  }
}

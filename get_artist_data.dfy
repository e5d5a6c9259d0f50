/**
  spotify/get_artist_data.py, the artist job: pick the ids of artists not yet
  stored, join them for the `ids` parameter, normalise the artists the API
  returns in place (first image, shortest genre), project them onto the
  artist columns, and answer.
*/
module GetArtistData {
  import opened Wrappers
  import opened Text
  import opened Schema
  import opened Frames
  import opened Utils
  import opened TrackItems

  /** One element of the API's `artists` list, with the fields the job reads.
      `images` is the API's list, or the first image the loop put in its
      place; `mainGenre` is the key the loop adds. */
  datatype ArtistObj = ArtistObj(spotifyUrl: string, followers: int, genres: seq<string>, id: string,
                                 images: Images, name: string, popularity: int, kind: string,
                                 mainGenre: Option<string>)

  /** The shape the API sends: a list of images and no `main_genre`. */
  predicate ArtistFromApi(a: ArtistObj)
  {
    a.images.ImageList? && a.mainGenre.None?
  }

  /** `min(genres, key=len)`'s position: a shortest genre, the earliest of
      those on a tie. */
  function ShortestIndex(genres: seq<string>): (k: nat)
    requires genres != []
    ensures k < |genres|
    ensures forall j :: 0 <= j < |genres| ==> |genres[k]| <= |genres[j]|
    ensures forall j :: 0 <= j < k ==> |genres[j]| > |genres[k]|
    decreases |genres|
  {
    if |genres| == 1 then 0
    else
      var k := ShortestIndex(genres[1..]);
      if |genres[0]| <= |genres[1..][k]| then 0 else k + 1
  }

  /** The two guarded assignments of the loop body for one artist: a
      non-empty images list becomes its first image, and a non-empty genres
      list sets `main_genre` to its shortest genre; nothing else changes. */
  function NormaliseArtist(a: ArtistObj): (r: ArtistObj)
    ensures a.images.ImageList? && a.images.list != [] ==> r.images == OneImage(a.images.list[0])
    ensures !(a.images.ImageList? && a.images.list != []) ==> r.images == a.images
    ensures a.genres != [] ==> r.mainGenre.Some? && r.mainGenre.value in a.genres
    ensures a.genres == [] ==> r.mainGenre == a.mainGenre
  {
    var images := match a.images
      case ImageList(list) => if list != [] then OneImage(list[0]) else a.images
      case OneImage(_) => a.images;
    var mainGenre := if a.genres != [] then Some(a.genres[ShortestIndex(a.genres)]) else a.mainGenre;
    a.(images := images, mainGenre := mainGenre)
  }

  /** The main genre is a genre no other genre is shorter than, and no
      earlier genre is as short. */
  lemma MainGenreShortest(a: ArtistObj)
    requires a.genres != []
    ensures var g := NormaliseArtist(a).mainGenre.value;
            && (forall j :: 0 <= j < |a.genres| ==> |g| <= |a.genres[j]|)
            && exists k :: 0 <= k < |a.genres| && a.genres[k] == g && forall j :: 0 <= j < k ==> |a.genres[j]| > |g|
  {
    var k := ShortestIndex(a.genres);
    assert NormaliseArtist(a).mainGenre.value == a.genres[k];
  }

  /** The artists after the loop. */
  function NormalisedArtists(artists: seq<ArtistObj>): (r: seq<ArtistObj>)
    ensures |r| == |artists| && forall i :: 0 <= i < |artists| ==> r[i] == NormaliseArtist(artists[i])
  {
    seq(|artists|, i requires 0 <= i < |artists| => NormaliseArtist(artists[i]))
  }

  /** `for index in range(len(data["artists"]))`: rewrites every artist in place. */
  method NormaliseArtists(artists: array<ArtistObj>)
    modifies artists
    ensures artists[..] == NormalisedArtists(old(artists[..]))
  {
    var index := 0;
    while index < artists.Length
      invariant 0 <= index <= artists.Length
      invariant forall i :: 0 <= i < index ==> artists[i] == NormaliseArtist(old(artists[i]))
      invariant forall i :: index <= i < artists.Length ==> artists[i] == old(artists[i])
    {
      var a := artists[index];
      if a.images.ImageList? && a.images.list != [] {
        a := a.(images := OneImage(a.images.list[0]));
      }
      if a.genres != [] {
        a := a.(mainGenre := Some(a.genres[ShortestIndex(a.genres)]));
      }
      artists[index] := a;
      index := index + 1;
    }
  }

  /** The columns the projection keeps, in the order of its allow-list. */
  datatype ArtistLeaf =
    | SpotifyUrl | FollowersTotal | Genres | ArtistIdLeaf | ImagesHeight | ImagesUrl
    | ArtistNameLeaf | Popularity | Kind | MainGenre

  const ArtistLeaves: seq<ArtistLeaf> := [
    SpotifyUrl, FollowersTotal, Genres, ArtistIdLeaf, ImagesHeight, ImagesUrl,
    ArtistNameLeaf, Popularity, Kind, MainGenre ]

  /** The allow-list: the `json_normalize(..., sep="_")` keys of the leaves, in order. */
  const ArtistColumns: seq<string> := [
    "external_urls_spotify", "followers_total", "genres", "id", "images_height", "images_url",
    "name", "popularity", "type", "main_genre" ]

  function ArtistPosition(l: ArtistLeaf): (i: nat)
    ensures i < |ArtistLeaves| && ArtistLeaves[i] == l
  {
    match l
    case SpotifyUrl => 0
    case FollowersTotal => 1
    case Genres => 2
    case ArtistIdLeaf => 3
    case ImagesHeight => 4
    case ImagesUrl => 5
    case ArtistNameLeaf => 6
    case Popularity => 7
    case Kind => 8
    case MainGenre => 9
  }

  /** The column a leaf becomes. */
  function ArtistKey(l: ArtistLeaf): string
  {
    ArtistColumns[ArtistPosition(l)]
  }

  /** Length and third-last character of each column name. */
  const ArtistTags: seq<int> := [2793, 2036, 882, 2, 1767, 1397, 609, 1385, 633, 1390]

  lemma ArtistColumnsDistinct()
    ensures Distinct(ArtistColumns)
  {
    assert Tags(ArtistColumns) == ArtistTags;
    assert Distinct'(ArtistTags);
    DistinctTagsDistinctNames(ArtistColumns);
  }

  /** Different leaves get different columns. */
  lemma ArtistKeyInjective()
    ensures forall l1, l2 :: ArtistKey(l1) == ArtistKey(l2) ==> l1 == l2
  {
    ArtistColumnsDistinct();
  }

  /** The cell an artist gives a leaf's column, NaN when it lacks the leaf:
      the image columns need an image object, `main_genre` a main genre;
      `genres` is kept whole as a list. */
  function ArtistCell(a: ArtistObj, l: ArtistLeaf): Value
  {
    match l
    case SpotifyUrl => Str(a.spotifyUrl)
    case FollowersTotal => Int(a.followers)
    case Genres => StrList(a.genres)
    case ArtistIdLeaf => Str(a.id)
    case ImagesHeight => (match a.images case OneImage(i) => Int(i.height) case _ => NaN)
    case ImagesUrl => (match a.images case OneImage(i) => Str(i.url) case _ => NaN)
    case ArtistNameLeaf => Str(a.name)
    case Popularity => Int(a.popularity)
    case Kind => Str(a.kind)
    case MainGenre => (match a.mainGenre case Some(g) => Str(g) case None => NaN)
  }

  /** An artist has a leaf exactly when it has the part the leaf lives in. */
  lemma ArtistHas(a: ArtistObj, l: ArtistLeaf)
    ensures ArtistCell(a, l) != NaN <==>
              (l == ImagesHeight || l == ImagesUrl ==> a.images.OneImage?) && (l == MainGenre ==> a.mainGenre.Some?)
  {
  }

  /** One artist flattened with `sep="_"`, restricted to the kept leaves. */
  function ArtistRecord(a: ArtistObj): (r: Record)
    ensures forall l :: Lookup(r, ArtistKey(l)) == ArtistCell(a, l)
    ensures forall l :: ArtistKey(l) in r <==> ArtistCell(a, l) != NaN
  {
    ArtistKeyInjective();
    var key := l => ArtistKey(l);
    var value := l => ArtistCell(a, l);
    var r := Gather(ArtistLeaves, key, value);
    assert forall l :: Lookup(r, ArtistKey(l)) == ArtistCell(a, l) && (ArtistKey(l) in r <==> ArtistCell(a, l) != NaN) by {
      forall l ensures Lookup(r, ArtistKey(l)) == ArtistCell(a, l) && (ArtistKey(l) in r <==> ArtistCell(a, l) != NaN) {
        assert ArtistLeaves[ArtistPosition(l)] == l;
        assert key(l) == ArtistKey(l) && value(l) == ArtistCell(a, l);
      }
    }
    r
  }

  function ArtistRecords(artists: seq<ArtistObj>): (records: seq<Record>)
    ensures |records| == |artists|
    ensures forall i :: 0 <= i < |artists| ==> records[i] == ArtistRecord(artists[i])
  {
    seq(|artists|, i requires 0 <= i < |artists| => ArtistRecord(artists[i]))
  }

  /** `transform_spotify_artists_data` after the loop: flatten, select the
      allow-list (KeyError when one of its columns is in no record), and add
      `queried_at`. */
  function ArtistTransform(artists: seq<ArtistObj>, now: int): Result<Frame, Failure>
  {
    match Select(ArtistRecords(NormalisedArtists(artists)), ArtistColumns)
    case Err(e) => Err(e)
    case Ok(f) => Ok(WithColumn(f, "queried_at", Time(now)))
  }

  /** `transform_spotify_artists_data(data, current_datetime)`: the artists
      are normalised in place, then the frame is built. */
  method TransformArtistsData(artists: array<ArtistObj>, now: int) returns (r: Result<Frame, Failure>)
    modifies artists
    ensures artists[..] == NormalisedArtists(old(artists[..]))
    ensures r == ArtistTransform(old(artists[..]), now)
  {
    NormaliseArtists(artists);
    var selected := Select(ArtistRecords(artists[..]), ArtistColumns);
    if selected.Err? {
      return Err(selected.error);
    }
    r := Ok(WithColumn(selected.value, "queried_at", Time(now)));
  }

  /** Some artist, once normalised, has leaf `l`. */
  ghost predicate ArtistCovered(artists: seq<ArtistObj>, l: ArtistLeaf)
  {
    exists i :: 0 <= i < |artists| && ArtistCell(NormaliseArtist(artists[i]), l) != NaN
  }

  /** The selection succeeds exactly when every kept leaf is in some record. */
  lemma ArtistSelectSucceeds(artists: seq<ArtistObj>)
    ensures Select(ArtistRecords(NormalisedArtists(artists)), ArtistColumns).Ok? <==>
              forall l :: ArtistCovered(artists, l)
  {
    var normal := NormalisedArtists(artists);
    var records := ArtistRecords(normal);
    forall l ensures (exists i :: 0 <= i < |records| && ArtistKey(l) in records[i]) <==> ArtistCovered(artists, l) {
      forall i | 0 <= i < |records| ensures ArtistKey(l) in records[i] <==> ArtistCell(NormaliseArtist(artists[i]), l) != NaN {
        assert records[i] == ArtistRecord(normal[i]);
      }
    }
    forall c | c in ArtistColumns ensures exists l :: ArtistKey(l) == c {
      var j :| 0 <= j < |ArtistColumns| && ArtistColumns[j] == c;
      ArtistPositions();
      assert ArtistKey(ArtistLeaves[j]) == c;
    }
    forall l ensures ArtistKey(l) in ArtistColumns {
    }
  }

  /** An artist with a non-empty images list. */
  predicate HasArtistImage(a: ArtistObj)
  {
    a.images.ImageList? && a.images.list != []
  }

  /** On artists from the API the projection succeeds exactly when there is
      at least one artist, some artist has an image and some artist has a
      genre; otherwise an image column or `main_genre` is in no record. */
  lemma ArtistTransformSucceeds(artists: seq<ArtistObj>, now: int)
    requires forall i :: 0 <= i < |artists| ==> ArtistFromApi(artists[i])
    ensures ArtistTransform(artists, now).Ok? <==>
              && |artists| > 0
              && (exists i :: 0 <= i < |artists| && HasArtistImage(artists[i]))
              && (exists i :: 0 <= i < |artists| && artists[i].genres != [])
  {
    ArtistSelectSucceeds(artists);
    EveryLeafCovered(artists);
  }

  /** Every kept leaf is in some normalised artist exactly when there is an
      artist, some artist has an image and some artist has a genre. */
  lemma EveryLeafCovered(artists: seq<ArtistObj>)
    requires forall i :: 0 <= i < |artists| ==> ArtistFromApi(artists[i])
    ensures (forall l :: ArtistCovered(artists, l)) <==>
              && |artists| > 0
              && (exists i :: 0 <= i < |artists| && HasArtistImage(artists[i]))
              && (exists i :: 0 <= i < |artists| && artists[i].genres != [])
  {
    forall i, l | 0 <= i < |artists|
      ensures ArtistCell(NormaliseArtist(artists[i]), l) != NaN <==>
                (l == ImagesHeight || l == ImagesUrl ==> HasArtistImage(artists[i]))
                && (l == MainGenre ==> artists[i].genres != [])
    {
      ArtistHas(NormaliseArtist(artists[i]), l);
    }
    if forall l :: ArtistCovered(artists, l) {
      assert ArtistCovered(artists, ArtistIdLeaf);
      assert ArtistCovered(artists, ImagesUrl);
      assert ArtistCovered(artists, MainGenre);
    }
    if |artists| > 0 && (exists i :: 0 <= i < |artists| && HasArtistImage(artists[i]))
       && (exists i :: 0 <= i < |artists| && artists[i].genres != []) {
      var a :| 0 <= a < |artists| && HasArtistImage(artists[a]);
      var g :| 0 <= g < |artists| && artists[g].genres != [];
      forall l ensures ArtistCovered(artists, l) {
        if l == ImagesHeight || l == ImagesUrl {
          assert ArtistCell(NormaliseArtist(artists[a]), l) != NaN;
        } else if l == MainGenre {
          assert ArtistCell(NormaliseArtist(artists[g]), l) != NaN;
        } else {
          assert ArtistCell(NormaliseArtist(artists[0]), l) != NaN;
        }
      }
    }
  }

  /** Each kept leaf sits at its own place in the allow-list. */
  lemma ArtistPositions()
    ensures forall j :: 0 <= j < |ArtistLeaves| ==> ArtistPosition(ArtistLeaves[j]) == j
  {
  }

  /** Column j of a selected row holds the record's cell for the j-th kept leaf. */
  lemma ArtistSelectedCell(normal: seq<ArtistObj>, i: nat, j: nat)
    requires Select(ArtistRecords(normal), ArtistColumns).Ok?
    requires i < |normal| && j < 10
    ensures var s := Select(ArtistRecords(normal), ArtistColumns).value;
            i < |s.rows| && j < |s.rows[i]| && s.rows[i][j] == ArtistCell(normal[i], ArtistLeaves[j])
  {
    ArtistPositions();
    assert ArtistColumns[j] == ArtistKey(ArtistLeaves[j]);
    assert ArtistRecords(normal)[i] == ArtistRecord(normal[i]);
  }

  /** `queried_at` is not one of the projected columns. */
  lemma QueriedAtNew(col: string)
    requires col == "queried_at"
    ensures col !in ArtistColumns
  {
    assert forall j :: 0 <= j < |ArtistColumns| ==> |ArtistColumns[j]| != |col| || ArtistColumns[j][0] != col[0];
  }

  /** The loop changes only the images and the main genre of an artist. */
  lemma NormaliseArtistKeeps(a: ArtistObj)
    ensures var r := NormaliseArtist(a);
            r == a.(images := r.images, mainGenre := r.mainGenre)
  {
  }

  /** The frame has the ten kept columns in allow-list order, then
      `queried_at`, and one row per artist. */
  lemma ArtistTransformColumns(artists: seq<ArtistObj>, now: int)
    requires ArtistTransform(artists, now).Ok?
    ensures var f := ArtistTransform(artists, now).value;
            f.columns == ArtistColumns + ["queried_at"] && |f.rows| == |artists| && WellFormed(f)
  {
    QueriedAtNew("queried_at");
  }

  /** One row per artist, in input order: column j < 10 holds the normalised
      artist's cell for the j-th kept leaf (the genres list whole), and the
      last column the shared `queried_at`. */
  lemma ArtistTransformRows(artists: seq<ArtistObj>, now: int)
    requires ArtistTransform(artists, now).Ok?
    ensures var f := ArtistTransform(artists, now).value;
            && |f.rows| == |artists|
            && (forall i :: 0 <= i < |artists| ==> |f.rows[i]| == 11)
            && (forall i, j :: 0 <= i < |artists| && 0 <= j < 10 ==>
                 f.rows[i][j] == ArtistCell(NormaliseArtist(artists[i]), ArtistLeaves[j]))
            && (forall i :: 0 <= i < |artists| ==> f.rows[i][10] == Time(now))
  {
    var normal := NormalisedArtists(artists);
    ArtistRowsExtended(artists, now);
    forall i, j | 0 <= i < |artists| && 0 <= j < 10
      ensures ArtistTransform(artists, now).value.rows[i][j] == ArtistCell(NormaliseArtist(artists[i]), ArtistLeaves[j])
    {
      ArtistSelectedCell(normal, i, j);
    }
  }

  /** Each row of the frame is the selected row with `queried_at` appended. */
  lemma ArtistRowsExtended(artists: seq<ArtistObj>, now: int)
    requires ArtistTransform(artists, now).Ok?
    ensures var s := Select(ArtistRecords(NormalisedArtists(artists)), ArtistColumns).value;
            var f := ArtistTransform(artists, now).value;
            && |f.rows| == |s.rows| == |artists|
            && forall i :: 0 <= i < |artists| ==> |s.rows[i]| == 10 && f.rows[i] == s.rows[i] + [Time(now)]
  {
    QueriedAtNew("queried_at");
  }

  /** The `genres` column keeps each artist's whole list. */
  lemma ArtistGenresColumn(artists: seq<ArtistObj>, now: int, i: nat)
    requires ArtistTransform(artists, now).Ok? && i < |artists|
    ensures var f := ArtistTransform(artists, now).value;
            i < |f.rows| && 2 < |f.rows[i]| && f.rows[i][2] == StrList(artists[i].genres)
  {
    ArtistRowsExtended(artists, now);
    ArtistSelectedCell(NormalisedArtists(artists), i, ArtistPosition(Genres));
    NormaliseArtistKeeps(artists[i]);
  }

  /** The two queries `get_artist_ids` chooses from: the ids of
      `unique_artists` not yet in the artists table when that table exists,
      all of them otherwise; both capped at 50 rows. */
  datatype Query = Query(excludeStored: bool, limit: nat)

  function ArtistIdsQuery(tableFound: bool): (q: Query)
  {
    Query(tableFound, 50)
  }

  /** `",".join(artists_ids)`. */
  function JoinIds(ids: seq<string>): string
  {
    Join(ids, ',')
  }

  /** The joined text has every id and a comma between each two. */
  lemma {:induction false} JoinIdsLength(ids: seq<string>)
    requires ids != []
    ensures |JoinIds(ids)| == TotalLength(ids) + |ids| - 1
    decreases |ids|
  {
    if |ids| > 1 {
      JoinIdsLength(ids[1..]);
    }
  }

  /** The joined text is empty exactly when there are no ids, or one empty id. */
  lemma JoinIdsEmpty(ids: seq<string>)
    ensures JoinIds(ids) == "" <==> ids == [] || ids == [""]
  {
    if ids != [] {
      JoinIdsLength(ids);
      if |ids| == 1 {
        assert TotalLength(ids) == |ids[0]|;
      }
    }
  }

  /** The API gets back the ids, in result order: splitting the parameter on
      commas gives the queried ids, when no id holds a comma. */
  lemma JoinIdsRoundTrip(ids: seq<string>)
    requires ids != []
    requires forall i :: 0 <= i < |ids| ==> ',' !in ids[i]
    ensures SplitOn(JoinIds(ids), {','}) == ids
  {
    SplitJoin(ids, ',');
  }

  /** How `set_up_big_query_client` fails: the three `except` clauses. */
  datatype ClientError = CredentialsError(shown: string) | CredentialsFileMissing(shown: string) | OtherError(shown: string)

  /** The message of each `except` clause. */
  function ClientErrorMessage(e: ClientError): string
  {
    match e
    case CredentialsError(_) => "Failed to load default credentials for BigQuery client"
    case CredentialsFileMissing(_) => "Failed to find the credentials file for BigQuery client"
    case OtherError(_) => "Failed to set up BigQuery client"
  }

  /** How each outside call of one invocation ends. `ids` is the result of
      the chosen query, `fetch` gets the token and the ids parameter and
      gives the body's `artists`, or None when it has no such key. */
  datatype ArtistServices = ArtistServices(
    client: Result<(), ClientError>,
    lookup: TableLookup,
    ids: Query -> Call<seq<string>>,
    token: Call<string>,
    fetch: (string, string) -> Call<Option<seq<ArtistObj>>>,
    upload: Frame -> Call<()>)

  /** What one invocation did: how it ended, the Telegram messages sent, the
      query it ran, the ids parameter it asked the API with, and the frame
      it uploaded. */
  datatype ArtistRun = ArtistRun(ending: Ending, messages: seq<Notification>, query: Option<Query>,
                                 requested: Option<string>, uploaded: Option<Frame>)

  const ArtistsTableId := "jan-sandbox2024.spotifyData.artists_data"
  const NoNewData := "No new data to upload"
  const ArtistUploadFailed := "Failed to upload the data to BigQuery."

  function ArtistSuccessMessage(n: nat): string
  {
    "Uploaded data about " + IntText(n) + " artists"
  }

  /** The `try` around `pandas_gbq.to_gbq`: 500 with the error when the
      upload raises, otherwise 200 with the number of rows uploaded; the
      answer goes to Telegram either way. */
  function ArtistUpload(s: ArtistServices, frame: Frame): (r: (Ending, seq<Notification>, Option<Frame>))
    ensures r.0.Returned? && |r.1| == 1 && r.1[0].text == r.0.response.message
    ensures r.0.response.statusCode == 200 <==> r.2.Some?
    ensures r.2.Some? <==> s.upload(frame).Returns?
    ensures r.2.Some? ==> && r.2.value == frame && r.1[0].channel == Logging
                          && r.0.response.message == ArtistSuccessMessage(|frame.rows|)
    ensures r.2.None? ==> && r.0.response.statusCode == 500 && r.1[0].channel == Alerting
                          && r.0.response.message == ArtistUploadFailed + "\n" + s.upload(frame).shown
  {
    match s.upload(frame)
    case Raises(m) =>
      var sent := SendResponse(500, ArtistUploadFailed, Exception(m));
      (Returned(sent.response), [sent.notification], None)
    case Returns(_) =>
      var sent := SendResponse(200, ArtistSuccessMessage(|frame.rows|), Plain(""));
      (Returned(sent.response), [sent.notification], Some(frame))
  }

  /** The part of `fetch_artists_data` after the ids are joined: the 202
      answer for no ids comes before any token or API call; the token, the
      request, the missing `artists` key and the projection are unguarded;
      only the upload answers 500. */
  function AfterIds(s: ArtistServices, text: string, now: int): (r: (Ending, seq<Notification>, Option<string>, Option<Frame>))
    ensures r.0 == Crashed <==>
              && text != ""
              && (|| s.token.Raises?
                  || !(s.fetch(s.token.value, text).Returns? && s.fetch(s.token.value, text).value.Some?)
                  || ArtistTransform(s.fetch(s.token.value, text).value.value, now).Err?)
    ensures r.0.Returned? ==> r.0.response.statusCode in {200, 202, 500}
    ensures r.0.Returned? && r.0.response.statusCode == 202 <==> text == ""
    ensures text == "" ==> && r.0.response.message == NoNewData && r.2.None? && r.3.None?
                           && r.1 == [Notification(Logging, NoNewData)]
    ensures r.0.Returned? && r.0.response.statusCode == 200 <==> r.3.Some?
    ensures r.3.Some? ==> && r.2 == Some(text) && ArtistTransform(FetchedArtists(s, text), now) == Ok(r.3.value)
                          && r.0.response.message == ArtistSuccessMessage(|r.3.value.rows|)
    ensures r.0.Returned? && r.0.response.statusCode == 500 ==>
              && r.2 == Some(text) && ArtistTransform(FetchedArtists(s, text), now).Ok?
              && s.upload(ArtistTransform(FetchedArtists(s, text), now).value).Raises?
  {
    if |text| == 0 then
      var sent := SendResponse(202, NoNewData, Plain(""));
      (Returned(sent.response), [sent.notification], None, None)
    else
      match s.token
      case Raises(_) => (Crashed, [], None, None)
      case Returns(token) =>
        match s.fetch(token, text)
        case Returns(Some(artists)) =>
          (match ArtistTransform(artists, now)
           case Err(_) => (Crashed, [], Some(text), None)
           case Ok(frame) =>
             var (ending, sent, uploaded) := ArtistUpload(s, frame);
             (ending, sent, Some(text), uploaded))
        case _ => (Crashed, [], Some(text), None)
  }

  /** One invocation of `fetch_artists_data` at instant `now`. A client that
      cannot be set up answers 500 to Telegram, but its response is handed to
      `get_artist_ids` as if it were a client, and that raises. */
  function ArtistHandler(s: ArtistServices, now: int): ArtistRun
  {
    match s.client
    case Err(e) =>
      var sent := SendResponse(500, ClientErrorMessage(e), Exception(e.shown));
      ArtistRun(Crashed, [sent.notification], None, None, None)
    case Ok(_) =>
      var (found, alert) := TableExists(s.lookup, ArtistsTableId);
      var alerts := if alert.Some? then [alert.value] else [];
      var query := ArtistIdsQuery(found);
      match s.ids(query)
      case Raises(_) => ArtistRun(Crashed, alerts, Some(query), None, None)
      case Returns(ids) =>
        var (ending, sent, requested, uploaded) := AfterIds(s, JoinIds(ids), now);
        ArtistRun(ending, alerts + sent, Some(query), requested, uploaded)
  }

  /** A client that cannot be set up: the alert names the failure and the
      error, and the invocation then raises before any query. */
  lemma ArtistClientFailure(s: ArtistServices, now: int)
    requires s.client.Err?
    ensures var r := ArtistHandler(s, now);
            && r.ending == Crashed && r.query.None? && r.uploaded.None?
            && r.messages == [Notification(Alerting, ClientErrorMessage(s.client.error) + "\n" + s.client.error.shown)]
  {
  }

  /** The invocation raises exactly when the client cannot be set up, the
      query raises, or, with some ids, the token request, the API request,
      the `artists` key or the projection fails. Telegram requests are taken
      to succeed; one that raised would crash the invocation too. */
  lemma ArtistCrashes(s: ArtistServices, now: int)
    ensures ArtistHandler(s, now).ending == Crashed <==>
              || s.client.Err?
              || s.ids(ArtistIdsQuery(s.lookup == Found)).Raises?
              || (var text := JoinIds(s.ids(ArtistIdsQuery(s.lookup == Found)).value);
                  && text != ""
                  && (|| s.token.Raises?
                      || !(s.fetch(s.token.value, text).Returns? && s.fetch(s.token.value, text).value.Some?)
                      || ArtistTransform(s.fetch(s.token.value, text).value.value, now).Err?))
  {
    if s.client.Ok? && s.ids(ArtistIdsQuery(s.lookup == Found)).Returns? {
      var text := JoinIds(s.ids(ArtistIdsQuery(s.lookup == Found)).value);
      assert ArtistHandler(s, now).ending == AfterIds(s, text, now).0;
    }
  }


  /** The query excludes stored artists exactly when the artists table was
      found, and takes at most 50 ids either way. */
  lemma QueryChoice(s: ArtistServices, now: int)
    ensures var r := ArtistHandler(s, now);
            r.query.Some? ==> r.query.value.excludeStored == (s.lookup == Found) && r.query.value.limit == 50
  {
  }

  /** No ids: the job answers 202 "No new data to upload" to the logging chat
      and asks the API nothing; it answers 202 in no other case. */
  lemma NoIdsNoRequest(s: ArtistServices, now: int)
    ensures var r := ArtistHandler(s, now);
            r.ending.Returned? && r.ending.response.statusCode == 202 <==>
              s.client.Ok? && s.ids(ArtistIdsQuery(s.lookup == Found)).Returns?
              && JoinIds(s.ids(ArtistIdsQuery(s.lookup == Found)).value) == ""
    ensures var r := ArtistHandler(s, now);
            r.ending.Returned? && r.ending.response.statusCode == 202 ==>
              && r.ending.response.message == NoNewData && r.requested.None?
              && r.messages[|r.messages| - 1] == Notification(Logging, NoNewData)
  {
  }

  /** Every answer is 200, 202 or 500, and 500 only when the upload raised. */
  lemma ArtistStatuses(s: ArtistServices, now: int)
    ensures var r := ArtistHandler(s, now);
            r.ending.Returned? ==> r.ending.response.statusCode in {200, 202, 500}
    ensures var r := ArtistHandler(s, now);
            r.ending.Returned? && r.ending.response.statusCode == 500 ==>
              r.requested.Some? && s.upload(ArtistTransform(FetchedArtists(s, r.requested.value), now).value).Raises?
  {
  }

  /** The artists the API returned for the ids parameter, when it returned some. */
  function FetchedArtists(s: ArtistServices, text: string): seq<ArtistObj>
  {
    if s.token.Returns? && s.fetch(s.token.value, text).Returns? && s.fetch(s.token.value, text).value.Some?
    then s.fetch(s.token.value, text).value.value
    else []
  }

  /** A 200 answer reports the number of artists uploaded, one row per
      artist the API returned for the requested ids. */
  lemma ArtistSuccessCount(s: ArtistServices, now: int)
    ensures var r := ArtistHandler(s, now);
            r.ending.Returned? && r.ending.response.statusCode == 200 <==> r.uploaded.Some?
    ensures var r := ArtistHandler(s, now);
            r.uploaded.Some? ==>
              && r.requested.Some?
              && |r.uploaded.value.rows| == |FetchedArtists(s, r.requested.value)|
              && r.ending.response.message == ArtistSuccessMessage(|r.uploaded.value.rows|)
  {
    var r := ArtistHandler(s, now);
    if r.uploaded.Some? {
      var artists := FetchedArtists(s, r.requested.value);
      ArtistTransformRows(artists, now);
    }
  }
}

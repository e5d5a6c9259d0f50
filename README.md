# Spotify listening-history pipeline: a Dafny model of its in-memory core

The pipeline runs as serverless handlers. The track job (`track_data_handler`
in spotify/get_track_data.py, and its older form `trackData_handler` in
spotify/getSpotifyTrackData.py) does the following:

- sets up a BigQuery client;
- reads the table's latest `played_at` (the watermark), creating the table when it is absent;
- refreshes a Spotify token and fetches the recently-played items;
- normalises and flattens each item into the 21 allow-listed columns plus a shared `queried_at`;
- coerces every column to the type the fixed schema (spotify/schema.py) declares;
- keeps only the plays strictly after the watermark, uploads them, and answers with a status and a message.

The artist job (`fetch_artists_data` in spotify/get_artist_data.py) does the following:

- picks up to 50 artist ids not yet stored and joins them with commas;
- answers 202 when there are none;
- otherwise fetches the artists, keeps each one's first image and its shortest genre, projects them onto ten columns plus `queried_at`, and uploads them.

Answers go through `send_response` (spotify/utils.py). It composes the message
with the error, sends it to the Telegram alerting chat exactly when the status
is neither 200 nor 202, and otherwise to the logging chat.
spotify/getSpotifyData.py holds a third transform, which renames columns to
camelCase with `renameColumns`, and the `after` cursor of its request.

The model is written in Dafny. Each module follows one part of the source:

| module | models |
|---|---|
| `Schema` | the schema |
| `Frames` | cells and frames: `json_normalize` plus column selection, adding a column, renaming, `where(notnull)` |
| `Coercion` | the coercion loop |
| `Dedup` | the watermark filter and `MAX(played_at)` |
| `Clock` | `int(ts.timestamp())` |
| `Text` | Python's `split`, `join`, `lower`, `capitalize` and `str(int)` |
| `Utils` | spotify/utils.py |
| `TrackItems` | the item datatypes and their flattening under both separators |
| `GetTrackData` | the current transform |
| `LegacyTrackData` | spotify/getSpotifyTrackData.py |
| `GetSpotifyData` | spotify/getSpotifyData.py |
| `TrackHandlers` | both track handlers |
| `GetArtistData` | spotify/get_artist_data.py |

Three loops rewrite the items or artists in place: the current one, the legacy
one, and the artist one. Each is a method over an `array`, proved equal to a
function on sequences. The coercion loop is a method proved equal to the
recursive function that specifies it. The handlers are functions of the
outcomes of the calls they make. A call either returns a value or raises an
exception with its text. An invocation either returns a response or crashes
with an uncaught exception. Instants are integers counting microseconds since
1970-01-01T00:00:00Z.

Where the code and its comments or docstrings disagree, the model follows the
code:

- The projection selects the allow-list from the columns `json_normalize`
  produced. It raises KeyError when some allow-listed column is in no record.
  So an empty `items` list raises KeyError, and the handler answers 500
  "Failed to transform the data." rather than reporting that there is nothing new.
  The same happens when:
  - no item has an artist;
  - no item has an album image;
  - no item has a non-null context. The substitute context's second key is
    nested one level deeper, so it never fills `context_external_urls_spotify`.
- The track handlers never answer 202.
- A NULL `MAX(played_at)` is not replaced by the epoch: `row[0].timestamp()` raises outside any `try`.
- A missing cell is NaN, and the STRING coercion turns NaN into the text "nan", not into None.
- getSpotifyTrackData.py imports `returnSchema`, but spotify/schema.py defines
  `return_schema`. The model gives that handler the schema `return_schema` returns.
- When the artist job's client cannot be set up, `set_up_big_query_client`
  sends the 500 alert and returns the response dict. `get_artist_ids` then
  calls `client.dataset` on that dict (spotify/utils.py:74) before its `try`,
  so the invocation raises.
- The artist transform is not guarded. A body without `artists`, a failed token
  or API request, or a projection KeyError raises out of the handler. The
  projection raises when there are no artists, when no artist has an image,
  and when no artist has a genre.

## Model

| member | source | states |
|---|---|---|
| Schema.TrackSchema | spotify/schema.py:4-32 | 22 entries; `played_at` (7th) and the last entry `queried_at` are TIMESTAMP; `track_explicit` is exactly the BOOLEAN column; no column is FLOAT |
| Schema.TrackSchemaDistinct | spotify/schema.py:8-31 | the 22 column names are pairwise distinct |
| Schema.QueriedAtLast | spotify/schema.py:9-30 | the names are 21 names none of which is `queried_at`, followed by `queried_at` |
| Frames.Select | spotify/get_track_data.py:123-149 | selecting the allow-list succeeds iff every kept column is a key of some record; the frame has exactly the allow-list as columns, one row per record in order, each cell the record's value or NaN; otherwise KeyError naming missing columns |
| Frames.WithColumn | spotify/get_track_data.py:156 | assigning a scalar column gives every row that value; a new column is appended after the old ones, whose cells are unchanged; an existing column is overwritten in place and every other column keeps its cells |
| Frames.Rename | spotify/getSpotifyTrackData.py:156-158 | each column is renamed in place by the mapping; the rows are untouched |
| Frames.Nullify | spotify/get_track_data.py:250 | every NaN cell becomes None, every other cell is kept, the shape is unchanged |
| Clock.UnixSeconds | spotify/get_track_data.py:203 | `int(ts.timestamp())`: the whole seconds of an instant, truncated toward zero on either side of the epoch |
| Clock.UnixSecondsMonotonic | spotify/get_track_data.py:203 | a later watermark never gives an earlier `after` cursor |
| Clock.UnixSecondsOfWhole | spotify/get_track_data.py:203 | an instant on a whole second gives that second exactly |
| Coercion.CoerceCell | spotify/get_track_data.py:232-247 | INTEGER/FLOAT give the parsed integer or <NA> exactly when `to_numeric` fails; TIMESTAMP gives the parsed instant or NaT exactly when `to_datetime` fails; STRING gives None exactly for None and `str(x)` of any other cell; BOOLEAN leaves the cell as it was |
| Coercion.StringCoercion | spotify/get_track_data.py:239-241 | `str(x) if x is not None else None`: a string is kept, an integer becomes its decimal text (which reads back as the integer), NaN becomes "nan", None stays None |
| Coercion.CoerceColumn | spotify/get_track_data.py:229-247 | reassigning one schema column succeeds iff the frame has it, and keeps the columns and the row count |
| Coercion.CoerceAll | spotify/get_track_data.py:228-247 | the schema loop keeps the frame's columns and row count |
| Coercion.ValidateFrame | spotify/get_track_data.py:227-253 | the loop over the schema stops at the first exception and otherwise ends with `where(notnull, None)`, computing the `Validate` specification |
| Coercion.CoerceAllFails | spotify/get_track_data.py:228-247 | the schema loop raises iff some schema column is missing from the frame; bad values never make it raise |
| Coercion.CoerceAllCells | spotify/get_track_data.py:228-247 | with all schema columns present, each schema column's cells are cast to that column's declared type and every other cell is unchanged |
| Coercion.ValidatedCell | spotify/get_track_data.py:232-250 | after validation an INTEGER cell is an integer or None, a TIMESTAMP cell an instant or None, a STRING cell a string or None, a BOOLEAN cell unchanged except NaN becomes None |
| Coercion.SaneCoercion | spotify/get_track_data.py:232-247 | with the usual parsers, None and NaN in an INTEGER, FLOAT or TIMESTAMP column end as None, and integers and instants in their own column keep their value |
| Dedup.KeepNewer | spotify/get_track_data.py:255 | the filter keeps no more rows than it gets, and only rows whose `played_at` is strictly after the watermark |
| Dedup.KeepNewerCounts | spotify/get_track_data.py:255 | each row played after the watermark is kept as many times as it occurs, and no other row is kept |
| Dedup.KeepNewerAppend | spotify/get_track_data.py:255 | the filter distributes over concatenation, so kept rows stay in input order |
| Dedup.KeepNewerRaise | spotify/get_track_data.py:255 | filtering twice is filtering with the later watermark; with one watermark the filter is idempotent |
| Dedup.NothingNewer | spotify/get_track_data.py:255 | with no play after the watermark nothing is uploaded |
| Dedup.AllNewer | spotify/get_track_data.py:255 | when every play is after the watermark (the epoch for a new table) every row is kept |
| Dedup.Latest | spotify/get_track_data.py:199-203 | `MAX(played_at)`: NULL iff no row has an instant, otherwise an instant some row has and no row exceeds |
| Dedup.RerunKeepsNothing | spotify/get_track_data.py:255 | once the watermark has reached the plays a run kept, filtering the same rows again keeps none: no duplicate loads |
| Dedup.NextWatermark | spotify/get_track_data.py:199-203 | the next run's `MAX(played_at)` is at or after every play this run uploaded and not below this run's watermark |
| Utils.Compose | spotify/utils.py:44-49 | the message alone when `e == ""`, else message, newline, `str(e)` |
| Utils.ComposeRecoversParts | spotify/utils.py:44-49 | for a one-line message the composed text's first line is the message and what follows the newline is the error |
| Utils.SendTelegramMessage | spotify/utils.py:13-33 | the alerting chat iff `is_alert`, the logging chat otherwise; the text is the message |
| Utils.SendResponse | spotify/utils.py:36-60 | the status is returned unchanged; the body message and the Telegram text are the same composed text; it is an alert iff the status is neither 200 nor 202 |
| Utils.TableExists | spotify/utils.py:63-89 | true iff `get_table` succeeds; NotFound gives false silently, any other error false with one alert naming the table and the error |
| Text.SplitOn | spotify/getSpotifyData.py:98 | `str.split`: at least one piece, and no piece holds a separator |
| Text.SplitTwice | spotify/getSpotifyData.py:98-100 | splitting on `.` then every piece on `_` is splitting on both at once |
| Text.SplitSizes | spotify/getSpotifyData.py:98-100 | a split has one piece more than the separators, and pieces plus separators make up the text |
| Text.SplitJoin | spotify/get_artist_data.py:106 | splitting a comma-join gives the pieces back when none holds a comma |
| Text.JoinSplit | spotify/get_artist_data.py:106 | joining the pieces of a split gives the text back |
| Text.NatText | spotify/get_track_data.py:271 | `str(n)`: non-empty decimal digits, no leading zero unless n is 0 |
| Text.NatTextValue | spotify/get_track_data.py:271 | reading back `str(n)` gives n |
| TrackItems.KeptColumns | spotify/get_track_data.py:125-147 | the allow-list has 21 names, the j-th being the column of the j-th kept leaf under the variant's separator |
| TrackItems.KeyInjective | spotify/get_track_data.py:123 | flattening with `_` or with `.` gives different leaves different columns |
| TrackItems.Flatten | spotify/get_track_data.py:123 | an item's flattened record has a leaf's column iff the item has that leaf, holding the item's value |
| TrackItems.FlattenAll | spotify/get_track_data.py:123 | one record per item, in order |
| TrackItems.HasLeaf | spotify/get_track_data.py:123 | an item has a leaf iff it has the object (artist, image, context) the leaf lives in |
| TrackItems.ColumnInSomeRecord | spotify/get_track_data.py:123-149 | a leaf's column is in some record iff some item has the leaf |
| TrackItems.SelectKeptSucceeds | spotify/get_track_data.py:149 | selecting the allow-list succeeds iff every kept leaf is in some item |
| TrackItems.SelectKeptSupplied | spotify/get_track_data.py:149 | selecting the allow-list succeeds iff each of the five parts it reads (the fixed fields, a context object, the API's context, an artist object, an image object) is in some item |
| TrackItems.SelectKeptCells | spotify/get_track_data.py:149 | row i, column j of the selection is item i's cell for the j-th kept leaf |
| TrackItems.SubstituteNotKept | spotify/get_track_data.py:120 | the substitute context's nested key is not an allow-listed column |
| GetTrackData.NormaliseItem | spotify/get_track_data.py:111-120 | a non-empty artists list becomes its first artist, an empty one is kept; likewise the album images; a null context becomes the substitute, any other is kept; nothing else changes |
| GetTrackData.NormalisedItems | spotify/get_track_data.py:110-120 | the loop normalises every item and keeps their number and order |
| GetTrackData.NormaliseItems | spotify/get_track_data.py:110-120 | the in-place loop leaves the array holding the normalised items |
| GetTrackData.NormalisedProvides | spotify/get_track_data.py:111-120 | on an API item, the normalised item has an artist object iff the list was non-empty, an image object iff the images were non-empty, and always a context object |
| GetTrackData.UntouchedCells | spotify/get_track_data.py:110-120 | the loop does not change the track's own fields or `played_at` |
| GetTrackData.FirstArtistAndImageCells | spotify/get_track_data.py:111-116 | the artist columns hold the first artist's id, name and type, and the image columns the first image's url and height |
| GetTrackData.ContextCells | spotify/get_track_data.py:117-120 | a null context gives `context_type` None and a NaN URL; an API context gives its type and URL |
| GetTrackData.TransformTrackData | spotify/get_track_data.py:101-158 | the transform rewrites the items in place and returns the specified frame or KeyError |
| GetTrackData.KeptColumnsAreSchema | spotify/get_track_data.py:125-147 | the allow-list is the schema's first 21 names, in order |
| GetTrackData.TransformColumns | spotify/get_track_data.py:123-156 | the transformed frame's columns are exactly the schema's names in schema order |
| GetTrackData.NormalisedSupplied | spotify/get_track_data.py:110-123 | after the loop, fixed fields and contexts are supplied iff there is an item; artists, images and API contexts iff some item had one |
| GetTrackData.TransformSucceeds | spotify/get_track_data.py:110-149 | on API items the transform succeeds iff there is an item, some item has an artist, some an image and some a non-null context |
| GetTrackData.TransformRows | spotify/get_track_data.py:110-156 | one row per item, in order: column j < 21 holds the normalised item's j-th kept cell, column 21 the shared `queried_at` |
| LegacyTrackData.LegacyStep | spotify/getSpotifyTrackData.py:118-121 | the unguarded `[0]`s succeed iff the artists and the images are non-empty; then both are replaced by their first element; a failed first subscript changes nothing; context and `played_at` are kept |
| LegacyTrackData.LegacyNormalised | spotify/getSpotifyTrackData.py:117-121 | the loop keeps the number of items |
| LegacyTrackData.LegacyNormaliseItems | spotify/getSpotifyTrackData.py:117-121 | the in-place loop stops at the first exception, leaving the earlier items rewritten and the later ones as they were |
| LegacyTrackData.LegacyFailsAt | spotify/getSpotifyTrackData.py:117-121 | the exception of the first failing item ends the loop with exactly the items rewritten up to it |
| LegacyTrackData.LegacySucceedsUpTo | spotify/getSpotifyTrackData.py:117-121 | when every step succeeds the loop rewrites every item and raises nothing |
| LegacyTrackData.LegacyNormalisedOutcome | spotify/getSpotifyTrackData.py:117-121 | the loop raises iff some item has no artist or no image; otherwise every item is rewritten |
| LegacyTrackData.LegacyMatchesCurrent | spotify/getSpotifyTrackData.py:117-121 | where no list is empty and no context null, the legacy loop gives the current loop's items |
| LegacyTrackData.Underscored | spotify/getSpotifyTrackData.py:156 | `col.replace(".", "_")`: same length, no `.` left, every other character kept |
| LegacyTrackData.DotColumnsRenamed | spotify/getSpotifyTrackData.py:129-156 | renaming the dotted allow-list gives exactly the schema's first 21 names, in order |
| LegacyTrackData.LegacyTransformTrackData | spotify/getSpotifyTrackData.py:115-162 | the legacy transform rewrites the items in place and returns the specified frame, or the first exception |
| LegacyTrackData.LegacyTransformSucceeds | spotify/getSpotifyTrackData.py:117-153 | on API items the legacy transform succeeds iff there is an item, every item has an artist and an image, and some item has a context |
| LegacyTrackData.LegacyAgreesWithCurrent | spotify/getSpotifyTrackData.py:115-162 | on items with non-empty lists and non-null contexts the legacy and current transforms fail together and otherwise give the same frame |
| LegacyTrackData.LegacyTransformColumns | spotify/getSpotifyTrackData.py:153-160 | the legacy frame has the schema's names in schema order and one row per item |
| LegacyTrackData.LegacySendResponse | spotify/getSpotifyTrackData.py:165-173 | the status is unchanged; the message is `message` when `e == ""`, else message, newline, error |
| LegacyTrackData.LegacyResponseIsShared | spotify/getSpotifyTrackData.py:165-173 | the legacy response equals the shared `send_response`'s |
| LegacyTrackData.LegacyTableExists | spotify/getSpotifyTrackData.py:19-28 | true iff `get_table` succeeds, false on any exception |
| GetSpotifyData.Segments | spotify/getSpotifyData.py:98-100 | there is always at least one piece |
| GetSpotifyData.SegmentsSplitOnBoth | spotify/getSpotifyData.py:98-100 | the pieces are the name split on `.` and `_` at once |
| GetSpotifyData.RenameColumnShape | spotify/getSpotifyData.py:97-101 | the new name has no `.` and no `_`, and is as long as the old minus its `.` and `_` characters |
| GetSpotifyData.RenameSnakeCase | spotify/getSpotifyData.py:101 | a `_`-joined name becomes its first word lower-cased followed by every later word capitalised |
| GetSpotifyData.RenameTwoWords | spotify/getSpotifyData.py:101 | two lower-case words joined by `_` become the first, then the second with its first letter upper-cased |
| GetSpotifyData.RenameQueriedAt | spotify/getSpotifyData.py:97-101 | `queried_at` becomes `queriedAt` |
| GetSpotifyData.RenameIgnoresDots | spotify/getSpotifyData.py:97-101 | `renameColumns` gives the same name before and after `.` is replaced by `_` |
| GetSpotifyData.RenameFirst | spotify/getSpotifyData.py:101 | the new name starts with the old first character, lower-cased |
| GetSpotifyData.CamelTransformTrackData | spotify/getSpotifyData.py:104-146 | the camelCase transform rewrites the items in place and returns the specified frame, or the first exception |
| GetSpotifyData.CamelIsRenamedLegacy | spotify/getSpotifyData.py:104-146 | the camelCase transform fails exactly as the legacy one, and otherwise is the legacy frame with `renameColumns` applied to each column |
| GetSpotifyData.CamelKeptColumns | spotify/getSpotifyData.py:138-142 | no renamed kept column is `queriedAt`, so the stamp is a new last column |
| GetSpotifyData.CamelTransformSucceeds | spotify/getSpotifyData.py:105-136 | on API items it succeeds iff there is an item, every item has an artist and an image, and some item has a context |
| GetSpotifyData.CamelColumnsFromSchema | spotify/getSpotifyData.py:136-142 | the 22 columns are `renameColumns` of the schema's names, in schema order |
| GetSpotifyData.AfterCursorTwoHoursBack | spotify/getSpotifyData.py:77-79 | the cursor is the current second minus 7200 once two hours have passed since the epoch, and it never decreases as time goes on |
| TrackHandlers.Respond | spotify/utils.py:36-60 | the current handler answers through the shared `send_response` and sends its one message; the legacy handler sends none |
| TrackHandlers.Exists | spotify/utils.py:63-89 | both variants find the table iff the lookup succeeds; only the current one alerts, and only on an error other than NotFound |
| TrackHandlers.TransformFor | spotify/get_track_data.py:220-224 | a body without `items` raises KeyError; a built frame has the schema's columns |
| TrackHandlers.Upload | spotify/get_track_data.py:255-272 | the frame handed to `to_gbq` is the validated frame filtered at the watermark; 200 iff that upload succeeded, and then that frame is what went up and the message reports its row count; else 500 "Failed to upload the data to BigQuery." |
| TrackHandlers.ValidatedFetch | spotify/get_track_data.py:208-250 | the validated frame exists iff the token, the request and the transform succeed; it has the schema's columns |
| TrackHandlers.Stages | spotify/get_track_data.py:208-272 | each guarded stage's failure answers 500 with that stage's message; it uploads iff the validated fetched frame exists and its upload after the filter succeeds, and the uploaded frame is exactly that filtered frame |
| TrackHandlers.HandlerCrashes | spotify/get_track_data.py:196-206 | an invocation crashes iff the client is set up and either the table exists and its maximum cannot be read or is NULL, or it is absent and cannot be created |
| TrackHandlers.HandlerStatuses | spotify/get_track_data.py:189-272 | every answer is 200 or 500; never 202 |
| TrackHandlers.CreatedIffAbsent | spotify/get_track_data.py:196-206 | the table is created iff the client works, the lookup does not find it and creation succeeds |
| TrackHandlers.CursorFromWatermark | spotify/get_track_data.py:197-216 | the API is asked from the latest stored play's whole second, or from "0000000001" for a new table |
| TrackHandlers.UploadedAfterWatermark | spotify/get_track_data.py:197-255 | every uploaded row was played strictly after the table's latest play, or after the epoch for a new table |
| TrackHandlers.NewPlaysUploaded | spotify/get_track_data.py:196-258 | a run uploads iff the client, the table step, the token, the request, the transform and the upload succeed; what it uploads is the validated fetched frame filtered at the table's watermark: each row played after it as often as it occurs, and no other row |
| TrackHandlers.TransformedValidates | spotify/get_track_data.py:227-253 | a frame the transform built always passes validation |
| TrackHandlers.ValidationNeverFails | spotify/get_track_data.py:252-253 | no answer carries "Failed to apply data validation." |
| TrackHandlers.SuccessReportsCount | spotify/get_track_data.py:270-272 | the answer is 200 iff something was uploaded, and then reports the uploaded row count (the new plays, by NewPlaysUploaded) and the watermark |
| TrackHandlers.MessagesMirrorAnswer | spotify/utils.py:51-58 | the current handler's last Telegram message is its answer, on the alerting chat iff the status is not 200, after at most the table alert; the legacy handler sends nothing |
| GetArtistData.ShortestIndex | spotify/get_artist_data.py:31 | `min(genres, key=len)`: a genre no other is shorter than, the earliest on a tie |
| GetArtistData.NormaliseArtist | spotify/get_artist_data.py:26-31 | a non-empty images list becomes its first image, an empty one is kept; a non-empty genres list sets `main_genre` to one of its genres, an empty one sets nothing |
| GetArtistData.MainGenreShortest | spotify/get_artist_data.py:30-31 | the main genre is a genre no other is shorter than, and no earlier genre is as short |
| GetArtistData.NormaliseArtistKeeps | spotify/get_artist_data.py:25-31 | the loop changes only the images and the main genre |
| GetArtistData.NormalisedArtists | spotify/get_artist_data.py:25-31 | every artist is normalised, number and order kept |
| GetArtistData.NormaliseArtists | spotify/get_artist_data.py:25-31 | the in-place loop leaves the array holding the normalised artists |
| GetArtistData.ArtistColumnsDistinct | spotify/get_artist_data.py:36-47 | the ten kept column names are pairwise distinct |
| GetArtistData.ArtistKeyInjective | spotify/get_artist_data.py:34-47 | different artist leaves flatten to different columns |
| GetArtistData.ArtistHas | spotify/get_artist_data.py:34 | an artist has a column iff it has the image object or main genre the column needs |
| GetArtistData.ArtistRecord | spotify/get_artist_data.py:34 | the flattened artist has a leaf's column iff the artist has that leaf, holding its value |
| GetArtistData.ArtistRecords | spotify/get_artist_data.py:34 | one record per artist, in order |
| GetArtistData.TransformArtistsData | spotify/get_artist_data.py:22-53 | the transform rewrites the artists in place and returns the specified frame or KeyError |
| GetArtistData.ArtistSelectSucceeds | spotify/get_artist_data.py:34-49 | the selection succeeds iff every kept leaf is in some normalised artist |
| GetArtistData.ArtistTransformSucceeds | spotify/get_artist_data.py:25-49 | on API artists the transform succeeds iff there is an artist, some artist has an image and some a genre |
| GetArtistData.QueriedAtNew | spotify/get_artist_data.py:51 | `queried_at` is not a kept column, so it is appended |
| GetArtistData.ArtistTransformColumns | spotify/get_artist_data.py:36-51 | the frame's columns are the ten kept ones in order, then `queried_at`; one row per artist |
| GetArtistData.ArtistTransformRows | spotify/get_artist_data.py:25-51 | one row per artist in order: column j < 10 holds the normalised artist's j-th kept cell, column 10 the shared `queried_at` |
| GetArtistData.ArtistGenresColumn | spotify/get_artist_data.py:34-49 | the `genres` column holds each artist's whole genre list |
| GetArtistData.JoinIdsLength | spotify/get_artist_data.py:106 | the joined text is the ids' lengths plus one comma between each two |
| GetArtistData.JoinIdsEmpty | spotify/get_artist_data.py:104-106 | the joined text is empty iff there are no ids, or one empty id |
| GetArtistData.JoinIdsRoundTrip | spotify/get_artist_data.py:104-106 | splitting the parameter on commas gives the queried ids in result order |
| GetArtistData.ArtistUpload | spotify/get_artist_data.py:173-186 | 200 with "Uploaded data about n artists" to the logging chat iff the upload succeeds; else 500 with the upload message and the error to the alerting chat |
| GetArtistData.AfterIds | spotify/get_artist_data.py:138-186 | no ids answer 202 "No new data to upload" before any token or API call, and only then 202; with ids, a failed token, request, missing `artists` or projection raises; 200 iff uploaded; 500 only when the upload raised |
| GetArtistData.ArtistClientFailure | spotify/get_artist_data.py:111-136 | a failed client sends one alert with that `except` clause's message and the error, then the invocation raises before any query |
| GetArtistData.ArtistCrashes | spotify/get_artist_data.py:134-157 | an invocation raises iff the client fails, the query raises, or with some ids the token, the request, the `artists` key or the projection fails |
| GetArtistData.QueryChoice | spotify/get_artist_data.py:84-98 | stored artists are excluded iff the artists table was found; both queries take at most 50 ids |
| GetArtistData.NoIdsNoRequest | spotify/get_artist_data.py:136-139 | 202 iff the query gave no ids; then "No new data to upload" goes to the logging chat and the API is not asked |
| GetArtistData.ArtistStatuses | spotify/get_artist_data.py:134-186 | every answer is 200, 202 or 500; 500 only when the upload raised |
| GetArtistData.ArtistSuccessCount | spotify/get_artist_data.py:174-186 | 200 iff uploaded, and then the message reports one row per artist the API returned for the requested ids |

## Left out

- HTTP calls to Spotify: the token, recently-played and artists requests. Their outcomes are parameters of the handlers.
- Telegram's `sendMessage` (spotify/utils.py:31) is assumed to succeed: a sent message is recorded as a `Notification`, and a request that times out or answers with a body that is not JSON is not modelled. In the source such a failure raises out of `send_response` and out of `table_exists`'s alert, so the invocation crashes.
- TrackHandlers.HandlerCrashes: the crash characterisation holds only when every Telegram request succeeds; a failed request in `send_response` or in the table alert of the current handler would also crash it.
- GetArtistData.ArtistCrashes: the crash characterisation holds only when every Telegram request succeeds; a failed request in `send_response` or in the table alert would also crash the artist job.
- BigQuery calls are parameters: client construction, `get_table`, `create_table`, the two queries and `pandas_gbq.to_gbq`. The SQL text and the table identifiers are not modelled; only the choice between the two queries and their limit of 50 are.
- `pd.json_normalize` is modelled over the fixed item and artist datatypes. Only the leaves the projections read are modelled, not every key the API sends.
- The internals of `pd.to_numeric` and `pd.to_datetime`, and `str()` of a timestamp, are not modelled. Each is a function-valued parameter (`Lib`).
- Coercion.CoerceCell: FLOAT is treated like INTEGER, without floating-point values, because no schema column is FLOAT.
- TrackHandlers.ValidationNeverFails: `Lib.toNumeric` can only give an integer or nothing, so the model has no non-integral number. In the source `.astype("Int64")` raises on one inside the validation `try` (spotify/get_track_data.py:232-234), which would answer 500 "Failed to apply data validation.". The lemma holds partly because of that typing.
- Environment and runtime: `dotenv`, `os.getenv`, `datetime.now` (a parameter `now`), `print`, the `tracks.json` dump, and `main()` in spotify/getSpotifyData.py are not modelled.
- The artist job's upload schema (spotify/get_artist_data.py:159-171) is only passed to `to_gbq`. It is not modelled.
- JSON shapes the API does not send are not modelled, for example an artists value that is already an object. The current loop keeps such an item unchanged; re-running it on such an item would raise in Python.
- The body text of a request that raises, and `str(e)` of an exception, are opaque strings in `Call.Raises` and `Services.failureText`.

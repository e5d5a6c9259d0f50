/** The warehouse schema of the recently-played-tracks table (spotify/schema.py). */
module Schema {

  /** The BigQuery column types the pipeline knows how to coerce to. */
  datatype FieldType = Integer | Float | String | Timestamp | Boolean

  datatype Field = Field(name: string, ftype: FieldType)

  /** The names of the fields, in order. */
  function Names(fields: seq<Field>): (names: seq<string>)
    ensures |names| == |fields|
    ensures forall i :: 0 <= i < |fields| ==> names[i] == fields[i].name
  {
    seq(|fields|, i requires 0 <= i < |fields| => fields[i].name)
  }

  predicate Distinct(names: seq<string>)
  {
    forall i, j :: 0 <= i < j < |names| ==> names[i] != names[j]
  }

  /** `return_schema()`: the fixed, ordered (name, type) list of the track table.
      It has 22 entries; `played_at` and the final `queried_at` are
      timestamps; `track_explicit` is the one boolean column; nothing is FLOAT. */
  function TrackSchema(): (s: seq<Field>)
    ensures |s| == 22
    ensures s[6] == Field("played_at", Timestamp)
    ensures s[21] == Field("queried_at", Timestamp)
    ensures forall i :: 0 <= i < |s| ==> (s[i].ftype == Boolean <==> s[i].name == "track_explicit")
    ensures forall i :: 0 <= i < |s| ==> s[i].ftype != Float
  {
    [ Field("track_name", String),
      Field("track_explicit", Boolean),
      Field("track_popularity", Integer),
      Field("track_id", String),
      Field("track_track_number", Integer),
      Field("track_type", String),
      Field("played_at", Timestamp),
      Field("context_type", String),
      Field("context_external_urls_spotify", String),
      Field("track_artists_id", String),
      Field("track_artists_name", String),
      Field("track_artists_type", String),
      Field("track_album_album_type", String),
      Field("track_album_id", String),
      Field("track_album_images_url", String),
      Field("track_album_images_height", Integer),
      Field("track_album_name", String),
      Field("track_album_release_date", String),
      Field("track_album_release_date_precision", String),
      Field("track_album_total_tracks", Integer),
      Field("track_duration_ms", Integer),
      Field("queried_at", Timestamp) ]
  }

  /** The column names of the track table, in schema order. */
  const TrackColumns: seq<string> := [
    "track_name", "track_explicit", "track_popularity", "track_id", "track_track_number",
    "track_type", "played_at", "context_type", "context_external_urls_spotify", "track_artists_id",
    "track_artists_name", "track_artists_type", "track_album_album_type", "track_album_id",
    "track_album_images_url", "track_album_images_height", "track_album_name",
    "track_album_release_date", "track_album_release_date_precision", "track_album_total_tracks",
    "track_duration_ms", "queried_at" ]

  lemma TrackSchemaNames()
    ensures Names(TrackSchema()) == TrackColumns
  {
  }

  /** Names are told apart by their length and their third-last character. */
  function Tag(name: string): int
  {
    if |name| < 3 then |name| else |name| * 128 + name[|name| - 3] as int
  }

  function Tags(names: seq<string>): (t: seq<int>)
    ensures |t| == |names|
    ensures forall i :: 0 <= i < |names| ==> t[i] == Tag(names[i])
  {
    seq(|names|, i requires 0 <= i < |names| => Tag(names[i]))
  }

  /** Names whose tags differ are different names. */
  lemma DistinctTagsDistinctNames(names: seq<string>)
    requires Distinct'(Tags(names))
    ensures Distinct(names)
  {
  }

  predicate Distinct'(t: seq<int>)
  {
    forall i, j :: 0 <= i < j < |t| ==> t[i] != t[j]
  }

  const TrackTags: seq<int> := [1377, 1891, 2153, 1119, 2402, 1401, 1247, 1657, 3817, 2143, 2401, 2425, 2937, 1887, 2933, 3303, 2145, 3169, 4457, 3171, 2271, 1375]

  lemma TrackColumnTags()
    ensures Tags(TrackColumns) == TrackTags
  {
  }

  lemma TrackTagsDistinct()
    ensures Distinct'(TrackTags)
  {
  }

  /** `queried_at` is the last column, after 21 columns of other names. */
  lemma QueriedAtLast()
    ensures Names(TrackSchema()) == TrackColumns[..21] + ["queried_at"]
    ensures "queried_at" !in TrackColumns[..21]
  {
    TrackSchemaNames();
    TrackSchemaDistinct();
    assert TrackColumns == TrackColumns[..21] + [TrackColumns[21]];
  }

  /** The 22 column names of the track table are pairwise distinct. */
  lemma TrackSchemaDistinct()
    ensures Distinct(Names(TrackSchema()))
  {
    TrackSchemaNames();
    TrackColumnTags();
    TrackTagsDistinct();
    DistinctTagsDistinctNames(TrackColumns);
  }
}

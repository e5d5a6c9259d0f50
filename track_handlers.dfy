/**
  The two track handlers, `track_data_handler` (spotify/get_track_data.py)
  and `trackData_handler` (spotify/getSpotifyTrackData.py), over the outcomes
  of the calls they make: set up the BigQuery client, find the watermark
  (creating the table when it is absent), refresh the token, fetch the
  recently-played items, transform, coerce, keep the plays after the
  watermark, upload, and answer.
*/
module TrackHandlers {
  import opened Wrappers
  import opened Text
  import opened Schema
  import opened Frames
  import opened Coercion
  import opened Dedup
  import opened Clock
  import opened Utils
  import opened TrackItems
  import opened GetTrackData
  import opened LegacyTrackData

  /** Which of the two handlers: the current one with the shared helpers of
      spotify/utils.py, or the legacy one with its module's own. */
  datatype Variant = Current | Legacy

  /** How each outside call of one invocation ends. `latest` is the result of
      `SELECT MAX(played_at)`: None when the table holds no play, so the
      cell is NULL. `fetch` gets the token and the `after` cursor, and gives
      the JSON body's `items`, or None when the body has no such key.
      `failureText` is `str(e)` of an exception the transform raises. */
  datatype Services = Services(
    client: Call<()>,
    lookup: TableLookup,
    latest: Call<Option<int>>,
    create: Call<()>,
    token: Call<string>,
    fetch: (string, string) -> Call<Option<seq<Item>>>,
    upload: Frame -> Call<()>,
    lib: Lib,
    failureText: Failure -> string)

  /** What one invocation did: how it ended, the Telegram messages it sent
      in order, the `after` cursor it asked the API with (if it got that
      far), whether it created the table, and the frame it uploaded (if the
      upload succeeded). */
  datatype Run = Run(ending: Ending, messages: seq<Notification>, cursor: Option<string>,
                     created: bool, uploaded: Option<Frame>)

  const ClientFailed := "Failed to set up BigQuery client"
  const TokenFailed := "Failed to refresh access token."
  const FetchFailed := "Failed to retrieve the data from the API."
  const TransformFailed := "Failed to transform the data."
  const ValidationFailed := "Failed to apply data validation."
  const UploadFailed := "Failed to upload the data to BigQuery."

  /** The cursor sent when the table does not exist yet. */
  const EpochCursor := "0000000001"

  /** The variant's `send_response`: the response, and the messages it sends. */
  function Respond(v: Variant, statusCode: int, message: string, e: Detail): (r: (Response, seq<Notification>))
    ensures r.0 == SendResponse(statusCode, message, e).response
    ensures v == Current ==> r.1 == [SendResponse(statusCode, message, e).notification]
    ensures v == Legacy ==> r.1 == []
  {
    match v
    case Current =>
      var sent := SendResponse(statusCode, message, e);
      (sent.response, [sent.notification])
    case Legacy =>
      LegacyResponseIsShared(statusCode, message, e);
      (LegacySendResponse(statusCode, message, e), [])
  }

  /** The variant's `table_exists`: whether the table is there, and the alert sent. */
  function Exists(v: Variant, lookup: TableLookup, tableId: string): (r: (bool, seq<Notification>))
    ensures r.0 <==> lookup == Found
    ensures v == Legacy || !lookup.Failed? ==> r.1 == []
    ensures v == Current && lookup.Failed? ==> r.1 == [Notification(Alerting, TableAlertText(tableId, lookup.shown))]
  {
    match v
    case Current =>
      var (found, alert) := TableExists(lookup, tableId);
      (found, if alert.Some? then [alert.value] else [])
    case Legacy => (LegacyTableExists(lookup), [])
  }

  /** The watermark the handler filters with and the cursor it fetches from. */
  datatype Mark = Mark(watermark: int, cursor: string, created: bool)

  /** The unguarded table step: the latest play when the table exists (a
      query that raises, or a NULL maximum whose `.timestamp()` raises, ends
      the invocation), else the epoch after creating the table (a creation
      that raises ends it too). None when the invocation crashed here. */
  function Watermark(found: bool, s: Services): Option<Mark>
  {
    if found then
      match s.latest
      case Returns(Some(w)) => Some(Mark(w, IntText(UnixSeconds(w)), false))
      case _ => None
    else
      match s.create
      case Returns(_) => Some(Mark(0, EpochCursor, true))
      case Raises(_) => None
  }

  /** The variant's transform applied to the fetched body; a body without
      `items` raises KeyError. A frame it builds has the schema's columns. */
  function TransformFor(v: Variant, data: Option<seq<Item>>, now: int): (r: Result<Frame, Failure>)
    ensures r.Ok? ==> r.value.columns == Names(TrackSchema()) && WellFormed(r.value)
    ensures data.None? ==> r == Err(KeyError(["items"]))
  {
    match data
    case None => Err(KeyError(["items"]))
    case Some(items) =>
      match v
      case Current =>
        var r := Transform(items, now);
        if r.Ok? then
          TransformColumns(items, now);
          TransformRows(items, now);
          r
        else r
      case Legacy =>
        var r := LegacyTransform(items, now);
        if r.Ok? then
          LegacyTransformColumns(items, now);
          r
        else r
  }

  /** The answer of the guarded stages after the watermark: status, message,
      error detail, whether the API was asked, and the frame uploaded. */
  datatype Reply = Reply(statusCode: int, message: string, e: Detail, fetched: bool, uploaded: Option<Frame>)

  /** `"you have listened to {n} songs since {last_queried_from}"`. */
  function SuccessMessage(n: nat, watermark: int, lib: Lib): string
  {
    "you have listened to " + IntText(n) + " songs since " + lib.timeText(watermark)
  }

  /** The played_at column of a frame with the schema's columns is column 6. */
  lemma PlayedAtColumn()
    ensures "played_at" in Names(TrackSchema()) && IndexOf(Names(TrackSchema()), "played_at") == 6
  {
    TrackSchemaDistinct();
    assert Names(TrackSchema())[6] == "played_at";
  }

  /** The dedup filter and the guarded upload of the validated frame: the
      rows played after the watermark go up, and the answer is 200 with
      their number, or 500 when the upload raises. */
  function Upload(s: Services, valid: Frame, mark: Mark): (r: Reply)
    requires valid.columns == Names(TrackSchema())
    ensures "played_at" in valid.columns
    ensures r.statusCode == 200 <==> r.uploaded.Some?
    ensures r.uploaded.Some? <==> s.upload(DedupFrame(valid, mark.watermark)).Returns?
    ensures r.uploaded.Some? ==>
              && r.uploaded.value == DedupFrame(valid, mark.watermark)
              && r.statusCode == 200 && r.e == Plain("")
              && r.message == SuccessMessage(|r.uploaded.value.rows|, mark.watermark, s.lib)
              && forall row :: row in r.uploaded.value.rows ==> PlayedAfter(row, 6, mark.watermark)
    ensures r.uploaded.None? ==> r.statusCode == 500 && r.message == UploadFailed
  {
    PlayedAtColumn();
    var kept := DedupFrame(valid, mark.watermark);
    match s.upload(kept)
    case Raises(m) => Reply(500, UploadFailed, Exception(m), true, None)
    case Returns(_) => Reply(200, SuccessMessage(|kept.rows|, mark.watermark, s.lib), Plain(""), true, Some(kept))
  }

  /** The frame the stages hand to the dedup filter: the fetched items,
      transformed and validated, when the token request, the API request
      and the transform all succeed (validation itself never fails). */
  function ValidatedFetch(v: Variant, s: Services, now: int, cursor: string): (r: Option<Frame>)
    ensures r.Some? <==> && s.token.Returns? && s.fetch(s.token.value, cursor).Returns?
                         && TransformFor(v, s.fetch(s.token.value, cursor).value, now).Ok?
    ensures r.Some? ==> && r.value.columns == Names(TrackSchema()) && WellFormed(r.value)
                        && "played_at" in r.value.columns
  {
    if s.token.Raises? then None
    else
      match s.fetch(s.token.value, cursor)
      case Raises(_) => None
      case Returns(data) =>
        match TransformFor(v, data, now)
        case Err(_) => None
        case Ok(frame) =>
          TransformedValidates(v, data, now, s.lib);
          PlayedAtColumn();
          Some(Validate(frame, TrackSchema(), s.lib).value)
  }

  /** The stages from the token to the upload, each guarded by its own
      `try`, the first failure answering 500 with that stage's message. Only
      a run where every stage succeeded answers 200: it uploads the fetched,
      validated frame filtered at the watermark, and reports how many rows
      that left. The validation stage never answers (TransformedValidates). */
  function Stages(v: Variant, s: Services, now: int, mark: Mark): (r: Reply)
    ensures r.statusCode == 200 || r.statusCode == 500
    ensures r.statusCode == 200 <==> r.uploaded.Some?
    ensures r.fetched ==> s.token.Returns?
    ensures r.uploaded.Some? <==>
              && ValidatedFetch(v, s, now, mark.cursor).Some?
              && s.upload(DedupFrame(ValidatedFetch(v, s, now, mark.cursor).value, mark.watermark)).Returns?
    ensures r.uploaded.Some? ==>
              && r.uploaded.value == DedupFrame(ValidatedFetch(v, s, now, mark.cursor).value, mark.watermark)
              && r.message == SuccessMessage(|r.uploaded.value.rows|, mark.watermark, s.lib) && r.e == Plain("")
              && r.uploaded.value.columns == Names(TrackSchema())
              && forall row :: row in r.uploaded.value.rows ==> PlayedAfter(row, 6, mark.watermark)
    ensures r.uploaded.None? ==> r.message in {TokenFailed, FetchFailed, TransformFailed, UploadFailed}
  {
    match s.token
    case Raises(m) => Reply(500, TokenFailed, Exception(m), false, None)
    case Returns(token) =>
      match s.fetch(token, mark.cursor)
      case Raises(m) => Reply(500, FetchFailed, Exception(m), true, None)
      case Returns(data) =>
        match TransformFor(v, data, now)
        case Err(e) => Reply(500, TransformFailed, Exception(s.failureText(e)), true, None)
        case Ok(frame) =>
          var valid := ValidatedFetch(v, s, now, mark.cursor);
          assert valid.Some?;
          Upload(s, valid.value, mark)
  }

  /** One invocation of the handler at instant `now` for table `tableId`. */
  function TrackHandler(v: Variant, s: Services, now: int, tableId: string): Run
  {
    if s.client.Raises? then
      var (response, sent) := Respond(v, 500, ClientFailed, Exception(s.client.shown));
      Run(Returned(response), sent, None, false, None)
    else
      var (found, alerts) := Exists(v, s.lookup, tableId);
      match Watermark(found, s)
      case None => Run(Crashed, alerts, None, false, None)
      case Some(mark) =>
        var reply := Stages(v, s, now, mark);
        var (response, sent) := Respond(v, reply.statusCode, reply.message, reply.e);
        Run(Returned(response), alerts + sent, if reply.fetched then Some(mark.cursor) else None,
            mark.created, reply.uploaded)
  }

  /** The watermark the handler ends up with when it gets past the table
      step: the latest stored play, or the epoch for a new table. */
  function WatermarkOf(s: Services): int
  {
    if s.lookup == Found && s.latest.Returns? && s.latest.value.Some? then s.latest.value.value else 0
  }

  /** Exactly the unguarded steps crash an invocation: with a client, a table
      that exists but whose maximum cannot be read or is NULL, or a table
      that is absent and cannot be created. Telegram requests are taken to
      succeed; one that raised would crash the current handler too. */
  lemma HandlerCrashes(v: Variant, s: Services, now: int, tableId: string)
    ensures TrackHandler(v, s, now, tableId).ending == Crashed <==>
              && s.client.Returns?
              && (if s.lookup == Found then !(s.latest.Returns? && s.latest.value.Some?) else s.create.Raises?)
  {
  }

  /** Every answer is 200 or 500; the handlers never answer 202. */
  lemma HandlerStatuses(v: Variant, s: Services, now: int, tableId: string)
    ensures var r := TrackHandler(v, s, now, tableId);
            r.ending.Returned? ==> r.ending.response.statusCode in {200, 500}
  {
  }

  /** The table is created exactly when the client is set up and the
      lookup does not find the table (for any reason) and creation succeeds. */
  lemma CreatedIffAbsent(v: Variant, s: Services, now: int, tableId: string)
    ensures TrackHandler(v, s, now, tableId).created <==>
              s.client.Returns? && s.lookup != Found && s.create.Returns?
  {
  }

  /** The API is asked from the latest stored play's second, or from the
      fixed epoch cursor when the table was absent. */
  lemma CursorFromWatermark(v: Variant, s: Services, now: int, tableId: string)
    ensures var r := TrackHandler(v, s, now, tableId);
            r.cursor.Some? ==>
              && s.client.Returns? && s.token.Returns?
              && r.cursor.value == (if s.lookup == Found then IntText(UnixSeconds(WatermarkOf(s))) else EpochCursor)
  {
  }

  /** Only plays strictly after the watermark are uploaded: every uploaded row
      has a `played_at` instant later than the table's latest play, or than
      the epoch for a new table. */
  lemma UploadedAfterWatermark(v: Variant, s: Services, now: int, tableId: string)
    ensures var r := TrackHandler(v, s, now, tableId);
            r.uploaded.Some? ==>
              && r.uploaded.value.columns == Names(TrackSchema())
              && forall row :: row in r.uploaded.value.rows ==> PlayedAfter(row, 6, WatermarkOf(s))
  {
    UploadedByStages(v, s, now, tableId);
  }

  /** Exactly the new plays go up. A run uploads precisely when the client,
      the table step, the token, the request, the transform and the upload
      all succeed, and it uploads the validated frame of the fetched items
      filtered at the watermark: every row played after the watermark, as
      often as it occurs, in order, and no other row. */
  lemma NewPlaysUploaded(v: Variant, s: Services, now: int, tableId: string)
    ensures var r := TrackHandler(v, s, now, tableId);
            var mark := Watermark(s.lookup == Found, s);
            r.uploaded.Some? <==>
              && s.client.Returns? && mark.Some?
              && ValidatedFetch(v, s, now, mark.value.cursor).Some?
              && s.upload(DedupFrame(ValidatedFetch(v, s, now, mark.value.cursor).value, WatermarkOf(s))).Returns?
    ensures var r := TrackHandler(v, s, now, tableId);
            var mark := Watermark(s.lookup == Found, s);
            r.uploaded.Some? ==>
              && mark.Some? && ValidatedFetch(v, s, now, mark.value.cursor).Some?
              && var valid := ValidatedFetch(v, s, now, mark.value.cursor).value;
                 && r.uploaded.value == DedupFrame(valid, WatermarkOf(s))
                 && forall row :: multiset(r.uploaded.value.rows)[row] ==
                                    if PlayedAfter(row, 6, WatermarkOf(s)) then multiset(valid.rows)[row] else 0
  {
    UploadedByStages(v, s, now, tableId);
    var r := TrackHandler(v, s, now, tableId);
    var mark := Watermark(s.lookup == Found, s);
    if r.uploaded.Some? {
      var valid := ValidatedFetch(v, s, now, mark.value.cursor).value;
      PlayedAtColumn();
      KeepNewerCounts(valid.rows, 6, WatermarkOf(s));
    }
  }

  /** What an invocation uploads is what its stages upload, once the
      client and the table step got it that far. */
  lemma UploadedByStages(v: Variant, s: Services, now: int, tableId: string)
    ensures var mark := Watermark(s.lookup == Found, s);
            && (mark.Some? ==> mark.value.watermark == WatermarkOf(s))
            && TrackHandler(v, s, now, tableId).uploaded ==
                 if s.client.Returns? && mark.Some? then Stages(v, s, now, mark.value).uploaded else None
  {
    if s.client.Returns? {
      var (found, alerts) := Exists(v, s.lookup, tableId);
      assert found == (s.lookup == Found);
    }
  }

  /** A frame the transform built always passes validation: every schema
      column is there, and coercion turns bad values into missing markers
      instead of raising. */
  lemma TransformedValidates(v: Variant, data: Option<seq<Item>>, now: int, lib: Lib)
    requires TransformFor(v, data, now).Ok?
    ensures Validate(TransformFor(v, data, now).value, TrackSchema(), lib).Ok?
  {
    var f := TransformFor(v, data, now).value;
    CoerceAllFails(f, TrackSchema(), lib);
    assert forall i :: 0 <= i < |TrackSchema()| ==> TrackSchema()[i].name in f.columns by {
      forall i | 0 <= i < |TrackSchema()| ensures TrackSchema()[i].name in f.columns {
        assert Names(TrackSchema())[i] == TrackSchema()[i].name;
      }
    }
  }

  /** Hence the validation stage never answers: no response starts with its message. */
  lemma ValidationNeverFails(v: Variant, s: Services, now: int, tableId: string)
    ensures var r := TrackHandler(v, s, now, tableId);
            r.ending.Returned? ==> !(ValidationFailed <= r.ending.response.message)
  {
    if s.client.Raises? {
      StageMessagesDiffer(ClientFailed, Exception(s.client.shown), 0, s.lib);
    } else {
      var (found, alerts) := Exists(v, s.lookup, tableId);
      var mark := Watermark(found, s);
      if mark.Some? {
        var reply := Stages(v, s, now, mark.value);
        assert TrackHandler(v, s, now, tableId).ending
            == Returned(Respond(v, reply.statusCode, reply.message, reply.e).0);
        StageMessagesDiffer(reply.message, reply.e, mark.value.watermark, s.lib);
      }
    }
  }

  /** The messages of the other answers do not start with the validation message. */
  lemma StageMessagesDiffer(message: string, e: Detail, w: int, lib: Lib)
    requires message in {ClientFailed, TokenFailed, FetchFailed, TransformFailed, UploadFailed}
             || exists n: nat :: message == SuccessMessage(n, w, lib)
    ensures !(ValidationFailed <= Compose(message, e))
  {
    var text := Compose(message, e);
    assert text[..|message|] == message;
    if message in {ClientFailed, TokenFailed, FetchFailed, TransformFailed, UploadFailed} {
      assert message[10] != ValidationFailed[10];
    } else {
      assert message[0] != ValidationFailed[0];
    }
  }

  /** A 200 answer reports how many rows were uploaded and since when, and
      comes exactly from runs where every stage succeeded. */
  lemma SuccessReportsCount(v: Variant, s: Services, now: int, tableId: string)
    ensures var r := TrackHandler(v, s, now, tableId);
            r.ending.Returned? && r.ending.response.statusCode == 200 <==> r.uploaded.Some?
    ensures var r := TrackHandler(v, s, now, tableId);
            r.uploaded.Some? ==>
              r.ending == Returned(Response(200, SuccessMessage(|r.uploaded.value.rows|, WatermarkOf(s), s.lib)))
  {
    if s.client.Returns? {
      var (found, alerts) := Exists(v, s.lookup, tableId);
      var mark := Watermark(found, s);
      if mark.Some? {
        assert mark.value.watermark == WatermarkOf(s);
        var reply := Stages(v, s, now, mark.value);
        assert TrackHandler(v, s, now, tableId).ending
            == Returned(Respond(v, reply.statusCode, reply.message, reply.e).0);
        assert TrackHandler(v, s, now, tableId).uploaded == reply.uploaded;
      }
    }
  }

  /** The current handler's last message is its answer, sent to the alerting
      chat exactly when it is a failure; before it there is at most the
      table-check alert. The legacy handler sends nothing. */
  lemma MessagesMirrorAnswer(v: Variant, s: Services, now: int, tableId: string)
    ensures var r := TrackHandler(v, s, now, tableId);
            v == Legacy ==> r.messages == []
    ensures var r := TrackHandler(v, s, now, tableId);
            v == Current && r.ending.Returned? ==>
              && |r.messages| >= 1
              && r.messages[|r.messages| - 1].text == r.ending.response.message
              && (r.messages[|r.messages| - 1].channel == Alerting <==> r.ending.response.statusCode != 200)
              && |r.messages| <= 2
  {
  }
}

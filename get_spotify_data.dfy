/**
  spotify/getSpotifyData.py, the camelCase variant of the track transform:
  `renameColumns`, `transformSpotifyTrackData` (the unguarded first-artist
  and first-image loop, flattening with `.`, the allow-list, the camelCase
  rename and `queriedAt`), and the `after` cursor of
  `getRecentlyPlayedTracks`.
*/
module GetSpotifyData {
  import opened Wrappers
  import opened Text
  import opened Schema
  import opened Frames
  import opened Clock
  import opened TrackItems
  import opened GetTrackData
  import opened LegacyTrackData

  /** The pieces `renameColumns` works on: the name split on `.`, each piece
      split on `_`, flattened. There is always at least one. */
  function Segments(col: string): (segs: seq<string>)
    ensures |segs| >= 1
  {
    SplitTwice(col, '.', '_');
    SplitAll(SplitOn(col, {'.'}), {'_'})
  }

  /** `renameColumns(col)`: the first piece lower-cased, then every later
      piece capitalised, all glued together. */
  function RenameColumn(col: string): string
  {
    var segs := Segments(col);
    Lower(segs[0]) + ConcatCapitalized(segs[1..])
  }

  /** Splitting on `.` and then on `_` is splitting on both at once. */
  lemma SegmentsSplitOnBoth(col: string)
    ensures Segments(col) == SplitOn(col, {'.', '_'})
  {
    SplitTwice(col, '.', '_');
  }

  /** A text with neither `.` nor `_`. */
  predicate Unseparated(s: string)
  {
    forall i :: 0 <= i < |s| ==> s[i] != '.' && s[i] != '_'
  }

  lemma LowerUnseparated(s: string)
    requires Unseparated(s)
    ensures |Lower(s)| == |s| && Unseparated(Lower(s))
  {
  }

  lemma CapitalizeUnseparated(s: string)
    requires Unseparated(s)
    ensures |Capitalize(s)| == |s| && Unseparated(Capitalize(s))
  {
    if s != [] {
      LowerUnseparated(s[1..]);
    }
  }

  /** Capitalising and gluing pieces without separators gives a text without
      separators, as long as the pieces together. */
  lemma {:induction false} ConcatUnseparated(words: seq<string>)
    requires forall i :: 0 <= i < |words| ==> Unseparated(words[i])
    ensures |ConcatCapitalized(words)| == TotalLength(words)
    ensures Unseparated(ConcatCapitalized(words))
    decreases |words|
  {
    if words != [] {
      CapitalizeUnseparated(words[0]);
      ConcatUnseparated(words[1..]);
    }
  }

  /** The pieces of a split hold no separator. */
  lemma PiecesUnseparated(col: string)
    ensures forall i :: 0 <= i < |Segments(col)| ==> Unseparated(Segments(col)[i])
  {
    SegmentsSplitOnBoth(col);
    var segs := Segments(col);
    forall i, k | 0 <= i < |segs| && 0 <= k < |segs[i]| ensures segs[i][k] != '.' && segs[i][k] != '_' {
      assert segs[i][k] in segs[i];
    }
  }

  /** The new name has no `.` and no `_`, and is shorter than the old one by
      exactly the number of `.` and `_` characters it had. */
  lemma RenameColumnShape(col: string)
    ensures Unseparated(RenameColumn(col))
    ensures |RenameColumn(col)| == |col| - Count(col, {'.', '_'})
  {
    var segs := Segments(col);
    PiecesUnseparated(col);
    LowerUnseparated(segs[0]);
    assert forall i :: 0 <= i < |segs[1..]| ==> Unseparated(segs[1..][i]) by {
      forall i | 0 <= i < |segs[1..]| ensures Unseparated(segs[1..][i]) {
        assert segs[1..][i] == segs[i + 1];
      }
    }
    ConcatUnseparated(segs[1..]);
    SegmentsSplitOnBoth(col);
    SplitSizes(col, {'.', '_'});
    assert TotalLength(segs) == |segs[0]| + TotalLength(segs[1..]);
  }

  /** A name without `.` is split on `_` only. */
  lemma SegmentsWithoutDots(col: string)
    requires forall x :: x in col ==> x != '.'
    ensures Segments(col) == SplitOn(col, {'_'})
  {
    SplitPrefix(col, "", {'.'});
    assert col + "" == col;
    assert SplitOn(col, {'.'}) == [col];
    SplitAllCons([col], {'_'});
    assert [col][1..] == [];
  }

  /** A snake_case name: the first word lower-cased, every later word capitalised. */
  lemma RenameSnakeCase(words: seq<string>)
    requires |words| >= 1
    requires forall i :: 0 <= i < |words| ==> Unseparated(words[i])
    ensures RenameColumn(Join(words, '_')) == Lower(words[0]) + ConcatCapitalized(words[1..])
  {
    forall i | 0 <= i < |words| ensures '_' !in words[i] {
      NoUnderscore(words[i]);
    }
    SplitJoin(words, '_');
    JoinNoDot(words);
    SegmentsWithoutDots(Join(words, '_'));
  }

  lemma NoUnderscore(w: string)
    requires Unseparated(w)
    ensures '_' !in w
  {
    assert forall k :: 0 <= k < |w| ==> w[k] != '_';
  }

  /** Gluing words without `.` with `_` gives a text without `.`. */
  lemma {:induction false} JoinNoDot(words: seq<string>)
    requires forall i :: 0 <= i < |words| ==> Unseparated(words[i])
    ensures forall x :: x in Join(words, '_') ==> x != '.'
    decreases |words|
  {
    if |words| > 1 {
      JoinNoDot(words[1..]);
      assert Join(words, '_') == words[0] + ['_'] + Join(words[1..], '_');
    }
  }

  /** Lower-casing a text without capitals changes nothing. */
  lemma LowerOfLower(s: string)
    requires forall i :: 0 <= i < |s| ==> !('A' <= s[i] <= 'Z')
    ensures Lower(s) == s
  {
  }

  /** A two-word snake_case name of lower-case words. */
  lemma RenameTwoWords(first: string, second: string)
    requires second != [] && 'a' <= second[0] <= 'z'
    requires forall i :: 0 <= i < |first| ==> 'a' <= first[i] <= 'z'
    requires forall i :: 1 <= i < |second| ==> 'a' <= second[i] <= 'z'
    ensures RenameColumn(first + "_" + second) == first + [UpperChar(second[0])] + second[1..]
  {
    var words := [first, second];
    assert Join(words, '_') == first + "_" + second;
    RenameSnakeCase(words);
    LowerOfLower(first);
    LowerOfLower(second[1..]);
    assert words[1..] == [second];
    assert ConcatCapitalized([second]) == Capitalize(second) + ConcatCapitalized([]);
  }

  /** `queried_at` becomes `queriedAt`. */
  lemma RenameQueriedAt(col: string)
    requires col == "queried_at"
    ensures RenameColumn(col) == "queriedAt"
  {
    var first, second := "queried", "at";
    assert col == first + "_" + second;
    RenameTwoWords(first, second);
  }

  /** Splitting on both separators does not see which of the two separated
      the pieces. */
  lemma {:induction false} SplitIgnoresDots(s: string)
    ensures SplitOn(Underscored(s), {'.', '_'}) == SplitOn(s, {'.', '_'})
    decreases |s|
  {
    if s != [] {
      var u := Underscored(s);
      SplitIgnoresDots(s[1..]);
      assert u[1..] == Underscored(s[1..]);
      assert u[0] in {'.', '_'} <==> s[0] in {'.', '_'};
    }
  }

  /** The camelCase rename gives the same name whether or not the `.`s were
      first turned into `_` as the legacy variant does. */
  lemma RenameIgnoresDots(col: string)
    ensures RenameColumn(Underscored(col)) == RenameColumn(col)
  {
    SegmentsSplitOnBoth(col);
    SegmentsSplitOnBoth(Underscored(col));
    SplitIgnoresDots(col);
  }

  /** The first character of the new name is the old one's, lower-cased. */
  lemma RenameFirst(col: string)
    requires col != [] && col[0] != '.' && col[0] != '_'
    ensures RenameColumn(col) != [] && RenameColumn(col)[0] == LowerChar(col[0])
  {
    SegmentsSplitOnBoth(col);
    SplitCons(col, {'.', '_'});
  }

  /** The camelCase transform: the unguarded loop (whose exception ends the
      transform), `json_normalize` with `.`, the allow-list, the camelCase
      rename and `queriedAt`. */
  function CamelTransform(items: seq<Item>, now: int): Result<Frame, Failure>
  {
    match LegacyNormalised(items)
    case (_, Some(f)) => Err(f)
    case (normal, None) =>
      match Select(FlattenAll(normal, '.'), KeptColumns('.'))
      case Err(e) => Err(e)
      case Ok(f) => Ok(WithColumn(Rename(f, RenameColumn), "queriedAt", Time(now)))
  }

  /** `transformSpotifyTrackData(data, currentDatetime)`: the items are
      rewritten in place by the same loop as the legacy variant's, then the
      frame is built from them. */
  method CamelTransformTrackData(items: array<Item>, now: int) returns (r: Result<Frame, Failure>)
    modifies items
    ensures items[..] == LegacyNormalised(old(items[..])).0
    ensures r == CamelTransform(old(items[..]), now)
  {
    var failure := LegacyNormaliseItems(items);
    if failure.Some? {
      return Err(failure.value);
    }
    var selected := Select(FlattenAll(items[..], '.'), KeptColumns('.'));
    if selected.Err? {
      return Err(selected.error);
    }
    r := Ok(WithColumn(Rename(selected.value, RenameColumn), "queriedAt", Time(now)));
  }

  /** The first characters of the kept columns: none of them is `q`. */
  lemma KeptColumnsStart()
    ensures forall j :: 0 <= j < 21 ==> DotKeys[j] != [] && DotKeys[j][0] in {'t', 'p', 'c'}
  {
  }

  /** The camelCase frame is the legacy frame with its columns renamed to
      camelCase: the same failures, the same rows, and column j named
      `renameColumns` of the legacy column j, `queriedAt` last. */
  lemma CamelIsRenamedLegacy(items: seq<Item>, now: int)
    ensures CamelTransform(items, now).Ok? <==> LegacyTransform(items, now).Ok?
    ensures CamelTransform(items, now).Err? ==> CamelTransform(items, now) == LegacyTransform(items, now)
    ensures CamelTransform(items, now).Ok? ==>
              CamelTransform(items, now).value == Rename(LegacyTransform(items, now).value, RenameColumn)
  {
    var (normal, failure) := LegacyNormalised(items);
    if failure.None? && Select(FlattenAll(normal, '.'), KeptColumns('.')).Ok? {
      var s := Select(FlattenAll(normal, '.'), KeptColumns('.')).value;
      LegacyTransformColumns(items, now);
      CamelColumns(s, now);
    }
  }

  /** No kept column becomes `queriedAt`. */
  lemma CamelKeptColumns(s: Frame)
    requires s.columns == KeptColumns('.')
    ensures "queriedAt" !in Rename(s, RenameColumn).columns
  {
    var camel := Rename(s, RenameColumn);
    KeptColumnsStart();
    KeptColumnsArePrefix('.');
    forall j | 0 <= j < 21 ensures camel.columns[j] != "queriedAt" {
      RenameFirst(s.columns[j]);
    }
  }

  /** The two renames of one selected frame, stamped, differ only in their
      column names, and those correspond under `renameColumns`. */
  lemma CamelColumns(s: Frame, now: int)
    requires s.columns == KeptColumns('.') && WellFormed(s)
    requires "queried_at" !in Rename(s, Underscored).columns
    ensures WithColumn(Rename(s, RenameColumn), "queriedAt", Time(now))
            == Rename(WithColumn(Rename(s, Underscored), "queried_at", Time(now)), RenameColumn)
  {
    var camel := Rename(s, RenameColumn);
    var legacy := Rename(s, Underscored);
    CamelKeptColumns(s);
    var a := WithColumn(camel, "queriedAt", Time(now));
    var stamped := WithColumn(legacy, "queried_at", Time(now));
    var b := Rename(stamped, RenameColumn);
    assert a.columns == camel.columns + ["queriedAt"];
    assert stamped.columns == legacy.columns + ["queried_at"];
    RenameQueriedAt("queried_at");
    forall j | 0 <= j < 22 ensures a.columns[j] == b.columns[j] {
      if j < 21 {
        RenameIgnoresDots(s.columns[j]);
      }
    }
    assert a.rows == stamped.rows;
  }

  /** On items from the API the camelCase transform accepts exactly what the
      legacy one does: at least one item, every item with an artist and an
      album image, and some item with a context. */
  lemma CamelTransformSucceeds(items: seq<Item>, now: int)
    requires forall i :: 0 <= i < |items| ==> FromApi(items[i])
    ensures CamelTransform(items, now).Ok? <==>
              && |items| > 0
              && (forall i :: 0 <= i < |items| ==> HasArtist(items[i]) && HasImage(items[i]))
              && (exists i :: 0 <= i < |items| && items[i].context.ApiContext?)
  {
    CamelIsRenamedLegacy(items, now);
    LegacyTransformSucceeds(items, now);
  }

  /** The camelCase columns are `renameColumns` of the schema's names, in
      schema order. */
  lemma CamelColumnsFromSchema(items: seq<Item>, now: int)
    requires CamelTransform(items, now).Ok?
    ensures var f := CamelTransform(items, now).value;
            |f.columns| == 22 && forall j :: 0 <= j < 22 ==> f.columns[j] == RenameColumn(Names(TrackSchema())[j])
  {
    CamelIsRenamedLegacy(items, now);
    LegacyTransformColumns(items, now);
  }

  /** `int((currentDatetime - timedelta(hours=2)).timestamp())`: the cursor
      two hours before `now`. */
  function AfterCursor(now: int): int
  {
    UnixSeconds(now - 2 * 3600 * Second)
  }

  /** Once `now` is two hours past the epoch, the cursor is exactly 7200
      seconds before `now`'s own second, and it never decreases as `now`
      grows. */
  lemma AfterCursorTwoHoursBack(now: int, later: int)
    requires now <= later
    ensures now >= 7200 * Second ==> AfterCursor(now) == UnixSeconds(now) - 7200
    ensures AfterCursor(now) <= AfterCursor(later)
  {
    UnixSecondsMonotonic(now - 2 * 3600 * Second, later - 2 * 3600 * Second);
    if now >= 7200 * Second {
      var c := AfterCursor(now);
      var s := UnixSeconds(now);
      assert c * Second <= now - 7200 * Second < (c + 1) * Second;
      assert s * Second <= now < (s + 1) * Second;
      assert (c + 7200) * Second <= now < (c + 7201) * Second;
      assert c + 7200 <= s && s < c + 7201;
    }
  }
}

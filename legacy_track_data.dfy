/**
  spotify/getSpotifyTrackData.py, the legacy variant of the track job: a
  normalising loop that takes the first artist and the first image without
  checking that there is one, flattening with pandas' default `.` separator,
  the `.` -> `_` rename, and the module's own `send_response` and
  `table_exists`.
*/
module LegacyTrackData {
  import opened Wrappers
  import opened Text
  import opened Schema
  import opened Frames
  import opened Utils
  import opened TrackItems
  import opened GetTrackData

  /** The two assignments of the loop body for one item, in order: the item
      as it is left, and what the first failing subscript raised. `[0]` on an
      empty list raises IndexError; on an object that is no longer a list it
      looks up the key `0` and raises KeyError. When the images fail, the
      artists have already been replaced. */
  function LegacyStep(item: Item): (r: (Item, Option<Failure>))
    ensures r.1.None? <==> HasArtist(item) && HasImage(item)
    ensures r.1.None? ==> r.0 == item.(track := item.track.(artists := OneArtist(item.track.artists.list[0]),
                                                  album := item.track.album.(images := OneImage(item.track.album.images.list[0]))))
    ensures r.1.Some? && !HasArtist(item) ==> r.0 == item
    ensures r.0.playedAt == item.playedAt && r.0.context == item.context
  {
    var t := item.track;
    match t.artists
    case OneArtist(_) => (item, Some(KeyError(["0"])))
    case ArtistList(artists) =>
      if artists == [] then (item, Some(IndexError))
      else
        var t1 := t.(artists := OneArtist(artists[0]));
        var item1 := item.(track := t1);
        match t.album.images
        case OneImage(_) => (item1, Some(KeyError(["0"])))
        case ImageList(images) =>
          if images == [] then (item1, Some(IndexError))
          else (item1.(track := t1.(album := t1.album.(images := OneImage(images[0])))), None)
  }

  /** The items after the loop, and the exception that ended it early, if
      any: the items before the failing one are rewritten, the failing one
      is left as its step left it, and the rest are untouched. */
  function LegacyNormalised(items: seq<Item>): (r: (seq<Item>, Option<Failure>))
    ensures |r.0| == |items|
  {
    if items == [] then ([], None)
    else
      var (first, failure) := LegacyStep(items[0]);
      if failure.Some? then ([first] + items[1..], failure)
      else
        var (rest, later) := LegacyNormalised(items[1..]);
        ([first] + rest, later)
  }

  /** `for index, item in enumerate(data["items"])` with the unguarded `[0]`:
      rewrites the items in place until one of them raises. */
  method LegacyNormaliseItems(items: array<Item>) returns (failure: Option<Failure>)
    modifies items
    ensures (items[..], failure) == LegacyNormalised(old(items[..]))
  {
    var index := 0;
    while index < items.Length
      invariant 0 <= index <= items.Length
      invariant forall i :: 0 <= i < index ==> LegacyStep(old(items[i])).1.None?
      invariant forall i :: 0 <= i < index ==> items[i] == LegacyStep(old(items[i])).0
      invariant forall i :: index <= i < items.Length ==> items[i] == old(items[i])
    {
      var step := LegacyStep(items[index]);
      items[index] := step.0;
      if step.1.Some? {
        LegacyFailsAt(old(items[..]), items[..], index);
        return step.1;
      }
      index := index + 1;
    }
    LegacySucceedsUpTo(old(items[..]), items[..]);
    failure := None;
  }

  /** When the loop reaches item k with every earlier item rewritten and item k
      raises, that is the outcome of the whole loop. */
  lemma {:induction false} LegacyFailsAt(items: seq<Item>, after: seq<Item>, k: nat)
    requires k < |items| == |after|
    requires forall i :: 0 <= i < k ==> LegacyStep(items[i]).1.None? && after[i] == LegacyStep(items[i]).0
    requires LegacyStep(items[k]).1.Some? && after[k] == LegacyStep(items[k]).0
    requires forall i :: k < i < |items| ==> after[i] == items[i]
    ensures LegacyNormalised(items) == (after, LegacyStep(items[k]).1)
    decreases k
  {
    if k > 0 {
      LegacyFailsAt(items[1..], after[1..], k - 1);
    } else {
      assert after[1..] == items[1..];
    }
    assert after == [after[0]] + after[1..];
  }

  /** When every item's step succeeds, the loop rewrites every item. */
  lemma {:induction false} LegacySucceedsUpTo(items: seq<Item>, after: seq<Item>)
    requires |after| == |items|
    requires forall i :: 0 <= i < |items| ==> LegacyStep(items[i]).1.None? && after[i] == LegacyStep(items[i]).0
    ensures LegacyNormalised(items) == (after, None)
    decreases |items|
  {
    if items != [] {
      LegacySucceedsUpTo(items[1..], after[1..]);
      assert after == [after[0]] + after[1..];
    }
  }

  /** The loop fails exactly when some item has no artist or no image; on
      success every item has its first artist and its first image and the
      rest of the item is as it was. */
  lemma {:induction false} LegacyNormalisedOutcome(items: seq<Item>)
    ensures LegacyNormalised(items).1.Some? <==> exists i :: 0 <= i < |items| && !(HasArtist(items[i]) && HasImage(items[i]))
    ensures LegacyNormalised(items).1.None? ==>
              forall i :: 0 <= i < |items| ==> LegacyNormalised(items).0[i] == LegacyStep(items[i]).0
    decreases |items|
  {
    if items != [] {
      LegacyNormalisedOutcome(items[1..]);
      var r := LegacyNormalised(items);
      if LegacyStep(items[0]).1.None? {
        forall i | 0 < i < |items| ensures items[i] == items[1..][i - 1] { }
        if exists i :: 0 <= i < |items| && !(HasArtist(items[i]) && HasImage(items[i])) {
          var i :| 0 <= i < |items| && !(HasArtist(items[i]) && HasImage(items[i]));
          assert i > 0 && items[1..][i - 1] == items[i];
        }
      }
    }
  }

  /** When the first-artist and first-image subscripts succeed on every item
      and no context is null, the legacy loop leaves the items exactly as the
      current variant's guarded loop does. */
  lemma LegacyMatchesCurrent(items: seq<Item>)
    requires forall i :: 0 <= i < |items| ==> HasArtist(items[i]) && HasImage(items[i]) && items[i].context != NoContext
    ensures LegacyNormalised(items) == (NormalisedItems(items), None)
  {
    LegacySucceedsUpTo(items, NormalisedItems(items));
  }

  /** `col.replace(".", "_")` for every projected column. */
  function Underscored(c: string): (r: string)
    ensures |r| == |c| && '.' !in r
    ensures forall i :: 0 <= i < |c| ==> r[i] == (if c[i] == '.' then '_' else c[i])
  {
    Replace(c, '.', '_')
  }

  /** Renaming the dotted allow-list gives exactly the first 21 schema names, in order. */
  lemma DotColumnsRenamed()
    ensures forall j :: 0 <= j < 21 ==> Underscored(KeptColumns('.')[j]) == TrackColumns[j]
  {
    KeptColumnsArePrefix('.');
    DotKeysRenamed0();
    DotKeysRenamed1();
    DotKeysRenamed2();
    DotKeysRenamed3();
    DotKeysRenamed4();
    DotKeysRenamed5();
    DotKeysRenamed6();
  }

  /** Renaming a dotted name whose other characters are those of `u` gives `u`. */
  lemma SameButDots(d: string, u: string)
    requires |d| == |u|
    requires forall i :: 0 <= i < |d| ==> u[i] == if d[i] == '.' then '_' else d[i]
    ensures Underscored(d) == u
  {
  }

  /** The dotted keys renamed, three at a time. */
  lemma DotKeysRenamed0()
    ensures forall j :: 0 <= j < 3 ==> Underscored(DotKeys[j]) == TrackColumns[j]
  {
    SameButDots(DotKeys[0], TrackColumns[0]);
    SameButDots(DotKeys[1], TrackColumns[1]);
    SameButDots(DotKeys[2], TrackColumns[2]);
  }

  lemma DotKeysRenamed1()
    ensures forall j :: 3 <= j < 6 ==> Underscored(DotKeys[j]) == TrackColumns[j]
  {
    SameButDots(DotKeys[3], TrackColumns[3]);
    SameButDots(DotKeys[4], TrackColumns[4]);
    SameButDots(DotKeys[5], TrackColumns[5]);
  }

  lemma DotKeysRenamed2()
    ensures forall j :: 6 <= j < 9 ==> Underscored(DotKeys[j]) == TrackColumns[j]
  {
    SameButDots(DotKeys[6], TrackColumns[6]);
    SameButDots(DotKeys[7], TrackColumns[7]);
    SameButDots(DotKeys[8], TrackColumns[8]);
  }

  lemma DotKeysRenamed3()
    ensures forall j :: 9 <= j < 12 ==> Underscored(DotKeys[j]) == TrackColumns[j]
  {
    SameButDots(DotKeys[9], TrackColumns[9]);
    SameButDots(DotKeys[10], TrackColumns[10]);
    SameButDots(DotKeys[11], TrackColumns[11]);
  }

  lemma DotKeysRenamed4()
    ensures forall j :: 12 <= j < 15 ==> Underscored(DotKeys[j]) == TrackColumns[j]
  {
    SameButDots(DotKeys[12], TrackColumns[12]);
    SameButDots(DotKeys[13], TrackColumns[13]);
    SameButDots(DotKeys[14], TrackColumns[14]);
  }

  lemma DotKeysRenamed5()
    ensures forall j :: 15 <= j < 18 ==> Underscored(DotKeys[j]) == TrackColumns[j]
  {
    SameButDots(DotKeys[15], TrackColumns[15]);
    SameButDots(DotKeys[16], TrackColumns[16]);
    SameButDots(DotKeys[17], TrackColumns[17]);
  }

  lemma DotKeysRenamed6()
    ensures forall j :: 18 <= j < 21 ==> Underscored(DotKeys[j]) == TrackColumns[j]
  {
    SameButDots(DotKeys[18], TrackColumns[18]);
    SameButDots(DotKeys[19], TrackColumns[19]);
    SameButDots(DotKeys[20], TrackColumns[20]);
  }

  /** The legacy `transform_spotify_track_data`: the loop (whose exception
      ends the transform), `json_normalize` with `.`, the allow-list, the
      rename and `queried_at`. */
  function LegacyTransform(items: seq<Item>, now: int): Result<Frame, Failure>
  {
    match LegacyNormalised(items)
    case (_, Some(f)) => Err(f)
    case (normal, None) =>
      match Select(FlattenAll(normal, '.'), KeptColumns('.'))
      case Err(e) => Err(e)
      case Ok(f) => Ok(WithColumn(Rename(f, Underscored), "queried_at", Time(now)))
  }

  /** The legacy transform as the handler runs it: the items are rewritten in
      place, then the frame is built from them. */
  method LegacyTransformTrackData(items: array<Item>, now: int) returns (r: Result<Frame, Failure>)
    modifies items
    ensures items[..] == LegacyNormalised(old(items[..])).0
    ensures r == LegacyTransform(old(items[..]), now)
  {
    var failure := LegacyNormaliseItems(items);
    if failure.Some? {
      return Err(failure.value);
    }
    var selected := Select(FlattenAll(items[..], '.'), KeptColumns('.'));
    if selected.Err? {
      return Err(selected.error);
    }
    r := Ok(WithColumn(Rename(selected.value, Underscored), "queried_at", Time(now)));
  }

  /** Items from the API, each rewritten by a step that did not raise,
      supply the artist, the image and the fixed fields whenever there is an
      item, and a context object exactly where the API sent one. */
  lemma StepsSupplied(items: seq<Item>, normal: seq<Item>)
    requires |normal| == |items|
    requires forall i :: 0 <= i < |items| ==> FromApi(items[i]) && HasArtist(items[i]) && HasImage(items[i])
    requires forall i :: 0 <= i < |items| ==> normal[i] == LegacyStep(items[i]).0
    ensures && (Supplied(normal, Fixed) <==> |items| > 0)
            && (Supplied(normal, InArtist) <==> |items| > 0)
            && (Supplied(normal, InImage) <==> |items| > 0)
            && (Supplied(normal, InContext) <==> exists i :: 0 <= i < |items| && items[i].context.ApiContext?)
            && (Supplied(normal, InApiContext) <==> exists i :: 0 <= i < |items| && items[i].context.ApiContext?)
  {
    forall i | 0 <= i < |items|
      ensures Provides(normal[i], Fixed) && Provides(normal[i], InArtist) && Provides(normal[i], InImage)
      ensures Provides(normal[i], InContext) <==> items[i].context.ApiContext?
      ensures Provides(normal[i], InApiContext) <==> items[i].context.ApiContext?
    {
      assert normal[i].context == items[i].context;
    }
    if |items| > 0 {
      assert Provides(normal[0], Fixed) && Provides(normal[0], InArtist) && Provides(normal[0], InImage);
    }
  }

  /** On items from the API, the legacy transform accepts exactly the inputs
      with at least one item, where every item has an artist and an album
      image, and some item a context. */
  lemma LegacyTransformSucceeds(items: seq<Item>, now: int)
    requires forall i :: 0 <= i < |items| ==> FromApi(items[i])
    ensures LegacyTransform(items, now).Ok? <==>
              && |items| > 0
              && (forall i :: 0 <= i < |items| ==> HasArtist(items[i]) && HasImage(items[i]))
              && (exists i :: 0 <= i < |items| && items[i].context.ApiContext?)
  {
    LegacyNormalisedOutcome(items);
    var (normal, failure) := LegacyNormalised(items);
    if failure.None? {
      StepsSupplied(items, normal);
      SelectKeptSupplied(normal, '.');
    }
  }

  /** Where no item lacks an artist or an image and no context is null, the
      two variants fail together, and when they succeed they build the same
      frame: the dotted columns renamed are the underscored ones, and the
      cells are the same. */
  lemma LegacyAgreesWithCurrent(items: seq<Item>, now: int)
    requires forall i :: 0 <= i < |items| ==> HasArtist(items[i]) && HasImage(items[i]) && items[i].context != NoContext
    ensures LegacyTransform(items, now).Ok? <==> Transform(items, now).Ok?
    ensures Transform(items, now).Ok? ==> LegacyTransform(items, now) == Transform(items, now)
  {
    LegacyMatchesCurrent(items);
    var normal := NormalisedItems(items);
    SelectKeptSupplied(normal, '.');
    SelectKeptSupplied(normal, '_');
    if Select(FlattenAll(normal, '_'), KeptColumns('_')).Ok? {
      SameSelection(normal, '.', '_');
    }
  }

  /** The dotted selection, renamed, is the underscored selection. */
  lemma SameSelection(normal: seq<Item>, dot: char, underscore: char)
    requires dot == '.' && underscore == '_'
    requires Select(FlattenAll(normal, dot), KeptColumns(dot)).Ok?
    requires Select(FlattenAll(normal, underscore), KeptColumns(underscore)).Ok?
    ensures Rename(Select(FlattenAll(normal, dot), KeptColumns(dot)).value, Underscored)
            == Select(FlattenAll(normal, underscore), KeptColumns(underscore)).value
  {
    SelectionsAgree(normal, dot, underscore);
    RenamedDotted(Select(FlattenAll(normal, dot), KeptColumns(dot)).value,
                  Select(FlattenAll(normal, underscore), KeptColumns(underscore)).value);
  }

  /** The two selections have the same shape and the same cells. */
  lemma SelectionsAgree(normal: seq<Item>, dot: char, underscore: char)
    requires dot == '.' && underscore == '_'
    requires Select(FlattenAll(normal, dot), KeptColumns(dot)).Ok?
    requires Select(FlattenAll(normal, underscore), KeptColumns(underscore)).Ok?
    ensures var d := Select(FlattenAll(normal, dot), KeptColumns(dot)).value;
            var p := Select(FlattenAll(normal, underscore), KeptColumns(underscore)).value;
            && d.columns == KeptColumns(dot) && p.columns == KeptColumns(underscore)
            && WellFormed(d) && WellFormed(p) && |d.rows| == |p.rows|
            && forall i, j :: 0 <= i < |d.rows| && 0 <= j < 21 ==> d.rows[i][j] == p.rows[i][j]
  {
    var d := Select(FlattenAll(normal, dot), KeptColumns(dot)).value;
    var p := Select(FlattenAll(normal, underscore), KeptColumns(underscore)).value;
    forall i, j | 0 <= i < |d.rows| && 0 <= j < 21 ensures d.rows[i][j] == p.rows[i][j] {
      SelectedCell(normal, dot, i, j);
      SelectedCell(normal, underscore, i, j);
    }
  }

  /** One cell of a selection over the kept columns. */
  lemma SelectedCell(normal: seq<Item>, sep: char, i: nat, j: nat)
    requires Separator(sep)
    requires Select(FlattenAll(normal, sep), KeptColumns(sep)).Ok?
    requires i < |normal| && j < 21
    ensures var f := Select(FlattenAll(normal, sep), KeptColumns(sep)).value;
            i < |f.rows| && j < |f.rows[i]| && f.rows[i][j] == Cell(normal[i], KeptLeaves[j])
  {
    var records := FlattenAll(normal, sep);
    assert Lookup(records[i], KeptColumns(sep)[j]) == Cell(normal[i], KeptLeaves[j]);
  }

  /** A frame over the dotted allow-list, renamed, is the frame over the
      underscored allow-list with the same cells. */
  lemma RenamedDotted(d: Frame, p: Frame)
    requires d.columns == KeptColumns('.') && p.columns == KeptColumns('_')
    requires WellFormed(d) && WellFormed(p) && |d.rows| == |p.rows|
    requires forall i, j :: 0 <= i < |d.rows| && 0 <= j < 21 ==> d.rows[i][j] == p.rows[i][j]
    ensures Rename(d, Underscored) == p
  {
    DotColumnsRenamed();
    KeptColumnsAreSchema();
    var g := Rename(d, Underscored);
    assert g.columns == p.columns;
    forall i | 0 <= i < |d.rows| ensures d.rows[i] == p.rows[i] {
    }
    assert g.rows == p.rows;
  }

  /** The renamed frame has the schema's 22 columns, in schema order, and
      one row per item. */
  lemma LegacyTransformColumns(items: seq<Item>, now: int)
    requires LegacyTransform(items, now).Ok?
    ensures var f := LegacyTransform(items, now).value;
            f.columns == Names(TrackSchema()) && WellFormed(f) && |f.rows| == |items|
  {
    var normal := LegacyNormalised(items).0;
    var s := Select(FlattenAll(normal, '.'), KeptColumns('.')).value;
    var g := Rename(s, Underscored);
    assert g.columns == TrackColumns[..21] by {
      DotColumnsRenamed();
    }
    QueriedAtLast();
  }

  /** The module's own `send_response`: the same message as the shared one,
      and no message to Telegram. */
  function LegacySendResponse(statusCode: int, message: string, e: Detail): (r: Response)
    ensures r.statusCode == statusCode
    ensures e == Plain("") ==> r.message == message
    ensures e != Plain("") ==> r.message == message + "\n" + Shown(e)
  {
    var sep := if e == Plain("") then "" else "\n";
    Response(statusCode, message + sep + Shown(e))
  }

  /** The legacy response is the response the shared helper returns. */
  lemma LegacyResponseIsShared(statusCode: int, message: string, e: Detail)
    ensures LegacySendResponse(statusCode, message, e) == SendResponse(statusCode, message, e).response
  {
  }

  /** The module's own `table_exists`: any exception counts as a missing
      table, and nothing is sent. */
  function LegacyTableExists(outcome: TableLookup): (found: bool)
    ensures found <==> outcome == Found
  {
    match outcome
    case Found => true
    case _ => false
  }
}

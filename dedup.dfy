/**
  Watermark deduplication: `df[df["played_at"] > watermark]`, the only thing
  that keeps a run from loading plays an earlier run already stored.
*/
module Dedup {
  import opened Wrappers
  import opened Frames

  /** `played_at > watermark` for one row, with `played_at` in column `k`:
      an instant strictly after the watermark. A missing instant (NaT)
      compares false. */
  predicate PlayedAfter(row: seq<Value>, k: nat, w: int)
  {
    k < |row| && row[k].Time? && row[k].t > w
  }

  /** The boolean-mask selection: the rows played after the watermark, in order. */
  function KeepNewer(rows: seq<seq<Value>>, k: nat, w: int): (kept: seq<seq<Value>>)
    ensures |kept| <= |rows|
    ensures forall r :: r in kept ==> PlayedAfter(r, k, w)
  {
    if rows == [] then []
    else
      (if PlayedAfter(rows[0], k, w) then [rows[0]] else []) + KeepNewer(rows[1..], k, w)
  }

  /** The filter keeps every row played after the watermark, as often as it
      occurs, and no other row. */
  lemma {:induction false} KeepNewerCounts(rows: seq<seq<Value>>, k: nat, w: int)
    ensures forall r :: multiset(KeepNewer(rows, k, w))[r] == if PlayedAfter(r, k, w) then multiset(rows)[r] else 0
    decreases |rows|
  {
    if rows != [] {
      KeepNewerCounts(rows[1..], k, w);
      assert rows == [rows[0]] + rows[1..];
    }
  }

  /** The filter applied to a frame; its `played_at` column must exist. */
  function DedupFrame(f: Frame, w: int): (g: Frame)
    requires "played_at" in f.columns
  {
    Frame(f.columns, KeepNewer(f.rows, IndexOf(f.columns, "played_at"), w))
  }

  /** Filtering a concatenation filters each part: the relative order of the
      kept rows is the order of the input. */
  lemma {:induction false} KeepNewerAppend(a: seq<seq<Value>>, b: seq<seq<Value>>, k: nat, w: int)
    ensures KeepNewer(a + b, k, w) == KeepNewer(a, k, w) + KeepNewer(b, k, w)
    decreases |a|
  {
    if a != [] {
      var head := if PlayedAfter(a[0], k, w) then [a[0]] else [];
      assert (a + b)[0] == a[0] && (a + b)[1..] == a[1..] + b;
      KeepNewerAppend(a[1..], b, k, w);
      assert head + (KeepNewer(a[1..], k, w) + KeepNewer(b, k, w))
          == (head + KeepNewer(a[1..], k, w)) + KeepNewer(b, k, w);
    } else {
      assert a + b == b;
    }
  }

  /** Filtering with a watermark and then with a later one is filtering with
      the later one; with the same watermark twice, the filter is idempotent. */
  lemma {:induction false} KeepNewerRaise(rows: seq<seq<Value>>, k: nat, w1: int, w2: int)
    requires w1 <= w2
    ensures KeepNewer(KeepNewer(rows, k, w1), k, w2) == KeepNewer(rows, k, w2)
    decreases |rows|
  {
    if rows != [] {
      KeepNewerRaise(rows[1..], k, w1, w2);
      var head := if PlayedAfter(rows[0], k, w1) then [rows[0]] else [];
      KeepNewerAppend(head, KeepNewer(rows[1..], k, w1), k, w2);
      if PlayedAfter(rows[0], k, w1) {
        assert KeepNewer(head, k, w2) == (if PlayedAfter(rows[0], k, w2) then [rows[0]] else []) + KeepNewer([], k, w2);
      }
    }
  }

  /** No row strictly after the watermark: nothing is kept. */
  lemma {:induction false} NothingNewer(rows: seq<seq<Value>>, k: nat, w: int)
    requires forall r :: r in rows ==> !PlayedAfter(r, k, w)
    ensures KeepNewer(rows, k, w) == []
    decreases |rows|
  {
    if rows != [] {
      assert rows[0] in rows;
      NothingNewer(rows[1..], k, w);
    }
  }

  /** Every row strictly after the watermark (every row, with the epoch as the
      watermark, when all plays are later than it): all are kept. */
  lemma {:induction false} AllNewer(rows: seq<seq<Value>>, k: nat, w: int)
    requires forall r :: r in rows ==> PlayedAfter(r, k, w)
    ensures KeepNewer(rows, k, w) == rows
    decreases |rows|
  {
    if rows != [] {
      assert rows[0] in rows;
      AllNewer(rows[1..], k, w);
      assert rows == [rows[0]] + rows[1..];
    }
  }

  /** `MAX(played_at)` over some rows: None when no row has an instant. */
  function Latest(rows: seq<seq<Value>>, k: nat): (m: Option<int>)
    ensures m.None? <==> forall r: seq<Value> :: r in rows ==> !(k < |r| && r[k].Time?)
    ensures m.Some? ==> forall r: seq<Value> :: r in rows && k < |r| && r[k].Time? ==> r[k].t <= m.value
    ensures m.Some? ==> exists r: seq<Value> :: r in rows && k < |r| && r[k] == Time(m.value)
  {
    if rows == [] then None
    else
      var rest := Latest(rows[1..], k);
      assert forall r :: r in rows[1..] ==> r in rows;
      assert forall r :: r in rows ==> r == rows[0] || r in rows[1..];
      if k < |rows[0]| && rows[0][k].Time? then
        (match rest
         case None => Some(rows[0][k].t)
         case Some(x) => if x < rows[0][k].t then Some(rows[0][k].t) else rest)
      else rest
  }

  /** A rerun loads nothing it already loaded: once the table's watermark has
      moved to at least the latest play kept by a run (and not below that run's
      watermark), running the filter again over the same rows keeps none. */
  lemma RerunKeepsNothing(rows: seq<seq<Value>>, k: nat, w1: int, w2: int)
    requires w1 <= w2
    requires forall r :: r in KeepNewer(rows, k, w1) ==> !PlayedAfter(r, k, w2)
    ensures KeepNewer(rows, k, w2) == []
  {
    KeepNewerCounts(rows, k, w1);
    forall r | r in rows ensures !PlayedAfter(r, k, w2) {
      if PlayedAfter(r, k, w1) {
        assert multiset(KeepNewer(rows, k, w1))[r] > 0;
        assert r in KeepNewer(rows, k, w1);
      }
    }
    NothingNewer(rows, k, w2);
  }

  /** The watermark after a load, `MAX(played_at)` over the old rows and the
      newly appended ones, lies at or after every appended play. */
  lemma NextWatermark(kept: seq<seq<Value>>, k: nat, w1: int)
    ensures var w2 := match Latest(kept, k) case None => w1 case Some(m) => if m > w1 then m else w1;
            w1 <= w2 && forall r :: r in kept ==> !PlayedAfter(r, k, w2)
  {
  }
}

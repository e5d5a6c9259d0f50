/**
  The tabular values the pipeline builds with pandas: cells, flattened JSON
  records, and data frames with ordered columns and positional rows.
*/
module Frames {
  import opened Wrappers

  /** One cell. */
  datatype Value =
    | Null                        // Python None, JSON null
    | NaN                         // pandas' missing marker (NaN, NaT, <NA>)
    | Str(s: string)
    | Int(i: int)
    | Bool(b: bool)
    | Time(t: int)                // a UTC instant, in microseconds since 1970-01-01T00:00:00Z
    | StrList(items: seq<string>) // a JSON list of strings, kept whole as a REPEATED column

  /** One JSON object flattened by `pd.json_normalize`: joined key path -> value. */
  type Record = map<string, Value>

  /** A DataFrame: column names in order, each row holding one cell per column. */
  datatype Frame = Frame(columns: seq<string>, rows: seq<seq<Value>>)

  predicate WellFormed(f: Frame)
  {
    forall i :: 0 <= i < |f.rows| ==> |f.rows[i]| == |f.columns|
  }

  /** What the modelled code raises. */
  datatype Failure =
    | KeyError(keys: seq<string>)   // a dictionary key or DataFrame column that is not there
    | IndexError                    // `[0]` on an empty list

  /** The cell a record gives a column: missing keys read as NaN. */
  function Lookup(r: Record, key: string): Value
  {
    if key in r then r[key] else NaN
  }

  /** The columns of `keep` that no record has. */
  function Missing(records: seq<Record>, keep: seq<string>): (m: seq<string>)
    ensures forall c :: c in m <==> c in keep && forall i :: 0 <= i < |records| ==> c !in records[i]
  {
    if keep == [] then []
    else
      var rest := Missing(records, keep[1..]);
      if exists i :: 0 <= i < |records| && keep[0] in records[i] then rest else [keep[0]] + rest
  }

  /** `pd.json_normalize(...)[keep]`. The normalised frame has a column for
      every key that some record has, and a record without that key gets NaN
      in it; selecting `keep` raises KeyError unless every one of its names
      is such a column. */
  function Select(records: seq<Record>, keep: seq<string>): (r: Result<Frame, Failure>)
    ensures r.Ok? <==> forall c :: c in keep ==> exists i :: 0 <= i < |records| && c in records[i]
    ensures r.Ok? ==> r.value.columns == keep && |r.value.rows| == |records| && WellFormed(r.value)
    ensures r.Ok? ==> forall i, j :: 0 <= i < |records| && 0 <= j < |keep| ==>
                        r.value.rows[i][j] == Lookup(records[i], keep[j])
    ensures r.Err? ==> r.error.KeyError? && r.error.keys != []
  {
    var missing := Missing(records, keep);
    if missing != [] then
      assert missing[0] in missing;
      Err(KeyError(missing))
    else
      Ok(Frame(keep, seq(|records|, i requires 0 <= i < |records| =>
                       seq(|keep|, j requires 0 <= j < |keep| => Lookup(records[i], keep[j])))))
  }

  /** Position of the first column called `c`. */
  function IndexOf(columns: seq<string>, c: string): (k: nat)
    requires c in columns
    ensures k < |columns| && columns[k] == c
    ensures forall j :: 0 <= j < k ==> columns[j] != c
  {
    if columns[0] == c then 0 else 1 + IndexOf(columns[1..], c)
  }

  /** `df[name] = v` for a scalar `v`: every row gets `v` in that column,
      which is appended when the frame does not have it yet; an existing
      column is overwritten and the other columns keep their cells. */
  function WithColumn(f: Frame, name: string, v: Value): (g: Frame)
    requires WellFormed(f)
    ensures WellFormed(g) && |g.rows| == |f.rows|
    ensures name in g.columns && forall i :: 0 <= i < |g.rows| ==> g.rows[i][IndexOf(g.columns, name)] == v
    ensures name !in f.columns ==> g.columns == f.columns + [name]
    ensures name !in f.columns ==> forall i :: 0 <= i < |f.rows| ==> g.rows[i][..|f.columns|] == f.rows[i]
    ensures name !in f.columns ==> forall i :: 0 <= i < |f.rows| ==> g.rows[i] == f.rows[i] + [v]
    ensures name in f.columns ==> g.columns == f.columns
    ensures name in f.columns ==> forall i, j :: 0 <= i < |f.rows| && 0 <= j < |f.columns| && f.columns[j] != name ==>
                                   g.rows[i][j] == f.rows[i][j]
  {
    if name in f.columns then
      var k := IndexOf(f.columns, name);
      Frame(f.columns, seq(|f.rows|, i requires 0 <= i < |f.rows| => f.rows[i][k := v]))
    else
      Frame(f.columns + [name], seq(|f.rows|, i requires 0 <= i < |f.rows| => f.rows[i] + [v]))
  }

  /** `df.rename(columns={c: rename(c) for c in df.columns})`. */
  function Rename(f: Frame, rename: string -> string): (g: Frame)
    ensures |g.columns| == |f.columns| && g.rows == f.rows
    ensures forall j :: 0 <= j < |f.columns| ==> g.columns[j] == rename(f.columns[j])
  {
    Frame(seq(|f.columns|, j requires 0 <= j < |f.columns| => rename(f.columns[j])), f.rows)
  }

  function NullIfNaN(v: Value): Value
  {
    if v == NaN then Null else v
  }

  /** `df.where(pd.notnull(df), None)`: every missing marker becomes None. */
  function Nullify(f: Frame): (g: Frame)
    ensures g.columns == f.columns && |g.rows| == |f.rows|
    ensures forall i :: 0 <= i < |f.rows| ==> |g.rows[i]| == |f.rows[i]|
    ensures forall i, j :: 0 <= i < |f.rows| && 0 <= j < |f.rows[i]| ==>
              g.rows[i][j] != NaN && (f.rows[i][j] != NaN ==> g.rows[i][j] == f.rows[i][j])
    ensures forall i, j :: 0 <= i < |f.rows| && 0 <= j < |f.rows[i]| && f.rows[i][j] == NaN ==> g.rows[i][j] == Null
  {
    Frame(f.columns, seq(|f.rows|, i requires 0 <= i < |f.rows| =>
                       seq(|f.rows[i]|, j requires 0 <= j < |f.rows[i]| => NullIfNaN(f.rows[i][j]))))
  }

  /** The record whose keys are the `key`s of the candidates whose `value`
      is not the missing marker, each holding its candidate's `value`; `key`
      must tell candidates apart. A candidate left out reads as NaN. */
  function Gather<L(==,!new)>(candidates: seq<L>, key: L -> string, value: L -> Value): (r: Record)
    requires forall a, b :: key(a) == key(b) ==> a == b
    ensures forall l :: l in candidates ==> Lookup(r, key(l)) == value(l)
    ensures forall l :: l in candidates ==> (key(l) in r <==> value(l) != NaN)
    ensures forall k :: k in r ==> exists l :: l in candidates && k == key(l)
  {
    map l | l in candidates && value(l) != NaN :: key(l) := value(l)
  }
}

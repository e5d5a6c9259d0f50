/**
  Type coercion before the upload: the loop over the table schema in the
  track handlers, which reassigns each schema column with its values cast to
  the declared BigQuery type, then replaces every missing marker with None.
*/
module Coercion {
  import opened Wrappers
  import opened Text
  import opened Schema
  import opened Frames

  /** What the coercion borrows from pandas and Python without modelling it:
      `pd.to_numeric(errors="coerce")` and `pd.to_datetime(errors="coerce")`
      on one cell (None where they give NaN/NaT), and `str()` of a timestamp. */
  datatype Lib = Lib(toNumeric: Value -> Option<int>, toDatetime: Value -> Option<int>, timeText: int -> string)

  /** Missing cells parse to nothing; integers and instants parse to themselves. */
  ghost predicate Sane(lib: Lib)
  {
    && lib.toNumeric(Null) == None && lib.toNumeric(NaN) == None
    && (forall n :: lib.toNumeric(Int(n)) == Some(n))
    && lib.toDatetime(Null) == None && lib.toDatetime(NaN) == None
    && (forall t :: lib.toDatetime(Time(t)) == Some(t))
  }

  /** Python's `repr` of a list of strings, without escaping. */
  function ListText(items: seq<string>): string
  {
    if items == [] then ""
    else "'" + items[0] + "'" + (if |items| == 1 then "" else ", " + ListText(items[1..]))
  }

  /** Python's `str(x)` of a cell. */
  function Stringify(v: Value, lib: Lib): string
  {
    match v
    case Null => "None"
    case NaN => "nan"
    case Str(s) => s
    case Int(i) => IntText(i)
    case Bool(b) => if b then "True" else "False"
    case Time(t) => lib.timeText(t)
    case StrList(items) => "[" + ListText(items) + "]"
  }

  /** One cell cast to a column type. INTEGER (`.astype("Int64")`) and FLOAT
      keep what `to_numeric` parses and turn the rest into <NA>; STRING
      stringifies everything but None; TIMESTAMP keeps what `to_datetime`
      parses and turns the rest into NaT; BOOLEAN is left alone. */
  function CoerceCell(t: FieldType, v: Value, lib: Lib): (r: Value)
    ensures t == Integer || t == Float ==> (r.Int? || r == NaN) && (r == NaN <==> lib.toNumeric(v) == None)
    ensures t == Integer || t == Float ==> r.Int? ==> lib.toNumeric(v) == Some(r.i)
    ensures t == Timestamp ==> (r.Time? || r == NaN) && (r == NaN <==> lib.toDatetime(v) == None)
    ensures t == Timestamp ==> r.Time? ==> lib.toDatetime(v) == Some(r.t)
    ensures t == String ==> (r == Null <==> v == Null)
    ensures t == String && v != Null ==> r == Str(Stringify(v, lib))
    ensures t == Boolean ==> r == v
  {
    match t
    case Integer | Float =>
      (match lib.toNumeric(v) case Some(n) => Int(n) case None => NaN)
    case String =>
      if v == Null then Null else Str(Stringify(v, lib))
    case Timestamp =>
      (match lib.toDatetime(v) case Some(x) => Time(x) case None => NaN)
    case Boolean => v
  }

  /** `df[name] = <cast of df[name]>`; reading a column the frame lacks raises KeyError. */
  function CoerceColumn(f: Frame, field: Field, lib: Lib): (r: Result<Frame, Failure>)
    requires WellFormed(f)
    ensures r.Ok? <==> field.name in f.columns
    ensures r.Ok? ==> r.value.columns == f.columns && |r.value.rows| == |f.rows| && WellFormed(r.value)
  {
    if field.name !in f.columns then Err(KeyError([field.name]))
    else
      var k := IndexOf(f.columns, field.name);
      Ok(Frame(f.columns, seq(|f.rows|, i requires 0 <= i < |f.rows| =>
                           f.rows[i][k := CoerceCell(field.ftype, f.rows[i][k], lib)])))
  }

  /** The schema loop as a whole: each field in turn; the first failure ends it. */
  function CoerceAll(f: Frame, fields: seq<Field>, lib: Lib): (r: Result<Frame, Failure>)
    requires WellFormed(f)
    ensures r.Ok? ==> r.value.columns == f.columns && |r.value.rows| == |f.rows| && WellFormed(r.value)
    decreases |fields|
  {
    if fields == [] then Ok(f)
    else
      match CoerceColumn(f, fields[0], lib)
      case Err(e) => Err(e)
      case Ok(g) => CoerceAll(g, fields[1..], lib)
  }

  /** The guarded validation step: the schema loop, then `where(notnull, None)`. */
  function Validate(f: Frame, fields: seq<Field>, lib: Lib): (r: Result<Frame, Failure>)
    requires WellFormed(f)
    ensures r.Ok? ==> r.value.columns == f.columns && |r.value.rows| == |f.rows| && WellFormed(r.value)
  {
    match CoerceAll(f, fields, lib)
    case Err(e) => Err(e)
    case Ok(g) => Ok(Nullify(g))
  }

  /** The validation step as the handlers run it: a loop over the schema that
      reassigns one column per field and stops at the first exception. */
  method ValidateFrame(f: Frame, fields: seq<Field>, lib: Lib) returns (r: Result<Frame, Failure>)
    requires WellFormed(f)
    ensures r == Validate(f, fields, lib)
  {
    var current := f;
    var i := 0;
    while i < |fields|
      invariant 0 <= i <= |fields|
      invariant WellFormed(current)
      invariant CoerceAll(f, fields, lib) == CoerceAll(current, fields[i..], lib)
    {
      assert fields[i..][0] == fields[i] && fields[i..][1..] == fields[i + 1..];
      var step := CoerceColumn(current, fields[i], lib);
      if step.Err? {
        return Err(step.error);
      }
      current := step.value;
      i := i + 1;
    }
    r := Ok(Nullify(current));
  }

  /** The declared type of the first field called `name`. */
  function TypeOf(fields: seq<Field>, name: string): FieldType
    requires name in Names(fields)
  {
    if fields[0].name == name then fields[0].ftype else TypeOf(fields[1..], name)
  }

  /** The schema loop fails exactly when some schema column is missing from the frame. */
  lemma {:induction false} CoerceAllFails(f: Frame, fields: seq<Field>, lib: Lib)
    requires WellFormed(f)
    ensures CoerceAll(f, fields, lib).Err? <==> exists i :: 0 <= i < |fields| && fields[i].name !in f.columns
    decreases |fields|
  {
    if fields != [] {
      var step := CoerceColumn(f, fields[0], lib);
      if step.Ok? {
        CoerceAllFails(step.value, fields[1..], lib);
        if exists i :: 0 <= i < |fields| && fields[i].name !in f.columns {
          var i :| 0 <= i < |fields| && fields[i].name !in f.columns;
          assert i > 0 && fields[1..][i - 1] == fields[i];
        }
        forall i | 0 < i < |fields| ensures fields[i] == fields[1..][i - 1] { }
      }
    }
  }

  /** When every schema column is present and the schema names are distinct,
      each schema column is cast to its declared type and every other column
      is left as it was. */
  lemma {:induction false} CoerceAllCells(f: Frame, fields: seq<Field>, lib: Lib)
    requires WellFormed(f) && Distinct(f.columns) && Distinct(Names(fields))
    requires forall i :: 0 <= i < |fields| ==> fields[i].name in f.columns
    ensures CoerceAll(f, fields, lib).Ok?
    ensures forall i, j :: 0 <= i < |f.rows| && 0 <= j < |f.columns| ==>
              CoerceAll(f, fields, lib).value.rows[i][j] ==
                (if f.columns[j] in Names(fields) then CoerceCell(TypeOf(fields, f.columns[j]), f.rows[i][j], lib)
                 else f.rows[i][j])
    decreases |fields|
  {
    CoerceAllFails(f, fields, lib);
    if fields != [] {
      var g := CoerceColumn(f, fields[0], lib).value;
      var k := IndexOf(f.columns, fields[0].name);
      var rest := fields[1..];
      assert Names(rest) == Names(fields)[1..];
      assert Distinct(Names(rest));
      CoerceAllCells(g, rest, lib);
      forall i, j | 0 <= i < |f.rows| && 0 <= j < |f.columns|
        ensures CoerceAll(f, fields, lib).value.rows[i][j] ==
                (if f.columns[j] in Names(fields) then CoerceCell(TypeOf(fields, f.columns[j]), f.rows[i][j], lib)
                 else f.rows[i][j])
      {
        var c := f.columns[j];
        assert Names(fields) == [fields[0].name] + Names(rest);
        if j == k {
          assert c == fields[0].name;
          forall m | 0 <= m < |rest| ensures Names(rest)[m] != c {
            assert Names(fields)[m + 1] == Names(rest)[m];
          }
        } else {
          assert c != fields[0].name;
          assert g.rows[i][j] == f.rows[i][j];
        }
      }
    }
  }

  /** After validation a schema column holds only values of its type or None:
      INTEGER integers, TIMESTAMP instants, STRING strings; a BOOLEAN cell is
      the one it was, except that a missing marker is now None. */
  lemma ValidatedCell(t: FieldType, v: Value, lib: Lib)
    ensures var r := NullIfNaN(CoerceCell(t, v, lib));
            && (t == Integer ==> r.Int? || r == Null)
            && (t == Timestamp ==> r.Time? || r == Null)
            && (t == String ==> r.Str? || r == Null)
            && (t == Boolean ==> r == NullIfNaN(v))
  {
  }

  /** STRING coercion is `str(x)`: a string stays as it was, an integer
      becomes its decimal text (which reads back as it), a missing marker
      becomes the text "nan", and only None stays None. */
  lemma StringCoercion(v: Value, lib: Lib)
    ensures v.Str? ==> CoerceCell(String, v, lib) == v
    ensures v.Int? ==> CoerceCell(String, v, lib) == Str(IntText(v.i))
    ensures v.Int? && v.i >= 0 ==>
              IsDigits(CoerceCell(String, v, lib).s) && DigitsValue(CoerceCell(String, v, lib).s) == v.i
    ensures CoerceCell(String, NaN, lib) == Str("nan")
    ensures CoerceCell(String, Null, lib) == Null
  {
    if v.Int? && v.i >= 0 {
      NatTextValue(v.i);
    }
  }

  /** Under the usual parsers, missing and None cells of a typed column stay
      None and well-typed cells keep their value. */
  lemma SaneCoercion(t: FieldType, v: Value, lib: Lib)
    requires Sane(lib)
    ensures (v == Null || v == NaN) && t != Boolean && t != String ==> NullIfNaN(CoerceCell(t, v, lib)) == Null
    ensures v.Int? && (t == Integer || t == Float) ==> CoerceCell(t, v, lib) == v
    ensures v.Time? && t == Timestamp ==> CoerceCell(t, v, lib) == v
  {
  }
}

/**
 * Turning fetched database rows into the column-to-value records the query
 * tools return (the nested loop of `query_sql_server` in both servers).
 * A record is a Python dict: insertion-ordered, and assigning to a key it
 * already holds keeps that key's place and replaces its value.
 */
module Rows {
  import opened Wrappers

  /**
   * A value the database driver hands back. `Other` stands for every other
   * driver type (decimal, date, bytes, ...), carried with the text `str()`
   * gives it.
   */
  datatype SqlValue =
    | Null
    | Int(i: int)
    | Float(f: real)
    | Str(s: string)
    | Bool(b: bool)
    | Other(text: string)

  /** A value as it goes into the JSON answer. */
  datatype JsonValue = JNull | JInt(i: int) | JFloat(f: real) | JStr(s: string) | JBool(b: bool)

  /** The JSON values read back as the driver values they came from. */
  function Embed(j: JsonValue): SqlValue {
    match j
    case JNull => Null
    case JInt(i) => Int(i)
    case JFloat(f) => Float(f)
    case JStr(s) => Str(s)
    case JBool(b) => Bool(b)
  }

  /**
   * `None` and int, float, str and bool values pass through unchanged; any
   * other value is replaced by its text.
   */
  function Normalize(v: SqlValue): (j: JsonValue)
    ensures !v.Other? ==> Embed(j) == v
    ensures v.Other? ==> j == JStr(v.text)
  {
    match v
    case Null => JNull
    case Int(i) => JInt(i)
    case Float(f) => JFloat(f)
    case Str(s) => JStr(s)
    case Bool(b) => JBool(b)
    case Other(t) => JStr(t)
  }

  /** A dict from column name to value, in insertion order. */
  type Record = seq<(string, JsonValue)>

  predicate UniqueKeys(r: Record) {
    forall i, j :: 0 <= i < j < |r| ==> r[i].0 != r[j].0
  }

  /** `r.get(k)` */
  function Get(r: Record, k: string): (v: Option<JsonValue>)
    ensures v.None? <==> k !in Keys(r)
  {
    if |r| == 0 then None
    else if r[0].0 == k then assert Keys(r)[0] == k; Some(r[0].1)
    else
      assert Keys(r) == [r[0].0] + Keys(r[1..]);
      Get(r[1..], k)
  }

  /** `r[k] = v`: an existing key keeps its place, a new key goes last. */
  function Put(r: Record, k: string, v: JsonValue): (r': Record)
    ensures Get(r', k) == Some(v)
    ensures k in Keys(r) ==> Keys(r') == Keys(r)
    ensures k !in Keys(r) ==> r' == r + [(k, v)]
  {
    if |r| == 0 then [(k, v)]
    else if r[0].0 == k then
      assert Keys(r)[0] == k;
      assert Keys([(k, v)] + r[1..]) == Keys(r);
      [(k, v)] + r[1..]
    else
      assert Keys(r) == [r[0].0] + Keys(r[1..]);
      var rest := Put(r[1..], k, v);
      assert Keys([r[0]] + rest) == [r[0].0] + Keys(rest);
      assert [r[0]] + r[1..] == r;
      [r[0]] + rest
  }

  /** `Put` leaves every other key's value as it was. */
  lemma {:induction false} PutKeepsOthers(r: Record, k: string, v: JsonValue, k': string)
    requires k' != k
    ensures Get(Put(r, k, v), k') == Get(r, k')
    decreases |r|
  {
    if |r| > 0 && r[0].0 != k {
      PutKeepsOthers(r[1..], k, v, k');
    }
  }

  /** Keys that were unique stay unique through `Put`. */
  lemma PutKeepsUnique(r: Record, k: string, v: JsonValue)
    requires UniqueKeys(r)
    ensures UniqueKeys(Put(r, k, v))
  {
    var r' := Put(r, k, v);
    if k in Keys(r) {
      forall i, j | 0 <= i < j < |r'|
        ensures r'[i].0 != r'[j].0
      {
        assert r'[i].0 == Keys(r')[i] == Keys(r)[i] == r[i].0;
        assert r'[j].0 == Keys(r')[j] == Keys(r)[j] == r[j].0;
      }
    } else {
      forall i, j | 0 <= i < j < |r'|
        ensures r'[i].0 != r'[j].0
      {
        if j == |r| {
          assert r[i].0 == Keys(r)[i];
        }
      }
    }
  }

  /** The record one row makes: its values assigned to their columns in order. */
  function RecordOf(columns: seq<string>, row: seq<SqlValue>): Record
    requires |row| <= |columns|
  {
    if |row| == 0 then []
    else Put(RecordOf(columns, row[..|row| - 1]), columns[|row| - 1], Normalize(row[|row| - 1]))
  }

  /** Every row has a column for each of its values. */
  predicate RowsFit(columns: seq<string>, rows: seq<seq<SqlValue>>) {
    forall n :: 0 <= n < |rows| ==> |rows[n]| <= |columns|
  }

  /** What `columns[i]` raises past the last column. */
  const IndexOutOfRange := IndexError("list index out of range")

  /** The records of the rows, one per row, in order. */
  function Records(columns: seq<string>, rows: seq<seq<SqlValue>>): (rs: seq<Record>)
    requires RowsFit(columns, rows)
    ensures |rs| == |rows|
  {
    if |rows| == 0 then []
    else Records(columns, rows[..|rows| - 1]) + [RecordOf(columns, rows[|rows| - 1])]
  }

  /** The `n`th record is the `n`th row's. */
  lemma {:induction false} RecordsAt(columns: seq<string>, rows: seq<seq<SqlValue>>, n: int)
    requires RowsFit(columns, rows) && 0 <= n < |rows|
    ensures |Records(columns, rows)| == |rows|
    ensures Records(columns, rows)[n] == RecordOf(columns, rows[n])
    decreases |rows|
  {
    var last := |rows| - 1;
    var prefix := rows[..last];
    assert RowsFit(columns, prefix) by {
      forall m | 0 <= m < |prefix|
        ensures |prefix[m]| <= |columns|
      {
        assert prefix[m] == rows[m];
      }
    }
    if n < last {
      RecordsAt(columns, prefix, n);
    } else if last > 0 {
      RecordsAt(columns, prefix, 0);
    }
  }

  /**
   * The records of all rows, in order, or the IndexError the loop raises
   * when some row has more values than there are columns.
   */
  function NormalizedRows(columns: seq<string>, rows: seq<seq<SqlValue>>): (r: Result<seq<Record>, PyError>)
    ensures r.Success? <==> RowsFit(columns, rows)
    ensures r.Success? ==> |r.value| == |rows|
    ensures r.Failure? ==> r.error == IndexOutOfRange
  {
    if RowsFit(columns, rows) then Success(Records(columns, rows))
    else Failure(IndexOutOfRange)
  }

  /**
   * The inner loop of `query_sql_server`: one row's dict, built in place
   * value by value, or the IndexError raised at the first value past the
   * last column.
   */
  method RowToRecord(columns: seq<string>, row: seq<SqlValue>) returns (r: Result<Record, PyError>)
    ensures |row| <= |columns| ==> r == Success(RecordOf(columns, row))
    ensures |row| > |columns| ==> r == Failure(IndexOutOfRange)
  {
    var rowDict: Record := [];
    var i := 0;
    while i < |row|
      invariant 0 <= i <= |row| && i <= |columns|
      invariant rowDict == RecordOf(columns, row[..i])
    {
      if i >= |columns| {
        return Failure(IndexOutOfRange);
      }
      assert row[..i + 1][..i] == row[..i];
      rowDict := Put(rowDict, columns[i], Normalize(row[i]));
      i := i + 1;
    }
    assert row[..|row|] == row;
    return Success(rowDict);
  }

  /** The outer loop of `query_sql_server`: every row's dict, in order. */
  method NormalizeRows(columns: seq<string>, rows: seq<seq<SqlValue>>) returns (r: Result<seq<Record>, PyError>)
    ensures r == NormalizedRows(columns, rows)
  {
    var results: seq<Record> := [];
    var n := 0;
    while n < |rows|
      invariant 0 <= n <= |rows|
      invariant RowsFit(columns, rows[..n])
      invariant results == Records(columns, rows[..n])
    {
      var row := RowToRecord(columns, rows[n]);
      if row.Failure? {
        return Failure(row.error);
      }
      ghost var done := rows[..n + 1];
      assert done[..n] == rows[..n] && done[n] == rows[n];
      results := results + [row.value];
      n := n + 1;
    }
    assert rows[..n] == rows;
    return Success(results);
  }

  /**
   * A value is found under its column; when a column name repeats, the
   * last value under that name wins.
   */
  lemma {:induction false} RecordOfLookup(columns: seq<string>, row: seq<SqlValue>, j: int)
    requires |row| <= |columns| && 0 <= j < |row|
    requires forall j' :: j < j' < |row| ==> columns[j'] != columns[j]
    ensures Get(RecordOf(columns, row), columns[j]) == Some(Normalize(row[j]))
    decreases |row|
  {
    var last := |row| - 1;
    if j < last {
      RecordOfLookup(columns, row[..last], j);
      PutKeepsOthers(RecordOf(columns, row[..last]), columns[last], Normalize(row[last]), columns[j]);
    }
  }

  /** A name that labels none of the row's values is absent from its record. */
  lemma {:induction false} RecordOfMissing(columns: seq<string>, row: seq<SqlValue>, k: string)
    requires |row| <= |columns|
    requires forall j :: 0 <= j < |row| ==> columns[j] != k
    ensures Get(RecordOf(columns, row), k).None?
    decreases |row|
  {
    if |row| > 0 {
      var last := |row| - 1;
      RecordOfMissing(columns, row[..last], k);
      PutKeepsOthers(RecordOf(columns, row[..last]), columns[last], Normalize(row[last]), k);
    }
  }

  /** With distinct column names, a record is the columns zipped with the normalised values. */
  lemma {:induction false} RecordOfDistinct(columns: seq<string>, row: seq<SqlValue>)
    requires |row| <= |columns|
    requires forall i, j :: 0 <= i < j < |row| ==> columns[i] != columns[j]
    ensures |RecordOf(columns, row)| == |row|
    ensures forall j :: 0 <= j < |row| ==> RecordOf(columns, row)[j] == (columns[j], Normalize(row[j]))
    decreases |row|
  {
    if |row| > 0 {
      var last := |row| - 1;
      var prefix := row[..last];
      RecordOfDistinct(columns, prefix);
      var r := RecordOf(columns, prefix);
      FreshColumn(columns, prefix, r);
      assert RecordOf(columns, row) == r + [(columns[last], Normalize(row[last]))];
      ZipStep(columns, row, r);
    }
  }

  /** The next column is not yet a key of the record zipped from the columns before it. */
  lemma FreshColumn(columns: seq<string>, prefix: seq<SqlValue>, r: Record)
    requires |prefix| < |columns| && |r| == |prefix|
    requires forall i, j :: 0 <= i < j <= |prefix| ==> columns[i] != columns[j]
    requires forall j :: 0 <= j < |r| ==> r[j] == (columns[j], Normalize(prefix[j]))
    ensures columns[|prefix|] !in Keys(r)
  {
    forall j | 0 <= j < |r|
      ensures Keys(r)[j] != columns[|prefix|]
    {
      assert Keys(r)[j] == r[j].0 == columns[j];
    }
  }

  /** Zipping one more value onto a zipped prefix zips the whole row. */
  lemma ZipStep(columns: seq<string>, row: seq<SqlValue>, r: Record)
    requires 0 < |row| <= |columns| && |r| == |row| - 1
    requires forall j :: 0 <= j < |r| ==> r[j] == (columns[j], Normalize(row[..|r|][j]))
    ensures forall j :: 0 <= j < |row| ==>
      (r + [(columns[|r|], Normalize(row[|r|]))])[j] == (columns[j], Normalize(row[j]))
  {
    var full := r + [(columns[|r|], Normalize(row[|r|]))];
    forall j | 0 <= j < |row|
      ensures full[j] == (columns[j], Normalize(row[j]))
    {
      if j < |r| {
        assert full[j] == r[j] && row[..|r|][j] == row[j];
      }
    }
  }

  /** One record per fetched row, in order, exactly when every row fits. */
  lemma NormalizedRowsShape(columns: seq<string>, rows: seq<seq<SqlValue>>)
    ensures NormalizedRows(columns, rows).Success? <==> RowsFit(columns, rows)
    ensures NormalizedRows(columns, rows).Success? ==>
              var data := NormalizedRows(columns, rows).value;
              && |data| == |rows|
              && forall n, j ::
                   (0 <= n < |rows| && 0 <= j < |rows[n]|
                    && forall j' :: j < j' < |rows[n]| ==> columns[j'] != columns[j]) ==>
                   Get(data[n], columns[j]) == Some(Normalize(rows[n][j]))
  {
    if RowsFit(columns, rows) {
      var data := Records(columns, rows);
      if |rows| > 0 {
        RecordsAt(columns, rows, 0);
      }
      forall n, j | 0 <= n < |rows| && 0 <= j < |rows[n]|
          && (forall j' :: j < j' < |rows[n]| ==> columns[j'] != columns[j])
        ensures Get(data[n], columns[j]) == Some(Normalize(rows[n][j]))
      {
        RecordsAt(columns, rows, n);
        RecordOfLookup(columns, rows[n], j);
      }
    }
  }
}

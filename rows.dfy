/** `dict(zip(columns, row))`: how the server turns a cursor row into a
    column-keyed record (app.py lines 162-163, 179-180 and 192-193). */
module Rows {
  import opened Json

  function Min(a: nat, b: nat): nat {
    if a <= b then a else b
  }

  /** The pairs `zip` yields are the first Min(|columns|, |row|) positions;
      `dict` inserts them left to right, so a later duplicate name wins. */
  function Zip(columns: seq<string>, row: seq<Value>): (r: Record)
    ensures r.Keys == set j | 0 <= j < Min(|columns|, |row|) :: columns[j]
    decreases |columns|
  {
    var n := Min(|columns|, |row|);
    if n == 0 then map[]
    else
      var before := Zip(columns[..n - 1], row[..n - 1]);
      assert before.Keys == set j | 0 <= j < n - 1 :: columns[j] by {
        assert forall j :: 0 <= j < n - 1 ==> columns[..n - 1][j] == columns[j];
      }
      before[columns[n - 1] := row[n - 1]]
  }

  /** The records of a result set, one per row and in the cursor's order. */
  function Records(columns: seq<string>, rows: seq<seq<Value>>): (r: seq<Record>)
    ensures |r| == |rows|
    ensures forall i :: 0 <= i < |rows| ==> r[i] == Zip(columns, rows[i])
  {
    seq(|rows|, i requires 0 <= i < |rows| => Zip(columns, rows[i]))
  }

  predicate Distinct(columns: seq<string>) {
    forall j, k :: 0 <= j < k < |columns| ==> columns[j] != columns[k]
  }

  /** The value stored under a column name is the one at the LAST position
      carrying that name. */
  lemma {:induction false} ZipLast(columns: seq<string>, row: seq<Value>, j: nat)
    requires j < Min(|columns|, |row|)
    requires forall k :: j < k < Min(|columns|, |row|) ==> columns[k] != columns[j]
    ensures columns[j] in Zip(columns, row) && Zip(columns, row)[columns[j]] == row[j]
  {
    var n := Min(|columns|, |row|);
    if j < n - 1 {
      var c', r' := columns[..n - 1], row[..n - 1];
      assert Min(|c'|, |r'|) == n - 1;
      assert c'[j] == columns[j];
      ZipLast(c', r', j);
    }
  }

  /** With distinct column names every value is kept under its own column. */
  lemma ZipDistinct(columns: seq<string>, row: seq<Value>, j: nat)
    requires Distinct(columns)
    requires j < |columns| && |row| == |columns|
    ensures Zip(columns, row)[columns[j]] == row[j]
  {
    ZipLast(columns, row, j);
  }

  /** A record of a full-width row has exactly the column names as keys. */
  lemma RecordKeys(columns: seq<string>, row: seq<Value>)
    requires |row| == |columns|
    ensures Zip(columns, row).Keys == set c | c in columns
  {
    var keys := Zip(columns, row).Keys;
    forall c | c in columns ensures c in keys {
      var j :| 0 <= j < |columns| && columns[j] == c;
    }
  }

  /** Two columns with one name: the record keeps only the later value, so
      both cells that read that name show it. */
  lemma DuplicateColumnLosesValue(a: Value, b: Value)
    ensures Zip(["ID", "ID"], [a, b]) == map["ID" := b]
  {
    assert ["ID", "ID"][..1] == ["ID"];
    assert [a, b][..1] == [a];
  }
}

/** Turning fetched rows into documents (migration.py:86-102): column names
    are paired with row values as `zip` does, each value is normalised, and
    the pairs are stored in a dictionary, one dictionary per row. */
module Records {
  import opened Wrappers
  import opened Values

  type Row = seq<Value>

  /** A Python dict from column name to value, in insertion order. */
  type Record = seq<(string, Value)>

  /** The keys of a record, in order. */
  function Keys(d: Record): (ks: seq<string>)
    ensures |ks| == |d|
    ensures forall i :: 0 <= i < |d| ==> ks[i] == d[i].0
  {
    if d == [] then [] else [d[0].0] + Keys(d[1..])
  }

  predicate Distinct(ks: seq<string>) {
    forall i, j :: 0 <= i < j < |ks| ==> ks[i] != ks[j]
  }

  /** `d[k]`, or None when `k` is not a key. */
  function Lookup(d: Record, k: string): Option<Value> {
    if d == [] then None
    else if d[0].0 == k then Some(d[0].1)
    else Lookup(d[1..], k)
  }

  /** `d[k] = v`: an existing key keeps its position and takes the new
      value; a new key is appended. */
  function Put(d: Record, k: string, v: Value): Record {
    if d == [] then [(k, v)]
    else if d[0].0 == k then [(k, v)] + d[1..]
    else [d[0]] + Put(d[1..], k, v)
  }

  /** After `d[k] = v`, `k` maps to `v` and every other key maps to what
      it mapped to before. */
  lemma {:induction false} PutLookup(d: Record, k: string, v: Value)
    ensures forall k' :: Lookup(Put(d, k, v), k') == if k' == k then Some(v) else Lookup(d, k')
  {
    if d != [] && d[0].0 != k {
      PutLookup(d[1..], k, v);
      var p := Put(d[1..], k, v);
      assert ([d[0]] + p)[1..] == p;
    }
  }

  /** `d[k] = v` keeps the key order; a key that is new goes last. */
  lemma {:induction false} PutKeys(d: Record, k: string, v: Value)
    ensures Keys(Put(d, k, v)) == if k in Keys(d) then Keys(d) else Keys(d) + [k]
  {
    if d != [] {
      assert Keys(d) == [d[0].0] + Keys(d[1..]);
      if d[0].0 == k {
        assert Keys(Put(d, k, v)) == [k] + Keys(d[1..]);
      } else {
        PutKeys(d[1..], k, v);
        var p := Put(d[1..], k, v);
        assert Keys([d[0]] + p) == [d[0].0] + Keys(p);
      }
    }
  }

  /** A dict never holds a key twice. */
  lemma PutKeepsDistinct(d: Record, k: string, v: Value)
    requires Distinct(Keys(d))
    ensures Distinct(Keys(Put(d, k, v)))
  {
    PutKeys(d, k, v);
    var ks := Keys(d);
    if k !in ks {
      var ks' := ks + [k];
      forall i, j | 0 <= i < j < |ks'| ensures ks'[i] != ks'[j] {
        if j == |ks| {
          assert ks'[i] == ks[i];
        }
      }
    }
  }

  /** `min(len(columns), len(row))`: `zip` stops at the shorter input. */
  function ZipLength(columns: seq<string>, row: Row): (n: nat)
    ensures n <= |columns| && n <= |row|
    ensures n == |columns| || n == |row|
  {
    if |columns| <= |row| then |columns| else |row|
  }

  /** The dict after the first `n` pairs of `zip(columns, row)` are stored. */
  function RecordPrefix(columns: seq<string>, row: Row, n: nat, toFloat: Decimal -> Float): Record
    requires n <= ZipLength(columns, row)
  {
    if n == 0 then []
    else Put(RecordPrefix(columns, row, n - 1, toFloat), columns[n - 1], Normalize(row[n - 1], toFloat))
  }

  /** `transformed_row` for one fetched row. */
  function RecordOf(columns: seq<string>, row: Row, toFloat: Decimal -> Float): Record {
    RecordPrefix(columns, row, ZipLength(columns, row), toFloat)
  }

  /** Position of the last column among the first `n` named `k`, the one
      whose value the dict keeps. */
  function LastIndex(columns: seq<string>, k: string, n: nat): (j: int)
    requires n <= |columns|
    ensures -1 <= j < n
    ensures j >= 0 ==> columns[j] == k
    ensures forall i :: j < i < n ==> columns[i] != k
  {
    if n == 0 then -1
    else if columns[n - 1] == k then n - 1
    else LastIndex(columns, k, n - 1)
  }

  /** The normalised value of the last of the first `n` columns named `k`,
      or None if there is no such column. */
  function KeptValue(columns: seq<string>, row: Row, k: string, n: nat, toFloat: Decimal -> Float): Option<Value>
    requires n <= ZipLength(columns, row)
  {
    var j := LastIndex(columns, k, n);
    if j < 0 then None else Some(Normalize(row[j], toFloat))
  }

  /** What the record holds for each key: the normalised value of the LAST
      zipped column of that name, and nothing for a name outside the zipped
      columns. Its keys are never repeated. */
  lemma {:induction false} RecordPrefixLookup(columns: seq<string>, row: Row, n: nat, toFloat: Decimal -> Float)
    requires n <= ZipLength(columns, row)
    ensures Distinct(Keys(RecordPrefix(columns, row, n, toFloat)))
    ensures forall k :: Lookup(RecordPrefix(columns, row, n, toFloat), k) == KeptValue(columns, row, k, n, toFloat)
  {
    if n > 0 {
      RecordPrefixLookup(columns, row, n - 1, toFloat);
      PutLookup(RecordPrefix(columns, row, n - 1, toFloat), columns[n - 1], Normalize(row[n - 1], toFloat));
      PutKeepsDistinct(RecordPrefix(columns, row, n - 1, toFloat), columns[n - 1], Normalize(row[n - 1], toFloat));
    }
  }

  /** With distinct column names the record pairs column `j` with value `j`,
      position by position, for every `j` that `zip` reaches. */
  lemma {:induction false} RecordPrefixPositional(columns: seq<string>, row: Row, n: nat, toFloat: Decimal -> Float)
    requires n <= ZipLength(columns, row)
    requires Distinct(columns)
    ensures |RecordPrefix(columns, row, n, toFloat)| == n
    ensures forall j :: 0 <= j < n ==> RecordPrefix(columns, row, n, toFloat)[j] == (columns[j], Normalize(row[j], toFloat))
  {
    if n > 0 {
      RecordPrefixPositional(columns, row, n - 1, toFloat);
      var d := RecordPrefix(columns, row, n - 1, toFloat);
      assert forall i :: 0 <= i < |d| ==> d[i].0 == columns[i];
      PutAppends(d, columns[n - 1], Normalize(row[n - 1], toFloat));
    }
  }

  /** Storing a new key appends it. */
  lemma {:induction false} PutAppends(d: Record, k: string, v: Value)
    requires forall i :: 0 <= i < |d| ==> d[i].0 != k
    ensures Put(d, k, v) == d + [(k, v)]
  {
    if d != [] {
      PutAppends(d[1..], k, v);
      assert d == [d[0]] + d[1..];
    }
  }

  /** `transformed_rows`: one record per fetched row, in row order. */
  function Transform(columns: seq<string>, rows: seq<Row>, toFloat: Decimal -> Float): seq<Record> {
    if rows == [] then [] else [RecordOf(columns, rows[0], toFloat)] + Transform(columns, rows[1..], toFloat)
  }

  /** Exactly one record per fetched row, record `i` built from row `i`. */
  lemma {:induction false} TransformSpec(columns: seq<string>, rows: seq<Row>, toFloat: Decimal -> Float)
    ensures |Transform(columns, rows, toFloat)| == |rows|
    ensures forall i :: 0 <= i < |rows| ==> Transform(columns, rows, toFloat)[i] == RecordOf(columns, rows[i], toFloat)
  {
    if rows != [] {
      TransformSpec(columns, rows[1..], toFloat);
    }
  }

  /** The row transformation seen from outside: column names and fetched
      rows in, documents out. */
  type Transformer = (seq<string>, seq<Row>) -> seq<Record>

  /** `transform` computes what the inner loops of migration.py:91-102
      compute, with `toFloat` as the Decimal conversion. */
  ghost predicate Implements(transform: Transformer, toFloat: Decimal -> Float) {
    forall columns, rows {:trigger Transform(columns, rows, toFloat)} ::
      transform(columns, rows) == Transform(columns, rows, toFloat)
  }

  /** The row transformation for a given Decimal conversion, as a value. */
  function TransformerFor(toFloat: Decimal -> Float): (transform: Transformer)
    ensures Implements(transform, toFloat)
  {
    (columns: seq<string>, rows: seq<Row>) => Transform(columns, rows, toFloat)
  }

  /** The nested loops of migration.py:90-102. */
  method TransformRows(columns: seq<string>, rows: seq<Row>, toFloat: Decimal -> Float)
    returns (transformedRows: seq<Record>)
    ensures |transformedRows| == |rows|
    ensures forall i :: 0 <= i < |rows| ==> transformedRows[i] == RecordOf(columns, rows[i], toFloat)
  {
    transformedRows := [];
    for r := 0 to |rows|
      invariant |transformedRows| == r
      invariant forall i :: 0 <= i < r ==> transformedRows[i] == RecordOf(columns, rows[i], toFloat)
    {
      var row := rows[r];
      var transformedRow: Record := [];
      var n := ZipLength(columns, row);
      for j := 0 to n
        invariant transformedRow == RecordPrefix(columns, row, j, toFloat)
      {
        transformedRow := Put(transformedRow, columns[j], Normalize(row[j], toFloat));
      }
      transformedRows := transformedRows + [transformedRow];
    }
  }
}

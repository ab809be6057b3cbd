/** Batch planning (migration.py:124-137): how many batches the records are
    cut into, and the window each batch reads. */
module Planning {
  import opened Wrappers

  /** Python's `a // b`, which rounds toward negative infinity. */
  function FloorDiv(a: int, b: int): int
    requires b != 0
  {
    if b > 0 then a / b else (-a) / (-b)
  }

  /** Python's `a % b`, which carries the sign of `b`. */
  function FloorMod(a: int, b: int): (m: int)
    requires b != 0
    ensures a == b * FloorDiv(a, b) + m
    ensures b > 0 ==> 0 <= m < b
    ensures b < 0 ==> b < m <= 0
  {
    a - b * FloorDiv(a, b)
  }

  /** Line 131, `total_batches`. A zero batch size makes Python raise
      ZeroDivisionError, which ends the script; that is `None` here. */
  function TotalBatches(totalRecords: nat, batchSize: int): (r: Option<int>)
    ensures r.None? <==> batchSize == 0
  {
    if batchSize == 0 then None
    else Some(FloorDiv(totalRecords, batchSize) + (if FloorMod(totalRecords, batchSize) != 0 then 1 else 0))
  }

  /** For a positive batch size the count is the ceiling of
      `totalRecords / batchSize`: enough batches to hold every record, and
      not one more than needed. */
  lemma TotalBatchesIsCeiling(totalRecords: nat, batchSize: int)
    requires batchSize > 0
    ensures TotalBatches(totalRecords, batchSize).Some?
    ensures var n := TotalBatches(totalRecords, batchSize).value;
      n >= 0 &&
      n * batchSize >= totalRecords &&
      (totalRecords > 0 ==> (n - 1) * batchSize < totalRecords) &&
      (totalRecords == 0 ==> n == 0)
  {
    var q := FloorDiv(totalRecords, batchSize);
    var m := FloorMod(totalRecords, batchSize);
    assert q >= 0;
    if m != 0 {
      calc {
        (q + 1) * batchSize;
        q * batchSize + batchSize;
      >  q * batchSize + m;
      ==  totalRecords;
      }
    } else {
      assert q * batchSize == totalRecords;
      if totalRecords > 0 {
        assert (q - 1) * batchSize == q * batchSize - batchSize;
      } else {
        assert q == 0 by {
          if q > 0 { MulPositive(q, batchSize); }
        }
      }
    }
  }

  lemma MulPositive(a: int, b: int)
    requires a > 0 && b > 0
    ensures a * b > 0
  {
  }

  /** A negative batch size yields no positive batch count, so the
      admission loop `range(checkpoint, total_batches)` admits nothing past
      batch 0. */
  lemma NegativeBatchSizeHasNoBatches(totalRecords: nat, batchSize: int)
    requires batchSize < 0
    ensures TotalBatches(totalRecords, batchSize).Some?
    ensures TotalBatches(totalRecords, batchSize).value <= 0
  {
    var q := FloorDiv(totalRecords, batchSize);
    var m := FloorMod(totalRecords, batchSize);
    var a: int := totalRecords;
    assert q == (-a) / (-batchSize);
    if m != 0 {
      assert q < 0;
    } else {
      assert q <= 0 by {
        if q > 0 { MulPositive(q, -batchSize); }
      }
    }
  }

  /** The arguments of one `migrate_data` thread: `(i, i * batch_size,
      batch_size)`. */
  datatype Batch = Batch(id: int, offset: int, limit: int)

  function BatchFor(i: int, batchSize: int): Batch {
    Batch(i, i * batchSize, batchSize)
  }

  /** The batches admitted by `for i in range(lo, hi)`, in that order. */
  function Batches(lo: int, hi: int, batchSize: int): seq<Batch>
    decreases hi - lo
  {
    if hi <= lo then [] else Batches(lo, hi - 1, batchSize) + [BatchFor(hi - 1, batchSize)]
  }

  /** The admitted batches are exactly `lo, lo + 1, ..., hi - 1`, in
      ascending order, each once, each with offset `id * batchSize` and
      limit `batchSize`. */
  lemma {:induction false} BatchesSpec(lo: int, hi: int, batchSize: int)
    ensures |Batches(lo, hi, batchSize)| == if hi <= lo then 0 else hi - lo
    ensures forall j :: 0 <= j < |Batches(lo, hi, batchSize)| ==>
      var b := Batches(lo, hi, batchSize)[j];
      b.id == lo + j && b.offset == (lo + j) * batchSize && b.limit == batchSize
    decreases hi - lo
  {
    if hi > lo {
      BatchesSpec(lo, hi - 1, batchSize);
    }
  }

  /** The windows of batches `0 .. total_batches - 1` cover the records
      without gaps or overlaps: record `x` lies in the window of exactly one
      batch, and that batch is one of the planned ones. */
  lemma {:induction false} WindowsPartitionRecords(totalRecords: nat, batchSize: int, x: int)
    requires batchSize > 0
    requires 0 <= x < totalRecords
    ensures var i := x / batchSize;
      0 <= i < TotalBatches(totalRecords, batchSize).value &&
      BatchFor(i, batchSize).offset <= x < BatchFor(i, batchSize).offset + batchSize
    ensures forall i :: BatchFor(i, batchSize).offset <= x < BatchFor(i, batchSize).offset + batchSize ==> i == x / batchSize
  {
    TotalBatchesIsCeiling(totalRecords, batchSize);
    var n := TotalBatches(totalRecords, batchSize).value;
    var i := x / batchSize;
    DivWindow(x, batchSize);
    assert i < n by {
      if i >= n { MulMonotone(n, i, batchSize); }
    }
    forall i' | BatchFor(i', batchSize).offset <= x < BatchFor(i', batchSize).offset + batchSize
      ensures i' == i
    {
      WindowUnique(i, i', batchSize, x);
    }
  }

  lemma DivWindow(x: int, c: int)
    requires c > 0
    ensures (x / c) * c <= x < (x / c) * c + c
  {
    assert x == c * (x / c) + x % c;
  }

  lemma WindowUnique(i: int, j: int, c: int, x: int)
    requires c > 0
    requires i * c <= x < i * c + c
    requires j * c <= x < j * c + c
    ensures i == j
  {
    if i < j { MulMonotone(i + 1, j, c); }
    if j < i { MulMonotone(j + 1, i, c); }
  }

  lemma MulMonotone(a: int, b: int, c: int)
    requires a <= b && c > 0
    ensures a * c <= b * c
  {
  }
}

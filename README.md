# postgres-mongo-migrator in Dafny

A model of the engine of `migration.py`, a script that copies the result of
a PostgreSQL query into a MongoDB collection in fixed-size batches. It
models six parts:

- **Batch planning.** The number of batches is
  `total_records // batch_size` plus one when there is a remainder. Batch
  `i` reads the window at offset `i * batch_size` with limit `batch_size`.
- **Admission in waves.** Threads for batches `checkpoint ..
  total_batches - 1` are started in ascending order. Once `num_threads`
  threads are waiting, all of them are joined and the list is emptied.
- **`migrate_data`.** This covers:
  - the checkpoint skip test;
  - the `for attempt in range(1, retries + 1)` retry loop, with a
    `5 * attempt` second sleep after every failed attempt;
  - fetch, transform, insert (only when there are records) and the
    checkpoint write;
  - the early return on success, and the critical outcome when every
    attempt failed.
- **Row transformation.** Column names are zipped with row values. Each
  value goes through the type dispatch:
  - a Decimal becomes a float;
  - anything that is a `datetime.date` becomes midnight of that day (a
    `datetime.datetime` is one, so a datetime loses its time of day and its
    time zone);
  - anything else is stored unchanged.

  Values are stored into a dict. A repeated column name keeps its first
  position and takes the last value.
- **Checkpoint state.**
  - The global `checkpoint` is loaded once from `checkpoint.txt`, or is 0
    without the file. It is never reassigned.
  - Each successful attempt overwrites the FILE with its own batch id, so
    the last writer wins.
  - The file is removed at the end whatever the batches' outcomes were.
- **Query strings.** The count query replaces every `*` with `COUNT(*)`.
  The data query appends ` LIMIT %s OFFSET %s;`.

Modules:

- `Values`: scalar values and the type dispatch.
- `Records`: dicts as ordered key/value lists, `zip`, and the row
  transformation.
- `Planning`: Python's floor division, the batch count, batch windows and
  admitted batches.
- `Queries`: the two query strings.
- `Retry`: one call of `migrate_data` as a pure function of its attempts.
- `Engine`: the script's state as the class `Migration`, with the retry
  loop, the admission loop and the cleanup as methods proved against the
  `Retry` and `Engine` functions.

How the outside world appears in the model:

- **The outside world is a parameter.** A `World` maps (offset, limit,
  attempt number) to what happens on that attempt:
  - whether `pg_conn.cursor()` raises, whether running the query raises,
    or the column names and rows it returns;
  - whether `insert_many` would succeed;
  - whether writing the checkpoint file would succeed.
- **Threads run one after another.** A thread's whole call of
  `migrate_data` runs when the thread is started. That is one of the
  schedules real threads can take. Ghost fields record:
  - the started and joined batches and the largest number of threads in
    flight;
  - every sleep and every call of `pg_cursor.execute`;
  - every call's outcome.
- **No crash.** `batch_size == 0` makes `total_batches` raise
  ZeroDivisionError, which ends the script. `Run` then returns `Crashed`
  and changes nothing. A negative batch size follows Python's floor `//`
  and `%`.
- **Function values in contracts.** Method contracts use three of them,
  which keeps the proofs small:
  - `transform: Transformer` stands for the transformation.
    `Implements(transform, toFloat)` says it is `Records.Transform`, and
    `Records.TransformerFor` gives one.
  - `steps: Steps` stands for the effect of each attempt. `StepsAre` ties
    it to the world, and `Retry.StepsOf` gives one.
  - `traces: Traces` stands for the trace of each batch's call.
    `TracesOf` ties it to `Engine.BatchTrace`, and `Engine.BatchTraces`
    gives one.

What the code does, as the model states it:

- Each successful attempt overwrites the checkpoint file with its own
  batch id, whatever the file held: the write does not keep a maximum.
  After the admission loop, before the cleanup, the file holds the id of
  the last migrated batch. Threads run in ascending batch order here, so
  that is also the largest migrated id. Only other thread schedules, which
  are left out, could leave a smaller id there.
- Admission is a barrier: after `num_threads` threads have started, all of
  them are joined before the next is started.
- Every exception inside the `try` block is retried, whatever its kind.
- The checkpoint file is removed even when some batches exhausted their
  retries, although the comment at migration.py:151 says it is deleted
  when all rows are migrated.
- The back-off is linear, `5 * attempt`, although the comment at
  migration.py:119 calls it exponential.

## Model

| member | source | states |
|---|---|---|
| Values.Normalize | migration.py:94-101 | A Decimal becomes `float(d)`. A date or datetime becomes a naive midnight datetime on the same date. Every other value is unchanged. The result is never a Decimal, a bare date, or a datetime other than a naive midnight. |
| Values.NormalizeIdempotent | migration.py:94-101 | Converting a converted value changes nothing. |
| Values.NormalizeForgetsTime | migration.py:96-99 | A datetime normalises as its bare date does: its time of day and time zone are lost. |
| Records.PutLookup | migration.py:93-101 | After `d[k] = v`, looking up `k` gives `v` and every other key gives what it gave before. |
| Records.PutKeys | migration.py:93-101 | `d[k] = v` keeps the key order. A new key is appended last. |
| Records.PutKeepsDistinct | migration.py:92-101 | A dict built by assignments never holds a key twice. |
| Records.PutAppends | migration.py:93-101 | Storing a key not yet present appends the pair. |
| Records.ZipLength | migration.py:93 | `zip` pairs `min(len(columns), len(row))` items and stops at the shorter input. |
| Records.RecordPrefixLookup | migration.py:92-101 | Each key of the transformed row maps to the converted value of the LAST zipped column of that name. A name outside the zipped columns is absent. Keys are distinct. |
| Records.RecordPrefixPositional | migration.py:93-101 | With distinct column names, entry `j` of the transformed row is column `j` with converted value `j`, for every zipped `j`. |
| Records.TransformSpec | migration.py:90-102 | The transformation yields exactly one record per fetched row, record `i` built from row `i`. |
| Records.TransformRows | migration.py:90-102 | The nested loops build one record per row, each the dict of that row's zipped and converted pairs. |
| Planning.FloorMod | migration.py:131 | Python's `%` satisfies `a == b * (a // b) + a % b` and takes the sign of `b`. |
| Planning.TotalBatches | migration.py:131 | The batch count fails (ZeroDivisionError) exactly when `batch_size == 0`. |
| Planning.TotalBatchesIsCeiling | migration.py:131 | For `batch_size > 0` the count is `ceil(total / batch_size)`: the batches hold every record and one fewer would not. An empty source gives 0 batches. |
| Planning.NegativeBatchSizeHasNoBatches | migration.py:131 | A negative batch size gives a non-positive batch count. |
| Planning.BatchesSpec | migration.py:135-137 | `range(lo, hi)` admits exactly the ids `lo .. hi - 1`, in ascending order, each once. Batch `j` of them has id `lo + j`, offset `(lo + j) * batch_size` and limit `batch_size`. |
| Planning.WindowsPartitionRecords | migration.py:131-137 | For `batch_size > 0`, every record index lies in the window of exactly one batch, and that batch is among the planned ones. |
| Queries.CountQueryLength | migration.py:37 | Every `*` becomes the 8 characters `COUNT(*)` and nothing else changes length. A query without `*` is unchanged. |
| Queries.CountQueryConcat | migration.py:37 | The rewrite distributes over concatenation. |
| Queries.UncountCountQuery | migration.py:37 | The rewrite loses nothing: turning each `COUNT(*)` back into `*` recovers the configured query exactly. |
| Queries.DataQuery | migration.py:81 | The data query is the configured query followed by exactly ` LIMIT %s OFFSET %s;`. |
| Queries.DataQueryInjective | migration.py:81 | Two configured queries with the same data query are equal, so the configured query can be read back from it. |
| Retry.AttemptEffectSpec | migration.py:78-113 | An attempt gets through exactly when the fetch succeeds, the insert succeeds or is not needed (no records), and the checkpoint write succeeds. It inserts records only when the insert ran, and then they are the transformed rows. It runs the data query exactly when `pg_conn.cursor()` did not raise. |
| Retry.AttemptsSpec | migration.py:77-121 | The retry loop stops at the FIRST attempt that succeeds and never goes past attempt `retries`. After every failed attempt `n`, the last one included, it sleeps `5 * n`. It reports exhaustion exactly when every attempt failed, having made `max(0, retries)` attempts. |
| Retry.AttemptsQueries | migration.py:77-82 | The loop runs the data query at most once per attempt: on every attempt when each got a cursor, and never when none did. |
| Retry.MigratedEndsWithItsStep | migration.py:77-113 | The records inserted by the successful attempt are the last ones the call inserts. |
| Retry.MigratedEndsWithItsRows | migration.py:83-113 | A successful call fetched on its last attempt, and its inserted records end with that attempt's rows, transformed. |
| Retry.MigrateSkipsExactlyBelowCheckpoint | migration.py:73-75 | A call is skipped exactly when `batch_id < checkpoint`. A skipped call makes no fetch, no insert, no sleep and no checkpoint write. |
| Retry.TwoFailuresThenSuccess | migration.py:77-119 | With three retries, a source that fails twice and then succeeds is migrated on attempt 3, after the sleeps 5 and 10. |
| Engine.RunOutcomesSpec | migration.py:135-139 | The run records one outcome per admitted batch, in batch order, each the outcome of that batch's call. |
| Engine.RunFileIsLastMigrated | migration.py:109-110 | After a run of threads, the checkpoint file holds the id of the LAST migrated batch, whatever was written before, and no later batch migrated. Batches run in ascending order, so this is also the largest migrated id. The batches below it may have failed. With no batch migrated the file is unchanged. |
| Engine.AdmittedBatchesAreNotSkipped | migration.py:135 | Admission starts at the checkpoint, which never changes, so no admitted batch takes the skip branch of migration.py:73-75. |
| Engine.Migration.constructor | migration.py:57-67 | The checkpoint is the number in the checkpoint file, or 0 when there is no file. |
| Engine.Migration.TryOnce | migration.py:78-113 | When `pg_conn.cursor()` raises, the pass runs no query, inserts nothing and writes nothing. Otherwise it runs the data query with `(limit, offset)`. It inserts the transformed rows when there are any and the insert succeeds. It writes the batch id to the file only when the pass gets through, whatever the file held. |
| Engine.Migration.AttemptOnce | migration.py:78-119 | One turn of the retry loop: it returns on success, and otherwise sleeps `5 * attempt` and continues with the next attempt. It runs the data query once exactly when the attempt got a cursor. |
| Engine.Migration.RetryTurn | migration.py:77-119 | After a prefix of failed attempts, one more turn either ends the call with exactly the sink, sleeps, queries and file that `Attempts` gives for the whole call, or fails and extends the prefix by this attempt's inserts, sleep and query. |
| Engine.Migration.RetryLoop | migration.py:77-121 | The loop inserts, sleeps, runs queries and writes the checkpoint exactly as `Attempts` says. |
| Engine.Migration.MigrateData | migration.py:71-121 | The sink, the sleeps, the queries run, the file and the outcome are exactly those of `MigrateSpec`. Only the attempts that got a cursor ran the query. The file holds `batch_id` after a success and is untouched otherwise. |
| Engine.Migration.StartThread | migration.py:137-139 | Starting a thread runs its call. The call's outcome, inserts, sleeps and queries `(data query, batch_size, i * batch_size)` are appended to the run's. The file is overwritten with `i` when the call migrated, and is otherwise as before. |
| Engine.Migration.AdmitBatch | migration.py:135-145 | Admitting batch `i` starts its thread and adds it to the waiting threads. When that makes `num_threads` of them (`max(1, num_threads)`), all of them are joined and none is left waiting; otherwise none is joined. The most threads ever in flight becomes the larger of its old value and this wave's size. Started batches stay `Batches(checkpoint, i + 1)` and are split into joined and waiting ones. The waiting ones are the last `started % max(1, num_threads)`. The most threads in flight is `min(started, max(1, num_threads))`. The outcomes, sink, sleeps, queries and file are those of the threads of batches `checkpoint .. i`. |
| Engine.Migration.AdmitAll | migration.py:134-145 | After the loop, batches `checkpoint .. total_batches - 1` have started in order. The waiting threads are the last `started % max(1, num_threads)` of them, which is the incomplete last wave; all earlier ones have been joined. At most `min(started, max(1, num_threads))` threads were ever in flight at once, and exactly that many at some point. Outcomes, sink, sleeps and queries are those of these batches in order. The file is `RunFile`: the id of the last migrated batch, or its old content. |
| Engine.Migration.Run | migration.py:124-154 | The run crashes exactly when `batch_size == 0`, and a crashed run changes nothing. Otherwise it starts exactly the batches `checkpoint .. total_batches - 1`, in order, and joins every one of them. The most threads in flight at once is exactly `min(started, max(1, num_threads))`. The sink, the sleeps and the queries sent end with every call's own, in batch order. The checkpoint file is removed whatever the outcomes. |

## Left out

- The PostgreSQL and MongoDB connections, the count query's execution and the `exit(1)` on connection or count failure (migration.py:22-55) are left out. The record count is a parameter of `Migration`.
- Reading `config.json` and the logging setup (migration.py:13-19) are left out. The query, batch size and thread count are parameters, and log messages appear only as the `Outcome` of a call.
- Real threads, their interleavings and real sleeping are left out. Threads run one after another, and sleeps are recorded in a ghost list.
- `Value` covers only null, bool, int, str, float, Decimal, date and datetime. Other column types, such as `datetime.time` or `datetime.timedelta`, pass through the dispatch unchanged in the source. Whether the sink can store them is left to the world's `insertOk`.
- `float(Decimal)` is floating-point conversion. It is the parameter `toFloat` and is not modelled further.
- The checkpoint file's contents are an `Option<int>`. `int()` parsing, a malformed file (a ValueError that would end the script) and other file-system errors are not modelled.
- Engine.Migration.TryOnce: a failed checkpoint write leaves the file as it was. The truncation that `open(..., "w")` makes before a failing write is not modelled.
- Engine.Migration.TryOnce: `insert_many` is all-or-nothing. A partial insert before an exception, and the `_id` field it adds to each dict, are not modelled.
- Engine.Migration.Run: its contract holds for the sequential schedule only. Under other thread schedules the last checkpoint write and the order of the sink's contents can differ.

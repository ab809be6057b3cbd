/** The script's state and its two loops (migration.py:57-154): the
    checkpoint loaded at start-up, `migrate_data`, and the loop that starts
    one thread per batch and joins them in waves. Threads are run one after
    another: each thread's call runs to completion when it is started, which
    is one of the schedules the real threads can take. */
module Engine {
  import opened Wrappers
  import opened Values
  import opened Records
  import opened Planning
  import opened Retry
  import opened Queries

  /** How the run ends: `total_batches` raised ZeroDivisionError, or every
      admitted thread was joined and the cleanup ran. */
  datatype RunResult = Crashed | Finished

  /** The trace of the thread for batch `i`: `migrate_data(i, i *
      batch_size, batch_size)` with the default number of retries. */
  function BatchTrace(checkpoint: int, i: int, batchSize: int, world: World, transform: Transformer): Trace {
    var b := BatchFor(i, batchSize);
    MigrateSpec(checkpoint, b.id, DefaultRetries, StepsOf(world, b.offset, b.limit, transform))
  }

  /** The trace of each thread's call, by batch number. */
  type Traces = int -> Trace

  /** `traces` gives, for every batch `i`, the trace of `BatchTrace`. */
  ghost predicate TracesOf(traces: Traces, checkpoint: int, batchSize: int, world: World, transform: Transformer) {
    forall i {:trigger BatchTrace(checkpoint, i, batchSize, world, transform)} ::
      traces(i) == BatchTrace(checkpoint, i, batchSize, world, transform)
  }

  /** The traces of all batches, as a value. */
  function BatchTraces(checkpoint: int, batchSize: int, world: World, transform: Transformer): (traces: Traces)
    ensures TracesOf(traces, checkpoint, batchSize, world, transform)
  {
    (i: int) => BatchTrace(checkpoint, i, batchSize, world, transform)
  }

  /** The records that the threads for batches `lo .. hi - 1` insert, in
      the order of the batches. */
  function RunInserted(lo: int, hi: int, traces: Traces): seq<Record>
    decreases hi - lo
  {
    if hi <= lo then [] else RunInserted(lo, hi - 1, traces) + traces(hi - 1).inserted
  }

  /** The sleeps of those threads, in the order of the batches. */
  function RunSleeps(lo: int, hi: int, traces: Traces): seq<int>
    decreases hi - lo
  {
    if hi <= lo then [] else RunSleeps(lo, hi - 1, traces) + traces(hi - 1).sleeps
  }

  /** How each of those threads ended, in the order of the batches. */
  function RunOutcomes(lo: int, hi: int, traces: Traces): seq<Outcome>
    decreases hi - lo
  {
    if hi <= lo then [] else RunOutcomes(lo, hi - 1, traces) + [traces(hi - 1).outcome]
  }

  /** The queries those threads run, in the order of the batches: the
      data query with the batch's limit and offset, once per attempt that
      got a cursor. */
  function RunFetches(query: string, lo: int, hi: int, batchSize: int, traces: Traces): seq<(string, int, int)>
    decreases hi - lo
  {
    if hi <= lo then []
    else
      var b := BatchFor(hi - 1, batchSize);
      RunFetches(query, lo, hi - 1, batchSize, traces) + Repeat((DataQuery(query), b.limit, b.offset), traces(hi - 1).queries)
  }

  /** The checkpoint file after those threads, from `file0`: each migrated
      batch overwrites it with its id. */
  function RunFile(lo: int, hi: int, traces: Traces, file0: Option<int>): Option<int>
    decreases hi - lo
  {
    if hi <= lo then file0
    else if traces(hi - 1).outcome.Migrated? then Some(hi - 1)
    else RunFile(lo, hi - 1, traces, file0)
  }

  /** The file holds the id of the LAST migrated batch, and no later batch
      migrated; the batches before it may have failed. Batches run in
      ascending order, so this is also the largest migrated id. With no
      batch migrated the file is unchanged. */
  lemma {:induction false} RunFileIsLastMigrated(lo: int, hi: int, traces: Traces, file0: Option<int>)
    ensures var f := RunFile(lo, hi, traces, file0);
      ((forall j :: lo <= j < hi ==> !traces(j).outcome.Migrated?) ==> f == file0) &&
      (forall j :: lo <= j < hi && traces(j).outcome.Migrated? ==>
        f.Some? && j <= f.value < hi && traces(f.value).outcome.Migrated? &&
        forall k :: f.value < k < hi ==> !traces(k).outcome.Migrated?)
    decreases hi - lo
  {
    if hi > lo {
      RunFileIsLastMigrated(lo, hi - 1, traces, file0);
    }
  }

  /** Outcome `j` is the outcome of the thread for batch `lo + j`. */
  lemma {:induction false} RunOutcomesSpec(lo: int, hi: int, traces: Traces)
    ensures var os := RunOutcomes(lo, hi, traces);
      |os| == (if hi <= lo then 0 else hi - lo) &&
      forall j :: 0 <= j < |os| ==> os[j] == traces(lo + j).outcome
    decreases hi - lo
  {
    if hi > lo {
      RunOutcomesSpec(lo, hi - 1, traces);
    }
  }

  /** One more thread, seen from the run's spec functions. */
  lemma RunStep(query: string, lo: int, hi: int, batchSize: int, traces: Traces, file0: Option<int>)
    requires lo <= hi
    ensures RunInserted(lo, hi + 1, traces) == RunInserted(lo, hi, traces) + traces(hi).inserted
    ensures RunSleeps(lo, hi + 1, traces) == RunSleeps(lo, hi, traces) + traces(hi).sleeps
    ensures RunOutcomes(lo, hi + 1, traces) == RunOutcomes(lo, hi, traces) + [traces(hi).outcome]
    ensures RunFetches(query, lo, hi + 1, batchSize, traces) ==
      RunFetches(query, lo, hi, batchSize, traces) + Repeat((DataQuery(query), batchSize, hi * batchSize), traces(hi).queries)
    ensures RunFile(lo, hi + 1, traces, file0) ==
      if traces(hi).outcome.Migrated? then Some(hi) else RunFile(lo, hi, traces, file0)
  {
  }

  lemma AppendAssoc<T>(a: seq<T>, b: seq<T>, c: seq<T>)
    ensures a + (b + c) == (a + b) + c
  {
  }

  function Min(a: int, b: int): int {
    if a < b then a else b
  }

  /** Euclidean division leaves a unique remainder. */
  lemma RemainderUnique(a: int, m: int, q: int, r: int)
    requires m > 0 && a == q * m + r && 0 <= r < m
    ensures a % m == r
  {
    var d := q - a / m;
    assert d * m == a % m - r;
  }

  /** Admitting one more thread advances the count of waiting threads by
      one, and a full wave of `m` threads brings it back to zero. */
  lemma WaveStep(n: nat, m: int)
    requires m > 0
    ensures (n + 1) % m == if n % m + 1 == m then 0 else n % m + 1
    ensures n < m ==> n % m == n
  {
    if n % m + 1 == m {
      RemainderUnique(n + 1, m, n / m + 1, 0);
    } else {
      RemainderUnique(n + 1, m, n / m, n % m + 1);
    }
    if n < m {
      RemainderUnique(n, m, 0, n);
    }
  }

  /** No thread that the run starts takes the skip branch: admission
      begins at the checkpoint and the checkpoint never changes after it
      is loaded. */
  lemma {:induction false} AdmittedBatchesAreNotSkipped(checkpoint: int, hi: int, batchSize: int, world: World,
                                                        transform: Transformer, traces: Traces)
    requires TracesOf(traces, checkpoint, batchSize, world, transform)
    ensures forall o :: o in RunOutcomes(checkpoint, hi, traces) ==> !o.Skipped?
  {
    var os := RunOutcomes(checkpoint, hi, traces);
    RunOutcomesSpec(checkpoint, hi, traces);
    forall j | 0 <= j < |os| ensures !os[j].Skipped? {
      var b := BatchFor(checkpoint + j, batchSize);
      assert traces(checkpoint + j) == BatchTrace(checkpoint, checkpoint + j, batchSize, world, transform);
      MigrateSkipsExactlyBelowCheckpoint(checkpoint, b.id, DefaultRetries, StepsOf(world, b.offset, b.limit, transform));
    }
  }

  /** `steps` gives the effect of every attempt of the query with the
      given offset and limit. */
  ghost predicate StepsAre(steps: Steps, world: World, offset: int, limit: int, transform: Transformer) {
    forall n: nat {:trigger world(offset, limit, n)} :: steps(n) == AttemptEffect(world(offset, limit, n), transform)
  }

  /** `n` copies of `x`. */
  function Repeat<T>(x: T, n: nat): (r: seq<T>)
    ensures |r| == n
    ensures forall i :: 0 <= i < n ==> r[i] == x
  {
    if n == 0 then [] else Repeat(x, n - 1) + [x]
  }

  /** Copies of `x` add up. */
  lemma {:induction false} RepeatAdd<T>(x: T, n: nat, m: nat)
    ensures Repeat(x, n) + Repeat(x, m) == Repeat(x, n + m)
    decreases m
  {
    if m > 0 {
      RepeatAdd(x, n, m - 1);
      AppendAssoc(Repeat(x, n), Repeat(x, m - 1), [x]);
    }
  }

  /** `whole` is what is left, `rest`, after a prefix of failed attempts
      that inserted `inserted`, slept `slept`, numbered `made` and ran
      `sent` queries. */
  ghost predicate Resumes(whole: Trace, inserted: seq<Record>, slept: seq<int>, made: nat, sent: nat, rest: Trace) {
    whole == Trace(rest.outcome, inserted + rest.inserted, slept + rest.sleeps, made + rest.attempts, sent + rest.queries)
  }

  lemma ResumesStep(whole: Trace, inserted: seq<Record>, slept: seq<int>, made: nat, sent: nat,
                    ins: seq<Record>, q: nat, rest: Trace, pause: int)
    requires Resumes(whole, inserted, slept, made, sent,
                     Trace(rest.outcome, ins + rest.inserted, [pause] + rest.sleeps, 1 + rest.attempts, q + rest.queries))
    ensures Resumes(whole, inserted + ins, slept + [pause], made + 1, sent + q, rest)
  {
    assert inserted + (ins + rest.inserted) == (inserted + ins) + rest.inserted;
    assert slept + ([pause] + rest.sleeps) == (slept + [pause]) + rest.sleeps;
  }

  /** The attempt that succeeds ends what is left. */
  lemma ResumesDone(whole: Trace, inserted: seq<Record>, slept: seq<int>, made: nat, sent: nat,
                    ins: seq<Record>, q: nat, k: nat)
    requires Resumes(whole, inserted, slept, made, sent, Trace(Migrated(k), ins, [], 1, q))
    ensures whole.outcome == Migrated(k) && whole.inserted == inserted + ins &&
      whole.sleeps == slept && whole.queries == sent + q
  {
  }

  class Migration {
    /** `config["postgresql"]["query"]`. */
    const query: string
    /** `config["batch_size"]`. */
    const batchSize: int
    /** `config["num_threads"]`. */
    const numThreads: int
    /** The result of the count query. */
    const totalRecords: nat

    /** The global `checkpoint`, loaded once. */
    var checkpoint: int
    /** The content of `checkpoint.txt`, None when the file does not exist. */
    var checkpointFile: Option<int>
    /** The documents of the sink collection, in insertion order. */
    var sink: seq<Record>

    /** Every call of `sleep`, in order. */
    ghost var sleeps: seq<int>
    /** Every call of `pg_cursor.execute`: query text, limit and offset. */
    ghost var fetches: seq<(string, int, int)>
    /** The batches of the threads started and of the threads joined. */
    ghost var started: seq<Batch>
    ghost var joined: seq<Batch>
    /** The largest number of threads started and not yet joined. */
    ghost var peakInFlight: nat
    /** How each started thread's call ended. */
    ghost var outcomes: seq<Outcome>

    /** Start-up (migration.py:57-67): the checkpoint is the number stored
        in the checkpoint file, or 0 when there is none. */
    constructor (query: string, batchSize: int, numThreads: int, totalRecords: nat,
                 file: Option<int>, sink: seq<Record>)
      ensures this.query == query && this.batchSize == batchSize
      ensures this.numThreads == numThreads && this.totalRecords == totalRecords
      ensures checkpoint == (if file.Some? then file.value else 0)
      ensures checkpointFile == file && this.sink == sink
      ensures sleeps == [] && fetches == [] && started == [] && joined == [] && outcomes == []
      ensures peakInFlight == 0
    {
      this.query := query;
      this.batchSize := batchSize;
      this.numThreads := numThreads;
      this.totalRecords := totalRecords;
      match file {
        case Some(v) => checkpoint := v;
        case None => checkpoint := 0;
      }
      checkpointFile := file;
      this.sink := sink;
      sleeps, fetches, started, joined, outcomes := [], [], [], [], [];
      peakInFlight := 0;
    }

    /** One pass through the `try` block of `migrate_data`
        (migration.py:78-113): get a cursor, run the data query, transform,
        insert the records if there are any, then write the batch id to the
        checkpoint file. Any exception ends the pass with `ok == false`; one
        from `pg_conn.cursor()` comes before any query is run. */
    method TryOnce(batchId: int, offset: int, limit: int, a: Attempt, toFloat: Decimal -> Float, transform: Transformer)
      returns (ok: bool)
      requires Implements(transform, toFloat)
      modifies this`sink, this`fetches, this`checkpointFile
      ensures var s := AttemptEffect(a, transform);
        ok == s.succeeded && sink == old(sink) + s.inserted
      ensures fetches == old(fetches) + if a.fetch.CursorFailed? then [] else [(DataQuery(query), limit, offset)]
      ensures checkpointFile == if ok then Some(batchId) else old(checkpointFile)
    {
      ok := false;
      if a.fetch.CursorFailed? {
        return;
      }
      fetches := fetches + [(DataQuery(query), limit, offset)];
      if a.fetch.Fetched? {
        var transformedRows := TransformRows(a.fetch.columns, a.fetch.rows, toFloat);
        TransformSpec(a.fetch.columns, a.fetch.rows, toFloat);
        assert transformedRows == Transform(a.fetch.columns, a.fetch.rows, toFloat);
        if transformedRows == [] || a.insertOk {
          if transformedRows != [] {
            sink := sink + transformedRows;
          }
          if a.writeOk {
            checkpointFile := Some(batchId);
            ok := true;
          }
        }
      }
    }

    /** `migrate_data(batch_id, offset, limit, retries)`. The global
        checkpoint is only read; after a successful attempt the file holds
        `batchId`, whatever it held before. Every attempt that gets a
        cursor runs the data query with this batch's limit and offset. */
    method MigrateData(batchId: int, offset: int, limit: int, retries: int, world: World,
                       toFloat: Decimal -> Float, transform: Transformer)
      returns (outcome: Outcome)
      requires Implements(transform, toFloat)
      modifies this`sink, this`sleeps, this`fetches, this`checkpointFile
      ensures var t := MigrateSpec(checkpoint, batchId, retries, StepsOf(world, offset, limit, transform));
        outcome == t.outcome &&
        sink == old(sink) + t.inserted &&
        sleeps == old(sleeps) + t.sleeps &&
        fetches == old(fetches) + Repeat((DataQuery(query), limit, offset), t.queries)
      ensures checkpointFile == if outcome.Migrated? then Some(batchId) else old(checkpointFile)
    {
      if batchId < checkpoint {
        return Skipped;
      }
      outcome := RetryLoop(batchId, offset, limit, retries, world, toFloat, transform, StepsOf(world, offset, limit, transform));
    }

    /** One turn of the `for attempt` loop (migration.py:78-119): a pass
        through the `try` block and, when it fails, the `5 * attempt`
        second sleep. `inserted` is what the pass put into the sink. */
    method AttemptOnce(batchId: int, offset: int, limit: int, attempt: int, retries: int, world: World,
                       toFloat: Decimal -> Float, transform: Transformer, ghost steps: Steps)
      returns (ok: bool, ghost inserted: seq<Record>)
      requires 1 <= attempt <= retries
      requires Implements(transform, toFloat)
      requires StepsAre(steps, world, offset, limit, transform)
      modifies this`sink, this`sleeps, this`fetches, this`checkpointFile
      ensures var t := Attempts(attempt, retries, steps);
        var r := Attempts(attempt + 1, retries, steps);
        if ok then
          t == Trace(Migrated(attempt), inserted, [], 1, QueriesRun(steps(attempt))) &&
          sleeps == old(sleeps) && checkpointFile == Some(batchId)
        else
          t == Trace(r.outcome, inserted + r.inserted, [Backoff(attempt)] + r.sleeps, 1 + r.attempts,
                     QueriesRun(steps(attempt)) + r.queries) &&
          sleeps == old(sleeps) + [Backoff(attempt)] && checkpointFile == old(checkpointFile)
      ensures sink == old(sink) + inserted
      ensures fetches == old(fetches) + Repeat((DataQuery(query), limit, offset), QueriesRun(steps(attempt)))
    {
      ok := TryOnce(batchId, offset, limit, world(offset, limit, attempt), toFloat, transform);
      inserted := AttemptEffect(world(offset, limit, attempt), transform).inserted;
      AttemptsUnfold(attempt, retries, steps);
      if !ok {
        sleeps := sleeps + [Backoff(attempt)];
      }
    }

    /** The state after failed attempts that inserted `inserted`, slept
        `slept` and ran `sent` queries, starting from `sink0`, `sleeps0`,
        `fetches0` and `file0`. */
    ghost predicate Retried(sink0: seq<Record>, sleeps0: seq<int>, fetches0: seq<(string, int, int)>, file0: Option<int>,
                            inserted: seq<Record>, slept: seq<int>, sent: nat, limit: int, offset: int)
      reads this
    {
      sink == sink0 + inserted &&
      sleeps == sleeps0 + slept &&
      fetches == fetches0 + Repeat((DataQuery(query), limit, offset), sent) &&
      checkpointFile == file0
    }

    /** One turn of the retry loop, seen from the whole call `whole`: the
        attempts before `attempt` failed and left `inserted`, `slept` and
        `sent`. A success ends the call with the state `whole` describes;
        a failure extends that prefix by this attempt. */
    method RetryTurn(batchId: int, offset: int, limit: int, attempt: int, retries: int, world: World,
                     toFloat: Decimal -> Float, transform: Transformer, ghost steps: Steps, ghost whole: Trace,
                     ghost sink0: seq<Record>, ghost sleeps0: seq<int>, ghost fetches0: seq<(string, int, int)>,
                     ghost file0: Option<int>, ghost inserted: seq<Record>, ghost slept: seq<int>, ghost sent: nat)
      returns (ok: bool, ghost inserted': seq<Record>, ghost slept': seq<int>, ghost sent': nat)
      requires 1 <= attempt <= retries
      requires Implements(transform, toFloat)
      requires StepsAre(steps, world, offset, limit, transform)
      requires Resumes(whole, inserted, slept, attempt - 1, sent, Attempts(attempt, retries, steps))
      requires Retried(sink0, sleeps0, fetches0, file0, inserted, slept, sent, limit, offset)
      modifies this`sink, this`sleeps, this`fetches, this`checkpointFile
      ensures ok ==>
        whole.outcome == Migrated(attempt) &&
        sink == sink0 + whole.inserted &&
        sleeps == sleeps0 + whole.sleeps &&
        fetches == fetches0 + Repeat((DataQuery(query), limit, offset), whole.queries) &&
        checkpointFile == Some(batchId)
      ensures !ok ==>
        Resumes(whole, inserted', slept', attempt, sent', Attempts(attempt + 1, retries, steps)) &&
        Retried(sink0, sleeps0, fetches0, file0, inserted', slept', sent', limit, offset)
    {
      ghost var ins;
      ok, ins := AttemptOnce(batchId, offset, limit, attempt, retries, world, toFloat, transform, steps);
      AppendAssoc(sink0, inserted, ins);
      ghost var q := QueriesRun(steps(attempt));
      RepeatAdd((DataQuery(query), limit, offset), sent, q);
      AppendAssoc(fetches0, Repeat((DataQuery(query), limit, offset), sent), Repeat((DataQuery(query), limit, offset), q));
      inserted', slept', sent' := inserted + ins, slept + [Backoff(attempt)], sent + q;
      if ok {
        ResumesDone(whole, inserted, slept, attempt - 1, sent, ins, q, attempt);
      } else {
        ResumesStep(whole, inserted, slept, attempt - 1, sent, ins, q, Attempts(attempt + 1, retries, steps), Backoff(attempt));
        AppendAssoc(sleeps0, slept, [Backoff(attempt)]);
      }
    }

    /** The `for attempt in range(1, retries + 1)` loop of `migrate_data`
        (migration.py:77-121): it returns at the first attempt that gets
        through, sleeps `5 * attempt` after each one that does not, and ends
        with the critical message when none did. */
    method RetryLoop(batchId: int, offset: int, limit: int, retries: int, world: World,
                     toFloat: Decimal -> Float, transform: Transformer, ghost steps: Steps)
      returns (outcome: Outcome)
      requires Implements(transform, toFloat)
      requires StepsAre(steps, world, offset, limit, transform)
      modifies this`sink, this`sleeps, this`fetches, this`checkpointFile
      ensures var t := Attempts(1, retries, steps);
        outcome == t.outcome &&
        sink == old(sink) + t.inserted &&
        sleeps == old(sleeps) + t.sleeps &&
        fetches == old(fetches) + Repeat((DataQuery(query), limit, offset), t.queries)
      ensures checkpointFile == if outcome.Migrated? then Some(batchId) else old(checkpointFile)
    {
      ghost var whole := Attempts(1, retries, steps);
      ghost var inserted: seq<Record> := [];
      ghost var slept: seq<int> := [];
      ghost var sent: nat := 0;
      var attempt := 1;
      while attempt <= retries
        invariant 1 <= attempt
        invariant Resumes(whole, inserted, slept, attempt - 1, sent, Attempts(attempt, retries, steps))
        invariant Retried(old(sink), old(sleeps), old(fetches), old(checkpointFile), inserted, slept, sent, limit, offset)
        decreases retries - attempt
      {
        var ok;
        ok, inserted, slept, sent := RetryTurn(batchId, offset, limit, attempt, retries, world, toFloat, transform, steps,
                                               whole, old(sink), old(sleeps), old(fetches), old(checkpointFile), inserted, slept, sent);
        if ok {
          return Migrated(attempt);
        }
        attempt := attempt + 1;
      }
      return Exhausted(retries);
    }

    /** The thread bookkeeping once batches `checkpoint .. i - 1` were
        admitted: `threads` are the started threads not yet joined, which
        are those of the last, incomplete wave of `max(1, num_threads)`
        threads, and the most threads ever in flight is a full wave, or
        all of them when fewer were started. */
    ghost predicate Waves(i: int, threads: seq<Batch>)
      reads this
    {
      started == Batches(checkpoint, i, batchSize) &&
      joined + threads == started &&
      |threads| == |started| % Max(1, numThreads) &&
      peakInFlight == Min(|started|, Max(1, numThreads))
    }

    /** What the threads for batches `checkpoint .. i - 1` did, from the
        sink `sink0` and the sleeps `sleeps0` before the loop. */
    ghost predicate ThreadsRan(i: int, sink0: seq<Record>, sleeps0: seq<int>, fetches0: seq<(string, int, int)>,
                               file0: Option<int>, traces: Traces)
      reads this
    {
      outcomes == RunOutcomes(checkpoint, i, traces) &&
      sink == sink0 + RunInserted(checkpoint, i, traces) &&
      sleeps == sleeps0 + RunSleeps(checkpoint, i, traces) &&
      fetches == fetches0 + RunFetches(query, checkpoint, i, batchSize, traces) &&
      checkpointFile == RunFile(checkpoint, i, traces, file0)
    }

    /** `thread.start()` for the thread of batch `i` (migration.py:137-139).
        Threads run one after another here, so its call of
        `migrate_data(i, i * batch_size, batch_size)` runs to completion. */
    method StartThread(i: int, ghost sink0: seq<Record>, ghost sleeps0: seq<int>,
                       ghost fetches0: seq<(string, int, int)>, ghost file0: Option<int>,
                       world: World, toFloat: Decimal -> Float, transform: Transformer, ghost traces: Traces)
      requires checkpoint <= i
      requires Implements(transform, toFloat)
      requires TracesOf(traces, checkpoint, batchSize, world, transform)
      requires ThreadsRan(i, sink0, sleeps0, fetches0, file0, traces)
      modifies this`sink, this`sleeps, this`fetches, this`checkpointFile, this`outcomes
      ensures ThreadsRan(i + 1, sink0, sleeps0, fetches0, file0, traces)
    {
      var batch := BatchFor(i, batchSize);
      ghost var sinkBefore, sleepsBefore, fetchesBefore := sink, sleeps, fetches;
      var outcome := MigrateData(batch.id, batch.offset, batch.limit, DefaultRetries, world, toFloat, transform);
      ghost var t := BatchTrace(checkpoint, i, batchSize, world, transform);
      ghost var q := Repeat((DataQuery(query), batchSize, i * batchSize), t.queries);
      assert sink == sinkBefore + t.inserted && sleeps == sleepsBefore + t.sleeps && outcome == t.outcome;
      assert fetches == fetchesBefore + q;
      assert traces(i) == t;
      RunStep(query, checkpoint, i, batchSize, traces, file0);
      AppendAssoc(sink0, RunInserted(checkpoint, i, traces), t.inserted);
      AppendAssoc(sleeps0, RunSleeps(checkpoint, i, traces), t.sleeps);
      AppendAssoc(fetches0, RunFetches(query, checkpoint, i, batchSize, traces), q);
      outcomes := outcomes + [outcome];
    }

    /** One turn of the admission loop (migration.py:135-145): start the
        thread for batch `i` and join every started thread once
        `num_threads` of them are waiting. */
    method AdmitBatch(i: int, threads: seq<Batch>, ghost sink0: seq<Record>, ghost sleeps0: seq<int>,
                      ghost fetches0: seq<(string, int, int)>, ghost file0: Option<int>, world: World, toFloat: Decimal -> Float, transform: Transformer, ghost traces: Traces)
      returns (waiting: seq<Batch>)
      requires checkpoint <= i
      requires Implements(transform, toFloat)
      requires TracesOf(traces, checkpoint, batchSize, world, transform)
      requires Waves(i, threads) && ThreadsRan(i, sink0, sleeps0, fetches0, file0, traces)
      modifies this`sink, this`sleeps, this`fetches, this`checkpointFile
      modifies this`started, this`joined, this`peakInFlight, this`outcomes
      ensures Waves(i + 1, waiting) && ThreadsRan(i + 1, sink0, sleeps0, fetches0, file0, traces)
      ensures peakInFlight == Max(old(peakInFlight), |threads| + 1)
      ensures waiting == if |threads| + 1 >= numThreads then [] else threads + [BatchFor(i, batchSize)]
      ensures joined == if |threads| + 1 >= numThreads then old(joined) + threads + [BatchFor(i, batchSize)] else old(joined)
    {
      var batch := BatchFor(i, batchSize);
      StartThread(i, sink0, sleeps0, fetches0, file0, world, toFloat, transform, traces);
      WaveStep(|started|, Max(1, numThreads));
      waiting := threads + [batch];
      AppendAssoc(joined, threads, [batch]);
      started := started + [batch];
      if |waiting| > peakInFlight {
        peakInFlight := |waiting|;
      }
      if |waiting| >= numThreads {
        joined := joined + waiting;
        waiting := [];
      }
    }

    /** The admission loop `for i in range(checkpoint, total_batches)`
        (migration.py:135-145), from a state with no thread started. It
        leaves the threads of the last, incomplete wave waiting. */
    method AdmitAll(total: int, world: World, toFloat: Decimal -> Float, transform: Transformer, ghost traces: Traces)
      returns (threads: seq<Batch>)
      requires Implements(transform, toFloat)
      requires TracesOf(traces, checkpoint, batchSize, world, transform)
      modifies this`sink, this`sleeps, this`fetches, this`checkpointFile
      modifies this`started, this`joined, this`peakInFlight, this`outcomes
      ensures Waves(total, threads) && ThreadsRan(total, old(sink), old(sleeps), old(fetches), old(checkpointFile), traces)
    {
      started, joined, outcomes, peakInFlight := [], [], [], 0;
      threads := [];
      var i := checkpoint;
      while i < total
        invariant checkpoint <= i && (i <= total || i == checkpoint)
        invariant Waves(i, threads) && ThreadsRan(i, old(sink), old(sleeps), old(fetches), old(checkpointFile), traces)
        decreases total - i
      {
        threads := AdmitBatch(i, threads, old(sink), old(sleeps), old(fetches), old(checkpointFile), world, toFloat, transform, traces);
        i := i + 1;
      }
    }

    /** The whole run (migration.py:124-154): the batch count, the
        admission loop, the final joins and the cleanup. */
    method Run(world: World, toFloat: Decimal -> Float, transform: Transformer, ghost traces: Traces)
      returns (result: RunResult)
      requires Implements(transform, toFloat)
      requires TracesOf(traces, checkpoint, batchSize, world, transform)
      modifies this`sink, this`sleeps, this`fetches, this`checkpointFile
      modifies this`started, this`joined, this`peakInFlight, this`outcomes
      ensures result == Crashed <==> batchSize == 0
      ensures result == Crashed ==>
        sink == old(sink) && checkpointFile == old(checkpointFile) && started == old(started) &&
        sleeps == old(sleeps) && fetches == old(fetches) && joined == old(joined) &&
        outcomes == old(outcomes) && peakInFlight == old(peakInFlight)
      ensures result == Finished ==>
        var total := TotalBatches(totalRecords, batchSize).value;
        started == Batches(checkpoint, total, batchSize) &&
        joined == started &&
        peakInFlight == Min(|started|, Max(1, numThreads)) &&
        outcomes == RunOutcomes(checkpoint, total, traces) &&
        sink == old(sink) + RunInserted(checkpoint, total, traces) &&
        sleeps == old(sleeps) + RunSleeps(checkpoint, total, traces) &&
        fetches == old(fetches) + RunFetches(query, checkpoint, total, batchSize, traces) &&
        checkpointFile == None
    {
      var totalBatches := TotalBatches(totalRecords, batchSize);
      if totalBatches.None? {
        return Crashed;
      }
      var threads := AdmitAll(totalBatches.value, world, toFloat, transform, traces);
      joined := joined + threads;
      if checkpointFile.Some? {
        checkpointFile := None;
      }
      return Finished;
    }
  }
}

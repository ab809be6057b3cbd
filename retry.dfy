/** What one call of `migrate_data` (migration.py:71-121) does, as a pure
    function of the checkpoint it compares against and of what the source,
    the sink and the file system do on each attempt. */
module Retry {
  import opened Wrappers
  import opened Values
  import opened Records

  /** How the fetch of one attempt went: `pg_conn.cursor()` raised, so no
      query was run; the query was run but `execute`, `fetchall` or the
      column description raised; or the column names and the rows. */
  datatype Fetch = CursorFailed | QueryFailed | Fetched(columns: seq<string>, rows: seq<Row>)

  /** How the outside world behaves on one attempt: the fetch, whether
      `insert_many` would succeed, and whether writing the checkpoint file
      would succeed. */
  datatype Attempt = Attempt(fetch: Fetch, insertOk: bool, writeOk: bool)

  /** The behaviour of the outside world on attempt `n` of the query with
      the given offset and limit: `World(offset, limit, n)`. */
  type World = (int, int, nat) -> Attempt

  /** `retries`, the default of `migrate_data`'s parameter, which the
      thread calls never override. */
  const DefaultRetries: int := 3

  /** The delay in seconds after failed attempt `n`. */
  function Backoff(n: int): int {
    5 * n
  }

  /** What ends a call: the skip test, success on some attempt, or the
      critical "failed after N attempts" message. */
  datatype Outcome = Skipped | Migrated(attempt: nat) | Exhausted(retries: int)

  /** The effect of one attempt: the records it got into the sink, whether
      it got to the end of the `try` block, and whether it ran the data
      query. */
  datatype Step = Step(inserted: seq<Record>, succeeded: bool, queried: bool)

  /** One pass through the `try` block of migration.py:78-113. An empty
      batch skips the insert; a failed insert or a failed checkpoint write
      raises, and the attempt fails. */
  function AttemptEffect(a: Attempt, transform: Transformer): Step {
    match a.fetch
    case CursorFailed => Step([], false, false)
    case QueryFailed => Step([], false, true)
    case Fetched(columns, rows) =>
      var records := transform(columns, rows);
      if records != [] && !a.insertOk then Step([], false, true)
      else Step(records, a.writeOk, true)
  }

  /** An attempt succeeds exactly when the fetch succeeds, the insert
      succeeds or is not needed, and the checkpoint write succeeds; the only
      records it leaves in the sink are the fetched rows, transformed, and
      only when the insert ran and succeeded; and it runs the data query
      unless it could not get a cursor. */
  lemma AttemptEffectSpec(a: Attempt, transform: Transformer)
    ensures var s := AttemptEffect(a, transform);
      (s.succeeded <==>
        a.fetch.Fetched? && a.writeOk &&
        (transform(a.fetch.columns, a.fetch.rows) == [] || a.insertOk)) &&
      (s.inserted != [] ==>
        a.fetch.Fetched? && a.insertOk && s.inserted == transform(a.fetch.columns, a.fetch.rows)) &&
      (a.fetch.Fetched? && a.insertOk ==> s.inserted == transform(a.fetch.columns, a.fetch.rows)) &&
      (s.succeeded ==> s.inserted == transform(a.fetch.columns, a.fetch.rows)) &&
      (s.queried <==> !a.fetch.CursorFailed?)
  {
  }

  /** The effect of each attempt, by attempt number. */
  type Steps = nat -> Step

  /** The effects of the attempts of the query with the given offset and
      limit. */
  function StepsOf(world: World, offset: int, limit: int, transform: Transformer): Steps {
    (n: nat) => AttemptEffect(world(offset, limit, n), transform)
  }

  /** The whole record of one call: how it ended, what it inserted (in
      order), the sleeps it made, how many attempts it started and how many
      of them ran the data query. */
  datatype Trace = Trace(outcome: Outcome, inserted: seq<Record>, sleeps: seq<int>, attempts: nat, queries: nat)

  /** The number of data queries one attempt runs. */
  function QueriesRun(s: Step): nat {
    if s.queried then 1 else 0
  }

  predicate Succeeds(steps: Steps, n: nat) {
    steps(n).succeeded
  }

  /** Attempts `k` to `retries` of the `for attempt` loop. */
  function Attempts(k: nat, retries: int, steps: Steps): Trace
    requires k >= 1
    decreases retries - k + 1
  {
    if k > retries then Trace(Exhausted(retries), [], [], 0, 0)
    else if steps(k).succeeded then Trace(Migrated(k), steps(k).inserted, [], 1, QueriesRun(steps(k)))
    else
      var t := Attempts(k + 1, retries, steps);
      Trace(t.outcome, steps(k).inserted + t.inserted, [Backoff(k)] + t.sleeps, 1 + t.attempts, QueriesRun(steps(k)) + t.queries)
  }

  /** One more attempt of the loop, seen from attempt `k`. */
  lemma AttemptsUnfold(k: nat, retries: int, steps: Steps)
    requires 1 <= k <= retries
    ensures var t := Attempts(k, retries, steps);
      var r := Attempts(k + 1, retries, steps);
      if steps(k).succeeded then t == Trace(Migrated(k), steps(k).inserted, [], 1, QueriesRun(steps(k)))
      else t == Trace(r.outcome, steps(k).inserted + r.inserted, [Backoff(k)] + r.sleeps, 1 + r.attempts, QueriesRun(steps(k)) + r.queries)
  {
  }

  /** `migrate_data(batch_id, offset, limit, retries)` against a checkpoint
      value, `steps` being the effects of its attempts. */
  function MigrateSpec(checkpoint: int, batchId: int, retries: int, steps: Steps): Trace {
    if batchId < checkpoint then Trace(Skipped, [], [], 0, 0)
    else Attempts(1, retries, steps)
  }

  /** The sleeps after failed attempts `k` to `j - 1`. */
  function Backoffs(k: int, j: int): (s: seq<int>)
    ensures |s| == if j <= k then 0 else j - k
    ensures forall i :: 0 <= i < |s| ==> s[i] == Backoff(k + i)
    decreases j - k
  {
    if j <= k then [] else [Backoff(k)] + Backoffs(k + 1, j)
  }

  function Max(a: int, b: int): int {
    if a < b then b else a
  }

  /** The retry loop from attempt `k` on: it stops at the FIRST attempt
      that succeeds, never goes past attempt `retries`, sleeps `5 * n`
      after every failed attempt `n` (the last one included), and reports
      exhaustion exactly when every attempt failed. */
  lemma {:induction false} AttemptsSpec(k: nat, retries: int, steps: Steps)
    requires k >= 1
    decreases retries - k + 1
    ensures var t := Attempts(k, retries, steps);
      (t.outcome.Migrated? || t.outcome == Exhausted(retries)) &&
      (t.outcome.Migrated? ==>
        k <= t.outcome.attempt <= retries &&
        Succeeds(steps, t.outcome.attempt) &&
        (forall n :: k <= n < t.outcome.attempt ==> !Succeeds(steps, n)) &&
        t.attempts == t.outcome.attempt - k + 1 &&
        t.sleeps == Backoffs(k, t.outcome.attempt)) &&
      (t.outcome.Exhausted? <==> forall n :: k <= n <= retries ==> !Succeeds(steps, n)) &&
      (t.outcome.Exhausted? ==>
        t.attempts == Max(0, retries - k + 1) &&
        t.sleeps == Backoffs(k, retries + 1))
  {
    if k <= retries {
      if steps(k).succeeded {
        assert Succeeds(steps, k);
      } else {
        assert !Succeeds(steps, k);
        AttemptsSpec(k + 1, retries, steps);
        var t := Attempts(k + 1, retries, steps);
        assert Backoffs(k, retries + 1) == [Backoff(k)] + Backoffs(k + 1, retries + 1);
        if t.outcome.Migrated? {
          assert Backoffs(k, t.outcome.attempt) == [Backoff(k)] + Backoffs(k + 1, t.outcome.attempt);
        }
      }
    }
  }

  /** The data queries of the loop from attempt `k` on: at most one per
      attempt, one for every attempt when each of them got a cursor, and
      none when none of them did. */
  lemma {:induction false} AttemptsQueries(k: nat, retries: int, steps: Steps)
    requires k >= 1
    decreases retries - k + 1
    ensures var t := Attempts(k, retries, steps);
      t.queries <= t.attempts &&
      ((forall n :: k <= n < k + t.attempts ==> steps(n).queried) ==> t.queries == t.attempts) &&
      ((forall n :: k <= n < k + t.attempts ==> !steps(n).queried) ==> t.queries == 0)
  {
    if k <= retries && !steps(k).succeeded {
      AttemptsQueries(k + 1, retries, steps);
    }
  }

  /** What the attempt that succeeds inserts are the last records the
      call inserts. */
  lemma {:induction false} MigratedEndsWithItsStep(k: nat, retries: int, steps: Steps)
    requires k >= 1
    requires Attempts(k, retries, steps).outcome.Migrated?
    decreases retries - k + 1
    ensures var t := Attempts(k, retries, steps);
      var last := steps(t.outcome.attempt).inserted;
      |last| <= |t.inserted| && t.inserted[|t.inserted| - |last|..] == last
  {
    if !steps(k).succeeded {
      MigratedEndsWithItsStep(k + 1, retries, steps);
      var t := Attempts(k + 1, retries, steps);
      var whole := steps(k).inserted + t.inserted;
      assert whole[|steps(k).inserted|..] == t.inserted;
      var last := steps(t.outcome.attempt).inserted;
      assert whole[|whole| - |last|..] == t.inserted[|t.inserted| - |last|..];
    }
  }

  /** A successful call ends with this batch's rows, transformed, in the
      sink: the records of the attempt that got through come last. */
  lemma MigratedEndsWithItsRows(offset: int, limit: int, retries: int, world: World, transform: Transformer)
    requires Attempts(1, retries, StepsOf(world, offset, limit, transform)).outcome.Migrated?
    ensures var t := Attempts(1, retries, StepsOf(world, offset, limit, transform));
      var a := world(offset, limit, t.outcome.attempt);
      a.fetch.Fetched? &&
      var records := transform(a.fetch.columns, a.fetch.rows);
      |records| <= |t.inserted| && t.inserted[|t.inserted| - |records|..] == records
  {
    var steps := StepsOf(world, offset, limit, transform);
    AttemptsSpec(1, retries, steps);
    MigratedEndsWithItsStep(1, retries, steps);
    var t := Attempts(1, retries, steps);
    AttemptEffectSpec(world(offset, limit, t.outcome.attempt), transform);
  }

  /** The skip test: a batch below the checkpoint is left alone (no fetch,
      no insert, no sleep, no checkpoint write); any other batch is not
      skipped. */
  lemma MigrateSkipsExactlyBelowCheckpoint(checkpoint: int, batchId: int, retries: int, steps: Steps)
    ensures var t := MigrateSpec(checkpoint, batchId, retries, steps);
      (t.outcome == Skipped <==> batchId < checkpoint) &&
      (t.outcome == Skipped ==> t.inserted == [] && t.sleeps == [] && t.attempts == 0 && t.queries == 0)
  {
    if batchId >= checkpoint {
      AttemptsSpec(1, retries, steps);
    }
  }

  /** The example of a source that fails twice and then succeeds, with
      three retries: the batch is migrated on attempt 3 after exactly the
      sleeps 5 and 10. */
  lemma TwoFailuresThenSuccess(steps: Steps)
    requires !Succeeds(steps, 1) && !Succeeds(steps, 2) && Succeeds(steps, 3)
    ensures var t := MigrateSpec(0, 0, DefaultRetries, steps);
      t.outcome == Migrated(3) && t.sleeps == [5, 10] && t.attempts == 3
  {
  }
}

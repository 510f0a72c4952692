/**
 Queue jobs, backend/src/queue/queue.service.ts and queue.constants.ts: the table row that mirrors a
 BullMQ job, its retries and its waiting times.
 */
module JobModel {
  import opened Options
  import opened Sequences

  datatype Status = Waiting | Active | Completed | Failed
  datatype Row = Row(status: Status, attempts: nat, maxAttempts: nat, error: Option<string>)

  const RETRY_DELAYS_MS: seq<nat> := [5000, 15000, 30000]

  /** `getRetryDelay`: an index outside the table gives the last delay. */
  function RetryDelay(attemptsMade: int): nat {
    if 0 <= attemptsMade - 1 < |RETRY_DELAYS_MS| then RETRY_DELAYS_MS[attemptsMade - 1] else RETRY_DELAYS_MS[|RETRY_DELAYS_MS| - 1]
  }

  function Max(a: nat, b: nat): nat { if a < b then b else a }

  function Created(maxAttempts: nat): Row { Row(Waiting, 0, maxAttempts, None) }

  function Started(r: Row, attemptsStarted: nat): Row { r.(status := Active, attempts := attemptsStarted) }

  function Finished(r: Row, made: nat, started: nat): Row {
    r.(status := Completed, attempts := Max(made, started), error := None)
  }

  /** `attempts` is the job's own option, which counts as 1 when it is missing. */
  function FailedOnce(r: Row, made: nat, started: nat, attempts: Option<nat>, error: string): Row {
    var maxAttempts := if attempts.Some? then attempts.value else 1;
    var attemptsMade := Max(made, started);
    r.(status := if attemptsMade < maxAttempts then Waiting else Failed, attempts := attemptsMade, error := Some(error))
  }

  // ---------- A job and its row, event by event ----------

  /** The BullMQ side of a job; `waited` adds up the backoff delays it was given. */
  datatype Phase = Queued | Running | Done
  datatype Job = Job(phase: Phase, started: nat, made: nat, attempts: nat, waited: nat)

  datatype World = World(job: Job, row: Row)

  datatype Event = Begin | Succeed | Fail(message: string)

  function Enqueued(attempts: nat): World {
    World(Job(Queued, 0, 0, attempts, 0), Created(attempts))
  }

  /** The worker takes a queued job, and a running one succeeds or fails; a failed one is queued again
      with the worker's backoff while attempts are left. Each event is recorded in the row. */
  function Step(w: World, e: Event): World {
    var j := w.job;
    match e
    case Begin =>
      if j.phase != Queued then w
      else World(j.(phase := Running, started := j.started + 1), Started(w.row, j.started + 1))
    case Succeed =>
      if j.phase != Running then w
      else World(j.(phase := Done, made := j.made + 1), Finished(w.row, j.made + 1, j.started))
    case Fail(message) =>
      if j.phase != Running then w
      else
        var made := j.made + 1;
        World(if made < j.attempts then j.(phase := Queued, made := made, waited := j.waited + RetryDelay(made))
              else j.(phase := Done, made := made),
              FailedOnce(w.row, made, j.started, Some(j.attempts), message))
  }

  function Run(w: World, events: seq<Event>): World {
    if events == [] then w else Step(Run(w, Front(events)), Last(events))
  }

  /** The row says what the job does. */
  ghost predicate InStep(w: World) {
    var (j, r) := (w.job, w.row);
    && j.attempts >= 1 && r.maxAttempts == j.attempts
    && j.started <= j.attempts && j.made <= j.started <= j.made + 1
    && r.attempts == j.started
    && (j.phase == Queued <==> r.status == Waiting) && (j.phase == Running <==> r.status == Active)
    && (j.phase == Queued ==> j.made == j.started < j.attempts)
    && (j.phase == Running ==> j.started == j.made + 1)
    && (r.status == Failed ==> j.started == j.attempts)
  }

  /** Over every run of a job with at least one attempt: row and job stay in step, the row never counts
      more than the allowed attempts, and a job that is given up has used all of them. */
  lemma {:induction false} RunStaysInStep(attempts: nat, events: seq<Event>)
    requires attempts >= 1
    ensures InStep(Run(Enqueued(attempts), events)) && Run(Enqueued(attempts), events).job.attempts == attempts
  {
    if events != [] {
      RunStaysInStep(attempts, Front(events));
    }
  }

  /** What is recorded of the outcome of an attempt: a success clears the error; a failure keeps its message and
      leaves the job waiting while attempts are left, with the worker's delay, and failed otherwise. */
  lemma OutcomeRecorded(w: World, e: Event)
    requires InStep(w)
    ensures var w' := Step(w, e);
            match e
            case Begin => w.job.phase == Queued ==> w'.row == Row(Active, w.job.started + 1, w.row.maxAttempts, w.row.error)
            case Succeed => w.job.phase == Running ==> w'.row == Row(Completed, w.job.started, w.row.maxAttempts, None) && w'.job.phase == Done
            case Fail(message) =>
              w.job.phase == Running ==>
                && w'.row == Row(w'.row.status, w.job.started, w.row.maxAttempts, Some(message))
                && w'.row.status == (if w.job.started < w.job.attempts then Waiting else Failed)
                && w'.job.waited == w.job.waited + (if w.job.started == w.job.attempts then 0 else if w.job.started == 1 then 5000
                                                    else if w.job.started == 2 then 15000 else 30000)
    ensures Step(w, e).job.attempts == w.job.attempts
  {
  }

  /** Whatever counters the worker reports, a failure is final if and only if as many attempts as the job allows
      were made or started, a job without the option being allowed one; the greater counter is recorded. */
  lemma FailureFinalIff(r: Row, made: nat, started: nat, attempts: Option<nat>, error: string)
    ensures var r' := FailedOnce(r, made, started, attempts, error);
            && (r'.status == Failed <==> match attempts
                                         case Some(allowed) => made >= allowed || started >= allowed
                                         case None => made >= 1 || started >= 1)
            && (r'.status != Failed ==> r'.status == Waiting)
            && made <= r'.attempts && started <= r'.attempts && r'.attempts in {made, started}
            && r'.error == Some(error) && r'.maxAttempts == r.maxAttempts
  {
  }

  /** The bound on recorded attempts holds over all runs exactly when at least one attempt is allowed. */
  lemma AttemptsWithinIff(attempts: nat)
    ensures (forall events :: Run(Enqueued(attempts), events).row.attempts <= attempts) <==> attempts >= 1
  {
    if attempts == 0 {
      assert Front([Begin]) == [] && Last([Begin]) == Begin;
      assert Run(Enqueued(0), [Begin]).row.attempts == 1;
    } else {
      forall events
        ensures Run(Enqueued(attempts), events).row.attempts <= attempts
      {
        RunStaysInStep(attempts, events);
      }
    }
  }

  /** Events that can still happen. */
  function Left(w: World): int {
    if w.job.phase == Done then 0
    else 2 * (w.job.attempts - w.job.started) + (if w.job.phase == Running then 1 else 0)
  }

  /** Every event that does anything brings the job nearer to its end, and one can happen until then. */
  lemma JobEnds(w: World, e: Event)
    requires InStep(w)
    ensures Step(w, e) == w || 0 <= Left(Step(w, e)) < Left(w)
    ensures w.row.status != Completed && w.row.status != Failed ==> Step(w, Begin) != w || Step(w, Succeed) != w
    ensures w.row.status == Completed || w.row.status == Failed ==> Step(w, e) == w
  {
  }

  // ---------- Waiting times ----------

  /** A job that fails `n` times in a row. */
  function Failing(n: nat, message: string): seq<Event> {
    if n == 0 then [] else Failing(n - 1, message) + [Begin, Fail(message)]
  }

  function DelaySum(n: nat): nat { if n == 0 then 0 else DelaySum(n - 1) + RetryDelay(n) }

  lemma {:induction false} DelaySumClosed(n: nat)
    ensures n >= 2 ==> DelaySum(n) == 20000 + 30000 * (n - 2)
  {
    if n > 2 {
      DelaySumClosed(n - 1);
    } else if n == 2 {
      assert DelaySum(1) == DelaySum(0) + RetryDelay(1);
    }
  }

  lemma {:induction false} FailingSoFar(attempts: nat, n: nat, message: string)
    requires 1 <= attempts && n <= attempts
    ensures var w := Run(Enqueued(attempts), Failing(n, message));
            && w.job.started == w.job.made == n && w.job.attempts == attempts
            && w.job.phase == (if n < attempts then Queued else Done)
            && w.job.waited == DelaySum(if n < attempts then n else attempts - 1)
            && (n == attempts ==> w.row.status == Failed && w.row.attempts == n && w.row.error == Some(message))
  {
    hide RetryDelay;
    if n > 0 {
      FailingSoFar(attempts, n - 1, message);
      var before := Failing(n - 1, message);
      var w := Run(Enqueued(attempts), before);
      FrontLast(before, Begin);
      FrontLast(before + [Begin], Fail(message));
      assert before + [Begin, Fail(message)] == before + [Begin] + [Fail(message)];
      assert Run(Enqueued(attempts), Failing(n, message)) == Step(Step(w, Begin), Fail(message));
      assert w.job.phase == Queued;
    }
  }

  /** A job with `n` attempts that always fails is given up after exactly `n` runs, having waited nothing
      for one attempt, 5 seconds for two, and 20 + 30 (n - 3) seconds for three or more. */
  lemma AlwaysFailing(n: nat, message: string)
    requires n >= 1
    ensures var w := Run(Enqueued(n), Failing(n, message));
            && w.row.status == Failed && w.row.attempts == n
            && w.job.waited == (if n == 1 then 0 else if n == 2 then 5000 else 20000 + 30000 * (n - 3))
  {
    FailingSoFar(n, n, message);
    DelaySumClosed(n - 1);
    if n == 2 {
      assert DelaySum(1) == DelaySum(0) + RetryDelay(1);
    }
  }

  /** `recordJobFailed` logs the delay of the next attempt's number, the worker waits that of the attempt
      just made: the log is right exactly from the third failure on. */
  lemma LoggedDelayIff(made: nat)
    requires made >= 1
    ensures RetryDelay(made + 1) == RetryDelay(made) <==> made >= 3
  {
  }
}

/** The service object: rows by BullMQ job id. */
module JobObjects {
  import opened Options
  import opened Spec = JobModel

  /** What a worker event carries of the job. */
  datatype JobView = JobView(id: string, made: nat, started: nat, attempts: Option<nat>)

  class QueueService {
    var rows: map<string, Row>

    constructor ()
      ensures rows == map[]
    {
      rows := map[];
    }

    /** `addError` is what the queue answers when it does not take the job. */
    method Enqueue(bullJobId: string, attempts: Option<nat>, addError: Option<string>) returns (r: Result<Row, string>)
      requires bullJobId !in rows
      modifies this
      ensures rows.Keys == old(rows).Keys + {bullJobId}
      ensures forall id :: id in old(rows) ==> rows[id] == old(rows)[id]
      ensures var row := Created(if attempts.Some? then attempts.value else 3);
              match addError
              case None => r == Ok(row) && rows[bullJobId] == row
              case Some(message) => r == Err(message) && rows[bullJobId] == row.(status := Failed, error := addError)
    {
      var row := Row(Waiting, 0, if attempts.Some? then attempts.value else 3, None);
      rows := rows[bullJobId := row];
      if addError.Some? {
        rows := rows[bullJobId := row.(status := Failed, error := addError)];
        return Err(addError.value);
      }
      r := Ok(row);
    }

    method RecordJobStarted(job: JobView)
      modifies this
      ensures rows == if job.id in old(rows) then old(rows)[job.id := Started(old(rows)[job.id], job.started)] else old(rows)
    {
      if job.id in rows {
        rows := rows[job.id := rows[job.id].(status := Active, attempts := job.started)];
      }
    }

    method RecordJobCompleted(job: JobView)
      modifies this
      ensures rows ==
              if job.id in old(rows) then old(rows)[job.id := Finished(old(rows)[job.id], job.made, job.started)] else old(rows)
    {
      if job.id in rows {
        var attempts := if job.made < job.started then job.started else job.made;
        rows := rows[job.id := rows[job.id].(status := Completed, attempts := attempts, error := None)];
      }
    }

    method RecordJobFailed(job: Option<JobView>, error: string)
      modifies this
      ensures rows ==
              if job.Some? && job.value.id in old(rows)
              then old(rows)[job.value.id := FailedOnce(old(rows)[job.value.id], job.value.made, job.value.started, job.value.attempts, error)]
              else old(rows)
    {
      if job.None? {
        return;
      }
      var j := job.value;
      var maxAttempts := if j.attempts.Some? then j.attempts.value else 1;
      var attemptsMade := if j.made < j.started then j.started else j.made;
      if j.id !in rows {
        return;
      }
      if attemptsMade < maxAttempts {
        rows := rows[j.id := rows[j.id].(status := Waiting, attempts := attemptsMade, error := Some(error))];
        return;
      }
      rows := rows[j.id := rows[j.id].(status := Failed, attempts := attemptsMade, error := Some(error))];
    }
  }
}

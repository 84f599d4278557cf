/** The life of jobs across the job table, the waiting and active sets, and the worker tasks
    (src/api/tasks.py, src/api/routers/jobs.py, src/api/queue_manager.py, src/api/db.py).

    One step is one API call, the start of a worker task, or its end including its `finally`. The
    task queue is a bag of job ids; stopping a cancelled task may or may not succeed; a worker may
    die without running its `finally`. Each job keeps books: how often its pipeline was started, how
    often it was retried by hand, and the delays of its automatic retries since it was last submitted. */
module Lifecycle {
  import opened Geometric
  import opened Prelude
  import Queue = QueueManager

  datatype Row = Row(status: Status, retryCount: nat)

  datatype Config = Config(maxRetries: nat, baseDelay: real, multiplier: real)

  datatype Books = Books(runs: nat, manual: nat, delays: seq<real>)

  datatype State = State(
    rows: map<JobId, Row>,
    waiting: set<JobId>,
    active: set<JobId>,
    queued: multiset<JobId>,
    running: multiset<JobId>,
    used: set<JobId>,
    books: map<JobId, Books>)
  {
    function BooksOf(job: JobId): Books {
      if job in books then books[job] else Books(0, 0, [])
    }
  }

  const EMPTY := State(map[], {}, {}, multiset{}, multiset{}, {}, map[])

  datatype Step =
    | Create(job: JobId)
    | Start(job: JobId)
    | Succeed(job: JobId)
    | Fail(job: JobId, retryable: bool)
    | Crash(job: JobId)
    | Cancel(job: JobId, stopped: bool)
    | Retry(job: JobId)
    | Delete(job: JobId)

  /** New ids are new; a worker takes a task that is queued and ends one that is running. API calls
      are always possible, and change nothing when they are answered with 404 or 409. */
  predicate Enabled(st: State, step: Step) {
    match step
    case Create(job) => job !in st.used
    case Start(job) => job in st.queued
    case Succeed(job) => job in st.running
    case Fail(job, _) => job in st.running
    case Crash(job) => job in st.running
    case _ => true
  }

  function DelayOf(config: Config, retryCount: nat): real {
    config.baseDelay * Pow(config.multiplier, retryCount)
  }

  /** `JobStore.update` of the status; a missing row is left missing. */
  function WithStatus(rows: map<JobId, Row>, job: JobId, status: Status): map<JobId, Row> {
    if job in rows then rows[job := rows[job].(status := status)] else rows
  }

  predicate Cancellable(status: Status) {
    status == Pending || status == Processing || status == Retrying
  }

  /** What `_handle_pipeline_error` does: retry, or re-register a job that has no row, or give up. */
  function Handled(config: Config, st: State, job: JobId, retryable: bool): State {
    var books, count := st.BooksOf(job), if job in st.rows then st.rows[job].retryCount else 0;
    if !(retryable && count < config.maxRetries) then st.(rows := WithStatus(st.rows, job, Failed))
    else if job !in st.rows then st.(waiting := st.waiting + {job})
    else
      st.(rows := st.rows[job := Row(Retrying, count + 1)], waiting := st.waiting + {job},
          queued := st.queued + multiset{job},
          books := st.books[job := books.(delays := books.delays + [DelayOf(config, count)])])
  }

  /** The `finally` of `run_pipeline`. */
  function Concluded(st: State, job: JobId): State {
    st.(active := st.active - {job}, running := st.running - multiset{job})
  }

  function Apply(config: Config, st: State, step: Step): State
    requires Enabled(st, step)
  {
    var job, books := step.job, st.BooksOf(step.job);
    match step
    case Create(_) =>
      st.(rows := st.rows[job := Row(Pending, 0)], waiting := st.waiting + {job}, queued := st.queued + multiset{job},
          used := st.used + {job})
    case Start(_) =>
      st.(rows := WithStatus(st.rows, job, Processing), waiting := st.waiting - {job}, active := st.active + {job},
          queued := st.queued - multiset{job}, running := st.running + multiset{job},
          books := st.books[job := books.(runs := books.runs + 1)])
    case Succeed(_) => Concluded(st.(rows := WithStatus(st.rows, job, Completed)), job)
    case Fail(_, retryable) => Concluded(Handled(config, st, job, retryable), job)
    case Crash(_) => st.(running := st.running - multiset{job})
    case Cancel(_, stopped) =>
      if job !in st.rows || !Cancellable(st.rows[job].status) then st
      else
        var rows := WithStatus(st.rows, job, Cancelled);
        var st' := st.(rows := rows, waiting := st.waiting - {job}, active := st.active - {job});
        if stopped then st'.(queued := st.queued - multiset{job}, running := st.running - multiset{job}) else st'
    case Retry(_) =>
      if job !in st.rows || st.rows[job].status != Failed then st
      else
        st.(rows := st.rows[job := Row(Pending, 0)], waiting := st.waiting + {job}, queued := st.queued + multiset{job},
            books := st.books[job := books.(manual := books.manual + 1, delays := [])])
    case Delete(_) =>
      if job !in st.rows || st.rows[job].status == Processing || st.rows[job].status == Retrying then st
      else st.(rows := st.rows - {job})
  }

  /** How the tasks, the sets and the row of one job hang together. */
  ghost predicate Consistent(st: State, job: JobId) {
    var waiting, active, queued, running := job in st.waiting, job in st.active, st.queued[job], st.running[job];
    && queued + running <= 1
    && (job !in st.used ==> job !in st.rows && !waiting && !active && queued + running == 0)
    && (active ==> queued == 0 && !waiting && (job in st.rows ==> st.rows[job].status == Processing))
    && (running == 1 ==> !waiting)
    && (job in st.rows ==>
          match st.rows[job].status
          case Pending => waiting && queued == 1
          case Retrying => waiting && queued == 1
          case Processing => active
          case Cancelled => !waiting
          case _ => !waiting && queued + running == 0)
  }

  /** (m + 1) * (P + 1). */
  function Budget(manual: nat, maxRetries: nat): nat {
    if manual == 0 then maxRetries + 1 else Budget(manual - 1, maxRetries) + maxRetries + 1
  }

  lemma {:induction false} BudgetClosedForm(manual: nat, maxRetries: nat)
    ensures Budget(manual, maxRetries) == (manual + 1) * (maxRetries + 1)
  {
    if manual > 0 {
      BudgetClosedForm(manual - 1, maxRetries);
      assert (manual + 1) * (maxRetries + 1) == manual * (maxRetries + 1) + (maxRetries + 1);
    }
  }

  /** The potential: runs so far, plus the outstanding task if it has not started, plus the automatic
      retries the row still allows, stay within the budget. */
  ghost predicate Budgeted(config: Config, st: State, job: JobId) {
    var books, budget := st.BooksOf(job), Budget(st.BooksOf(job).manual, config.maxRetries);
    && books.runs + st.queued[job] <= budget
    && (job !in st.used ==> books == Books(0, 0, []))
    && (job in st.rows ==>
          var count := st.rows[job].retryCount;
          && count <= config.maxRetries
          && books.delays == seq(count, i requires 0 <= i < count => DelayOf(config, i))
          && (st.queued[job] + st.running[job] > 0 ==>
                books.runs + st.queued[job] + config.maxRetries - count <= budget))
  }

  ghost predicate Inv(config: Config, st: State) {
    forall job :: Consistent(st, job) && Budgeted(config, st, job)
  }

  /** A step leaves the other jobs alone. */
  ghost predicate SameFor(st: State, st': State, job: JobId) {
    && (job in st'.rows <==> job in st.rows) && (job in st.rows ==> st'.rows[job] == st.rows[job])
    && (job in st'.waiting <==> job in st.waiting) && (job in st'.active <==> job in st.active)
    && st'.queued[job] == st.queued[job] && st'.running[job] == st.running[job]
    && (job in st'.used <==> job in st.used) && st'.BooksOf(job) == st.BooksOf(job)
  }

  lemma OtherJobHandled(config: Config, st: State, failed: JobId, retryable: bool, job: JobId)
    requires job != failed
    ensures SameFor(st, Handled(config, st, failed, retryable), job)
  {
  }

  lemma OtherJobConcluded(st: State, ended: JobId, job: JobId)
    requires job != ended
    ensures SameFor(st, Concluded(st, ended), job)
  {
  }

  lemma OtherJobSubmitted(config: Config, st: State, step: Step, job: JobId)
    requires Enabled(st, step) && job != step.job && (step.Create? || step.Retry?)
    ensures SameFor(st, Apply(config, st, step), job)
  {
  }

  lemma OtherJobCancelled(config: Config, st: State, cancelled: JobId, stopped: bool, job: JobId)
    requires job != cancelled
    ensures SameFor(st, Apply(config, st, Cancel(cancelled, stopped)), job)
  {
  }

  lemma OtherJobDeleted(config: Config, st: State, deleted: JobId, job: JobId)
    requires job != deleted
    ensures SameFor(st, Apply(config, st, Delete(deleted)), job)
  {
  }

  lemma OtherJobSame(config: Config, st: State, step: Step, job: JobId)
    requires Enabled(st, step) && job != step.job
    ensures SameFor(st, Apply(config, st, step), job)
  {
    match step
    case Fail(failed, retryable) =>
      OtherJobHandled(config, st, failed, retryable, job);
      OtherJobConcluded(Handled(config, st, failed, retryable), failed, job);
    case Create(_) => OtherJobSubmitted(config, st, step, job);
    case Retry(_) => OtherJobSubmitted(config, st, step, job);
    case Cancel(cancelled, stopped) => OtherJobCancelled(config, st, cancelled, stopped, job);
    case Delete(deleted) => OtherJobDeleted(config, st, deleted, job);
    case _ =>
  }

  lemma OtherJobKeeps(config: Config, st: State, st': State, job: JobId)
    requires Consistent(st, job) && Budgeted(config, st, job) && SameFor(st, st', job)
    ensures Consistent(st', job) && Budgeted(config, st', job)
  {
  }

  lemma OwnJobConsistent(config: Config, st: State, step: Step)
    requires Consistent(st, step.job) && Enabled(st, step)
    ensures Consistent(Apply(config, st, step), step.job)
  {
  }

  lemma FailureBudgeted(config: Config, st: State, job: JobId, retryable: bool)
    requires Consistent(st, job) && Budgeted(config, st, job) && st.running[job] == 1
    ensures Budgeted(config, Concluded(Handled(config, st, job, retryable), job), job)
  {
    if job in st.rows {
      var count := st.rows[job].retryCount;
      assert st.BooksOf(job).delays + [DelayOf(config, count)]
          == seq(count + 1, i requires 0 <= i < count + 1 => DelayOf(config, i));
    }
  }

  lemma OwnJobBudgeted(config: Config, st: State, step: Step)
    requires Consistent(st, step.job) && Budgeted(config, st, step.job) && Enabled(st, step)
    ensures Budgeted(config, Apply(config, st, step), step.job)
  {
    if step.Fail? {
      FailureBudgeted(config, st, step.job, step.retryable);
    }
  }

  lemma StepKeeps(config: Config, st: State, step: Step)
    requires Inv(config, st) && Enabled(st, step)
    ensures Inv(config, Apply(config, st, step))
  {
    var st' := Apply(config, st, step);
    forall job ensures Consistent(st', job) && Budgeted(config, st', job) {
      assert Consistent(st, job) && Budgeted(config, st, job);
      if job == step.job {
        OwnJobConsistent(config, st, step);
        OwnJobBudgeted(config, st, step);
      } else {
        OtherJobSame(config, st, step, job);
        OtherJobKeeps(config, st, st', job);
      }
    }
  }

  predicate Runs(config: Config, st: State, steps: seq<Step>)
    decreases |steps|
  {
    steps == [] || (Enabled(st, steps[0]) && Runs(config, Apply(config, st, steps[0]), steps[1..]))
  }

  function After(config: Config, st: State, steps: seq<Step>): State
    requires Runs(config, st, steps)
    decreases |steps|
  {
    if steps == [] then st else After(config, Apply(config, st, steps[0]), steps[1..])
  }

  lemma {:induction false} RunKeeps(config: Config, st: State, steps: seq<Step>)
    requires Inv(config, st) && Runs(config, st, steps)
    ensures Inv(config, After(config, st, steps))
    decreases |steps|
  {
    if steps != [] {
      StepKeeps(config, st, steps[0]);
      RunKeeps(config, Apply(config, st, steps[0]), steps[1..]);
    }
  }

  /** Main result, for every run: a job has at most one outstanding worker task, is never waiting and
      active at once, waits whenever its row says pending or retrying, and is active whenever its row
      says processing. */
  lemma LifecycleSafe(config: Config, steps: seq<Step>, job: JobId)
    requires Runs(config, EMPTY, steps)
    ensures var st := After(config, EMPTY, steps);
            && st.queued[job] + st.running[job] <= 1
            && !(job in st.waiting && job in st.active)
            && (job in st.rows && st.rows[job].status in {Pending, Retrying} ==>
                  job in st.waiting && st.queued[job] == 1)
            && (job in st.rows && st.rows[job].status == Processing ==> job in st.active)
            && (job in st.rows && st.rows[job].status in {Completed, Failed} ==>
                  job !in st.waiting && job !in st.active && st.queued[job] + st.running[job] == 0)
  {
    RunKeeps(config, EMPTY, steps);
    assert Consistent(After(config, EMPTY, steps), job);
  }

  /** For every run: the queue knows a job exactly as long as it can be cancelled. */
  lemma {:induction false} CancellableExactly(config: Config, steps: seq<Step>, job: JobId)
    requires Runs(config, EMPTY, steps) && job in After(config, EMPTY, steps).rows
    ensures var st := After(config, EMPTY, steps);
            Cancellable(st.rows[job].status) <==> job in st.waiting || job in st.active
  {
    RunKeeps(config, EMPTY, steps);
    assert Consistent(After(config, EMPTY, steps), job);
  }

  /** No task of this job is left, and none can come: it is neither in a set nor waiting for a manual retry. */
  predicate Over(st: State, job: JobId) {
    && job in st.used && st.queued[job] + st.running[job] == 0 && job !in st.waiting && job !in st.active
    && (job in st.rows ==> st.rows[job].status == Cancelled || st.rows[job].status == Completed)
  }

  lemma OverKeeps(config: Config, st: State, step: Step, job: JobId)
    requires Over(st, job) && Enabled(st, step)
    ensures Over(Apply(config, st, step), job) && Apply(config, st, step).BooksOf(job).runs == st.BooksOf(job).runs
    ensures job in Apply(config, st, step).rows ==>
              job in st.rows && Apply(config, st, step).rows[job].status == st.rows[job].status
  {
    if step.job != job {
      OtherJobSame(config, st, step, job);
    }
  }

  lemma {:induction false} StaysOver(config: Config, st: State, steps: seq<Step>, job: JobId)
    requires Over(st, job) && Runs(config, st, steps)
    ensures var st' := After(config, st, steps);
            && Over(st', job) && st'.BooksOf(job).runs == st.BooksOf(job).runs
            && (job in st'.rows ==> job in st.rows && st'.rows[job].status == st.rows[job].status)
    decreases |steps|
  {
    if steps != [] {
      OverKeeps(config, st, steps[0], job);
      StaysOver(config, Apply(config, st, steps[0]), steps[1..], job);
    }
  }

  /** Main result: what is cancelled and stopped stays so. If a cancellation is accepted and stops the worker task,
      no run of the job ever starts again, whatever follows; its row says cancelled until it is deleted. */
  lemma {:induction false} StoppedForGood(config: Config, steps: seq<Step>, job: JobId, more: seq<Step>)
    requires Runs(config, EMPTY, steps)
    requires var st := After(config, EMPTY, steps); job in st.waiting || job in st.active
    requires job in After(config, EMPTY, steps).rows
    requires Runs(config, Apply(config, After(config, EMPTY, steps), Cancel(job, true)), more)
    ensures var st := After(config, EMPTY, steps);
            var st' := After(config, Apply(config, st, Cancel(job, true)), more);
            && st'.BooksOf(job).runs == st.BooksOf(job).runs
            && job !in st'.waiting && job !in st'.active && st'.queued[job] + st'.running[job] == 0
            && (job in st'.rows ==> st'.rows[job].status == Cancelled)
  {
    RunKeeps(config, EMPTY, steps);
    var st := After(config, EMPTY, steps);
    assert Consistent(st, job);
    StaysOver(config, Apply(config, st, Cancel(job, true)), more, job);
  }

  /** The delays of n automatic retries: base, base*mult, ..., base*mult^(n-1). */
  function Delays(config: Config, n: nat): seq<real> {
    seq(n, i requires 0 <= i < n => DelayOf(config, i))
  }

  /** Main result, for every run: the retry count stays within 0..P, m manual retries allow at most
      (m + 1) * (P + 1) pipeline runs, whatever tasks linger, and the delays since the last submission
      are the first terms of the geometric progression. */
  lemma RetriesTerminate(config: Config, steps: seq<Step>, job: JobId, manual: nat)
    requires Runs(config, EMPTY, steps)
    requires After(config, EMPTY, steps).BooksOf(job).manual == manual
    ensures var st := After(config, EMPTY, steps);
            && st.BooksOf(job).runs <= (manual + 1) * (config.maxRetries + 1)
            && (job in st.rows ==>
                  && st.rows[job].retryCount <= config.maxRetries
                  && st.BooksOf(job).delays == Delays(config, st.rows[job].retryCount))
  {
    RunKeeps(config, EMPTY, steps);
    assert Budgeted(config, After(config, EMPTY, steps), job);
    BudgetClosedForm(manual, config.maxRetries);
  }

  lemma DelayGrows(config: Config, n: nat)
    requires n > 0
    ensures DelayOf(config, n) == DelayOf(config, n - 1) * config.multiplier
  {
    var p := Pow(config.multiplier, n - 1);
    assert config.baseDelay * (config.multiplier * p) == config.baseDelay * p * config.multiplier;
  }

  /** The delays in numbers, for every run: one for each retry counted; the first is the base delay, and each later
      one the multiplier times the one before. */
  lemma {:induction false} DelaysGeometric(config: Config, steps: seq<Step>, job: JobId)
    requires Runs(config, EMPTY, steps) && job in After(config, EMPTY, steps).rows
    ensures var st := After(config, EMPTY, steps);
            var delays := st.BooksOf(job).delays;
            && |delays| == st.rows[job].retryCount
            && (delays != [] ==> delays[0] == config.baseDelay)
            && forall i :: 0 < i < |delays| ==> delays[i] == delays[i - 1] * config.multiplier
  {
    RetriesTerminate(config, steps, job, After(config, EMPTY, steps).BooksOf(job).manual);
    assert Pow(config.multiplier, 0) == 1.0;
    forall i: nat | i > 0 ensures DelayOf(config, i) == DelayOf(config, i - 1) * config.multiplier {
      DelayGrows(config, i);
    }
  }

  /** The automatic retries since the last submission wait no longer than base * (mult^P - 1) / (mult - 1). */
  lemma DelaysBounded(config: Config, steps: seq<Step>, job: JobId)
    requires Runs(config, EMPTY, steps) && job in After(config, EMPTY, steps).rows
    requires config.baseDelay >= 0.0 && config.multiplier >= 0.0
    ensures SumOf(After(config, EMPTY, steps).BooksOf(job).delays) <=
            ClosedForm(config.baseDelay, config.multiplier, config.maxRetries,
                       Pow(config.multiplier, config.maxRetries))
  {
    var n := After(config, EMPTY, steps).rows[job].retryCount;
    RetriesTerminate(config, steps, job, After(config, EMPTY, steps).BooksOf(job).manual);
    SumBelow(Delays(config, n), Progression(config.baseDelay, config.multiplier));
    ProgressionGrows(config.baseDelay, config.multiplier, n, config.maxRetries);
    GeometricClosedForm(config.baseDelay, config.multiplier, config.maxRetries);
  }

  /** Deleting a pending job, in every run: the row is gone, but its entry goes on waiting and its task can still
      start. */
  lemma {:induction false} DeletedStillQueued(config: Config, steps: seq<Step>, job: JobId)
    requires Runs(config, EMPTY, steps)
    requires var st := After(config, EMPTY, steps); job in st.rows && st.rows[job].status == Pending
    ensures var st := Apply(config, After(config, EMPTY, steps), Delete(job));
            && job !in st.rows && job in st.waiting && st.queued[job] == 1 && Enabled(st, Start(job))
            && var started := Apply(config, st, Start(job));
               job in started.active && job in started.running && job !in started.rows
  {
    RunKeeps(config, EMPTY, steps);
    assert Consistent(After(config, EMPTY, steps), job);
  }

  /** A waiting entry stands for a queued task. */
  predicate Backed(st: State, job: JobId) {
    job in st.waiting ==> st.queued[job] == 1
  }

  /** One kind of step breaks that, and only that kind: the retryable failure of a worker task whose job
      was deleted meanwhile. It re-registers the job without re-queueing it. */
  lemma BackedExactly(config: Config, st: State, step: Step)
    requires Inv(config, st) && Enabled(st, step) && Backed(st, step.job)
    ensures Backed(Apply(config, st, step), step.job) <==>
            !(step.Fail? && step.retryable && step.job !in st.rows && config.maxRetries > 0)
  {
    assert Consistent(st, step.job);
  }

  /** Such a run: a pending job is deleted, and its task then fails. */
  lemma PhantomEntry(config: Config, job: JobId)
    requires config.maxRetries > 0
    ensures var steps := [Create(job), Delete(job), Start(job), Fail(job, true)];
            && Runs(config, EMPTY, steps)
            && var st := After(config, EMPTY, steps);
               job in st.waiting && job !in st.rows && st.queued[job] + st.running[job] == 0
  {
    var s1 := Apply(config, EMPTY, Create(job));
    var s2 := Apply(config, s1, Delete(job));
    var s3 := Apply(config, s2, Start(job));
    var s4 := Apply(config, s3, Fail(job, true));
    var t3, t2 := [Fail(job, true)], [Start(job), Fail(job, true)];
    var t1 := [Delete(job), Start(job), Fail(job, true)];
    var t0 := [Create(job), Delete(job), Start(job), Fail(job, true)];
    assert t3[1..] == [] && t2[1..] == t3 && t1[1..] == t2 && t0[1..] == t1;
    assert Runs(config, s4, []) && After(config, s4, []) == s4;
    assert Runs(config, s3, t3) && After(config, s3, t3) == s4;
    assert Runs(config, s2, t2) && After(config, s2, t2) == s4;
    assert Runs(config, s1, t1) && After(config, s1, t1) == s4;
    assert Runs(config, EMPTY, t0) && After(config, EMPTY, t0) == s4;
  }

  /** src/api/db.py: the job table. */
  class JobStore {
    var rows: map<JobId, Row>

    constructor ()
      ensures rows == map[]
    {
      rows := map[];
    }

    method Create(job: JobId)
      modifies this
      ensures rows == old(rows)[job := Row(Pending, 0)]
    {
      rows := rows[job := Row(Pending, 0)];
    }

    method Get(job: JobId) returns (row: Option<Row>)
      ensures row == if job in rows then Some(rows[job]) else None
    {
      row := if job in rows then Some(rows[job]) else None;
    }

    /** UPDATE ... WHERE id = ?: no effect without a row. */
    method Update(job: JobId, status: Status, retryCount: Option<nat>)
      modifies this
      ensures rows == if job in old(rows)
                      then old(rows)[job := Row(status, retryCount.GetOr(old(rows)[job].retryCount))] else old(rows)
    {
      if job in rows {
        rows := rows[job := Row(status, retryCount.GetOr(rows[job].retryCount))];
      }
    }

    method Delete(job: JobId) returns (deleted: bool)
      modifies this
      ensures rows == old(rows) - {job}
      ensures deleted <==> job in old(rows)
    {
      deleted := job in rows;
      rows := rows - {job};
    }
  }

  /** The worker queue as a bag of tasks, queued or running. */
  class TaskQueue {
    var queued: multiset<JobId>
    var running: multiset<JobId>

    constructor ()
      ensures queued == multiset{} && running == multiset{}
    {
      queued, running := multiset{}, multiset{};
    }

    method Enqueue(job: JobId)
      modifies this`queued
      ensures queued == old(queued) + multiset{job}
    {
      queued := queued + multiset{job};
    }

    method Take(job: JobId)
      requires job in queued
      modifies this
      ensures queued == old(queued) - multiset{job} && running == old(running) + multiset{job}
    {
      queued, running := queued - multiset{job}, running + multiset{job};
    }

    method Finish(job: JobId)
      modifies this`running
      ensures running == old(running) - multiset{job}
    {
      running := running - multiset{job};
    }

    method Stop(job: JobId)
      modifies this
      ensures queued == old(queued) - multiset{job} && running == old(running) - multiset{job}
    {
      queued, running := queued - multiset{job}, running - multiset{job};
    }
  }

  datatype Ending = Success | Failure(retryable: bool)

  function EndStep(job: JobId, ending: Ending): Step {
    match ending
    case Success => Succeed(job)
    case Failure(retryable) => Fail(job, retryable)
  }

  /** The waiting set gained one entry, or moved it, with the score of this priority and time. */
  ghost predicate Entered(before: seq<Queue.Entry>, waiting: seq<Queue.Entry>, job: JobId, priority: Queue.Priority,
                          now: real)
  {
    forall x :: x in waiting <==> x == Queue.Entry(job, Queue.Score(priority, now)) || (x in before && x.job != job)
  }

  /** The endpoints and the worker, acting on the three stores. Every method is one step of the
      machine above, which therefore keeps its invariant. */
  class Service {
    const config: Config
    const store: JobStore
    const qm: Queue.QueueManager
    const tasks: TaskQueue
    ghost var used: set<JobId>
    ghost var books: map<JobId, Books>

    ghost function Model(): State
      reads this, store, qm, tasks
    {
      State(store.rows, qm.Waiting(), qm.active, tasks.queued, tasks.running, used, books)
    }

    ghost predicate Valid()
      reads this, store, qm, tasks
    {
      qm.Valid() && Inv(config, Model())
    }

    constructor (config: Config)
      ensures Valid() && Model() == EMPTY
    {
      this.config := config;
      store := new JobStore();
      qm := new Queue.QueueManager(1);
      tasks := new TaskQueue();
      used, books := {}, map[];
    }

    method EnqueueJob(job: JobId, priority: Queue.Priority, now: real)
      requires qm.Valid()
      modifies qm, tasks`queued
      ensures qm.Valid() && qm.Waiting() == old(qm.Waiting()) + {job} && qm.active == old(qm.active)
      ensures Entered(old(qm.waiting), qm.waiting, job, priority, now)
      ensures tasks.queued == old(tasks.queued) + multiset{job}
    {
      var _ := qm.Enqueue(job, priority, now);
      tasks.Enqueue(job);
    }

    /** The end of `create_job`: insert the row, register, enqueue. The id is a new uuid. */
    method CreateJob(job: JobId, priority: Queue.Priority, now: real)
      requires Valid() && Enabled(Model(), Create(job))
      modifies this, store, qm, tasks
      ensures Valid() && Model() == Apply(config, old(Model()), Create(job))
      ensures Entered(old(qm.waiting), qm.waiting, job, priority, now)
    {
      StepKeeps(config, Model(), Create(job));
      store.Create(job);
      EnqueueJob(job, priority, now);
      used := used + {job};
    }

    /** The beginning of `run_pipeline`. */
    method StartTask(job: JobId)
      requires Valid() && Enabled(Model(), Start(job))
      modifies this, store, qm, tasks
      ensures Valid() && Model() == Apply(config, old(Model()), Start(job))
    {
      StepKeeps(config, Model(), Start(job));
      ghost var before := Model().BooksOf(job);
      tasks.Take(job);
      qm.Activate(job);
      store.Update(job, Processing, None);
      books := books[job := before.(runs := before.runs + 1)];
    }

    method Finally(job: JobId)
      requires qm.Valid()
      modifies qm`active, tasks`running
      ensures qm.Valid() && Model() == Concluded(old(Model()), job)
    {
      qm.Complete(job);
      tasks.Finish(job);
    }

    /** `_handle_pipeline_error`. */
    method HandlePipelineError(job: JobId, retryable: bool, now: real)
      requires qm.Valid()
      modifies this`books, store, qm`waiting, tasks`queued
      ensures qm.Valid()
      ensures Model() == Handled(config, old(Model()), job, retryable)
      ensures qm.waiting == old(qm.waiting) || Entered(old(qm.waiting), qm.waiting, job, Queue.Normal, now)
    {
      var row := store.Get(job);
      var count := match row case Some(r) => r.retryCount case None => 0;
      if retryable && count < config.maxRetries {
        store.Update(job, Retrying, Some(count + 1));
        var _ := qm.Enqueue(job, Queue.Normal, now);
        if row.Some? {
          tasks.Enqueue(job);
          ghost var b := Model().BooksOf(job);
          books := books[job := b.(delays := b.delays + [DelayOf(config, count)])];
        }
      } else {
        store.Update(job, Failed, None);
      }
    }

    method Conclude(job: JobId, ending: Ending, now: real)
      requires qm.Valid() && job in tasks.running
      modifies this`books, store, qm, tasks
      ensures qm.Valid() && Model() == Apply(config, old(Model()), EndStep(job, ending))
    {
      if ending.Success? {
        store.Update(job, Completed, None);
      } else {
        HandlePipelineError(job, ending.retryable, now);
      }
      Finally(job);
    }

    /** The end of `run_pipeline`, with its except and finally clauses. */
    method EndTask(job: JobId, ending: Ending, now: real)
      requires Valid() && job in tasks.running
      modifies this, store, qm, tasks
      ensures Valid()
      ensures Model() == Apply(config, old(Model()), EndStep(job, ending))
    {
      StepKeeps(config, Model(), EndStep(job, ending));
      Conclude(job, ending, now);
    }

    /** The worker process disappears without running its `finally`. */
    method LoseTask(job: JobId)
      requires Valid() && job in tasks.running
      modifies tasks
      ensures Valid() && Model() == Apply(config, old(Model()), Crash(job))
    {
      StepKeeps(config, Model(), Crash(job));
      tasks.Finish(job);
    }

    /** `cancel_job`; answers 404, 409 or 200. Whether its worker task really stops is up to the worker queue. */
    method CancelJob(job: JobId, stopped: bool) returns (code: nat)
      requires Valid()
      modifies store, qm, tasks
      ensures Valid() && Model() == Apply(config, old(Model()), Cancel(job, stopped))
      ensures code == if job !in old(store.rows) then 404
                      else if Cancellable(old(store.rows)[job].status) then 200 else 409
    {
      StepKeeps(config, Model(), Cancel(job, stopped));
      var row := store.Get(job);
      if row.None? {
        return 404;
      }
      if !Cancellable(row.value.status) {
        return 409;
      }
      var _ := qm.Cancel(job);
      if stopped {
        tasks.Stop(job);
      }
      store.Update(job, Cancelled, None);
      code := 200;
    }

    /** `retry_job`. */
    method RetryJob(job: JobId, now: real) returns (code: nat)
      requires Valid()
      modifies this, store, qm, tasks
      ensures Valid() && Model() == Apply(config, old(Model()), Retry(job))
      ensures code == if job !in old(store.rows) then 404
                      else if old(store.rows)[job].status == Failed then 200 else 409
      ensures code == 200 ==> Entered(old(qm.waiting), qm.waiting, job, Queue.Normal, now)
    {
      StepKeeps(config, Model(), Retry(job));
      var row := store.Get(job);
      if row.None? {
        return 404;
      }
      if row.value.status != Failed {
        return 409;
      }
      ghost var b := Model().BooksOf(job);
      store.Update(job, Pending, Some(0));
      EnqueueJob(job, Queue.Normal, now);
      books := books[job := b.(manual := b.manual + 1, delays := [])];
      code := 200;
    }

    /** `delete_job`: the queue is not told. */
    method DeleteJob(job: JobId) returns (code: nat)
      requires Valid()
      modifies store
      ensures Valid() && Model() == Apply(config, old(Model()), Delete(job))
      ensures code == if job !in old(store.rows) then 404
                      else if old(store.rows)[job].status in {Processing, Retrying} then 409 else 204
    {
      StepKeeps(config, Model(), Delete(job));
      var row := store.Get(job);
      if row.None? {
        return 404;
      }
      if row.value.status == Processing || row.value.status == Retrying {
        return 409;
      }
      var _ := store.Delete(job);
      code := 204;
    }
  }
}

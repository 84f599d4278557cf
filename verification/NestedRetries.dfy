/** The three layers of retrying together: COLMAP commands inside reconstructions inside pipeline runs
    (src/reconstruction/reconstruction.py, src/api/tasks.py:73-346, src/api/routers/jobs.py).

    One job is followed through a run of the machine of module Lifecycle. A running worker task calls
    `reconstruct` at most once, as one step; the workspace keeps its checkpoint between runs until the
    job's directory is removed, which cancelling and deleting do, and clean-up may do at any time. */
module NestedRetries {
  import opened Checkpoint
  import opened Prelude
  import Jobs = Lifecycle

  /** `since` are the reconstructions since the directory was last removed, `called` whether the running
      task has made its call; the rest counts over the job's whole life. */
  datatype State = State(
    life: Jobs.State,
    since: seq<Attempt>,
    called: bool,
    calls: nat,
    starts: nat,
    processes: nat,
    removals: nat)

  const NEW_JOB := State(Jobs.EMPTY, [], false, 0, 0, 0, 0)

  datatype Step =
    | Life(step: Jobs.Step)
    | Reconstruct(a: Attempt)
    | Remove

  predicate Enabled(st: State, job: JobId, step: Step) {
    match step
    case Life(s) => Jobs.Enabled(st.life, s)
    case Reconstruct(_) => job in st.life.running && !st.called
    case Remove => true
  }

  /** Cancelling and deleting remove the directory, when they are not refused. */
  predicate Removes(st: Jobs.State, job: JobId, step: Jobs.Step) {
    && step.job == job && job in st.rows
    && match st.rows[job].status
       case Completed => step.Delete?
       case Failed => step.Delete?
       case Cancelled => step.Delete?
       case Pending => step.Delete? || step.Cancel?
       case _ => step.Cancel?
  }

  lemma StatusChanges(rows: map<JobId, Jobs.Row>, job: JobId, status: Status)
    requires job in rows && rows[job].status != status
    ensures rows[job := rows[job].(status := status)] != rows
  {
    assert rows[job := rows[job].(status := status)][job].status == status;
  }

  lemma RowGoes(rows: map<JobId, Jobs.Row>, job: JobId)
    requires job in rows
    ensures rows - {job} != rows
  {
    assert job !in rows - {job};
  }

  /** They are refused exactly if they change nothing about the job's row. */
  lemma {:induction false} RemovesExactly(jobs: Jobs.Config, st: Jobs.State, job: JobId, step: Jobs.Step)
    requires Jobs.Enabled(st, step) && step.job == job
    ensures Removes(st, job, step) <==> (step.Cancel? || step.Delete?) && Jobs.Apply(jobs, st, step).rows != st.rows
  {
    if job in st.rows && step.Delete? {
      RowGoes(st.rows, job);
    } else if job in st.rows && step.Cancel? && Jobs.Cancellable(st.rows[job].status) {
      StatusChanges(st.rows, job, Cancelled);
    }
  }

  function Removed(st: State): State {
    st.(since := [], removals := st.removals + 1)
  }

  /** One call of `reconstruct`, from the disk its predecessors left. */
  function Called(config: Config, st: State, a: Attempt): State {
    var events := Invoke(config, a, History(config, st.since).disk).events;
    st.(since := st.since + [a], called := true, calls := st.calls + 1,
        starts := st.starts + Starts(events), processes := st.processes + ProcessCount(config, a, events))
  }

  function Apply(jobs: Jobs.Config, config: Config, st: State, job: JobId, step: Step): State
    requires Enabled(st, job, step)
  {
    match step
    case Life(s) =>
      var st' := if Removes(st.life, job, s) then Removed(st) else st;
      var life := Jobs.Apply(jobs, st.life, s);
      st'.(life := life, called := st.called && job in life.running && !(s.Start? && s.job == job))
    case Reconstruct(a) => Called(config, st, a)
    case Remove => Removed(st)
  }

  predicate Runs(jobs: Jobs.Config, config: Config, st: State, job: JobId, steps: seq<Step>)
    decreases |steps|
  {
    steps == [] ||
    (Enabled(st, job, steps[0]) && Runs(jobs, config, Apply(jobs, config, st, job, steps[0]), job, steps[1..]))
  }

  function After(jobs: Jobs.Config, config: Config, st: State, job: JobId, steps: seq<Step>): State
    requires Runs(jobs, config, st, job, steps)
    decreases |steps|
  {
    if steps == [] then st else After(jobs, config, Apply(jobs, config, st, job, steps[0]), job, steps[1..])
  }

  /** No reconstruction is killed in a core step. */
  predicate NoneKilled(steps: seq<Step>) {
    forall i :: 0 <= i < |steps| ==> (steps[i].Reconstruct? ==> Unkilled(steps[i].a))
  }

  /** Every call belongs to a run of its own, and a task that has not made its call has one to spare. */
  ghost predicate CallsWithinRuns(jobs: Jobs.Config, st: State, job: JobId) {
    && Jobs.Inv(jobs, st.life)
    && (st.called ==> job in st.life.running)
    && st.calls + (if job in st.life.running && !st.called then 1 else 0) <= st.life.BooksOf(job).runs
  }

  /** What n calls can start, if the directory was removed c times after one of them: one step each, and two
      more for each stretch between removals. */
  function StartsOf(n: nat, c: nat): nat {
    n + 2 * Min(n, c)
  }

  /** The starts before the last removal. */
  ghost predicate StartsWithinCalls(config: Config, st: State) {
    && (forall i :: 0 <= i < |st.since| ==> Unkilled(st.since[i]))
    && |st.since| <= st.calls
    && Starts(History(config, st.since).events) <= st.starts
    && st.starts - Starts(History(config, st.since).events) <= StartsOf(st.calls - |st.since|, st.removals)
  }

  predicate ProcessesWithinStarts(config: Config, processes: nat, starts: nat, r: nat) {
    r == config.maxRetries + 1 && processes <= starts * r
  }

  lemma LifeKeepsCalls(jobs: Jobs.Config, config: Config, st: State, job: JobId, s: Jobs.Step)
    requires CallsWithinRuns(jobs, st, job) && Enabled(st, job, Life(s))
    ensures CallsWithinRuns(jobs, Apply(jobs, config, st, job, Life(s)), job)
  {
    Jobs.StepKeeps(jobs, st.life, s);
    assert Jobs.Consistent(st.life, job);
    if s.job != job {
      Jobs.OtherJobSame(jobs, st.life, s, job);
    }
  }

  lemma ReconstructKeepsStarts(config: Config, st: State, a: Attempt)
    requires StartsWithinCalls(config, st) && Unkilled(a)
    ensures StartsWithinCalls(config, Called(config, st, a))
  {
    assert (st.since + [a])[..|st.since|] == st.since;
    StartsConcat(History(config, st.since).events, Invoke(config, a, History(config, st.since).disk).events);
  }

  lemma RemovalKeepsStarts(config: Config, st: State)
    requires StartsWithinCalls(config, st)
    ensures StartsWithinCalls(config, Removed(st))
  {
    RunsBoundStarts(config, st.since);
  }

  lemma LifeKeepsStarts(jobs: Jobs.Config, config: Config, st: State, job: JobId, s: Jobs.Step)
    requires StartsWithinCalls(config, st) && Enabled(st, job, Life(s))
    ensures var st' := Apply(jobs, config, st, job, Life(s));
            StartsWithinCalls(config, st') && st'.starts == st.starts && st'.processes == st.processes
  {
    RemovalKeepsStarts(config, st);
  }

  lemma ReconstructKeepsProcesses(config: Config, st: State, a: Attempt, r: nat)
    requires ProcessesWithinStarts(config, st.processes, st.starts, r)
    ensures ProcessesWithinStarts(config, Called(config, st, a).processes, Called(config, st, a).starts, r)
  {
    var events := Invoke(config, a, History(config, st.since).disk).events;
    var x, q := Starts(events), ProcessCount(config, a, events);
    ProcessesPerStart(config, a, events, x, r);
    AddBounds(st.processes, st.starts, q, x, st.starts + x, r);
  }

  lemma ReconstructKeepsCalls(jobs: Jobs.Config, config: Config, st: State, job: JobId, a: Attempt)
    requires CallsWithinRuns(jobs, st, job) && Enabled(st, job, Reconstruct(a))
    ensures CallsWithinRuns(jobs, Called(config, st, a), job)
  {
  }

  ghost predicate Good(jobs: Jobs.Config, config: Config, st: State, job: JobId, r: nat) {
    && CallsWithinRuns(jobs, st, job) && StartsWithinCalls(config, st)
    && ProcessesWithinStarts(config, st.processes, st.starts, r)
  }

  lemma ReconstructKeeps(jobs: Jobs.Config, config: Config, st: State, job: JobId, a: Attempt, r: nat)
    requires Good(jobs, config, st, job, r) && Enabled(st, job, Reconstruct(a)) && Unkilled(a)
    ensures Good(jobs, config, Apply(jobs, config, st, job, Reconstruct(a)), job, r)
  {
    ReconstructKeepsStarts(config, st, a);
    ReconstructKeepsProcesses(config, st, a, r);
    ReconstructKeepsCalls(jobs, config, st, job, a);
  }

  lemma StepKeeps(jobs: Jobs.Config, config: Config, st: State, job: JobId, step: Step, r: nat)
    requires Good(jobs, config, st, job, r) && Enabled(st, job, step) && (step.Reconstruct? ==> Unkilled(step.a))
    ensures Good(jobs, config, Apply(jobs, config, st, job, step), job, r)
  {
    match step
    case Life(s) =>
      LifeKeepsCalls(jobs, config, st, job, s);
      LifeKeepsStarts(jobs, config, st, job, s);
    case Reconstruct(a) => ReconstructKeeps(jobs, config, st, job, a, r);
    case Remove => RemovalKeepsStarts(config, st);
  }

  lemma {:induction false} RunKeeps(jobs: Jobs.Config, config: Config, st: State, job: JobId, steps: seq<Step>, r: nat)
    requires Good(jobs, config, st, job, r) && Runs(jobs, config, st, job, steps) && NoneKilled(steps)
    ensures Good(jobs, config, After(jobs, config, st, job, steps), job, r)
    decreases |steps|
  {
    if steps != [] {
      assert steps[0].Reconstruct? ==> Unkilled(steps[0].a);
      assert forall i :: 0 <= i < |steps| - 1 ==> steps[1..][i] == steps[i + 1];
      StepKeeps(jobs, config, st, job, steps[0], r);
      RunKeeps(jobs, config, Apply(jobs, config, st, job, steps[0]), job, steps[1..], r);
    }
  }

  lemma LifeRuns(jobs: Jobs.Config, config: Config, st: State, job: JobId, steps: seq<Step>)
    returns (lives: seq<Jobs.Step>)
    requires Runs(jobs, config, st, job, steps)
    ensures Jobs.Runs(jobs, st.life, lives)
    ensures After(jobs, config, st, job, steps).life == Jobs.After(jobs, st.life, lives)
    decreases |steps|
  {
    if steps == [] {
      lives := [];
    } else {
      lives := LifeRuns(jobs, config, Apply(jobs, config, st, job, steps[0]), job, steps[1..]);
      if steps[0].Life? {
        var rest := lives;
        lives := [steps[0].step] + rest;
        assert lives[1..] == rest;
      }
    }
  }

  lemma EmptyGood(jobs: Jobs.Config, config: Config, job: JobId)
    ensures Good(jobs, config, NEW_JOB, job, config.maxRetries + 1)
  {
  }

  lemma StartsTotal(config: Config, st: State, budget: nat)
    requires StartsWithinCalls(config, st) && st.calls <= budget
    ensures st.starts <= StartsOf(budget, st.removals + 1)
  {
    RunsBoundStarts(config, st.since);
  }

  lemma RunsTotal(jobs: Jobs.Config, config: Config, job: JobId, steps: seq<Step>, manual: nat)
    requires Runs(jobs, config, NEW_JOB, job, steps)
    requires manual == After(jobs, config, NEW_JOB, job, steps).life.BooksOf(job).manual
    ensures After(jobs, config, NEW_JOB, job, steps).life.BooksOf(job).runs <= (manual + 1) * (jobs.maxRetries + 1)
  {
    var lives := LifeRuns(jobs, config, NEW_JOB, job, steps);
    Jobs.RetriesTerminate(jobs, lives, job, manual);
  }

  /** Main result: all retries of one job together. Over its whole life, with m manual retries, c removals
      of its directory, P automatic retries per submission and r retries per command, and no kills, a job
      starts at most B + 2 * min(B, c + 1) core steps, where B is (m + 1) * (P + 1), each of at most r + 1
      COLMAP processes. */
  lemma WholeLifeBounded(jobs: Jobs.Config, config: Config, job: JobId, steps: seq<Step>, manual: nat, budget: nat)
    requires Runs(jobs, config, NEW_JOB, job, steps) && NoneKilled(steps)
    requires manual == After(jobs, config, NEW_JOB, job, steps).life.BooksOf(job).manual
    requires budget == (manual + 1) * (jobs.maxRetries + 1)
    ensures var st := After(jobs, config, NEW_JOB, job, steps);
            && st.starts <= StartsOf(budget, st.removals + 1)
            && st.processes <= StartsOf(budget, st.removals + 1) * (config.maxRetries + 1)
  {
    EmptyGood(jobs, config, job);
    RunKeeps(jobs, config, NEW_JOB, job, steps, config.maxRetries + 1);
    var st := After(jobs, config, NEW_JOB, job, steps);
    RunsTotal(jobs, config, job, steps, manual);
    StartsTotal(config, st, budget);
    Loosen(st.processes, st.starts, StartsOf(budget, st.removals + 1), config.maxRetries + 1);
  }

  /** One pipeline run of a plan: its reconstruction, and whether the directory is then removed. */
  datatype Planned = Planned(a: Attempt, removed: bool)

  function Worked(config: Config, st: State, p: Planned): State {
    if p.removed then Removed(Called(config, st, p.a)) else Called(config, st, p.a)
  }

  /** The work of a plan, whatever the life of the job. */
  function Played(config: Config, plan: seq<Planned>): State {
    if plan == [] then NEW_JOB
    else
      Worked(config, Played(config, plan[..|plan| - 1]), plan[|plan| - 1])
  }

  ghost predicate SameWork(st: State, other: State) {
    && st.since == other.since && st.calls == other.calls && st.removals == other.removals
    && st.starts == other.starts && st.processes == other.processes
  }

  /** The job has been retried by hand `manual` times and has failed `count` times since: its next run is
      queued, or if there are no automatic retries left, it has failed. */
  predicate AwaitsRun(jobs: Jobs.Config, st: State, job: JobId, manual: nat, count: nat) {
    && st.life.BooksOf(job).manual == manual && job in st.life.rows && job !in st.life.running
    && if count <= jobs.maxRetries then st.life.rows[job].retryCount == count && job in st.life.queued
       else st.life.rows[job] == Jobs.Row(Failed, jobs.maxRetries)
  }

  lemma {:induction false} RunExtends(jobs: Jobs.Config, config: Config, st: State, job: JobId, steps: seq<Step>,
                                      step: Step)
    requires Runs(jobs, config, st, job, steps) && Enabled(After(jobs, config, st, job, steps), job, step)
    ensures Runs(jobs, config, st, job, steps + [step])
    ensures After(jobs, config, st, job, steps + [step]) ==
            Apply(jobs, config, After(jobs, config, st, job, steps), job, step)
    decreases |steps|
  {
    if steps == [] {
      assert steps + [step] == [step] && [step][1..] == [];
    } else {
      assert (steps + [step])[1..] == steps[1..] + [step];
      RunExtends(jobs, config, Apply(jobs, config, st, job, steps[0]), job, steps[1..], step);
    }
  }

  lemma RetriedByHand(jobs: Jobs.Config, config: Config, st: State, job: JobId, manual: nat)
    requires AwaitsRun(jobs, st, job, manual, jobs.maxRetries + 1)
    ensures var step := Life(Jobs.Retry(job));
            && Enabled(st, job, step) && AwaitsRun(jobs, Apply(jobs, config, st, job, step), job, manual + 1, 0)
            && SameWork(Apply(jobs, config, st, job, step), st)
  {
  }

  /** Its run is under way. */
  predicate InRun(st: State, job: JobId, manual: nat, count: nat) {
    && st.life.running[job] == 1 && st.life.BooksOf(job).manual == manual
    && job in st.life.rows && st.life.rows[job].retryCount == count
  }

  /** The start of a pipeline run, and its failure after the reconstruction. */
  lemma RunStarts(jobs: Jobs.Config, config: Config, st: State, job: JobId, manual: nat, count: nat)
    requires AwaitsRun(jobs, st, job, manual, count) && count <= jobs.maxRetries
    ensures Enabled(st, job, Life(Jobs.Start(job)))
    ensures var st' := Apply(jobs, config, st, job, Life(Jobs.Start(job)));
            SameWork(st', st) && InRun(st', job, manual, count) && !st'.called
  {
  }

  lemma RunFails(jobs: Jobs.Config, config: Config, st: State, job: JobId, manual: nat, count: nat)
    requires InRun(st, job, manual, count) && count <= jobs.maxRetries
    ensures var step := Life(Jobs.Fail(job, true));
            && Enabled(st, job, step) && AwaitsRun(jobs, Apply(jobs, config, st, job, step), job, manual, count + 1)
            && SameWork(Apply(jobs, config, st, job, step), st)
  {
  }

  lemma WorkedAlike(config: Config, st: State, other: State, p: Planned)
    requires SameWork(st, other)
    ensures SameWork(Worked(config, st, p), Worked(config, other, p))
  {
  }

  lemma WorkPlanned(jobs: Jobs.Config, config: Config, job: JobId, steps: seq<Step>, p: Planned)
    returns (steps': seq<Step>)
    requires Runs(jobs, config, NEW_JOB, job, steps) && NoneKilled(steps) && Unkilled(p.a)
    requires Enabled(After(jobs, config, NEW_JOB, job, steps), job, Reconstruct(p.a))
    ensures Runs(jobs, config, NEW_JOB, job, steps') && NoneKilled(steps')
    ensures After(jobs, config, NEW_JOB, job, steps') == Worked(config, After(jobs, config, NEW_JOB, job, steps), p)
  {
    RunExtends(jobs, config, NEW_JOB, job, steps, Reconstruct(p.a));
    steps' := steps + [Reconstruct(p.a)];
    if p.removed {
      RunExtends(jobs, config, NEW_JOB, job, steps', Remove);
      steps' := steps' + [Remove];
    }
  }

  lemma WorkKeepsLife(config: Config, st: State, p: Planned)
    ensures Worked(config, st, p).life == st.life
  {
  }

  /** One pipeline run of the plan. */
  lemma RunPlanned(jobs: Jobs.Config, config: Config, job: JobId, steps: seq<Step>, manual: nat, count: nat, p: Planned)
    returns (steps': seq<Step>)
    requires Runs(jobs, config, NEW_JOB, job, steps) && NoneKilled(steps) && Unkilled(p.a)
    requires AwaitsRun(jobs, After(jobs, config, NEW_JOB, job, steps), job, manual, count) && count <= jobs.maxRetries
    ensures Runs(jobs, config, NEW_JOB, job, steps') && NoneKilled(steps')
    ensures var st, st' := After(jobs, config, NEW_JOB, job, steps), After(jobs, config, NEW_JOB, job, steps');
            AwaitsRun(jobs, st', job, manual, count + 1) && SameWork(st', Worked(config, st, p))
  {
    var st := After(jobs, config, NEW_JOB, job, steps);
    RunStarts(jobs, config, st, job, manual, count);
    RunExtends(jobs, config, NEW_JOB, job, steps, Life(Jobs.Start(job)));
    var started := Apply(jobs, config, st, job, Life(Jobs.Start(job)));
    var worked := WorkPlanned(jobs, config, job, steps + [Life(Jobs.Start(job))], p);
    WorkKeepsLife(config, started, p);
    WorkedAlike(config, started, st, p);
    RunFails(jobs, config, Worked(config, started, p), job, manual, count);
    RunExtends(jobs, config, NEW_JOB, job, worked, Life(Jobs.Fail(job, true)));
    steps' := worked + [Life(Jobs.Fail(job, true))];
  }

  /** This run carries out the plan, and has come this far. */
  ghost predicate CarriesOut(jobs: Jobs.Config, config: Config, job: JobId, steps: seq<Step>, plan: seq<Planned>,
                             manual: nat, count: nat)
  {
    && Runs(jobs, config, NEW_JOB, job, steps) && NoneKilled(steps)
    && AwaitsRun(jobs, After(jobs, config, NEW_JOB, job, steps), job, manual, count)
    && SameWork(After(jobs, config, NEW_JOB, job, steps), Played(config, plan))
  }

  lemma Submitted(jobs: Jobs.Config, config: Config, job: JobId)
    ensures CarriesOut(jobs, config, job, [Life(Jobs.Create(job))], [], 0, 0)
  {
    RunExtends(jobs, config, NEW_JOB, job, [], Life(Jobs.Create(job)));
    assert [] + [Life(Jobs.Create(job))] == [Life(Jobs.Create(job))];
  }

  lemma RetryByHand(jobs: Jobs.Config, config: Config, job: JobId, steps: seq<Step>, plan: seq<Planned>, manual: nat)
    returns (steps': seq<Step>)
    requires CarriesOut(jobs, config, job, steps, plan, manual, jobs.maxRetries + 1)
    ensures CarriesOut(jobs, config, job, steps', plan, manual + 1, 0)
  {
    RetriedByHand(jobs, config, After(jobs, config, NEW_JOB, job, steps), job, manual);
    RunExtends(jobs, config, NEW_JOB, job, steps, Life(Jobs.Retry(job)));
    steps' := steps + [Life(Jobs.Retry(job))];
  }

  lemma RunNext(jobs: Jobs.Config, config: Config, job: JobId, steps: seq<Step>, plan: seq<Planned>,
                manual: nat, count: nat)
    returns (steps': seq<Step>)
    requires plan != [] && count <= jobs.maxRetries && Unkilled(plan[|plan| - 1].a)
    requires CarriesOut(jobs, config, job, steps, plan[..|plan| - 1], manual, count)
    ensures CarriesOut(jobs, config, job, steps', plan, manual, count + 1)
  {
    var front, p := plan[..|plan| - 1], plan[|plan| - 1];
    steps' := RunPlanned(jobs, config, job, steps, manual, count, p);
    WorkedAlike(config, After(jobs, config, NEW_JOB, job, steps), Played(config, front), p);
  }

  /** All runs before the count-th after `manual` manual retries. */
  function RunsBefore(jobs: Jobs.Config, manual: nat, count: nat): nat {
    (if manual == 0 then 0 else Jobs.Budget(manual - 1, jobs.maxRetries)) + count
  }

  /** The plan is that of all runs so far. */
  predicate PlanFor(jobs: Jobs.Config, plan: seq<Planned>, manual: nat, count: nat) {
    && |plan| == RunsBefore(jobs, manual, count) && count <= jobs.maxRetries + 1
    && forall i :: 0 <= i < |plan| ==> Unkilled(plan[i].a)
  }

  lemma PlanBefore(jobs: Jobs.Config, plan: seq<Planned>, manual: nat, count: nat)
    requires PlanFor(jobs, plan, manual, count)
    ensures count > 0 ==>
              && plan != [] && Unkilled(plan[|plan| - 1].a) && count - 1 <= jobs.maxRetries
              && PlanFor(jobs, plan[..|plan| - 1], manual, count - 1)
    ensures count == 0 && manual > 0 ==> PlanFor(jobs, plan, manual - 1, jobs.maxRetries + 1)
    ensures count == 0 && manual == 0 ==> plan == []
  {
  }

  /** Any plan can be carried out, by failing every time. */
  lemma {:induction false} PlanCarriedOut(jobs: Jobs.Config, config: Config, job: JobId, plan: seq<Planned>,
                                          manual: nat, count: nat)
    returns (steps: seq<Step>)
    requires PlanFor(jobs, plan, manual, count)
    ensures CarriesOut(jobs, config, job, steps, plan, manual, count)
    decreases manual, count
  {
    PlanBefore(jobs, plan, manual, count);
    if count > 0 {
      var before := PlanCarriedOut(jobs, config, job, plan[..|plan| - 1], manual, count - 1);
      steps := RunNext(jobs, config, job, before, plan, manual, count - 1);
    } else if manual > 0 {
      var before := PlanCarriedOut(jobs, config, job, plan, manual - 1, jobs.maxRetries + 1);
      steps := RetryByHand(jobs, config, job, before, plan, manual - 1);
    } else {
      Submitted(jobs, config, job);
      steps := [Life(Jobs.Create(job))];
    }
  }

  /** An attempt that gets through the core steps, each with its last retry only, and then breaks. */
  function Late(config: Config, message: string): Attempt {
    Worst(config, true, message).(options := Options(false, false, true), splat := Breaks(false))
  }

  lemma LateCost(config: Config, message: string)
    requires config.retryable(message)
    ensures var run := Invoke(config, Late(config, message), Checkpoint.EMPTY);
            && run.outcome == Error && Starts(run.events) == 3
            && ProcessCount(config, Late(config, message), run.events) == 3 * (config.maxRetries + 1)
  {
    var late, good := Late(config, message), Worst(config, true, message);
    forall k | 0 <= k < 3 ensures Processes(config, late, k) == config.maxRetries + 1 && Ends(config, late, k) {
      WorstProcesses(config, true, message, k);
      assert late.ending(k) == good.ending(k);
    }
    ThreeSteps(config, late);
    ThreeStepsCost(config, late, config.maxRetries + 1);
    CoreCompletes(config, late, Absent, 0);
    UnrollTools(late);
  }

  /** A plan that costs as much as possible: early failures, then late ones, each followed by a removal except
      the last. */
  function WorstPlan(config: Config, message: string, n: nat, late: nat): seq<Planned> {
    seq(n, i => if i < n - late then Planned(Worst(config, false, message), false)
                else Planned(Late(config, message), i < n - 1))
  }

  /** Every start was retried to the end. */
  predicate AllRetried(processes: nat, starts: nat, r: nat) {
    processes == starts * r
  }

  lemma RetriedAdds(p: nat, x: nat, q: nat, y: nat, r: nat)
    requires AllRetried(p, x, r) && AllRetried(q, y, r)
    ensures AllRetried(p + q, x + y, r)
  {
    Distribute(x, y, r);
  }

  /** From an empty directory: the run costs this many starts, with all retries. */
  predicate Costs(config: Config, a: Attempt, starts: nat, r: nat) {
    var events := Invoke(config, a, Checkpoint.EMPTY).events;
    Starts(events) == starts && AllRetried(ProcessCount(config, a, events), starts, r)
  }

  lemma PlannedCosts(config: Config, message: string, r: nat)
    requires config.retryable(message) && r == config.maxRetries + 1
    ensures Costs(config, Late(config, message), 3, r) && Costs(config, Worst(config, false, message), 1, r)
    ensures Invoke(config, Worst(config, false, message), Checkpoint.EMPTY).disk == Checkpoint.EMPTY
    ensures Unkilled(Late(config, message)) && Unkilled(Worst(config, false, message))
  {
    LateCost(config, message);
    EarlyCost(config, message);
  }

  lemma DiskAfter(config: Config, since: seq<Attempt>, a: Attempt)
    ensures History(config, since + [a]).disk == Invoke(config, a, History(config, since).disk).disk
  {
    assert (since + [a])[..|since|] == since;
  }

  lemma OneMoreCosts(config: Config, st: State, a: Attempt, starts: nat, r: nat)
    requires History(config, st.since).disk == Checkpoint.EMPTY && AllRetried(st.processes, st.starts, r)
    requires Costs(config, a, starts, r)
    ensures var st' := Called(config, st, a);
            && st'.starts == st.starts + starts && AllRetried(st'.processes, st'.starts, r)
            && History(config, st'.since).disk == Invoke(config, a, Checkpoint.EMPTY).disk
  {
    var events := Invoke(config, a, Checkpoint.EMPTY).events;
    RetriedAdds(st.processes, st.starts, ProcessCount(config, a, events), starts, r);
    DiskAfter(config, st.since, a);
  }

  /** What the first i runs of that plan come to. */
  ghost predicate WorstSoFar(config: Config, st: State, n: nat, late: nat, i: nat, r: nat)
    requires i <= n
  {
    && st.starts == i + 2 * Max(0, i - (n - late)) && AllRetried(st.processes, st.starts, r)
    && st.removals == Max(0, (if i < n then i else n - 1) - (n - late))
    && (i < n ==> History(config, st.since).disk == Checkpoint.EMPTY)
  }

  lemma WorstNext(config: Config, message: string, st: State, n: nat, late: nat, i: nat, r: nat)
    requires config.retryable(message) && 1 <= late <= n && i < n && r == config.maxRetries + 1
    requires WorstSoFar(config, st, n, late, i, r)
    ensures WorstSoFar(config, Worked(config, st, WorstPlan(config, message, n, late)[i]), n, late, i + 1, r)
  {
    PlannedCosts(config, message, r);
    OneMoreCosts(config, st, WorstPlan(config, message, n, late)[i].a, if i < n - late then 1 else 3, r);
  }

  lemma {:induction false} WorstPlanCosts(config: Config, message: string, plan: seq<Planned>, n: nat, late: nat,
                                          i: nat, r: nat)
    requires config.retryable(message) && 1 <= late <= n && i <= n && r == config.maxRetries + 1
    requires plan == WorstPlan(config, message, n, late)
    ensures WorstSoFar(config, Played(config, plan[..i]), n, late, i, r)
  {
    if i > 0 {
      WorstPlanCosts(config, message, plan, n, late, i - 1, r);
      assert plan[..i][..i - 1] == plan[..i - 1];
      WorstNext(config, message, Played(config, plan[..i - 1]), n, late, i - 1, r);
    }
  }

  lemma WorstPlanFits(jobs: Jobs.Config, config: Config, message: string, manual: nat, budget: nat, late: nat)
    requires config.retryable(message) && budget == (manual + 1) * (jobs.maxRetries + 1) && late <= budget
    ensures PlanFor(jobs, WorstPlan(config, message, budget, late), manual, jobs.maxRetries + 1)
  {
    Jobs.BudgetClosedForm(manual, jobs.maxRetries);
    PlannedCosts(config, message, config.maxRetries + 1);
  }

  lemma WorstPlanCarriedOut(jobs: Jobs.Config, config: Config, job: JobId, message: string, manual: nat,
                            budget: nat, late: nat, r: nat)
    returns (steps: seq<Step>)
    requires config.retryable(message) && budget == (manual + 1) * (jobs.maxRetries + 1)
    requires 1 <= late <= budget && r == config.maxRetries + 1
    ensures Runs(jobs, config, NEW_JOB, job, steps) && NoneKilled(steps)
    ensures var st := After(jobs, config, NEW_JOB, job, steps);
            st.life.BooksOf(job).manual == manual && WorstSoFar(config, st, budget, late, budget, r)
  {
    var plan := WorstPlan(config, message, budget, late);
    WorstPlanFits(jobs, config, message, manual, budget, late);
    WorstPlanCosts(config, message, plan, budget, late, budget, r);
    assert plan[..budget] == plan;
    steps := PlanCarriedOut(jobs, config, job, plan, manual, jobs.maxRetries + 1);
  }

  lemma {:induction false} MoreRemovals(jobs: Jobs.Config, config: Config, job: JobId, steps: seq<Step>, n: nat)
    returns (steps': seq<Step>)
    requires Runs(jobs, config, NEW_JOB, job, steps) && NoneKilled(steps)
    ensures Runs(jobs, config, NEW_JOB, job, steps') && NoneKilled(steps')
    ensures var st, st' := After(jobs, config, NEW_JOB, job, steps), After(jobs, config, NEW_JOB, job, steps');
            && st'.removals == st.removals + n && st'.starts == st.starts && st'.processes == st.processes
            && st'.life == st.life
  {
    steps' := steps;
    if n > 0 {
      var before := MoreRemovals(jobs, config, job, steps, n - 1);
      RunExtends(jobs, config, NEW_JOB, job, before, Remove);
      steps' := before + [Remove];
    }
  }

  /** The bound is met, for all numbers of manual retries and removals: by a job whose every run fails, the
      first ones early, the last ones late, and whose directory is removed after each late failure but the
      last. */
  lemma WholeLifeBoundIsTight(jobs: Jobs.Config, config: Config, job: JobId, message: string, manual: nat,
                              removals: nat, budget: nat)
    returns (steps: seq<Step>)
    requires config.retryable(message) && budget == (manual + 1) * (jobs.maxRetries + 1)
    ensures Runs(jobs, config, NEW_JOB, job, steps) && NoneKilled(steps)
    ensures var st := After(jobs, config, NEW_JOB, job, steps);
            && st.life.BooksOf(job).manual == manual && st.removals == removals
            && st.starts == StartsOf(budget, removals + 1)
            && st.processes == StartsOf(budget, removals + 1) * (config.maxRetries + 1)
  {
    var late := Min(budget, removals + 1);
    var run := WorstPlanCarriedOut(jobs, config, job, message, manual, budget, late, config.maxRetries + 1);
    steps := MoreRemovals(jobs, config, job, run, removals - (late - 1));
  }
}

/** One job table under two readings (src/api/db.py, src/api/tasks.py, src/api/routers/jobs.py,
    src/api/ws.py): module Lifecycle follows the status of a row together with queue and workers, module
    Delivery follows what is written to the row together with messages and sockets. Here both run at once,
    and every status that the one changes is stored by a writer of the other. */
module JobTable {
  import opened JobUpdates
  import opened Prelude
  import Client = Reconnect
  import Jobs = Lifecycle
  import Manager = ProgressManager
  import Server = Delivery

  datatype State = State(life: Jobs.State, server: Server.State)

  const EMPTY := State(Jobs.EMPTY, Server.EMPTY)

  /** A step of the job's life and the writer that stores it, or any other step of the server; texts are
      arbitrary. */
  datatype Step =
    | Live(move: Jobs.Step, writer: Server.WriterId, text: string, note: string)
    | Serve(step: Server.Step)

  /** What a step of the job's life writes to the row, if it writes anything. */
  function Written(config: Jobs.Config, life: Jobs.State, step: Jobs.Step, text: string, note: string): Option<Change> {
    var job := step.job;
    match step
    case Create(_) => Some(Created)
    case Start(_) => Some(Started)
    case Succeed(_) => Some(Finished(text))
    case Fail(_, retryable) =>
      var count := if job in life.rows then life.rows[job].retryCount else 0;
      if retryable && count < config.maxRetries then Some(Retried(note, text)) else Some(Broke(text))
    case Crash(_) => None
    case Cancel(_, _) =>
      if job in life.rows && Jobs.Cancellable(life.rows[job].status) then Some(Stopped(text)) else None
    case Retry(_) => if job in life.rows && life.rows[job].status == Failed then Some(Resubmitted) else None
    case Delete(_) =>
      if job !in life.rows || life.rows[job].status == Processing || life.rows[job].status == Retrying then None
      else Some(Removed)
  }

  /** A writer is about to store this change. */
  predicate AboutToStore(server: Server.State, writer: Server.WriterId, job: JobId, change: Change) {
    && Server.Enabled(server, Server.Store(writer))
    && server.writers[writer].job == job && server.writers[writer].todo[0].change == change
  }

  /** Apart from the steps of a job's life, only progress is stored. */
  predicate Enabled(config: Jobs.Config, st: State, step: Step) {
    match step
    case Live(s, writer, text, note) =>
      && Jobs.Enabled(st.life, s)
      && (match Written(config, st.life, s, text, note)
          case Some(change) => AboutToStore(st.server, writer, s.job, change)
          case None => true)
    case Serve(s) =>
      && Server.Enabled(st.server, s)
      && (s.Store? ==> st.server.writers[s.writer].todo[0].change.Progressed?)
  }

  function Apply(config: Jobs.Config, st: State, step: Step): State
    requires Enabled(config, st, step)
  {
    match step
    case Live(s, writer, text, note) =>
      State(Jobs.Apply(config, st.life, s),
            if Written(config, st.life, s, text, note).Some? then Server.Apply(st.server, Server.Store(writer))
            else st.server)
    case Serve(s) => st.(server := Server.Apply(st.server, s))
  }

  predicate Runs(config: Jobs.Config, st: State, steps: seq<Step>)
    decreases |steps|
  {
    steps == [] || (Enabled(config, st, steps[0]) && Runs(config, Apply(config, st, steps[0]), steps[1..]))
  }

  function After(config: Jobs.Config, st: State, steps: seq<Step>): State
    requires Runs(config, st, steps)
    decreases |steps|
  {
    if steps == [] then st else After(config, Apply(config, st, steps[0]), steps[1..])
  }

  /** The status of a job in the one reading, if it has a row. */
  function StatusIn(life: Jobs.State, job: JobId): Option<Status> {
    if job in life.rows then Some(life.rows[job].status) else None
  }

  /** And in the other. */
  function StatusAfter(changes: seq<Change>): Option<Status> {
    match RowAfter(changes)
    case Some(row) => Some(row.status)
    case None => None
  }

  predicate Agree(st: State, job: JobId) {
    StatusIn(st.life, job) == StatusAfter(st.server.Changes(job))
  }

  ghost predicate Inv(config: Jobs.Config, st: State) {
    && Jobs.Inv(config, st.life) && Server.Inv(st.server)
    && forall job :: Agree(st, job)
  }

  /** The status after one more change. */
  function StatusNext(status: Option<Status>, change: Change): Option<Status> {
    match change
    case Created => Some(Pending)
    case Removed => None
    case Progressed(_) => status
    case _ => if status.Some? then Sets(change) else None
  }

  lemma OneMoreChange(changes: seq<Change>, change: Change)
    ensures StatusAfter(changes + [change]) == StatusNext(StatusAfter(changes), change)
  {
    assert (changes + [change])[..|changes|] == changes;
  }

  /** What a step of the job's life does to the status is what the change it writes does. */
  ghost predicate Writes(config: Jobs.Config, life: Jobs.State, step: Jobs.Step, text: string, note: string)
    requires Jobs.Enabled(life, step)
  {
    var before, change := StatusIn(life, step.job), Written(config, life, step, text, note);
    StatusIn(Jobs.Apply(config, life, step), step.job) ==
    if change.Some? then StatusNext(before, change.value) else before
  }

  lemma FailureWrites(config: Jobs.Config, life: Jobs.State, step: Jobs.Step, text: string, note: string)
    requires Jobs.Enabled(life, step) && step.Fail?
    ensures Writes(config, life, step, text, note)
  {
  }

  lemma CancelWrites(config: Jobs.Config, life: Jobs.State, step: Jobs.Step, text: string, note: string)
    requires step.Cancel?
    ensures Writes(config, life, step, text, note)
  {
  }

  lemma RetryWrites(config: Jobs.Config, life: Jobs.State, step: Jobs.Step, text: string, note: string)
    requires step.Retry? || step.Delete?
    ensures Writes(config, life, step, text, note)
  {
  }

  lemma RunWrites(config: Jobs.Config, life: Jobs.State, step: Jobs.Step, text: string, note: string)
    requires Jobs.Enabled(life, step) && (step.Create? || step.Start? || step.Succeed? || step.Crash?)
    ensures Writes(config, life, step, text, note)
  {
  }

  lemma LifeWrites(config: Jobs.Config, life: Jobs.State, step: Jobs.Step, text: string, note: string)
    requires Jobs.Enabled(life, step)
    ensures Writes(config, life, step, text, note)
  {
    match step
    case Fail(_, _) => FailureWrites(config, life, step, text, note);
    case Cancel(_, _) => CancelWrites(config, life, step, text, note);
    case Retry(_) => RetryWrites(config, life, step, text, note);
    case Delete(_) => RetryWrites(config, life, step, text, note);
    case _ => RunWrites(config, life, step, text, note);
  }

  lemma OtherStatusSame(config: Jobs.Config, life: Jobs.State, step: Jobs.Step, job: JobId)
    requires Jobs.Enabled(life, step) && job != step.job
    ensures StatusIn(Jobs.Apply(config, life, step), job) == StatusIn(life, job)
  {
    Jobs.OtherJobSame(config, life, step, job);
  }

  lemma StoreWrites(server: Server.State, writer: Server.WriterId, job: JobId)
    requires Server.Enabled(server, Server.Store(writer))
    ensures var w := server.writers[writer];
            Server.Apply(server, Server.Store(writer)).Changes(job) ==
            if job == w.job then server.Changes(job) + [w.todo[0].change] else server.Changes(job)
  {
  }

  lemma LifeAgrees(config: Jobs.Config, st: State, step: Step, job: JobId)
    requires Agree(st, job) && Enabled(config, st, step) && step.Live?
    ensures Agree(Apply(config, st, step), job)
  {
    if job == step.move.job {
      LifeWrites(config, st.life, step.move, step.text, step.note);
    } else {
      OtherStatusSame(config, st.life, step.move, job);
    }
    match Written(config, st.life, step.move, step.text, step.note)
    case Some(change) =>
      StoreWrites(st.server, step.writer, job);
      OneMoreChange(st.server.Changes(job), change);
    case None =>
  }

  lemma ServeAgrees(config: Jobs.Config, st: State, step: Server.Step, job: JobId)
    requires Agree(st, job) && Enabled(config, st, Serve(step))
    ensures Agree(Apply(config, st, Serve(step)), job)
  {
    if step.Store? {
      StoreWrites(st.server, step.writer, job);
      OneMoreChange(st.server.Changes(job), st.server.writers[step.writer].todo[0].change);
    }
  }

  lemma StepKeeps(config: Jobs.Config, st: State, step: Step)
    requires Inv(config, st) && Enabled(config, st, step)
    ensures Inv(config, Apply(config, st, step))
  {
    match step
    case Live(s, writer, text, note) =>
      Jobs.StepKeeps(config, st.life, s);
      if Written(config, st.life, s, text, note).Some? {
        Server.StepKeeps(st.server, Server.Store(writer));
      }
      forall job ensures Agree(Apply(config, st, step), job) {
        LifeAgrees(config, st, step, job);
      }
    case Serve(s) =>
      Server.StepKeeps(st.server, s);
      forall job ensures Agree(Apply(config, st, step), job) {
        ServeAgrees(config, st, s, job);
      }
  }

  lemma {:induction false} RunKeeps(config: Jobs.Config, st: State, steps: seq<Step>)
    requires Inv(config, st) && Runs(config, st, steps)
    ensures Inv(config, After(config, st, steps))
    decreases |steps|
  {
    if steps != [] {
      StepKeeps(config, st, steps[0]);
      RunKeeps(config, Apply(config, st, steps[0]), steps[1..]);
    }
  }

  /** Main result, for every run: the two readings agree. So a handler finds a row exactly if the job has one,
      and shows its status; and what a client is shown as pending or retrying is waiting for its one queued
      task, what it is shown as processing is active, and what it is shown as completed or failed is neither. The
      client stops for good exactly if it is shown a job that the queue does not know any more. */
  lemma ShownIsLived(config: Jobs.Config, steps: seq<Step>, ws: Manager.Socket, job: JobId, last: int,
                     position: Option<nat>)
    requires Runs(config, EMPTY, steps) && ws !in After(config, EMPTY, steps).server.info
    ensures var st, join := After(config, EMPTY, steps), Server.Join(ws, job, last, position);
            && Agree(st, job)
            && (Server.Enabled(st.server, join) <==> job in st.life.rows)
            && (job in st.life.rows ==>
                  var shown := Server.Apply(st.server, join).info[ws].row.status;
                  && shown == st.life.rows[job].status
                  && (shown == Pending || shown == Retrying ==> job in st.life.waiting && st.life.queued[job] == 1)
                  && (shown == Processing ==> job in st.life.active && job !in st.life.waiting)
                  && (shown == Completed || shown == Failed ==>
                        job !in st.life.waiting && job !in st.life.active
                        && st.life.queued[job] + st.life.running[job] == 0)
                  && (Client.Terminal(shown) <==> job !in st.life.waiting && job !in st.life.active))
  {
    Server.EmptyGood();
    RunKeeps(config, EMPTY, steps);
    assert Agree(After(config, EMPTY, steps), job);
    assert Jobs.Consistent(After(config, EMPTY, steps).life, job);
  }
}

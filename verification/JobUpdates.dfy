/** How a job row changes, and what is published about it (src/api/tasks.py:98-108, 168-184, 249-250,
    295-311, 345-346; src/api/routers/jobs.py:311, 425, 447, 500-512; src/api/db.py:204-311).

    Every writer first updates the row and then publishes. The columns kept are the ones a client is
    shown. */
module JobUpdates {
  import opened Prelude
  import opened ProgressManager

  /** One statement of one writer against the row. */
  datatype Change =
    | Created
    | Started
    | Progressed(progress: string)
    | Finished(result: string)
    | Retried(note: string, error: string)
    | Broke(error: string)
    | Stopped(message: string)
    | Resubmitted
    | Removed

  /** A published message; `detail` is its error or its message. */
  datatype Notice = Notice(status: Status, progress: Option<string>, result: Option<string>, detail: Option<string>)

  /** A notice as it travels in an event. `update` is the place of the change it announces among the changes
      of its job. */
  datatype Entry = Entry(update: int, notice: Notice)

  /** What a writer does to the outside world, one after the other. */
  datatype Effect = Stored(change: Change) | Published(notice: Notice)

  function Updated(row: Row, change: Change): Row {
    match change
    case Started => row.(status := Processing)
    case Progressed(progress) => row.(progress := Some(progress))
    case Finished(result) => row.(status := Completed, result := Some(result))
    case Retried(note, _) => row.(status := Retrying, error := Some(note))
    case Broke(error) => row.(status := Failed, error := Some(error))
    case Stopped(message) => row.(status := Cancelled, error := Some(message))
    case Resubmitted => row.(status := Pending, error := None)
    case _ => row
  }

  /** An update of a missing row leaves it missing. */
  function Changed(row: Option<Row>, change: Change): Option<Row> {
    match change
    case Created => Some(Row(Pending, None, None, None))
    case Removed => None
    case _ => if row.Some? then Some(Updated(row.value, change)) else None
  }

  /** The row after all these changes, in the order they were committed. */
  function RowAfter(changes: seq<Change>): Option<Row> {
    if changes == [] then None else Changed(RowAfter(changes[..|changes| - 1]), changes[|changes| - 1])
  }

  /** Only these changes are announced. */
  predicate Announces(change: Change) {
    change.Progressed? || change.Finished? || change.Retried? || change.Broke? || change.Stopped?
  }

  function NoticeOf(change: Change): Notice
    requires Announces(change)
  {
    match change
    case Progressed(progress) => Notice(Processing, Some(progress), None, None)
    case Finished(result) => Notice(Completed, None, Some(result), None)
    case Retried(_, error) => Notice(Retrying, None, None, Some(error))
    case Broke(error) => Notice(Failed, None, None, Some(error))
    case Stopped(message) => Notice(Cancelled, None, None, Some(message))
  }

  /** The program of a writer: the row first, then the message, if there is one. */
  function ProgramOf(change: Change): seq<Effect> {
    [Stored(change)] + (if Announces(change) then [Published(NoticeOf(change))] else [])
  }

  /** The status a change writes, if it writes one. */
  function Sets(change: Change): Option<Status> {
    match change
    case Progressed(_) => None
    case Removed => None
    case Created => Some(Pending)
    case Started => Some(Processing)
    case Finished(_) => Some(Completed)
    case Retried(_, _) => Some(Retrying)
    case Broke(_) => Some(Failed)
    case Stopped(_) => Some(Cancelled)
    case Resubmitted => Some(Pending)
  }

  /** The status of the row is the one written last: no change that wrote a status comes after the one
      that wrote this. */
  lemma {:induction false} StatusIsLatest(changes: seq<Change>, i: nat)
    requires i < |changes| && Sets(changes[i]).Some? && RowAfter(changes).Some?
    ensures exists j :: i <= j < |changes| && Sets(changes[j]) == Some(RowAfter(changes).value.status)
  {
    var n := |changes| - 1;
    if Sets(changes[n]).Some? {
      assert Sets(changes[n]) == Some(RowAfter(changes).value.status);
    } else {
      StatusIsLatest(changes[..n], i);
      var j :| i <= j < n && Sets(changes[..n][j]) == Some(RowAfter(changes[..n]).value.status);
      assert changes[j] == changes[..n][j];
    }
  }

  /** The row that is there was inserted by this change, and not removed since. */
  predicate Born(changes: seq<Change>, born: nat) {
    && born < |changes| && changes[born].Created?
    && forall j :: born < j < |changes| ==> !changes[j].Created? && !changes[j].Removed?
  }

  /** What a change writes to one column, if anything. */
  function WritesProgress(change: Change): Option<Option<string>> {
    match change
    case Progressed(progress) => Some(Some(progress))
    case _ => None
  }

  function WritesResult(change: Change): Option<Option<string>> {
    match change
    case Finished(result) => Some(Some(result))
    case _ => None
  }

  /** A failure or a cancellation writes its text, a retry its note, and a manual retry takes it back. */
  function WritesError(change: Change): Option<Option<string>> {
    match change
    case Retried(note, _) => Some(Some(note))
    case Broke(error) => Some(Some(error))
    case Stopped(message) => Some(Some(message))
    case Resubmitted => Some(None)
    case _ => None
  }

  /** A column holds what was written to it last since the row was inserted, or what it was inserted with. */
  ghost predicate Column<V(!new)>(changes: seq<Change>, born: nat, writes: Change -> Option<V>, initial: V, value: V) {
    || (exists i :: born < i < |changes| && writes(changes[i]) == Some(value)
                    && forall j :: i < j < |changes| ==> writes(changes[j]) == None)
    || (value == initial && forall j :: born < j < |changes| ==> writes(changes[j]) == None)
  }

  lemma ColumnBegins<V(!new)>(changes: seq<Change>, writes: Change -> Option<V>, initial: V)
    requires changes != []
    ensures Column(changes, |changes| - 1, writes, initial, initial)
  {
  }

  lemma ColumnGoesOn<V(!new)>(changes: seq<Change>, change: Change, born: nat, writes: Change -> Option<V>, initial: V,
                              before: V, after: V)
    requires born < |changes| && Column(changes, born, writes, initial, before)
    requires after == writes(change).GetOr(before)
    ensures Column(changes + [change], born, writes, initial, after)
  {
    var more, n := changes + [change], |changes|;
    assert more[n] == change && forall j :: 0 <= j < n ==> more[j] == changes[j];
    if writes(change) == None && exists j :: born < j < n && writes(changes[j]) != None {
      var i :| born < i < n && writes(changes[i]) == Some(before)
               && forall j :: i < j < n ==> writes(changes[j]) == None;
      assert writes(more[i]) == Some(after);
    }
  }

  /** Column by column. */
  ghost predicate Shows(changes: seq<Change>, born: nat, row: Row) {
    && Born(changes, born)
    && Column(changes, born, Sets, Pending, row.status)
    && Column(changes, born, WritesProgress, None, row.progress)
    && Column(changes, born, WritesResult, None, row.result)
    && Column(changes, born, WritesError, None, row.error)
  }

  lemma ShowsBegins(front: seq<Change>)
    ensures Shows(front + [Created], |front|, Row(Pending, None, None, None))
  {
    var changes := front + [Created];
    ColumnBegins(changes, Sets, Pending);
    ColumnBegins(changes, WritesProgress, None);
    ColumnBegins(changes, WritesResult, None);
    ColumnBegins(changes, WritesError, None);
  }

  lemma ShowsGoesOn(front: seq<Change>, born: nat, row: Row, change: Change)
    requires Shows(front, born, row) && !change.Created? && !change.Removed?
    ensures Shows(front + [change], born, Updated(row, change))
  {
    var row' := Updated(row, change);
    ColumnGoesOn(front, change, born, Sets, Pending, row.status, row'.status);
    ColumnGoesOn(front, change, born, WritesProgress, None, row.progress, row'.progress);
    ColumnGoesOn(front, change, born, WritesResult, None, row.result, row'.result);
    ColumnGoesOn(front, change, born, WritesError, None, row.error, row'.error);
  }

  /** Main result about the row: column by column it holds what was written last since it was inserted. */
  lemma {:induction false} RowIsLatest(changes: seq<Change>) returns (born: nat)
    requires RowAfter(changes).Some?
    ensures Shows(changes, born, RowAfter(changes).value)
  {
    var n := |changes| - 1;
    var front, change := changes[..n], changes[n];
    assert changes == front + [change];
    if change.Created? {
      born := n;
      ShowsBegins(front);
    } else {
      born := RowIsLatest(front);
      ShowsGoesOn(front, born, RowAfter(front).value, change);
    }
  }

  /** The last change of the status since the row was inserted: only progress came after it. */
  predicate LastStatus(changes: seq<Change>, born: nat, last: nat) {
    && Born(changes, born) && born <= last < |changes| && !changes[last].Progressed?
    && forall j :: last < j < |changes| ==> changes[j].Progressed?
  }

  lemma {:induction false} LastStatusExists(changes: seq<Change>, born: nat) returns (last: nat)
    requires Born(changes, born)
    ensures LastStatus(changes, born, last)
  {
    var n := |changes| - 1;
    if !changes[n].Progressed? {
      last := n;
    } else {
      assert changes == changes[..n] + [changes[n]];
      last := LastStatusExists(changes[..n], born);
    }
  }

  lemma ColumnAt<V(!new)>(changes: seq<Change>, born: nat, last: nat, writes: Change -> Option<V>, initial: V, value: V)
    requires Column(changes, born, writes, initial, value) && born <= last < |changes|
    requires forall j :: last < j < |changes| ==> writes(changes[j]) == None
    ensures born < last && writes(changes[last]).Some? ==> value == writes(changes[last]).value
    ensures born == last ==> value == initial
  {
  }

  /** What the last change of the status says about the row. */
  lemma LastStatusTells(changes: seq<Change>, born: nat, last: nat)
    requires RowAfter(changes).Some? && LastStatus(changes, born, last) && Shows(changes, born, RowAfter(changes).value)
    ensures var row := RowAfter(changes).value;
            match changes[last] {
              case Finished(result) => row.status == Completed && row.result == Some(result)
              case Broke(error) => row.status == Failed && row.error == Some(error)
              case Stopped(message) => row.status == Cancelled && row.error == Some(message)
              case Retried(note, _) => row.status == Retrying && row.error == Some(note)
              case Started => row.status == Processing
              case _ => row.status == Pending && row.error == None
            }
  {
    var row := RowAfter(changes).value;
    ColumnAt(changes, born, last, Sets, Pending, row.status);
    ColumnAt(changes, born, last, WritesResult, None, row.result);
    ColumnAt(changes, born, last, WritesError, None, row.error);
  }

  /** A notice tells what its change writes: the status, and the progress, the result or the error, if it
      writes one. Progress is told as processing, and a retry tells the error itself, not the note. */
  lemma NoticeTellsStatus(change: Change)
    requires Announces(change)
    ensures NoticeOf(change).status == Sets(change).GetOr(Processing)
    ensures NoticeOf(change).progress == WritesProgress(change).GetOr(None)
    ensures NoticeOf(change).result == WritesResult(change).GetOr(None)
    ensures NoticeOf(change).detail == if change.Retried? then Some(change.error) else WritesError(change).GetOr(None)
  {
  }

  /** Progress is announced, and of the changes of status exactly those to an end or to a retry. */
  lemma AnnouncedExactly(change: Change)
    ensures Announces(change) <==>
            || WritesProgress(change).Some?
            || Sets(change) in {Some(Retrying), Some(Completed), Some(Failed), Some(Cancelled)}
  {
  }

  function Tagged(job: JobId, effects: seq<Effect>): seq<(JobId, Effect)> {
    seq(|effects|, i requires 0 <= i < |effects| => (job, effects[i]))
  }

  /** The job table (src/api/db.py: JobStore) and the message channel, with everything that was ever done
      to them, in order. */
  class Updates {
    var rows: map<JobId, Row>
    var channel: seq<(JobId, Notice)>
    ghost var changes: map<JobId, seq<Change>>
    ghost var trace: seq<(JobId, Effect)>

    ghost function Changes(job: JobId): seq<Change>
      reads this`changes
    {
      At(changes, job, [])
    }

    function RowOf(job: JobId): Option<Row>
      reads this`rows
    {
      if job in rows then Some(rows[job]) else None
    }

    ghost predicate Valid()
      reads this
    {
      forall job :: (if job in rows then Some(rows[job]) else None) == RowAfter(At(changes, job, []))
    }

    constructor ()
      ensures Valid() && trace == [] && channel == []
      ensures forall job :: Changes(job) == []
    {
      rows, channel := map[], [];
      changes, trace := map[], [];
    }

    /** One INSERT, UPDATE or DELETE. */
    method Store(job: JobId, change: Change)
      requires Valid()
      modifies this`rows, this`changes, this`trace
      ensures Valid()
      ensures changes == old(changes)[job := old(Changes(job)) + [change]]
      ensures trace == old(trace) + [(job, Stored(change))]
    {
      ghost var before := Changes(job);
      assert (before + [change])[..|before|] == before;
      match change {
        case Created => rows := rows[job := Row(Pending, None, None, None)];
        case Removed => rows := rows - {job};
        case _ =>
          if job in rows {
            rows := rows[job := Updated(rows[job], change)];
          }
      }
      changes := changes[job := before + [change]];
      trace := trace + [(job, Stored(change))];
      assert forall j :: j != job ==> At(changes, j, []) == At(old(changes), j, []);
    }

    method Publish(job: JobId, notice: Notice)
      modifies this`channel, this`trace
      ensures channel == old(channel) + [(job, notice)]
      ensures trace == old(trace) + [(job, Published(notice))]
    {
      channel := channel + [(job, notice)];
      trace := trace + [(job, Published(notice))];
    }

    method Get(job: JobId) returns (row: Option<Row>)
      requires Valid()
      ensures row == RowAfter(Changes(job))
    {
      row := RowOf(job);
    }

    /** Row, then message: what every writer below does. */
    ghost predicate Wrote(before: map<JobId, seq<Change>>, done: seq<(JobId, Effect)>, job: JobId, change: Change)
      reads this
    {
      && Valid()
      && changes == before[job := At(before, job, []) + [change]]
      && trace == done + Tagged(job, ProgramOf(change))
    }

    /** `store.create` in `create_job`. */
    method Create(job: JobId)
      requires Valid()
      modifies this
      ensures Wrote(old(changes), old(trace), job, Created)
    {
      Store(job, Created);
    }

    /** The start of `run_pipeline`: nothing is published. */
    method Begin(job: JobId)
      requires Valid()
      modifies this
      ensures Wrote(old(changes), old(trace), job, Started)
    {
      Store(job, Started);
    }

    /** `_update_progress`, and `_on_colmap_retry` alike. */
    method UpdateProgress(job: JobId, progress: string)
      requires Valid()
      modifies this
      ensures Wrote(old(changes), old(trace), job, Progressed(progress))
    {
      Store(job, Progressed(progress));
      Publish(job, Notice(Processing, Some(progress), None, None));
    }

    /** The successful end of `run_pipeline`. */
    method Complete(job: JobId, result: string)
      requires Valid()
      modifies this
      ensures Wrote(old(changes), old(trace), job, Finished(result))
    {
      Store(job, Finished(result));
      Publish(job, Notice(Completed, None, Some(result), None));
    }

    /** `_handle_pipeline_error`, as far as row and channel go. `note` is the error as the row shows it. */
    method HandleError(job: JobId, retry: bool, note: string, error: string)
      requires Valid()
      modifies this
      ensures Wrote(old(changes), old(trace), job, if retry then Retried(note, error) else Broke(error))
    {
      if retry {
        Store(job, Retried(note, error));
        Publish(job, Notice(Retrying, None, None, Some(error)));
      } else {
        Store(job, Broke(error));
        Publish(job, Notice(Failed, None, None, Some(error)));
      }
    }

    /** `cancel_job`, once the job is found to be cancellable. */
    method CancelJob(job: JobId, message: string)
      requires Valid()
      modifies this
      ensures Wrote(old(changes), old(trace), job, Stopped(message))
    {
      Store(job, Stopped(message));
      Publish(job, Notice(Cancelled, None, None, Some(message)));
    }

    /** `retry_job`: nothing is published. */
    method RetryJob(job: JobId)
      requires Valid()
      modifies this
      ensures Wrote(old(changes), old(trace), job, Resubmitted)
    {
      Store(job, Resubmitted);
    }

    /** `delete_job`: nothing is published. */
    method DeleteJob(job: JobId)
      requires Valid()
      modifies this
      ensures Wrote(old(changes), old(trace), job, Removed)
    {
      Store(job, Removed);
    }
  }
}

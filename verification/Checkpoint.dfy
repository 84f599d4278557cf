/** The checkpointed reconstruction pipeline (src/reconstruction/reconstruction.py:419-449, 452-679)
    under repeated invocation: step failures, kills at any point, and torn checkpoint writes. */
module Checkpoint {
  import opened Prelude
  import opened ColmapRetry

  datatype Step =
    | FeatureExtraction | ExhaustiveMatching | SparseReconstruction
    | PlyExport | ImageUndistortion | PatchMatchStereo | StereoFusion | GaussianSplatting | PotreeConversion

  /** The steps that are checkpointed, in order. */
  const CORE: seq<Step> := [FeatureExtraction, ExhaustiveMatching, SparseReconstruction]

  /** checkpoint.json. A write that is cut short leaves a proper prefix of a JSON object, which does not parse. */
  datatype File = Absent | Unreadable | Saved(last: Step, steps: seq<Step>)

  /** What survives between invocations. */
  datatype Disk = Disk(checkpoint: File, ply: bool, densePly: bool)

  const EMPTY := Disk(Absent, false, false)

  datatype Options = Options(exportPly: bool, dense: bool, gaussian: bool)

  /** Where a core step is killed, if at all: while COLMAP runs, after it succeeded but before the
      checkpoint is written, or in the middle of that write. */
  datatype Fate = Lives | DiesRunning | DiesUnsaved | DiesSaving

  /** How one of the later tools ends; a failing or killed one may leave an output file behind. */
  datatype Tool = Works | Breaks(leavesOutput: bool) | Dies(leavesOutput: bool) {
    predicate Output() { Works? || leavesOutput }
  }

  datatype Potree = NoOctree | Octree | PotreeBreaks | PotreeDies

  /** Everything outside the repository's control in one invocation. */
  datatype Attempt = Attempt(
    numImages: nat,
    options: Options,
    ending: nat -> nat -> Ending,
    fate: nat -> Fate,
    pointsFound: bool,
    exporter: Tool,
    undistort: Tool,
    stereo: Tool,
    fusion: Tool,
    splat: Tool,
    potree: Potree)

  datatype Config = Config(maxRetries: nat, retryable: string -> bool)

  datatype Outcome = Finished(steps: seq<Step>) | Error | Killed

  datatype Event = Started(index: nat) | Succeeded(index: nat)

  /** How many COLMAP processes core step k starts, and whether it ends well. */
  function Processes(config: Config, a: Attempt, k: nat): nat {
    StopIndex(a.ending(k), config.retryable, config.maxRetries, 0) + 1
  }

  predicate Ends(config: Config, a: Attempt, k: nat) {
    a.ending(k)(Processes(config, a, k) - 1).Exited?
  }

  datatype CoreEnd = CoreDone | CoreError | CoreKilled

  datatype CoreRun = CoreRun(file: File, end: CoreEnd, events: seq<Event>) {
    function After(before: seq<Event>): CoreRun { this.(events := before + events) }
  }

  /** The only checkpoints that ever exist. */
  predicate Sound(file: File) {
    file.Saved? ==>
      var n := |file.steps|;
      0 < n <= |CORE| && file.steps == CORE[..n] && file.last == file.steps[n - 1]
  }

  /** The core steps from the k-th on, k of them being in the checkpoint. */
  function RunCore(config: Config, a: Attempt, file: File, k: nat): (core: CoreRun)
    requires k <= |CORE|
    ensures Sound(file) ==> Sound(core.file)
    decreases |CORE| - k
  {
    if k == |CORE| then CoreRun(file, CoreDone, [])
    else if a.fate(k) == DiesRunning then CoreRun(file, CoreKilled, [Started(k)])
    else if !Ends(config, a, k) then CoreRun(file, CoreError, [Started(k)])
    else if a.fate(k) == DiesUnsaved then CoreRun(file, CoreKilled, [Started(k), Succeeded(k)])
    else if a.fate(k) == DiesSaving then CoreRun(Unreadable, CoreKilled, [Started(k), Succeeded(k)])
    else RunCore(config, a, Saved(CORE[k], CORE[..k + 1]), k + 1).After([Started(k), Succeeded(k)])
  }

  /** The later tools an invocation asks for, in order. */
  function Tools(a: Attempt): seq<(Step, Tool)> {
    (if a.options.exportPly then [(PlyExport, a.exporter)] else [])
    + (if a.options.dense
       then [(ImageUndistortion, a.undistort), (PatchMatchStereo, a.stereo), (StereoFusion, a.fusion)] else [])
    + (if a.options.gaussian then [(GaussianSplatting, a.splat)] else [])
  }

  /** The first tool that does not work, if any. */
  function FirstBroken(tools: seq<(Step, Tool)>): Option<Tool> {
    if tools == [] then None
    else if !tools[0].1.Works? then Some(tools[0].1)
    else FirstBroken(tools[1..])
  }

  function Names(tools: seq<(Step, Tool)>): seq<Step> {
    seq(|tools|, i requires 0 <= i < |tools| => tools[i].0)
  }

  /** The conversion has something to work on. */
  predicate HasSource(a: Attempt, ply: bool, densePly: bool) {
    (a.options.dense && densePly) || ply
  }

  /** The octree conversion, the last step there is. */
  function Converted(a: Attempt, source: bool, steps: seq<Step>): Outcome {
    if !source then Finished(steps)
    else
      match a.potree
      case NoOctree => Finished(steps)
      case Octree => Finished(steps + [PotreeConversion])
      case PotreeBreaks => Error
      case PotreeDies => Killed
  }

  /** What follows the core steps, given the files on disk. */
  function RunRest(a: Attempt, disk: Disk): (Disk, Outcome) {
    if !a.pointsFound then (disk, Error)
    else
      var ply := disk.ply || (a.options.exportPly && a.exporter.Output());
      var fused :=
        a.options.dense && (a.options.exportPly ==> a.exporter.Works?) && a.undistort.Works? && a.stereo.Works?;
      var densePly := disk.densePly || (fused && a.fusion.Output());
      var disk' := disk.(ply := ply, densePly := densePly);
      match FirstBroken(Tools(a))
      case Some(tool) => (disk', if tool.Dies? then Killed else Error)
      case None =>
        (disk', Converted(a, HasSource(a, ply, densePly), CORE + Names(Tools(a))))
  }

  datatype Invocation = Invocation(disk: Disk, outcome: Outcome, events: seq<Event>)

  /** How many core steps a checkpoint lets an invocation skip. */
  function Resumed(file: File): nat {
    if file.Saved? then |file.steps| else 0
  }

  function CoreOf(config: Config, a: Attempt, file: File): CoreRun
    requires Sound(file)
  {
    if a.numImages < 2 then CoreRun(file, CoreError, []) else RunCore(config, a, file, Resumed(file))
  }

  function Invoke(config: Config, a: Attempt, disk: Disk): (run: Invocation)
    requires Sound(disk.checkpoint)
    ensures Sound(run.disk.checkpoint)
  {
    var core := CoreOf(config, a, disk.checkpoint);
    var disk' := disk.(checkpoint := core.file);
    match core.end
    case CoreKilled => Invocation(disk', Killed, core.events)
    case CoreError => Invocation(disk', Error, core.events)
    case CoreDone =>
      var (disk'', outcome) := RunRest(a, disk');
      Invocation(disk'', outcome, core.events)
  }

  lemma InvokeCore(config: Config, a: Attempt, disk: Disk)
    requires Sound(disk.checkpoint)
    ensures var run, core := Invoke(config, a, disk), CoreOf(config, a, disk.checkpoint);
            && run.events == core.events && run.disk.checkpoint == core.file
            && (core.end == CoreError ==> run.outcome == Error)
  {
  }

  lemma AfterAfter(core: CoreRun, later: seq<Event>, earlier: seq<Event>)
    ensures core.After(later).After(earlier) == core.After(earlier + later)
  {
    assert earlier + (later + core.events) == (earlier + later) + core.events;
  }

  lemma AfterNothing(core: CoreRun)
    ensures core.After([]) == core
  {
    assert [] + core.events == core.events;
  }

  lemma PrefixMembers(k: nat)
    requires k <= |CORE|
    ensures forall i :: 0 <= i < |CORE| ==> (CORE[i] in CORE[..k] <==> i < k)
  {
    forall i | 0 <= i < k ensures CORE[i] in CORE[..k] {
      assert CORE[..k][i] == CORE[i];
    }
  }

  lemma {:induction false} FirstBrokenConcat(s: seq<(Step, Tool)>, t: seq<(Step, Tool)>)
    ensures FirstBroken(s + t) == if FirstBroken(s).Some? then FirstBroken(s) else FirstBroken(t)
  {
    if s == [] {
      assert s + t == t;
    } else {
      assert (s + t)[1..] == s[1..] + t;
      FirstBrokenConcat(s[1..], t);
    }
  }

  /** The tools one after the other: the first that does not work decides. */
  lemma UnrollTools(a: Attempt)
    ensures FirstBroken(Tools(a)) ==
            if a.options.exportPly && !a.exporter.Works? then Some(a.exporter)
            else if a.options.dense && !a.undistort.Works? then Some(a.undistort)
            else if a.options.dense && !a.stereo.Works? then Some(a.stereo)
            else if a.options.dense && !a.fusion.Works? then Some(a.fusion)
            else if a.options.gaussian && !a.splat.Works? then Some(a.splat)
            else None
  {
    var ply := if a.options.exportPly then [(PlyExport, a.exporter)] else [];
    var dense := if a.options.dense
                 then [(ImageUndistortion, a.undistort), (PatchMatchStereo, a.stereo), (StereoFusion, a.fusion)]
                 else [];
    var gaussian := if a.options.gaussian then [(GaussianSplatting, a.splat)] else [];
    FirstBrokenConcat(ply + dense, gaussian);
    FirstBrokenConcat(ply, dense);
    if a.options.dense {
      assert dense[1..] == [(PatchMatchStereo, a.stereo), (StereoFusion, a.fusion)];
      assert dense[1..][1..] == [(StereoFusion, a.fusion)];
      assert FirstBroken(dense[1..][1..]) == if a.fusion.Works? then None else Some(a.fusion);
    }
  }

  /** Running on from `before` with k steps done comes to this end with these events; if all went well,
      what is left is the run from the step `next` on. */
  ghost predicate Reaches(config: Config, a: Attempt, before: File, k: nat, end: CoreEnd, file: File, next: nat,
                          events: seq<Event>)
    requires k <= |CORE| && next <= |CORE|
  {
    RunCore(config, a, before, k) ==
    if end == CoreDone then RunCore(config, a, file, next).After(events) else CoreRun(file, end, events)
  }

  lemma ReachesOn(config: Config, a: Attempt, before: File, k: nat, file: File, next: nat, events: seq<Event>,
                  end': CoreEnd, file': File, next': nat, more: seq<Event>)
    requires k <= |CORE| && next <= |CORE| && next' <= |CORE|
    requires Reaches(config, a, before, k, CoreDone, file, next, events)
    requires Reaches(config, a, file, next, end', file', next', more)
    ensures Reaches(config, a, before, k, end', file', next', events + more)
  {
    AfterAfter(RunCore(config, a, file', next'), more, events);
  }

  /** The workspace directory, and `reconstruct` working in it. */
  class Workspace {
    var checkpoint: File
    var ply: bool
    var densePly: bool

    function OnDisk(): Disk
      reads this
    {
      Disk(checkpoint, ply, densePly)
    }

    constructor ()
      ensures OnDisk() == EMPTY
    {
      checkpoint, ply, densePly := Absent, false, false;
    }

    /** `_load_checkpoint`: an unreadable file counts as none. */
    method LoadCheckpoint() returns (steps: Option<seq<Step>>)
      ensures steps == if checkpoint.Saved? then Some(checkpoint.steps) else None
    {
      steps := match checkpoint case Saved(_, s) => Some(s) case _ => None;
    }

    /** `_save_checkpoint`, which may be cut short. */
    method SaveCheckpoint(step: Step, steps: seq<Step>, torn: bool)
      modifies this`checkpoint
      ensures checkpoint == if torn then Unreadable else Saved(step, steps)
    {
      checkpoint := if torn then Unreadable else Saved(step, steps);
    }

    /** The COLMAP command of a core step, with its retries. */
    method RunCommand(config: Config, a: Attempt, k: nat) returns (returned: bool)
      ensures returned <==> Ends(config, a, k)
    {
      var retries := RetryConfig(config.maxRetries, 5.0, 2.0, 1.5);
      var result, _ := RunColmap(3600, Some(retries), true, a.ending(k), config.retryable);
      returned := result.Returned?;
    }

    /** Run, append, save: one unfolding of the specification. */
    method RunAndSave(config: Config, a: Attempt, k: nat, steps: seq<Step>)
      returns (end: CoreEnd, steps': seq<Step>, events: seq<Event>)
      requires k < |CORE| && steps == CORE[..k]
      modifies this`checkpoint
      ensures end == CoreDone ==> steps' == CORE[..k + 1]
      ensures Reaches(config, a, old(checkpoint), k, end, checkpoint, k + 1, events)
    {
      end, steps', events := CoreDone, steps, [Started(k)];
      if a.fate(k) == DiesRunning {
        end := CoreKilled;
        return;
      }
      var returned := RunCommand(config, a, k);
      if !returned {
        end := CoreError;
        return;
      }
      steps' := steps' + [CORE[k]];
      events := events + [Succeeded(k)];
      if a.fate(k) == DiesUnsaved {
        end := CoreKilled;
        return;
      }
      SaveCheckpoint(CORE[k], steps', a.fate(k) == DiesSaving);
      if a.fate(k) == DiesSaving {
        end := CoreKilled;
      }
    }

    /** One guarded core step: `if name not in completed_set`. The run starts where the checkpoint says
        (`resumed`). */
    method CoreStep(config: Config, a: Attempt, k: nat, completed: set<Step>, steps: seq<Step>, ghost resumed: nat)
      returns (end: CoreEnd, steps': seq<Step>, events: seq<Event>)
      requires k < |CORE| && resumed <= |CORE|
      requires forall i :: 0 <= i < |CORE| ==> (CORE[i] in completed <==> i < resumed)
      requires steps == CORE[..Max(resumed, k)]
      modifies this`checkpoint
      ensures end == CoreDone ==> steps' == CORE[..Max(resumed, k + 1)]
      ensures Reaches(config, a, old(checkpoint), Max(resumed, k), end, checkpoint, Max(resumed, k + 1), events)
    {
      end, steps', events := CoreDone, steps, [];
      if CORE[k] !in completed {
        end, steps', events := RunAndSave(config, a, k, steps);
      } else {
        AfterNothing(RunCore(config, a, checkpoint, resumed));
      }
    }

    /** The three core steps, stopping at the first that does not complete. */
    method CoreSteps(config: Config, a: Attempt) returns (end: CoreEnd, steps: seq<Step>, events: seq<Event>)
      requires Sound(checkpoint)
      modifies this`checkpoint
      ensures CoreRun(checkpoint, end, events) == RunCore(config, a, old(checkpoint), Resumed(old(checkpoint)))
      ensures end == CoreDone ==> steps == CORE
    {
      var loaded := LoadCheckpoint();
      var completed := match loaded case Some(s) => (set x | x in s) case None => {};
      steps := match loaded case Some(s) => s case None => [];
      ghost var resumed := Resumed(checkpoint);
      PrefixMembers(resumed);
      end, steps, events := CoreStep(config, a, 0, completed, steps, resumed);
      if end == CoreDone {
        ghost var file, before := checkpoint, events;
        var more;
        end, steps, more := CoreStep(config, a, 1, completed, steps, resumed);
        events := events + more;
        ReachesOn(config, a, old(checkpoint), resumed, file, Max(resumed, 1), before,
                  end, checkpoint, Max(resumed, 2), more);
      }
      if end == CoreDone {
        ghost var file, before := checkpoint, events;
        var more;
        end, steps, more := CoreStep(config, a, 2, completed, steps, resumed);
        events := events + more;
        ReachesOn(config, a, old(checkpoint), resumed, file, Max(resumed, 2), before, end, checkpoint, 3, more);
      }
      assert end == CoreDone ==>
          RunCore(config, a, checkpoint, 3).After(events) == CoreRun(checkpoint, CoreDone, events);
    }

    /** The conversion takes dense_points.ply if the invocation asked for it, or else points.ply. */
    method Convert(a: Attempt, done: seq<Step>) returns (outcome: Outcome)
      ensures outcome == Converted(a, HasSource(a, ply, densePly), done)
    {
      var steps := done;
      var source := false;
      if a.options.dense && densePly {
        source := true;
      } else if ply {
        source := true;
      }
      if source {
        match a.potree {
          case NoOctree =>
          case Octree => steps := steps + [PotreeConversion];
          case PotreeBreaks => return Error;
          case PotreeDies => return Killed;
        }
      }
      outcome := Finished(steps);
    }

    /** Everything after the core steps. */
    method Finish(a: Attempt, core: seq<Step>) returns (outcome: Outcome)
      requires core == CORE
      modifies this`ply, this`densePly
      ensures (OnDisk(), outcome) == RunRest(a, old(OnDisk()))
    {
      var steps := core;
      if !a.pointsFound {
        return Error;
      }
      UnrollTools(a);
      if a.options.exportPly {
        ply := ply || a.exporter.Output();
        if !a.exporter.Works? {
          return if a.exporter.Dies? then Killed else Error;
        }
        steps := steps + [PlyExport];
      }
      if a.options.dense {
        if !a.undistort.Works? {
          return if a.undistort.Dies? then Killed else Error;
        }
        steps := steps + [ImageUndistortion];
        if !a.stereo.Works? {
          return if a.stereo.Dies? then Killed else Error;
        }
        steps := steps + [PatchMatchStereo];
        densePly := densePly || a.fusion.Output();
        if !a.fusion.Works? {
          return if a.fusion.Dies? then Killed else Error;
        }
        steps := steps + [StereoFusion];
      }
      if a.options.gaussian {
        if !a.splat.Works? {
          return if a.splat.Dies? then Killed else Error;
        }
        steps := steps + [GaussianSplatting];
      }
      assert steps == CORE + Names(Tools(a));
      outcome := Convert(a, steps);
    }

    method Reconstruct(config: Config, a: Attempt) returns (outcome: Outcome, events: seq<Event>)
      requires Sound(checkpoint)
      modifies this
      ensures Invocation(OnDisk(), outcome, events) == Invoke(config, a, old(OnDisk()))
    {
      if a.numImages < 2 {
        return Error, [];
      }
      var end, steps;
      end, steps, events := CoreSteps(config, a);
      match end {
        case CoreKilled => outcome := Killed;
        case CoreError => outcome := Error;
        case CoreDone => outcome := Finish(a, steps);
      }
    }
  }

  /** A workspace directory after any number of invocations, oldest first: what is on disk, every
      core step ever started and completed, the COLMAP processes they took, the runs that failed. */
  datatype Total = Total(disk: Disk, events: seq<Event>, processes: nat, failures: nat)

  function ProcessCount(config: Config, a: Attempt, events: seq<Event>): nat {
    if events == [] then 0
    else
      (if events[0].Started? then Processes(config, a, events[0].index) else 0) + ProcessCount(config, a, events[1..])
  }

  function History(config: Config, attempts: seq<Attempt>): (total: Total)
    ensures Sound(total.disk.checkpoint)
  {
    if attempts == [] then Total(EMPTY, [], 0, 0)
    else
      var before := History(config, attempts[..|attempts| - 1]);
      var a := attempts[|attempts| - 1];
      var run := Invoke(config, a, before.disk);
      Total(run.disk, before.events + run.events,
            before.processes + ProcessCount(config, a, run.events),
            before.failures + if run.outcome == Error then 1 else 0)
  }

  /** The core steps known to have succeeded after some more events. */
  function DoneAfter(done: set<nat>, events: seq<Event>): set<nat>
    decreases |events|
  {
    if events == [] then done
    else DoneAfter(if events[0].Succeeded? then done + {events[0].index} else done, events[1..])
  }

  /** Given what was done before, every core step is started only after all its predecessors succeeded. */
  predicate InOrder(done: set<nat>, events: seq<Event>)
    decreases |events|
  {
    events == [] ||
    match events[0]
    case Started(k) => (forall i :: 0 <= i < k ==> i in done) && InOrder(done, events[1..])
    case Succeeded(k) => InOrder(done + {k}, events[1..])
  }

  lemma {:induction false} InOrderConcat(done: set<nat>, s: seq<Event>, t: seq<Event>)
    ensures InOrder(done, s + t) <==> InOrder(done, s) && InOrder(DoneAfter(done, s), t)
    ensures DoneAfter(done, s + t) == DoneAfter(DoneAfter(done, s), t)
    decreases |s|
  {
    if s == [] {
      assert s + t == t;
    } else {
      assert (s + t)[1..] == s[1..] + t;
      InOrderConcat(if s[0].Succeeded? then done + {s[0].index} else done, s[1..], t);
    }
  }

  /** In positions: what precedes the start of a step contains the success of every earlier step. */
  lemma {:induction false} InOrderMeaning(done: set<nat>, events: seq<Event>, p: nat, i: nat)
    requires InOrder(done, events) && p < |events| && events[p].Started? && i < events[p].index
    ensures i in done || Succeeded(i) in events[..p]
    decreases p
  {
    if p > 0 {
      assert events[1..][..p - 1] == events[..p][1..];
      InOrderMeaning(if events[0].Succeeded? then done + {events[0].index} else done, events[1..], p - 1, i);
      assert events[..p] == [events[0]] + events[..p][1..];
    }
  }

  /** One core step that succeeds and is saved. */
  lemma Unfold(config: Config, a: Attempt, file: File, k: nat)
    requires k < |CORE| && a.fate(k) == Lives && Ends(config, a, k)
    ensures var next := RunCore(config, a, Saved(CORE[k], CORE[..k + 1]), k + 1);
            RunCore(config, a, file, k) == next.After([Started(k), Succeeded(k)])
  {
  }

  lemma SuccessInOrder(done: set<nat>, k: nat)
    requires forall i :: 0 <= i < k ==> i in done
    ensures InOrder(done, [Started(k)]) && DoneAfter(done, [Started(k)]) == done
    ensures InOrder(done, [Started(k), Succeeded(k)]) && DoneAfter(done, [Started(k), Succeeded(k)]) == done + {k}
  {
    assert [Started(k)][1..] == [];
    assert [Started(k), Succeeded(k)][1..] == [Succeeded(k)];
    assert [Succeeded(k)][1..] == [];
    assert DoneAfter(done + {k}, []) == done + {k};
    assert DoneAfter(done, [Succeeded(k)]) == done + {k};
  }

  /** A step that succeeds, followed by what follows it. */
  lemma SuccessFirst(done: set<nat>, k: nat, next: CoreRun)
    requires forall i :: 0 <= i < k ==> i in done
    requires InOrder(done + {k}, next.events)
    ensures var events := next.After([Started(k), Succeeded(k)]).events;
            InOrder(done, events) && DoneAfter(done, events) == DoneAfter(done + {k}, next.events)
  {
    SuccessInOrder(done, k);
    InOrderConcat(done, [Started(k), Succeeded(k)], next.events);
  }

  /** A core step that does not complete ends the run; the checkpoint loses at most everything. */
  lemma StopsInOrder(config: Config, a: Attempt, file: File, k: nat, done: set<nat>)
    requires k < |CORE| && !(a.fate(k) == Lives && Ends(config, a, k))
    requires forall i :: 0 <= i < k ==> i in done
    ensures var core := RunCore(config, a, file, k);
            && InOrder(done, core.events) && done <= DoneAfter(done, core.events)
            && Resumed(core.file) <= Resumed(file)
  {
    SuccessInOrder(done, k);
  }

  lemma {:induction false} CoreInOrder(config: Config, a: Attempt, file: File, k: nat, done: set<nat>)
    requires k <= |CORE| && Resumed(file) <= k && forall i :: 0 <= i < k ==> i in done
    ensures var core := RunCore(config, a, file, k);
            && InOrder(done, core.events)
            && forall i :: 0 <= i < Resumed(core.file) ==> i in DoneAfter(done, core.events)
    decreases |CORE| - k
  {
    if k < |CORE| && a.fate(k) == Lives && Ends(config, a, k) {
      var saved := Saved(CORE[k], CORE[..k + 1]);
      Unfold(config, a, file, k);
      CoreInOrder(config, a, saved, k + 1, done + {k});
      SuccessFirst(done, k, RunCore(config, a, saved, k + 1));
    } else if k < |CORE| {
      StopsInOrder(config, a, file, k, done);
    }
  }

  /** Whatever happened before, the checkpoint is absent, unreadable, or a prefix of the three core
      steps, all of which have succeeded; and no core step was ever started before all its
      predecessors had. */
  lemma {:induction false} PredecessorsFirst(config: Config, attempts: seq<Attempt>)
    ensures var total := History(config, attempts);
            && Sound(total.disk.checkpoint)
            && InOrder({}, total.events)
            && forall i :: 0 <= i < Resumed(total.disk.checkpoint) ==> i in DoneAfter({}, total.events)
  {
    if attempts != [] {
      PredecessorsFirst(config, attempts[..|attempts| - 1]);
      var before, a := History(config, attempts[..|attempts| - 1]), attempts[|attempts| - 1];
      InvokeCore(config, a, before.disk);
      var core := CoreOf(config, a, before.disk.checkpoint);
      if a.numImages >= 2 {
        CoreInOrder(config, a, before.disk.checkpoint, Resumed(before.disk.checkpoint), DoneAfter({}, before.events));
      }
      InOrderConcat({}, before.events, core.events);
    }
  }

  /** Nothing outside the repository kills the core steps of the invocation. */
  predicate Unkilled(a: Attempt) {
    forall k :: 0 <= k < |CORE| ==> a.fate(k) == Lives
  }

  function Starts(events: seq<Event>): nat {
    if events == [] then 0 else (if events[0].Started? then 1 else 0) + Starts(events[1..])
  }

  lemma {:induction false} StartsConcat(s: seq<Event>, t: seq<Event>)
    ensures Starts(s + t) == Starts(s) + Starts(t)
  {
    if s == [] {
      assert s + t == t;
    } else {
      assert (s + t)[1..] == s[1..] + t;
      StartsConcat(s[1..], t);
    }
  }

  /** An unkilled invocation starts one core step for every step the checkpoint advances by, and one
      more if it fails in the core. */
  lemma {:induction false} CoreStarts(config: Config, a: Attempt, file: File, k: nat)
    requires k <= |CORE| && Unkilled(a) && Resumed(file) == k
    ensures var core := RunCore(config, a, file, k);
            && core.end != CoreKilled && k <= Resumed(core.file) <= |CORE|
            && Starts(core.events) == Resumed(core.file) - k + (if core.end == CoreError then 1 else 0)
    decreases |CORE| - k
  {
    if k < |CORE| {
      if Ends(config, a, k) {
        Unfold(config, a, file, k);
        CoreStarts(config, a, Saved(CORE[k], CORE[..k + 1]), k + 1);
        var next := RunCore(config, a, Saved(CORE[k], CORE[..k + 1]), k + 1);
        StartsConcat([Started(k), Succeeded(k)], next.events);
        assert [Started(k), Succeeded(k)][1..] == [Succeeded(k)] && [Succeeded(k)][1..] == [];
      } else {
        assert [Started(k)][1..] == [];
      }
    }
  }

  lemma Distribute(x: nat, y: nat, r: nat)
    ensures (x + y) * r == x * r + y * r
  {
  }

  lemma AddBounds(p: nat, x: nat, q: nat, y: nat, z: nat, r: nat)
    requires p <= x * r && q <= y * r && z == x + y
    ensures p + q <= z * r
  {
    Distribute(x, y, r);
  }

  /** Each start costs at most r processes, r being the retry limit plus one. */
  lemma {:induction false} ProcessesPerStart(config: Config, a: Attempt, events: seq<Event>, starts: nat, r: nat)
    requires starts == Starts(events) && r == config.maxRetries + 1
    ensures ProcessCount(config, a, events) <= starts * r
  {
    if events != [] {
      var rest := Starts(events[1..]);
      ProcessesPerStart(config, a, events[1..], rest, r);
      if events[0].Started? {
        AddBounds(Processes(config, a, events[0].index), 1, ProcessCount(config, a, events[1..]), rest, starts, r);
      }
    }
  }

  lemma {:induction false} HistoryProcesses(config: Config, attempts: seq<Attempt>, starts: nat, r: nat)
    requires starts == Starts(History(config, attempts).events) && r == config.maxRetries + 1
    ensures History(config, attempts).processes <= starts * r
  {
    if attempts != [] {
      var front, a := attempts[..|attempts| - 1], attempts[|attempts| - 1];
      var before := History(config, front);
      var events := Invoke(config, a, before.disk).events;
      var x, y := Starts(before.events), Starts(events);
      HistoryProcesses(config, front, x, r);
      ProcessesPerStart(config, a, events, y, r);
      StartsConcat(before.events, events);
      AddBounds(before.processes, x, ProcessCount(config, a, events), y, starts, r);
    }
  }

  lemma {:induction false} HistoryStarts(config: Config, attempts: seq<Attempt>)
    requires forall i :: 0 <= i < |attempts| ==> Unkilled(attempts[i])
    ensures var total := History(config, attempts);
            Starts(total.events) <= total.failures + Resumed(total.disk.checkpoint) <= total.failures + 3
  {
    if attempts != [] {
      var front, a := attempts[..|attempts| - 1], attempts[|attempts| - 1];
      HistoryStarts(config, front);
      var before := History(config, front);
      InvokeCore(config, a, before.disk);
      StartsConcat(before.events, CoreOf(config, a, before.disk.checkpoint).events);
      if a.numImages >= 2 {
        CoreStarts(config, a, before.disk.checkpoint, Resumed(before.disk.checkpoint));
      }
    }
  }

  lemma {:induction false} CoreErrorStops(config: Config, a: Attempt, file: File, k: nat)
    requires k <= |CORE| && Resumed(file) == k && RunCore(config, a, file, k).end == CoreError
    ensures Resumed(RunCore(config, a, file, k).file) < |CORE|
    decreases |CORE| - k
  {
    if a.fate(k) == Lives && Ends(config, a, k) {
      Unfold(config, a, file, k);
      CoreErrorStops(config, a, Saved(CORE[k], CORE[..k + 1]), k + 1);
    }
  }

  /** The last of the invocations failed in a core step, so it did not get through all of them. */
  lemma CoreErrorLeavesStep(config: Config, a: Attempt, file: File)
    requires Sound(file) && CoreOf(config, a, file).end == CoreError && a.numImages >= 2 && Unkilled(a)
    ensures Resumed(CoreOf(config, a, file).file) < |CORE|
  {
    CoreErrorStops(config, a, file, Resumed(file));
  }

  /** n invocations start at most n + 2 core steps between them: one each, and those that are in the checkpoint
      in the end, which are not all three if the last invocation failed in a core step. */
  lemma {:induction false} RunsBoundStarts(config: Config, attempts: seq<Attempt>)
    requires forall i :: 0 <= i < |attempts| ==> Unkilled(attempts[i])
    ensures var total := History(config, attempts);
            && Starts(total.events) <= |attempts| + Resumed(total.disk.checkpoint)
            && Starts(total.events) <= |attempts| + 2
  {
    if attempts != [] {
      var front, a := attempts[..|attempts| - 1], attempts[|attempts| - 1];
      RunsBoundStarts(config, front);
      var before := History(config, front);
      var core := CoreOf(config, a, before.disk.checkpoint);
      InvokeCore(config, a, before.disk);
      StartsConcat(before.events, core.events);
      if a.numImages >= 2 {
        CoreStarts(config, a, before.disk.checkpoint, Resumed(before.disk.checkpoint));
        if core.end == CoreError {
          CoreErrorLeavesStep(config, a, before.disk.checkpoint);
        }
      }
    }
  }

  lemma Loosen(p: nat, x: nat, y: nat, r: nat)
    requires p <= x * r && x <= y
    ensures p <= y * r
  {
    assert (y - x) * r >= 0;
  }

  /** Checkpointing amortises retries: without kills, F failed runs and any number of successful ones
      start at most F + 3 core steps, hence at most (F + 3) * (r + 1) COLMAP processes, r being the
      retry limit. */
  lemma {:induction false} RetriesAmortised(config: Config, attempts: seq<Attempt>, failures: nat)
    requires forall i :: 0 <= i < |attempts| ==> Unkilled(attempts[i])
    requires History(config, attempts).failures == failures
    ensures Starts(History(config, attempts).events) <= failures + 3
    ensures History(config, attempts).processes <= (failures + 3) * (config.maxRetries + 1)
  {
    HistoryStarts(config, attempts);
    var total, r := History(config, attempts), config.maxRetries + 1;
    HistoryProcesses(config, attempts, Starts(total.events), r);
    Loosen(total.processes, Starts(total.events), failures + 3, r);
  }

  /** An invocation in which every process fails with the same message, except that the last one of
      each core step succeeds if `works`. */
  function Worst(config: Config, works: bool, message: string): Attempt {
    Attempt(2, Options(false, false, false),
            k => (i: nat) => if works && i == config.maxRetries then Exited else ExitedWith(message),
            k => Lives, true, Works, Works, Works, Works, Works, NoOctree)
  }

  lemma WorstProcesses(config: Config, works: bool, message: string, k: nat)
    requires config.retryable(message)
    ensures Processes(config, Worst(config, works, message), k) == config.maxRetries + 1
    ensures Ends(config, Worst(config, works, message), k) <==> works
  {
    var a := Worst(config, works, message);
    var stop := StopIndex(a.ending(k), config.retryable, config.maxRetries, 0);
    assert Stops(a.ending(k), config.retryable, config.maxRetries, stop);
  }

  function Repeat(a: Attempt, n: nat): seq<Attempt> {
    seq(n, i => a)
  }

  const ALL_SUCCEED := [Started(0), Succeeded(0), Started(1), Succeeded(1), Started(2), Succeeded(2)]

  /** The events of three core steps that succeed at once, and what they cost. */
  lemma ThreeStepsCost(config: Config, a: Attempt, cost: nat)
    requires forall k :: 0 <= k < 3 ==> Processes(config, a, k) == cost
    ensures ProcessCount(config, a, ALL_SUCCEED) == 3 * cost
  {
    var e2 := [Started(2), Succeeded(2)];
    assert e2[1..] == [Succeeded(2)] && [Succeeded(2)][1..] == [];
    assert ProcessCount(config, a, [Succeeded(2)]) == 0;
    assert ProcessCount(config, a, e2) == cost;
    var e1 := [Started(1), Succeeded(1)] + e2;
    assert e1[1..] == [Succeeded(1)] + e2 && e1[1..][1..] == e2;
    assert ProcessCount(config, a, e1) == 2 * cost;
    var e0 := [Started(0), Succeeded(0)] + e1;
    assert e0[1..] == [Succeeded(0)] + e1 && e0[1..][1..] == e1;
    assert e0 == ALL_SUCCEED;
  }

  /** The core steps of this attempt complete if they are run. */
  predicate CoreWorks(config: Config, a: Attempt) {
    forall k :: 0 <= k < |CORE| ==> a.fate(k) == Lives && Ends(config, a, k)
  }

  lemma ThreeSteps(config: Config, a: Attempt)
    requires CoreWorks(config, a)
    ensures RunCore(config, a, Absent, 0).events == ALL_SUCCEED
  {
    Unfold(config, a, Absent, 0);
    Unfold(config, a, Saved(CORE[0], CORE[..1]), 1);
    Unfold(config, a, Saved(CORE[1], CORE[..2]), 2);
  }

  lemma {:induction false} CoreCompletes(config: Config, a: Attempt, file: File, k: nat)
    requires k <= |CORE| && CoreWorks(config, a)
    ensures RunCore(config, a, file, k).end == CoreDone
    decreases |CORE| - k
  {
    if k < |CORE| {
      Unfold(config, a, file, k);
      CoreCompletes(config, a, Saved(CORE[k], CORE[..k + 1]), k + 1);
    }
  }

  lemma GoodCost(config: Config, message: string)
    requires config.retryable(message)
    ensures var run := Invoke(config, Worst(config, true, message), EMPTY);
            && run.outcome != Error
            && ProcessCount(config, Worst(config, true, message), run.events) == 3 * (config.maxRetries + 1)
  {
    var good := Worst(config, true, message);
    forall k | 0 <= k < 3 ensures Processes(config, good, k) == config.maxRetries + 1 && Ends(config, good, k) {
      WorstProcesses(config, true, message, k);
    }
    ThreeSteps(config, good);
    ThreeStepsCost(config, good, config.maxRetries + 1);
    CoreCompletes(config, good, Absent, 0);
    UnrollTools(good);
  }

  /** An attempt that fails in the first core step, after all retries. */
  lemma EarlyCost(config: Config, message: string)
    requires config.retryable(message)
    ensures var run := Invoke(config, Worst(config, false, message), EMPTY);
            && run.outcome == Error && run.disk == EMPTY && Starts(run.events) == 1
            && ProcessCount(config, Worst(config, false, message), run.events) == config.maxRetries + 1
  {
    var bad := Worst(config, false, message);
    WorstProcesses(config, false, message, 0);
    assert RunCore(config, bad, Absent, 0) == CoreRun(Absent, CoreError, [Started(0)]);
    assert [Started(0)][1..] == [];
  }

  lemma {:induction false} FailuresCost(config: Config, message: string, failures: nat)
    requires config.retryable(message)
    ensures var total := History(config, Repeat(Worst(config, false, message), failures));
            total.disk == EMPTY && total.failures == failures && total.processes == failures * (config.maxRetries + 1)
  {
    var bad := Worst(config, false, message);
    if failures > 0 {
      FailuresCost(config, message, failures - 1);
      assert Repeat(bad, failures)[..failures - 1] == Repeat(bad, failures - 1);
      EarlyCost(config, message);
      Distribute(failures - 1, 1, config.maxRetries + 1);
    }
  }

  /** The bound is met: F runs that fail in the first step after all retries, then one that succeeds
      with every last retry. Restarting from scratch each time would allow 3 * (F + 1) * (r + 1). */
  lemma AmortisedBoundIsTight(config: Config, message: string, failures: nat)
    requires config.retryable(message)
    ensures var attempts := Repeat(Worst(config, false, message), failures) + [Worst(config, true, message)];
            var total := History(config, attempts);
            && (forall i :: 0 <= i < |attempts| ==> Unkilled(attempts[i]))
            && total.failures == failures
            && total.processes == (failures + 3) * (config.maxRetries + 1)
  {
    var bad, good, r := Worst(config, false, message), Worst(config, true, message), config.maxRetries + 1;
    var attempts := Repeat(bad, failures) + [good];
    assert attempts[..failures] == Repeat(bad, failures);
    FailuresCost(config, message, failures);
    GoodCost(config, message);
    Distribute(failures, 3, r);
  }

  /** Same images, options and later tools; the core steps may differ. */
  predicate SameRest(a: Attempt, b: Attempt) {
    && a.numImages == b.numImages && a.options == b.options && a.pointsFound == b.pointsFound
    && a.exporter == b.exporter && a.undistort == b.undistort && a.stereo == b.stereo
    && a.fusion == b.fusion && a.splat == b.splat && a.potree == b.potree
  }

  /** An old points.ply is about to be converted although this invocation did not ask for one. */
  predicate StalePly(a: Attempt, disk: Disk) {
    && disk.ply && !a.options.exportPly && !a.options.dense
    && a.pointsFound && FirstBroken(Tools(a)) == None && a.potree != NoOctree
  }

  lemma RestEquivalent(a: Attempt, anew: Attempt, left: Disk, clean: Disk)
    requires SameRest(a, anew) && !clean.ply && !clean.densePly
    ensures RunRest(a, left).1 == RunRest(anew, clean).1 <==> !StalePly(a, left)
  {
    assert Tools(anew) == Tools(a);
    UnrollTools(a);
    if a.pointsFound && FirstBroken(Tools(a)) == None && StalePly(a, left) {
      var steps := CORE + Names(Tools(a));
      assert RunRest(anew, clean).1 == Finished(steps);
      assert |steps + [PotreeConversion]| == |steps| + 1;
    }
  }

  /** Interrupted runs are equivalent to uninterrupted ones. Take any history, and an invocation `a`
      that gets through the core steps after it. Its outcome, including the steps it reports, is that
      of a run in an empty directory with the same options and the same tools, exactly if no stale
      points.ply is picked up. */
  lemma {:induction false} ResumeEquivalent(config: Config, attempts: seq<Attempt>, a: Attempt, anew: Attempt)
    requires CoreOf(config, a, History(config, attempts).disk.checkpoint).end == CoreDone
    requires SameRest(a, anew) && CoreWorks(config, anew)
    ensures var disk := History(config, attempts).disk;
            Invoke(config, a, disk).outcome == Invoke(config, anew, EMPTY).outcome <==> !StalePly(a, disk)
  {
    CoreCompletes(config, anew, Absent, 0);
    var disk := History(config, attempts).disk;
    var left := disk.(checkpoint := CoreOf(config, a, disk.checkpoint).file);
    var clean := EMPTY.(checkpoint := CoreOf(config, anew, Absent).file);
    assert Invoke(config, a, disk).outcome == RunRest(a, left).1;
    assert Invoke(config, anew, EMPTY).outcome == RunRest(anew, clean).1;
    RestEquivalent(a, anew, left, clean);
  }

  /** Whatever the tools do: an invocation with these options that gets through the core steps ends as
      it would in an empty directory. */
  ghost predicate AlwaysEquivalent(config: Config, disk: Disk, options: Options)
    requires Sound(disk.checkpoint)
  {
    forall a: Attempt, anew: Attempt ::
      && a.options == options && CoreOf(config, a, disk.checkpoint).end == CoreDone
      && SameRest(a, anew) && CoreWorks(config, anew)
      ==> Invoke(config, a, disk).outcome == Invoke(config, anew, EMPTY).outcome
  }

  /** An invocation in which everything works. */
  function Smooth(options: Options): Attempt {
    Attempt(2, options, k => (i: nat) => Exited, k => Lives, true, Works, Works, Works, Works, Works, Octree)
  }

  lemma SmoothWorks(config: Config, options: Options)
    ensures CoreWorks(config, Smooth(options))
  {
    var a := Smooth(options);
    forall k | 0 <= k < |CORE| ensures a.fate(k) == Lives && Ends(config, a, k) {
      assert a.ending(k)(Processes(config, a, k) - 1) == Exited;
    }
  }

  /** What a caller can check beforehand. For given options the equivalence holds for all outcomes of the
      tools if and only if no old points.ply is in the directory, or the options cover it. */
  lemma EquivalentExactly(config: Config, attempts: seq<Attempt>, options: Options)
    ensures var disk := History(config, attempts).disk;
            AlwaysEquivalent(config, disk, options) <==> (disk.ply ==> options.exportPly || options.dense)
  {
    var disk := History(config, attempts).disk;
    if disk.ply ==> options.exportPly || options.dense {
      forall a: Attempt, anew: Attempt |
        && a.options == options && CoreOf(config, a, disk.checkpoint).end == CoreDone
        && SameRest(a, anew) && CoreWorks(config, anew)
        ensures Invoke(config, a, disk).outcome == Invoke(config, anew, EMPTY).outcome
      {
        ResumeEquivalent(config, attempts, a, anew);
      }
    } else {
      var a := Smooth(options);
      SmoothWorks(config, options);
      CoreCompletes(config, a, disk.checkpoint, Resumed(disk.checkpoint));
      UnrollTools(a);
      ResumeEquivalent(config, attempts, a, a);
      assert SameRest(a, a);
    }
  }

  lemma PlyKept(config: Config, a: Attempt, disk: Disk)
    requires Sound(disk.checkpoint) && !a.options.exportPly
    ensures Invoke(config, a, disk).disk.ply == disk.ply
  {
  }

  /** points.ply exists only if some earlier invocation exported it. */
  lemma {:induction false} PlyOnlyFromExport(config: Config, attempts: seq<Attempt>)
    requires History(config, attempts).disk.ply
    ensures exists i :: 0 <= i < |attempts| && attempts[i].options.exportPly
  {
    var n := |attempts| - 1;
    if n >= 0 && !attempts[n].options.exportPly {
      var before := History(config, attempts[..n]);
      PlyKept(config, attempts[n], before.disk);
      PlyOnlyFromExport(config, attempts[..n]);
      var i :| 0 <= i < n && attempts[..n][i].options.exportPly;
      assert attempts[i].options.exportPly;
    }
  }

  /** So with unchanged options the equivalence is unconditional. */
  lemma SameOptionsEquivalent(config: Config, attempts: seq<Attempt>, a: Attempt, anew: Attempt)
    requires CoreOf(config, a, History(config, attempts).disk.checkpoint).end == CoreDone
    requires SameRest(a, anew) && CoreWorks(config, anew)
    requires forall i :: 0 <= i < |attempts| ==> attempts[i].options == a.options
    ensures Invoke(config, a, History(config, attempts).disk).outcome == Invoke(config, anew, EMPTY).outcome
  {
    ResumeEquivalent(config, attempts, a, anew);
    if History(config, attempts).disk.ply {
      PlyOnlyFromExport(config, attempts);
    }
  }

  /** Two invocations whose core steps succeed: one that exports points.ply and then breaks, and one that
      does not ask for it. */
  function Exporting(good: nat -> nat -> Ending): Attempt {
    Attempt(2, Options(true, false, true), good, k => Lives, true, Works, Works, Works, Works, Breaks(false), NoOctree)
  }

  function Plain(good: nat -> nat -> Ending): Attempt {
    Attempt(2, Options(false, false, false), good, k => Lives, true, Works, Works, Works, Works, Works, Octree)
  }

  lemma GoodWorks(config: Config, a: Attempt)
    requires forall k :: 0 <= k < |CORE| ==> a.ending(k)(0) == Exited && a.fate(k) == Lives
    ensures CoreWorks(config, a)
  {
    forall k | 0 <= k < |CORE| ensures Ends(config, a, k) {
      assert Processes(config, a, k) == 1;
    }
  }

  lemma ExportingLeavesPly(config: Config, good: nat -> nat -> Ending)
    requires forall k :: 0 <= k < |CORE| ==> good(k)(0) == Exited
    ensures History(config, [Exporting(good)]).disk.ply
  {
    var first := Exporting(good);
    assert [first][..0] == [];
    GoodWorks(config, first);
    CoreCompletes(config, first, Absent, 0);
    UnrollTools(first);
  }

  lemma PlainOutcome(config: Config, good: nat -> nat -> Ending, disk: Disk)
    requires forall k :: 0 <= k < |CORE| ==> good(k)(0) == Exited
    requires Sound(disk.checkpoint)
    ensures Invoke(config, Plain(good), disk).outcome == Finished(if disk.ply then CORE + [PotreeConversion] else CORE)
  {
    var second := Plain(good);
    GoodWorks(config, second);
    CoreCompletes(config, second, disk.checkpoint, Resumed(disk.checkpoint));
    UnrollTools(second);
    assert CORE + Names(Tools(second)) == CORE;
  }

  /** The exception is real: after the one, the other reports an octree conversion that a fresh run
      would not. */
  lemma {:induction false} StalePlyHappens(config: Config, good: nat -> nat -> Ending)
    requires forall k :: 0 <= k < |CORE| ==> good(k)(0) == Exited
    ensures var disk := History(config, [Exporting(good)]).disk;
            Invoke(config, Plain(good), disk).outcome == Finished(CORE + [PotreeConversion])
    ensures Invoke(config, Plain(good), EMPTY).outcome == Finished(CORE)
  {
    ExportingLeavesPly(config, good);
    PlainOutcome(config, good, History(config, [Exporting(good)]).disk);
    PlainOutcome(config, good, EMPTY);
  }

  /** The order in which the steps can be reported. */
  function Ordinal(step: Step): nat {
    match step
    case FeatureExtraction => 0
    case ExhaustiveMatching => 1
    case SparseReconstruction => 2
    case PlyExport => 3
    case ImageUndistortion => 4
    case PatchMatchStereo => 5
    case StereoFusion => 6
    case GaussianSplatting => 7
    case PotreeConversion => 8
  }

  predicate Ordered(steps: seq<Step>) {
    forall i, j :: 0 <= i < j < |steps| ==> Ordinal(steps[i]) < Ordinal(steps[j])
  }

  lemma ToolsOrdered(a: Attempt)
    ensures Ordered(Names(Tools(a)))
    ensures forall i :: 0 <= i < |Tools(a)| ==> 3 <= Ordinal(Names(Tools(a))[i]) <= 7
  {
  }

  lemma CoreAndToolsOrdered(a: Attempt)
    ensures Ordered(CORE + Names(Tools(a)))
    ensures forall i :: 0 <= i < |CORE + Names(Tools(a))| ==> Ordinal((CORE + Names(Tools(a)))[i]) <= 7
  {
    ToolsOrdered(a);
    var names := Names(Tools(a));
    assert forall i :: 0 <= i < |CORE + names| ==> (CORE + names)[i] == if i < 3 then CORE[i] else names[i - 3];
  }

  lemma OrderedOnce(steps: seq<Step>)
    requires Ordered(steps)
    ensures NoDuplicates(steps)
  {
  }

  lemma ConversionLast(steps: seq<Step>)
    requires Ordered(steps) && forall i :: 0 <= i < |steps| ==> Ordinal(steps[i]) <= 7
    ensures Ordered(steps + [PotreeConversion])
  {
  }

  lemma RestReportedOnce(a: Attempt, disk: Disk)
    requires RunRest(a, disk).1.Finished?
    ensures NoDuplicates(RunRest(a, disk).1.steps) && CORE <= RunRest(a, disk).1.steps
  {
    var steps := CORE + Names(Tools(a));
    CoreAndToolsOrdered(a);
    ConversionLast(steps);
    OrderedOnce(steps);
    OrderedOnce(steps + [PotreeConversion]);
  }

  /** What a run reports never contains a step twice, and always begins with the core steps. */
  lemma ReportedOnce(config: Config, attempts: seq<Attempt>, a: Attempt)
    requires Invoke(config, a, History(config, attempts).disk).outcome.Finished?
    ensures var steps := Invoke(config, a, History(config, attempts).disk).outcome.steps;
            NoDuplicates(steps) && CORE <= steps
  {
    var disk := History(config, attempts).disk;
    RestReportedOnce(a, disk.(checkpoint := CoreOf(config, a, disk.checkpoint).file));
  }

  /** Core step k succeeds: one of its attempts does, and every one before it failed with an error worth a retry. */
  ghost predicate StepSucceeds(config: Config, a: Attempt, k: nat) {
    exists i: nat :: i <= config.maxRetries && a.ending(k)(i).Exited? && WorthRetrying(a.ending(k), config.retryable, i)
  }

  /** It goes well: it succeeds, and nothing dies. */
  ghost predicate GoesWell(config: Config, a: Attempt, k: nat) {
    a.fate(k) == Lives && StepSucceeds(config, a, k)
  }

  lemma EndsExactly(config: Config, a: Attempt, k: nat)
    ensures Ends(config, a, k) <==> StepSucceeds(config, a, k)
  {
    ReturnsExactly(a.ending(k), config.retryable, config.maxRetries, Processes(config, a, k) - 1);
  }

  /** Of the core steps from `from` on, all before step n go well, and step n, if there is one, does not. */
  ghost predicate Reaching(config: Config, a: Attempt, from: nat, n: nat) {
    && from <= n <= |CORE|
    && (forall k :: from <= k < n ==> GoesWell(config, a, k))
    && (n < |CORE| ==> !GoesWell(config, a, n))
  }

  /** The events of these steps when they go well. */
  function Successes(from: nat, n: nat): seq<Event>
    requires from <= n
    decreases n - from
  {
    if from == n then [] else [Started(from), Succeeded(from)] + Successes(from + 1, n)
  }

  /** The core steps of one invocation, by the first that does not go well: which are started and succeed, what
      is in the checkpoint afterwards, and how it ends. */
  lemma {:induction false} CoreExactly(config: Config, a: Attempt, file: File, k: nat, n: nat)
    requires k <= |CORE| && Reaching(config, a, k, n)
    ensures var core, fails := RunCore(config, a, file, k), n < |CORE| && !StepSucceeds(config, a, n);
            && core.events == Successes(k, n) + (if n == |CORE| then []
                                                 else if a.fate(n) == DiesRunning || fails then [Started(n)]
                                                 else [Started(n), Succeeded(n)])
            && core.end == (if n == |CORE| then CoreDone
                            else if a.fate(n) != DiesRunning && fails then CoreError else CoreKilled)
            && core.file == (if n < |CORE| && a.fate(n) == DiesSaving && !fails then Unreadable
                             else if n == k then file else Saved(CORE[n - 1], CORE[..n]))
    decreases |CORE| - k
  {
    if k < |CORE| {
      EndsExactly(config, a, k);
    }
    if k < n {
      assert GoesWell(config, a, k);
      Unfold(config, a, file, k);
      CoreExactly(config, a, Saved(CORE[k], CORE[..k + 1]), k + 1, n);
    }
  }

  const BREAKS: Tool -> bool := (tool: Tool) => tool.Breaks?

  const DIES: Tool -> bool := (tool: Tool) => tool.Dies?

  predicate ExportFine(a: Attempt) { a.options.exportPly ==> a.exporter.Works? }

  predicate DenseFine(a: Attempt) { a.options.dense ==> a.undistort.Works? && a.stereo.Works? && a.fusion.Works? }

  predicate SplatFine(a: Attempt) { a.options.gaussian ==> a.splat.Works? }

  /** One of the tools asked for ends in this way, and those before it worked. */
  predicate ToolEnds(a: Attempt, how: Tool -> bool) {
    || (a.options.exportPly && how(a.exporter))
    || (a.options.dense && ExportFine(a) && how(a.undistort))
    || (a.options.dense && ExportFine(a) && a.undistort.Works? && how(a.stereo))
    || (a.options.dense && ExportFine(a) && a.undistort.Works? && a.stereo.Works? && how(a.fusion))
    || (a.options.gaussian && ExportFine(a) && DenseFine(a) && how(a.splat))
  }

  /** After all tools have worked: there is a cloud to convert, made now or, if no dense one was asked for, left
      by an earlier invocation. */
  predicate HasCloud(a: Attempt, disk: Disk) {
    a.options.dense || a.options.exportPly || disk.ply
  }

  /** The invocation gets to the later tools. */
  predicate GetsToTools(a: Attempt, n: nat) {
    a.numImages >= 2 && n == |CORE| && a.pointsFound
  }

  predicate AllFine(a: Attempt) {
    ExportFine(a) && DenseFine(a) && SplatFine(a)
  }

  lemma FirstBrokenEnds(a: Attempt)
    ensures FirstBroken(Tools(a)) == None <==> AllFine(a)
    ensures ToolEnds(a, BREAKS) <==> FirstBroken(Tools(a)).Some? && FirstBroken(Tools(a)).value.Breaks?
    ensures ToolEnds(a, DIES) <==> FirstBroken(Tools(a)).Some? && FirstBroken(Tools(a)).value.Dies?
  {
    UnrollTools(a);
  }

  /** How the later tools end, and what they leave. */
  lemma RestExactly(a: Attempt, disk: Disk)
    requires a.pointsFound
    ensures var (disk', outcome) := RunRest(a, disk);
            && (outcome.Finished? <==> AllFine(a) && (HasCloud(a, disk) ==> a.potree.NoOctree? || a.potree.Octree?))
            && (outcome == Error <==>
                  ToolEnds(a, BREAKS) || (AllFine(a) && HasCloud(a, disk) && a.potree.PotreeBreaks?))
            && (outcome == Killed <==>
                  ToolEnds(a, DIES) || (AllFine(a) && HasCloud(a, disk) && a.potree.PotreeDies?))
            && disk'.checkpoint == disk.checkpoint
            && (disk'.ply <==>
                  disk.ply || (a.options.exportPly && (a.exporter.Works? || a.exporter.leavesOutput)))
            && (disk'.densePly <==>
                  disk.densePly || (a.options.dense && ExportFine(a) && a.undistort.Works? && a.stereo.Works?
                                    && (a.fusion.Works? || a.fusion.leavesOutput)))
  {
    FirstBrokenEnds(a);
  }

  /** Which steps a success reports. */
  predicate Reports(a: Attempt, disk: Disk, step: Step) {
    match step
    case FeatureExtraction => true
    case ExhaustiveMatching => true
    case SparseReconstruction => true
    case PlyExport => a.options.exportPly
    case ImageUndistortion => a.options.dense
    case PatchMatchStereo => a.options.dense
    case StereoFusion => a.options.dense
    case GaussianSplatting => a.options.gaussian
    case PotreeConversion => HasCloud(a, disk) && a.potree.Octree?
  }

  lemma ToolNames(a: Attempt, step: Step)
    ensures step in Names(Tools(a)) <==>
            match step {
              case PlyExport => a.options.exportPly
              case ImageUndistortion => a.options.dense
              case PatchMatchStereo => a.options.dense
              case StereoFusion => a.options.dense
              case GaussianSplatting => a.options.gaussian
              case _ => false
            }
  {
    var names := Names(Tools(a));
    var e, d := if a.options.exportPly then 1 else 0, if a.options.dense then 3 else 0;
    assert a.options.exportPly ==> names[0] == PlyExport;
    assert a.options.dense ==>
             names[e] == ImageUndistortion && names[e + 1] == PatchMatchStereo && names[e + 2] == StereoFusion;
    assert a.options.gaussian ==> names[e + d] == GaussianSplatting;
  }

  lemma RestReports(a: Attempt, disk: Disk)
    requires RunRest(a, disk).1.Finished?
    ensures var steps := RunRest(a, disk).1.steps;
            Ordered(steps) && forall step :: step in steps <==> Reports(a, disk, step)
  {
    FirstBrokenEnds(a);
    var steps := CORE + Names(Tools(a));
    CoreAndToolsOrdered(a);
    ConversionLast(steps);
    forall step ensures step in RunRest(a, disk).1.steps <==> Reports(a, disk, step) {
      ToolNames(a, step);
      assert step in CORE <==> step.FeatureExtraction? || step.ExhaustiveMatching? || step.SparseReconstruction?;
    }
  }

  lemma {:induction false} FirstToFail(config: Config, a: Attempt, from: nat) returns (n: nat)
    requires from <= |CORE|
    ensures Reaching(config, a, from, n)
    decreases |CORE| - from
  {
    n := from;
    if from < |CORE| && GoesWell(config, a, from) {
      n := FirstToFail(config, a, from + 1);
    }
  }

  /** Main result: when an invocation succeeds, when it fails and when it is killed, and which steps a success
      reports, in their order and each once. `n` is the first core step that does not go well, or 3. */
  lemma {:induction false} OutcomeExactly(config: Config, attempts: seq<Attempt>, a: Attempt) returns (n: nat)
    ensures Reaching(config, a, Resumed(History(config, attempts).disk.checkpoint), n)
    ensures var disk := History(config, attempts).disk;
            var outcome := Invoke(config, a, disk).outcome;
            && (outcome.Finished? <==>
                  && GetsToTools(a, n) && AllFine(a)
                  && (HasCloud(a, disk) ==> a.potree.NoOctree? || a.potree.Octree?))
            && (outcome == Error <==>
                  || a.numImages < 2
                  || (n < |CORE| && a.fate(n) != DiesRunning && !StepSucceeds(config, a, n))
                  || (n == |CORE| && !a.pointsFound)
                  || (GetsToTools(a, n) && ToolEnds(a, BREAKS))
                  || (GetsToTools(a, n) && AllFine(a) && HasCloud(a, disk) && a.potree.PotreeBreaks?))
            && (outcome == Killed <==>
                  || (a.numImages >= 2 && n < |CORE| && (a.fate(n) == DiesRunning || StepSucceeds(config, a, n)))
                  || (GetsToTools(a, n) && ToolEnds(a, DIES))
                  || (GetsToTools(a, n) && AllFine(a) && HasCloud(a, disk) && a.potree.PotreeDies?))
            && (outcome.Finished? ==>
                  Ordered(outcome.steps) && forall step :: step in outcome.steps <==> Reports(a, disk, step))
  {
    var disk := History(config, attempts).disk;
    n := FirstToFail(config, a, Resumed(disk.checkpoint));
    CoreExactly(config, a, disk.checkpoint, Resumed(disk.checkpoint), n);
    var left := disk.(checkpoint := CoreOf(config, a, disk.checkpoint).file);
    if GetsToTools(a, n) {
      RestExactly(a, left);
      if RunRest(a, left).1.Finished? {
        RestReports(a, left);
      }
    }
  }

  /** And what it leaves on disk. */
  lemma {:induction false} DiskExactly(config: Config, attempts: seq<Attempt>, a: Attempt) returns (n: nat)
    ensures Reaching(config, a, Resumed(History(config, attempts).disk.checkpoint), n)
    ensures var disk := History(config, attempts).disk;
            var disk' := Invoke(config, a, disk).disk;
            && disk'.checkpoint ==
               (if a.numImages < 2 then disk.checkpoint
                else if n < |CORE| && a.fate(n) == DiesSaving && StepSucceeds(config, a, n) then Unreadable
                else if n == Resumed(disk.checkpoint) then disk.checkpoint
                else Saved(CORE[n - 1], CORE[..n]))
            && (disk'.ply <==>
                  disk.ply || (GetsToTools(a, n) && a.options.exportPly
                               && (a.exporter.Works? || a.exporter.leavesOutput)))
            && (disk'.densePly <==>
                  disk.densePly || (GetsToTools(a, n) && a.options.dense && ExportFine(a) && a.undistort.Works?
                                    && a.stereo.Works? && (a.fusion.Works? || a.fusion.leavesOutput)))
  {
    var disk := History(config, attempts).disk;
    n := FirstToFail(config, a, Resumed(disk.checkpoint));
    CoreExactly(config, a, disk.checkpoint, Resumed(disk.checkpoint), n);
    if GetsToTools(a, n) {
      RestExactly(a, disk.(checkpoint := CoreOf(config, a, disk.checkpoint).file));
    }
  }
}

/** The parallel blur filter and what the pipeline makes of its result (src/extractor/extractor.py,
    src/api/tasks.py:148-154, src/reconstruction/reconstruction.py:496-503).

    A score is a float: a real, an infinity, or NaN, which fails every comparison. The pool completes the
    frames in an arbitrary order, given as a permutation of their indices; computing a score may fail. */
module BlurFilter {
  import opened Prelude

  type Name = string

  datatype Path = Path(directory: string, name: Name)

  datatype Score = Finite(value: real) | PlusInfinity | MinusInfinity | NotANumber {
    /** `self >= threshold` on floats. */
    predicate AtLeast(threshold: real) {
      match this
      case Finite(v) => v >= threshold
      case PlusInfinity => true
      case _ => false
    }
  }

  /** A frame is filtered out if its score is a number below the threshold, or minus infinity, or not a number. */
  predicate TooBlurred(score: Score, threshold: real) {
    score == NotANumber || score == MinusInfinity || (score.Finite? && score.value < threshold)
  }

  /** What `compute_blur_score` does to a frame: None if it raises. */
  type Outcome = Option<Score>

  datatype Split = Split(passed: seq<Path>, filtered: seq<Path>, scores: map<Name, Score>)

  datatype Progress = Progress(completed: nat, total: nat)

  /** The callbacks of k completions: 1 of total, 2 of total, ... */
  function Counted(k: nat, total: nat): seq<Progress> {
    seq(k, j requires 0 <= j < k => Progress(j + 1, total))
  }

  predicate IsOrder(order: seq<nat>, n: nat) {
    && |order| == n
    && NoDuplicates(order)
    && (forall k :: 0 <= k < n ==> order[k] < n)
  }

  /** How many frames complete before the first failure. */
  function BeforeFailure(outcomes: seq<Outcome>, order: seq<nat>): (k: nat)
    requires forall i :: 0 <= i < |order| ==> order[i] < |outcomes|
    ensures k <= |order|
    ensures forall i :: 0 <= i < k ==> outcomes[order[i]].Some?
    ensures k < |order| ==> outcomes[order[k]].None?
  {
    if order == [] || outcomes[order[0]].None? then 0 else 1 + BeforeFailure(outcomes, order[1..])
  }

  predicate AllScored(outcomes: seq<Outcome>) {
    forall i :: 0 <= i < |outcomes| ==> outcomes[i].Some?
  }

  function Below(n: nat): (all: set<nat>)
    ensures |all| == n && forall i: nat :: i in all <==> i < n
  {
    if n == 0 then {} else Below(n - 1) + {n - 1}
  }

  lemma {:induction false} Bounded(order: seq<nat>, all: set<nat>)
    requires NoDuplicates(order) && forall k :: 0 <= k < |order| ==> order[k] in all
    ensures |order| <= |all|
  {
    if order != [] {
      var m := |order| - 1;
      Bounded(order[..m], all - {order[m]});
    }
  }

  /** A permutation reaches every index. */
  lemma {:induction false} OrderCovers(order: seq<nat>, n: nat, i: nat)
    requires IsOrder(order, n) && i < n
    ensures i in order
  {
    if i !in order {
      Bounded(order, Below(n) - {i});
    }
  }

  /** What the callbacks tell: the first says 1, each says one more than the one before, all of the same total, and
      the last says that all are done exactly if no frame failed. */
  lemma ProgressExactly(outcomes: seq<Outcome>, order: seq<nat>)
    requires IsOrder(order, |outcomes|) && outcomes != []
    ensures var progress := Counted(BeforeFailure(outcomes, order), |outcomes|);
            && (forall j :: 0 <= j < |progress| ==>
                  progress[j].completed == 1 + (if j == 0 then 0 else progress[j - 1].completed)
                  && progress[j].total == |outcomes|)
            && (AllScored(outcomes) <==> progress != [] && progress[|progress| - 1].completed == |outcomes|)
  {
    var k := BeforeFailure(outcomes, order);
    if k == |outcomes| {
      forall i | 0 <= i < |outcomes| ensures outcomes[i].Some? {
        OrderCovers(order, |outcomes|, i);
      }
    }
  }

  /** The scores by name after the frames in `order` have completed: a later one of the same name wins. */
  function ScoresOf(frames: seq<Path>, outcomes: seq<Outcome>, order: seq<nat>): map<Name, Score>
    requires |outcomes| == |frames|
    requires forall k :: 0 <= k < |order| ==> order[k] < |frames| && outcomes[order[k]].Some?
  {
    if order == [] then map[]
    else
      var last := order[|order| - 1];
      ScoresOf(frames, outcomes, order[..|order| - 1])[frames[last].name := outcomes[last].value]
  }

  /** The indices of the frames that are sharp enough, or that are not, in ascending order. */
  function Chosen(flags: seq<bool>, want: bool): (indices: seq<nat>)
    ensures forall k :: 0 <= k < |indices| ==> indices[k] < |flags| && flags[indices[k]] == want
    ensures forall i :: 0 <= i < |flags| && flags[i] == want ==> i in indices
    ensures forall i, j :: 0 <= i < j < |indices| ==> indices[i] < indices[j]
  {
    if flags == [] then []
    else
      var n := |flags| - 1;
      Chosen(flags[..n], want) + (if flags[n] == want then [n] else [])
  }

  function Pick(frames: seq<Path>, indices: seq<nat>): seq<Path>
    requires forall k :: 0 <= k < |indices| ==> indices[k] < |frames|
  {
    seq(|indices|, k requires 0 <= k < |indices| => frames[indices[k]])
  }

  /** Every frame lands on exactly one side. */
  lemma {:induction false} ChosenPartition(flags: seq<bool>)
    ensures |Chosen(flags, true)| + |Chosen(flags, false)| == |flags|
  {
    if flags != [] {
      ChosenPartition(flags[..|flags| - 1]);
    }
  }

  /** Each frame's own verdict. */
  function Flags(outcomes: seq<Outcome>, threshold: real): seq<bool>
    requires AllScored(outcomes)
  {
    seq(|outcomes|, i requires 0 <= i < |outcomes| => !TooBlurred(outcomes[i].value, threshold))
  }

  /** The verdict as the filter reaches it, through the name of the frame. */
  function FlagsByName(frames: seq<Path>, scores: map<Name, Score>, threshold: real): seq<bool>
    requires forall i :: 0 <= i < |frames| ==> frames[i].name in scores
  {
    seq(|frames|, i requires 0 <= i < |frames| => !TooBlurred(scores[frames[i].name], threshold))
  }

  lemma {:induction false} ScoresKeys(frames: seq<Path>, outcomes: seq<Outcome>, order: seq<nat>)
    requires |outcomes| == |frames| && AllScored(outcomes)
    requires forall k :: 0 <= k < |order| ==> order[k] < |frames|
    ensures forall k :: 0 <= k < |order| ==> frames[order[k]].name in ScoresOf(frames, outcomes, order)
    ensures forall x :: x in ScoresOf(frames, outcomes, order) ==>
              exists k :: 0 <= k < |order| && frames[order[k]].name == x
                          && outcomes[order[k]].value == ScoresOf(frames, outcomes, order)[x]
  {
    if order != [] {
      var m := |order| - 1;
      var front := order[..m];
      ScoresKeys(frames, outcomes, front);
      var before, scores := ScoresOf(frames, outcomes, front), ScoresOf(frames, outcomes, order);
      forall x | x in scores
        ensures exists k :: 0 <= k < |order| && frames[order[k]].name == x && outcomes[order[k]].value == scores[x]
      {
        if x == frames[order[m]].name {
          assert outcomes[order[m]].value == scores[x];
        } else {
          var k :| 0 <= k < m && frames[front[k]].name == x && outcomes[front[k]].value == before[x];
          assert order[k] == front[k];
        }
      }
    }
  }

  lemma AllNamed(frames: seq<Path>, outcomes: seq<Outcome>, order: seq<nat>)
    requires |outcomes| == |frames| && AllScored(outcomes) && IsOrder(order, |frames|)
    ensures forall i :: 0 <= i < |frames| ==> frames[i].name in ScoresOf(frames, outcomes, order)
  {
    ScoresKeys(frames, outcomes, order);
    forall i | 0 <= i < |frames| ensures frames[i].name in ScoresOf(frames, outcomes, order) {
      OrderCovers(order, |frames|, i);
    }
  }

  /** Frames of the same name have the same score; unique names are the usual case. */
  ghost predicate NamesAgree(frames: seq<Path>, outcomes: seq<Outcome>)
    requires |outcomes| == |frames|
  {
    forall i, j :: 0 <= i < |frames| && 0 <= j < |frames| && frames[i].name == frames[j].name ==>
      outcomes[i] == outcomes[j]
  }

  /** The first loop of `filter_blurry_frames`: None is the exception of the first frame to fail. */
  method CollectScores(frames: seq<Path>, outcomes: seq<Outcome>, order: seq<nat>)
    returns (result: Option<map<Name, Score>>, progress: seq<Progress>)
    requires |outcomes| == |frames| && IsOrder(order, |frames|)
    ensures progress == Counted(BeforeFailure(outcomes, order), |frames|)
    ensures result.Some? <==> AllScored(outcomes)
    ensures result.Some? ==> |progress| == |frames| && result.value == ScoresOf(frames, outcomes, order)
  {
    progress := [];
    var total := |frames|;
    var scores: map<Name, Score> := map[];
    var completed := 0;
    for k := 0 to total
      invariant completed == k && progress == Counted(k, total)
      invariant forall j :: 0 <= j < k ==> outcomes[order[j]].Some?
      invariant scores == ScoresOf(frames, outcomes, order[..k])
    {
      var index := order[k];
      if outcomes[index].None? {
        return None, progress;
      }
      scores := scores[frames[index].name := outcomes[index].value];
      assert order[..k + 1][..k] == order[..k];
      completed := completed + 1;
      progress := progress + [Progress(completed, total)];
    }
    forall i | 0 <= i < total ensures outcomes[i].Some? {
      OrderCovers(order, total, i);
    }
    assert order[..total] == order;
    result := Some(scores);
  }

  lemma ChosenGrows(flags: seq<bool>, i: nat, want: bool)
    requires i < |flags|
    ensures Chosen(flags[..i + 1], want) == Chosen(flags[..i], want) + (if flags[i] == want then [i] else [])
  {
    assert flags[..i + 1][..i] == flags[..i];
  }

  lemma PickConcat(frames: seq<Path>, a: seq<nat>, b: seq<nat>)
    requires forall k :: 0 <= k < |a + b| ==> (a + b)[k] < |frames|
    ensures (forall k :: 0 <= k < |a| ==> a[k] < |frames|) && (forall k :: 0 <= k < |b| ==> b[k] < |frames|)
    ensures Pick(frames, a + b) == Pick(frames, a) + Pick(frames, b)
  {
    forall k | 0 <= k < |a| ensures a[k] < |frames| {
      assert (a + b)[k] == a[k];
    }
    forall k | 0 <= k < |b| ensures b[k] < |frames| {
      assert (a + b)[|a| + k] == b[k];
    }
  }

  lemma PickGrows(frames: seq<Path>, flags: seq<bool>, i: nat, want: bool)
    requires |flags| == |frames| && i < |frames|
    ensures Pick(frames, Chosen(flags[..i + 1], want)) ==
            Pick(frames, Chosen(flags[..i], want)) + (if flags[i] == want then [frames[i]] else [])
  {
    ChosenGrows(flags, i, want);
    PickConcat(frames, Chosen(flags[..i], want), if flags[i] == want then [i] else []);
  }

  /** Its second loop. */
  method Divide(frames: seq<Path>, scores: map<Name, Score>, threshold: real)
    returns (passed: seq<Path>, filtered: seq<Path>)
    requires forall i :: 0 <= i < |frames| ==> frames[i].name in scores
    ensures passed == Pick(frames, Chosen(FlagsByName(frames, scores, threshold), true))
    ensures filtered == Pick(frames, Chosen(FlagsByName(frames, scores, threshold), false))
  {
    ghost var flags := FlagsByName(frames, scores, threshold);
    passed, filtered := [], [];
    for i := 0 to |frames|
      invariant passed == Pick(frames, Chosen(flags[..i], true))
      invariant filtered == Pick(frames, Chosen(flags[..i], false))
    {
      PickGrows(frames, flags, i, true);
      PickGrows(frames, flags, i, false);
      if scores[frames[i].name].AtLeast(threshold) {
        passed := passed + [frames[i]];
      } else {
        filtered := filtered + [frames[i]];
      }
    }
    assert flags[..|frames|] == flags;
  }

  ghost function SplitOf(frames: seq<Path>, threshold: real, outcomes: seq<Outcome>, order: seq<nat>): Split
    requires |outcomes| == |frames| && AllScored(outcomes) && IsOrder(order, |frames|)
  {
    AllNamed(frames, outcomes, order);
    var scores := ScoresOf(frames, outcomes, order);
    var flags := FlagsByName(frames, scores, threshold);
    Split(Pick(frames, Chosen(flags, true)), Pick(frames, Chosen(flags, false)), scores)
  }

  /** `filter_blurry_frames`. */
  method FilterBlurryFrames(frames: seq<Path>, threshold: real, outcomes: seq<Outcome>, order: seq<nat>)
    returns (result: Option<Split>, progress: seq<Progress>)
    requires |outcomes| == |frames| && IsOrder(order, |frames|)
    ensures progress == Counted(BeforeFailure(outcomes, order), |frames|)
    ensures result.Some? <==> AllScored(outcomes)
    ensures result.Some? ==> |progress| == |frames| && result.value == SplitOf(frames, threshold, outcomes, order)
  {
    if |frames| == 0 {
      return Some(Split([], [], map[])), [];
    }
    var scores: Option<map<Name, Score>>;
    scores, progress := CollectScores(frames, outcomes, order);
    if scores.None? {
      return None, progress;
    }
    AllNamed(frames, outcomes, order);
    var passed, filtered := Divide(frames, scores.value, threshold);
    result := Some(Split(passed, filtered, scores.value));
  }

  /** If the names agree, every completion order gives each frame its own verdict: those that pass, in
      their order, and the rest, in theirs. */
  lemma OwnVerdict(frames: seq<Path>, threshold: real, outcomes: seq<Outcome>, order: seq<nat>)
    requires |outcomes| == |frames| && AllScored(outcomes) && IsOrder(order, |frames|)
    requires NamesAgree(frames, outcomes)
    ensures var split := SplitOf(frames, threshold, outcomes, order);
            && split.passed == Pick(frames, Chosen(Flags(outcomes, threshold), true))
            && split.filtered == Pick(frames, Chosen(Flags(outcomes, threshold), false))
            && |split.passed| + |split.filtered| == |frames|
            && (forall i :: 0 <= i < |frames| ==>
                  frames[i].name in split.scores && split.scores[frames[i].name] == outcomes[i].value)
            && (forall x :: x in split.scores ==> exists i :: 0 <= i < |frames| && frames[i].name == x)
  {
    AllNamed(frames, outcomes, order);
    ScoresKeys(frames, outcomes, order);
    assert FlagsByName(frames, ScoresOf(frames, outcomes, order), threshold) == Flags(outcomes, threshold);
    ChosenPartition(Flags(outcomes, threshold));
  }

  /** All frames but one, and then that one. */
  function EndingWith(n: nat, i: nat): seq<nat>
    requires i < n
  {
    seq(n, k requires 0 <= k < n => if k == n - 1 then i else if k < i then k else k + 1)
  }

  ghost predicate ScheduleIndependent(frames: seq<Path>, threshold: real, outcomes: seq<Outcome>)
    requires |outcomes| == |frames| && AllScored(outcomes)
  {
    forall a, b :: IsOrder(a, |frames|) && IsOrder(b, |frames|) ==>
      SplitOf(frames, threshold, outcomes, a) == SplitOf(frames, threshold, outcomes, b)
  }

  /** Main result: the result does not depend on the completion order, exactly if the names agree. */
  lemma ScheduleIndependentExactly(frames: seq<Path>, threshold: real, outcomes: seq<Outcome>)
    requires |outcomes| == |frames| && AllScored(outcomes)
    ensures ScheduleIndependent(frames, threshold, outcomes) <==> NamesAgree(frames, outcomes)
  {
    if NamesAgree(frames, outcomes) {
      forall a, b | IsOrder(a, |frames|) && IsOrder(b, |frames|)
        ensures SplitOf(frames, threshold, outcomes, a) == SplitOf(frames, threshold, outcomes, b)
      {
        OwnVerdict(frames, threshold, outcomes, a);
        OwnVerdict(frames, threshold, outcomes, b);
      }
    } else {
      var n := |frames|;
      var i, j :| 0 <= i < n && 0 <= j < n && frames[i].name == frames[j].name && outcomes[i] != outcomes[j];
      var a, b := EndingWith(n, i), EndingWith(n, j);
      assert SplitOf(frames, threshold, outcomes, a).scores[frames[i].name] == outcomes[i].value;
      assert SplitOf(frames, threshold, outcomes, b).scores[frames[i].name] == outcomes[j].value;
    }
  }

  datatype FrameMetadata = FrameMetadata(
    frameIndex: nat, timestamp: real, filePath: Name, blurScore: Score, isFiltered: bool)

  datatype ExtractionResult = ExtractionResult(totalExtracted: nat, totalFiltered: nat, frames: seq<FrameMetadata>)

  /** A picture, known by its content only. */
  type Image = nat

  /** The paths that `extract_frames` lists: one directory, so no name occurs twice. */
  function InFrames(names: seq<Name>): seq<Path> {
    seq(|names|, i requires 0 <= i < |names| => Path("frames", names[i]))
  }

  function OutcomesOf(names: seq<Name>, files: map<Name, Image>, score: Image -> Outcome): seq<Outcome>
    requires forall i :: 0 <= i < |names| ==> names[i] in files
  {
    seq(|names|, i requires 0 <= i < |names| => score(files[names[i]]))
  }

  function NamesOf(paths: seq<Path>): set<Name> {
    set f <- paths :: f.name
  }

  /** The names of the frames that are too blurred. */
  function Blurred(names: seq<Name>, outcomes: seq<Outcome>, threshold: real): set<Name>
    requires |outcomes| == |names| && AllScored(outcomes)
  {
    set i | 0 <= i < |names| && TooBlurred(outcomes[i].value, threshold) :: names[i]
  }

  /** The files named in `gone` were moved from the one directory to the other, and nothing else happened. */
  ghost predicate Moved(frames: map<Name, Image>, filtered: map<Name, Image>, gone: set<Name>,
                        frames': map<Name, Image>, filtered': map<Name, Image>)
  {
    && gone <= frames.Keys
    && frames' == frames - gone
    && filtered'.Keys == filtered.Keys + gone
    && (forall x :: x in filtered' ==> filtered'[x] == if x in gone then frames[x] else filtered[x])
  }

  /** The report agrees with the verdicts. */
  ghost predicate Describes(result: ExtractionResult, names: seq<Name>, outcomes: seq<Outcome>, interval: real,
                            threshold: real)
    requires |outcomes| == |names| && AllScored(outcomes)
  {
    && result.totalExtracted == |names| == |result.frames|
    && result.totalFiltered == |Blurred(names, outcomes, threshold)|
    && (forall i :: 0 <= i < |names| ==>
          var score := outcomes[i].value;
          result.frames[i] == FrameMetadata(i, i as real * interval, names[i], score, TooBlurred(score, threshold)))
  }

  function NameList(paths: seq<Path>): seq<Name> {
    seq(|paths|, i requires 0 <= i < |paths| => paths[i].name)
  }

  predicate DistinctNames(paths: seq<Path>) {
    NoDuplicates(NameList(paths))
  }

  lemma CountNames(paths: seq<Path>)
    requires DistinctNames(paths)
    ensures |NamesOf(paths)| == |paths|
  {
    DistinctCount(NameList(paths));
    forall x ensures x in NamesOf(paths) <==> x in Members(NameList(paths)) {
      if x in NamesOf(paths) {
        var i :| 0 <= i < |paths| && paths[i].name == x;
        assert NameList(paths)[i] == x;
      }
      if x in NameList(paths) {
        var i :| 0 <= i < |paths| && NameList(paths)[i] == x;
        assert paths[i] in paths;
      }
    }
    assert NamesOf(paths) == Members(NameList(paths));
  }

  lemma NotNamedBefore(paths: seq<Path>, k: nat)
    requires DistinctNames(paths) && k < |paths|
    ensures paths[k].name !in NamesOf(paths[..k])
  {
    forall i | 0 <= i < k ensures paths[i].name != paths[k].name {
      assert NameList(paths)[i] != NameList(paths)[k];
    }
  }

  lemma CountBlurred(names: seq<Name>, chosen: seq<nat>, toMove: seq<Path>)
    requires NoDuplicates(names) && |toMove| == |chosen|
    requires forall k :: 0 <= k < |chosen| ==> chosen[k] < |names| && toMove[k].name == names[chosen[k]]
    requires forall i, j :: 0 <= i < j < |chosen| ==> chosen[i] < chosen[j]
    ensures DistinctNames(toMove) && |NamesOf(toMove)| == |toMove|
  {
    forall i, j | 0 <= i < j < |toMove| ensures NameList(toMove)[i] != NameList(toMove)[j] {
      assert chosen[i] < chosen[j];
    }
    CountNames(toMove);
  }

  lemma BlurredNames(names: seq<Name>, outcomes: seq<Outcome>, threshold: real, chosen: seq<nat>, toMove: seq<Path>)
    requires |outcomes| == |names| && AllScored(outcomes) && |toMove| == |chosen|
    requires forall k :: 0 <= k < |chosen| ==>
               && chosen[k] < |names| && toMove[k].name == names[chosen[k]]
               && TooBlurred(outcomes[chosen[k]].value, threshold)
    requires forall i :: 0 <= i < |names| && TooBlurred(outcomes[i].value, threshold) ==> i in chosen
    ensures NamesOf(toMove) == Blurred(names, outcomes, threshold)
  {
    forall x | x in Blurred(names, outcomes, threshold) ensures x in NamesOf(toMove) {
      var i :| 0 <= i < |names| && TooBlurred(outcomes[i].value, threshold) && names[i] == x;
      var k :| 0 <= k < |chosen| && chosen[k] == i;
      assert toMove[k] in toMove;
    }
    forall x | x in NamesOf(toMove) ensures x in Blurred(names, outcomes, threshold) {
      var k :| 0 <= k < |toMove| && toMove[k].name == x;
      assert names[chosen[k]] == x;
    }
  }

  lemma UniqueNamesAgree(names: seq<Name>, outcomes: seq<Outcome>)
    requires |outcomes| == |names| && NoDuplicates(names)
    ensures NamesAgree(InFrames(names), outcomes)
  {
    forall i, j | 0 <= i < |names| && 0 <= j < |names| && InFrames(names)[i].name == InFrames(names)[j].name
      ensures outcomes[i] == outcomes[j]
    {
      assert names[i] == names[j];
    }
  }

  lemma BlurredIndices(outcomes: seq<Outcome>, threshold: real) returns (chosen: seq<nat>)
    requires AllScored(outcomes)
    ensures chosen == Chosen(Flags(outcomes, threshold), false)
    ensures forall k :: 0 <= k < |chosen| ==> chosen[k] < |outcomes| && TooBlurred(outcomes[chosen[k]].value, threshold)
    ensures forall i, j :: 0 <= i < j < |chosen| ==> chosen[i] < chosen[j]
    ensures forall i :: 0 <= i < |outcomes| && TooBlurred(outcomes[i].value, threshold) ==> i in chosen
  {
    var flags := Flags(outcomes, threshold);
    chosen := Chosen(flags, false);
    forall i | 0 <= i < |outcomes| && TooBlurred(outcomes[i].value, threshold) ensures i in chosen {
      assert flags[i] == false;
    }
  }

  lemma FilteredIndices(names: seq<Name>, outcomes: seq<Outcome>, threshold: real, order: seq<nat>, split: Split)
    returns (chosen: seq<nat>)
    requires |outcomes| == |names| && AllScored(outcomes) && NoDuplicates(names) && IsOrder(order, |names|)
    requires split == SplitOf(InFrames(names), threshold, outcomes, order)
    ensures |split.filtered| == |chosen|
    ensures forall k :: 0 <= k < |chosen| ==>
              && chosen[k] < |names| && split.filtered[k].name == names[chosen[k]]
              && TooBlurred(outcomes[chosen[k]].value, threshold)
    ensures forall i, j :: 0 <= i < j < |chosen| ==> chosen[i] < chosen[j]
    ensures forall i :: 0 <= i < |names| && TooBlurred(outcomes[i].value, threshold) ==> i in chosen
    ensures forall i :: 0 <= i < |names| ==> names[i] in split.scores && split.scores[names[i]] == outcomes[i].value
  {
    UniqueNamesAgree(names, outcomes);
    OwnVerdict(InFrames(names), threshold, outcomes, order);
    chosen := BlurredIndices(outcomes, threshold);
    forall i | 0 <= i < |names| ensures names[i] in split.scores && split.scores[names[i]] == outcomes[i].value {
      assert InFrames(names)[i].name == names[i];
    }
  }

  /** The list of frames to move names exactly the blurred ones, once each, and every score is the frame's own. */
  lemma FilteredNames(names: seq<Name>, outcomes: seq<Outcome>, threshold: real, order: seq<nat>, split: Split)
    requires |outcomes| == |names| && AllScored(outcomes) && NoDuplicates(names) && IsOrder(order, |names|)
    requires split == SplitOf(InFrames(names), threshold, outcomes, order)
    ensures DistinctNames(split.filtered)
    ensures NamesOf(split.filtered) == Blurred(names, outcomes, threshold)
    ensures |split.filtered| == |Blurred(names, outcomes, threshold)|
    ensures forall i :: 0 <= i < |names| ==> names[i] in split.scores && split.scores[names[i]] == outcomes[i].value
  {
    var chosen := FilteredIndices(names, outcomes, threshold, order, split);
    CountBlurred(names, chosen, split.filtered);
    BlurredNames(names, outcomes, threshold, chosen, split.filtered);
  }

  lemma BlurredAt(names: seq<Name>, outcomes: seq<Outcome>, threshold: real)
    requires |outcomes| == |names| && AllScored(outcomes) && NoDuplicates(names)
    ensures forall i :: 0 <= i < |names| ==>
              (names[i] in Blurred(names, outcomes, threshold) <==> TooBlurred(outcomes[i].value, threshold))
  {
  }

  /** The metadata loop. */
  method Describe(names: seq<Name>, scores: map<Name, Score>, filteredNames: set<Name>,
                  interval: real) returns (metadata: seq<FrameMetadata>)
    requires forall i :: 0 <= i < |names| ==> names[i] in scores
    ensures |metadata| == |names|
    ensures forall i :: 0 <= i < |names| ==>
              var name := names[i];
              metadata[i] == FrameMetadata(i, i as real * interval, name, scores[name], name in filteredNames)
  {
    metadata := [];
    for i := 0 to |names|
      invariant |metadata| == i
      invariant forall j :: 0 <= j < i ==>
                  var name := names[j];
                  metadata[j] == FrameMetadata(j, j as real * interval, name, scores[name], name in filteredNames)
    {
      var name := names[i];
      metadata := metadata + [FrameMetadata(i, i as real * interval, name, scores[name], name in filteredNames)];
    }
  }

  /** The output directory of one job. */
  class ExtractionDir {
    var frames: map<Name, Image>
    var filtered: map<Name, Image>

    constructor (files: map<Name, Image>)
      ensures frames == files && filtered == map[]
    {
      frames, filtered := files, map[];
    }

    /** Path.rename into the other directory; a file of that name there is replaced. */
    method MoveAway(name: Name)
      requires name in frames
      modifies this
      ensures frames == old(frames) - {name}
      ensures filtered == old(filtered)[name := old(frames)[name]]
    {
      filtered := filtered[name := frames[name]];
      frames := frames - {name};
    }

    method MoveAll(toMove: seq<Path>)
      requires DistinctNames(toMove) && NamesOf(toMove) <= frames.Keys
      modifies this
      ensures Moved(old(frames), old(filtered), NamesOf(toMove), frames, filtered)
    {
      for k := 0 to |toMove|
        invariant Moved(old(frames), old(filtered), NamesOf(toMove[..k]), frames, filtered)
      {
        assert toMove[k] in toMove;
        NotNamedBefore(toMove, k);
        assert NamesOf(toMove[..k + 1]) == NamesOf(toMove[..k]) + {toMove[k].name} by {
          assert toMove[..k + 1] == toMove[..k] + [toMove[k]];
        }
        MoveAway(toMove[k].name);
      }
      assert toMove[..|toMove|] == toMove;
    }

    /** `extract_and_filter` after ffmpeg has run. */
    method ExtractAndFilter(names: seq<Name>, interval: real, threshold: real, score: Image -> Outcome, order: seq<nat>)
      returns (result: Option<ExtractionResult>, progress: seq<Progress>)
      requires NoDuplicates(names) && (forall i :: 0 <= i < |names| ==> names[i] in frames)
      requires IsOrder(order, |names|)
      modifies this
      ensures var outcomes := OutcomesOf(names, old(frames), score);
              && progress == Counted(BeforeFailure(outcomes, order), |names|)
              && (result.Some? <==> AllScored(outcomes))
              && (result.None? ==> frames == old(frames) && filtered == old(filtered))
              && (result.Some? ==>
                    && Moved(old(frames), old(filtered), Blurred(names, outcomes, threshold), frames, filtered)
                    && Describes(result.value, names, outcomes, interval, threshold))
    {
      var paths, outcomes := InFrames(names), OutcomesOf(names, frames, score);
      var split: Option<Split>;
      split, progress := FilterBlurryFrames(paths, threshold, outcomes, order);
      if split.None? {
        return None, progress;
      }
      FilteredNames(names, outcomes, threshold, order, split.value);
      MoveAll(split.value.filtered);
      var metadata := Describe(names, split.value.scores, NamesOf(split.value.filtered), interval);
      BlurredAt(names, outcomes, threshold);
      result := Some(ExtractionResult(|names|, |split.value.filtered|, metadata));
    }
  }

  /** No picture is lost: each is afterwards, under its name and unchanged, in exactly one of the two
      directories, and a file outside `gone` stays where it was. */
  lemma NothingLost(frames: map<Name, Image>, filtered: map<Name, Image>, gone: set<Name>,
                    frames': map<Name, Image>, filtered': map<Name, Image>, x: Name)
    requires Moved(frames, filtered, gone, frames', filtered') && x in frames
    ensures if x in gone then x !in frames' && x in filtered' && filtered'[x] == frames[x]
            else x in frames' && frames'[x] == frames[x] && (x in filtered' <==> x in filtered)
    ensures |frames'| + |gone| == |frames|
  {
    assert frames.Keys == frames'.Keys + gone;
  }

  /** What `extract_and_filter` promises, frame by frame and on raw scores: a listed frame is moved away, and
      flagged, if and only if its score is not a number, is minus infinity, or is a number below the threshold. */
  lemma {:induction false} Verdicts(names: seq<Name>, outcomes: seq<Outcome>, interval: real, threshold: real,
                                    result: ExtractionResult, frames: map<Name, Image>, filtered: map<Name, Image>,
                                    frames': map<Name, Image>, filtered': map<Name, Image>, i: nat)
    requires NoDuplicates(names) && |outcomes| == |names| && AllScored(outcomes) && i < |names| && names[i] in frames
    requires Moved(frames, filtered, Blurred(names, outcomes, threshold), frames', filtered')
    requires Describes(result, names, outcomes, interval, threshold)
    ensures result.frames[i].isFiltered <==>
            match outcomes[i].value {
              case NotANumber => true
              case MinusInfinity => true
              case PlusInfinity => false
              case Finite(v) => v < threshold
            }
    ensures names[i] !in frames' <==> result.frames[i].isFiltered
    ensures result.frames[i].isFiltered ==> names[i] in filtered' && filtered'[names[i]] == frames[names[i]]
  {
    BlurredAt(names, outcomes, threshold);
  }

  /** Raising the threshold only enlarges the set that is moved; and a frame stays whenever one with a smaller
      finite score does. */
  lemma {:induction false} ThresholdMonotone(names: seq<Name>, outcomes: seq<Outcome>, low: real, high: real, i: nat,
                                             j: nat)
    requires NoDuplicates(names) && |outcomes| == |names| && AllScored(outcomes) && low <= high
    requires i < |names| && j < |names|
    ensures Blurred(names, outcomes, low) <= Blurred(names, outcomes, high)
    ensures var a, b, gone := outcomes[i].value, outcomes[j].value, Blurred(names, outcomes, low);
            (a.Finite? && b.Finite? && a.value <= b.value && names[i] !in gone) ==> names[j] !in gone
  {
    BlurredAt(names, outcomes, low);
    BlurredAt(names, outcomes, high);
    forall x | x in Blurred(names, outcomes, low) ensures x in Blurred(names, outcomes, high) {
      var k :| 0 <= k < |names| && TooBlurred(outcomes[k].value, low) && names[k] == x;
      assert TooBlurred(outcomes[k].value, high);
    }
  }

  const IMAGE_EXTENSIONS := [".jpg", ".jpeg", ".png", ".JPG", ".JPEG", ".PNG"]

  /** Path.glob("*" + extension). */
  function Glob(names: set<Name>, extension: string): set<Name> {
    set x | x in names && EndsWith(x, extension)
  }

  /** The files that match one of the patterns. */
  function Matching(names: set<Name>, patterns: seq<string>): (images: set<Name>)
    ensures images <= names
  {
    if patterns == [] then {}
    else Matching(names, patterns[..|patterns| - 1]) + Glob(names, patterns[|patterns| - 1])
  }

  function Images(names: set<Name>): (images: set<Name>)
    ensures images <= names
  {
    Matching(names, IMAGE_EXTENSIONS)
  }

  lemma {:induction false} MatchingOne(names: set<Name>, patterns: seq<string>, x: Name)
    ensures x in Matching(names, patterns) <==>
            x in names && exists i :: 0 <= i < |patterns| && EndsWith(x, patterns[i])
  {
    if patterns != [] {
      var n := |patterns| - 1;
      MatchingOne(names, patterns[..n], x);
      assert forall i :: 0 <= i < n ==> patterns[..n][i] == patterns[i];
    }
  }

  /** What counts as an image: a file with one of these six endings. */
  lemma ImagesExactly(names: set<Name>, x: Name)
    ensures x in Images(names) <==>
            && x in names
            && (EndsWith(x, ".jpg") || EndsWith(x, ".jpeg") || EndsWith(x, ".png")
                || EndsWith(x, ".JPG") || EndsWith(x, ".JPEG") || EndsWith(x, ".PNG"))
  {
    MatchingOne(names, IMAGE_EXTENSIONS, x);
    var endings := IMAGE_EXTENSIONS;
    assert |endings| == 6 && endings[0] == ".jpg" && endings[1] == ".jpeg" && endings[2] == ".png";
    assert endings[3] == ".JPG" && endings[4] == ".JPEG" && endings[5] == ".PNG";
  }

  /** No name matches two of the patterns. */
  ghost predicate Exclusive(patterns: seq<string>) {
    forall i, j, x: Name :: 0 <= i < j < |patterns| ==> !(EndsWith(x, patterns[i]) && EndsWith(x, patterns[j]))
  }

  /** The last two letters. */
  function Tail(s: string): string
    requires |s| >= 2
  {
    s[|s| - 2..]
  }

  lemma TailOfSuffix(x: Name, suffix: string)
    requires |suffix| >= 2 && EndsWith(x, suffix)
    ensures |x| >= 2 && Tail(x) == Tail(suffix)
  {
    assert x[|x| - |suffix|..][|suffix| - 2..] == x[|x| - 2..];
  }

  const TAILS := ["pg", "eg", "ng", "PG", "EG", "NG"]

  lemma TailsOfExtensions()
    ensures forall i :: 0 <= i < |IMAGE_EXTENSIONS| ==>
              |IMAGE_EXTENSIONS[i]| >= 2 && Tail(IMAGE_EXTENSIONS[i]) == TAILS[i]
  {
    assert Tail(".jpg") == "pg" && Tail(".jpeg") == "eg" && Tail(".png") == "ng";
    assert Tail(".JPG") == "PG" && Tail(".JPEG") == "EG" && Tail(".PNG") == "NG";
  }

  lemma TailsDiffer()
    ensures NoDuplicates(TAILS)
  {
    assert "pg"[0] == 'p' && "eg"[0] == 'e' && "ng"[0] == 'n' && "PG"[0] == 'P' && "EG"[0] == 'E' && "NG"[0] == 'N';
  }

  lemma DistinctTailsExclude(patterns: seq<string>, tails: seq<string>)
    requires |tails| == |patterns| && NoDuplicates(tails)
    requires forall i :: 0 <= i < |patterns| ==> |patterns[i]| >= 2 && Tail(patterns[i]) == tails[i]
    ensures Exclusive(patterns)
  {
    forall i, j, x: Name | 0 <= i < j < |patterns| ensures !(EndsWith(x, patterns[i]) && EndsWith(x, patterns[j])) {
      if EndsWith(x, patterns[i]) {
        TailOfSuffix(x, patterns[i]);
      }
      if EndsWith(x, patterns[j]) {
        TailOfSuffix(x, patterns[j]);
      }
    }
  }

  /** The image patterns differ in their last two letters. */
  lemma ExtensionsExclusive()
    ensures Exclusive(IMAGE_EXTENSIONS)
  {
    TailsOfExtensions();
    TailsDiffer();
    DistinctTailsExclude(IMAGE_EXTENSIONS, TAILS);
  }

  lemma {:induction false} NotCountedYet(names: set<Name>, patterns: seq<string>, k: nat, j: nat)
    requires Exclusive(patterns) && k <= j < |patterns|
    ensures Matching(names, patterns[..k]) !! Glob(names, patterns[j])
  {
    if k > 0 {
      NotCountedYet(names, patterns, k - 1, j);
      assert patterns[..k][..k - 1] == patterns[..k - 1];
    }
  }

  lemma OneMorePattern(names: set<Name>, patterns: seq<string>, k: nat)
    requires Exclusive(patterns) && k < |patterns|
    ensures |Matching(names, patterns[..k + 1])| == |Matching(names, patterns[..k])| + |Glob(names, patterns[k])|
  {
    NotCountedYet(names, patterns, k, k);
    assert patterns[..k + 1][..k] == patterns[..k];
  }

  method CountMatches(names: set<Name>, patterns: seq<string>) returns (count: nat)
    requires Exclusive(patterns)
    ensures count == |Matching(names, patterns)|
  {
    count := 0;
    for k := 0 to |patterns|
      invariant count == |Matching(names, patterns[..k])|
    {
      OneMorePattern(names, patterns, k);
      count := count + |Glob(names, patterns[k])|;
    }
    assert patterns[..|patterns|] == patterns;
  }

  /** The image count of `reconstruct`: each file is counted once, whatever its pattern. */
  method CountImages(names: set<Name>) returns (count: nat)
    ensures count == |Images(names)|
  {
    ExtensionsExclusive();
    count := CountMatches(names, IMAGE_EXTENSIONS);
  }

  lemma {:induction false} PatternCounts(names: set<Name>, patterns: seq<string>, k: nat)
    requires k < |patterns|
    ensures Glob(names, patterns[k]) <= Matching(names, patterns)
  {
    if k < |patterns| - 1 {
      PatternCounts(names, patterns[..|patterns| - 1], k);
    }
  }

  /** What the worker compares with 2 before it starts the reconstruction. */
  function Remaining(result: ExtractionResult): int {
    result.totalExtracted - result.totalFiltered
  }

  lemma BlurredAreListed(names: seq<Name>, outcomes: seq<Outcome>, threshold: real, listed: set<Name>)
    requires |outcomes| == |names| && AllScored(outcomes) && forall x :: x in listed <==> x in names
    ensures Blurred(names, outcomes, threshold) <= listed
  {
  }

  lemma KeysWithout(frames: map<Name, Image>, gone: set<Name>)
    ensures (frames - gone).Keys == frames.Keys - gone
  {
  }

  lemma Subset(a: set<Name>, b: set<Name>)
    requires a <= b
    ensures |a| <= |b|
  {
    assert b == a + (b - a);
  }

  lemma SameSize(a: set<Name>, b: set<Name>)
    requires a <= b && |a| == |b|
    ensures a == b
  {
    assert b == a + (b - a);
  }

  lemma LeftAreImages(listed: set<Name>, gone: set<Name>, files: set<Name>)
    requires gone <= listed <= files && forall x :: x in listed ==> EndsWith(x, ".jpg")
    ensures |listed| - |gone| <= |Images(files - gone)|
    ensures |listed| == |files| ==> |Images(files - gone)| == |listed| - |gone|
  {
    assert |listed - gone| == |listed| - |gone|;
    PatternCounts(files - gone, IMAGE_EXTENSIONS, 0);
    assert listed - gone <= Glob(files - gone, ".jpg");
    Subset(listed - gone, Images(files - gone));
    if |listed| == |files| {
      SameSize(listed, files);
      Subset(Images(files - gone), listed - gone);
    }
  }

  lemma Listed(names: seq<Name>, frames: map<Name, Image>) returns (listed: set<Name>)
    requires NoDuplicates(names) && forall i :: 0 <= i < |names| ==> names[i] in frames
    ensures |listed| == |names| && listed <= frames.Keys
    ensures forall x :: x in listed <==> x in names
  {
    var paths := InFrames(names);
    CountNames(paths);
    listed := NamesOf(paths);
    forall x ensures x in listed <==> x in names {
      if x in names {
        var i :| 0 <= i < |names| && names[i] == x;
        assert paths[i] in paths;
      }
    }
  }

  /** After a run the directory holds `remaining` of the listed frames, so what passes the worker's check
      passes the check of `reconstruct`; and if the directory held nothing else, the two agree. */
  lemma GuardImpliesImageCheck(names: seq<Name>, outcomes: seq<Outcome>, interval: real, threshold: real,
                               result: ExtractionResult,
                               frames: map<Name, Image>, filtered: map<Name, Image>,
                               frames': map<Name, Image>, filtered': map<Name, Image>)
    requires NoDuplicates(names) && forall i :: 0 <= i < |names| ==> names[i] in frames && EndsWith(names[i], ".jpg")
    requires |outcomes| == |names| && AllScored(outcomes) && Describes(result, names, outcomes, interval, threshold)
    requires Moved(frames, filtered, Blurred(names, outcomes, threshold), frames', filtered')
    ensures Remaining(result) <= |Images(frames'.Keys)|
    ensures |names| == |frames| ==> Remaining(result) == |Images(frames'.Keys)|
  {
    var gone := Blurred(names, outcomes, threshold);
    var listed := Listed(names, frames);
    BlurredAreListed(names, outcomes, threshold, listed);
    KeysWithout(frames, gone);
    LeftAreImages(listed, gone, frames.Keys);
  }
}

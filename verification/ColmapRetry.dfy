/** The COLMAP retry loop (src/reconstruction/reconstruction.py:25-32, 75-147).

    What the i-th process would do is an arbitrary function of i, and whether an error message is
    retryable is an arbitrary predicate. Durations are reals. */
module ColmapRetry {
  import opened Geometric
  import opened Prelude

  datatype RetryConfig = RetryConfig(maxRetries: int, baseDelay: real, backoff: real, timeoutMult: real)

  /** The values used when no configuration is given. */
  const NO_RETRY := RetryConfig(0, 5.0, 2.0, 1.5)

  /** How one COLMAP process ends: exit code zero, subprocess.TimeoutExpired, or another exit code. */
  datatype Ending = Exited | TimedOut(error: string) | ExitedWith(error: string)

  /** NoAttempt is the AttributeError of the statement after the loop, where `last_error` is None. */
  datatype Result = Returned | Raised(error: string) | NoAttempt

  datatype Effect =
    | Run(timeout: int)
    | Callback(attempt: int, maxRetries: int, error: string)
    | Sleep(delay: real)

  function TimeoutOf(timeout: int, config: RetryConfig, attempt: nat): int {
    Truncate(timeout as real * Pow(config.timeoutMult, attempt))
  }

  function DelayOf(config: RetryConfig, attempt: nat): real {
    config.baseDelay * Pow(config.backoff, attempt)
  }

  /** The loop does not go on after attempt i. */
  predicate Stops(ending: nat -> Ending, retryable: string -> bool, maxRetries: int, i: nat) {
    ending(i).Exited? || i >= maxRetries || !retryable(ending(i).error)
  }

  ghost predicate FirstStop(ending: nat -> Ending, retryable: string -> bool, maxRetries: int, i: nat) {
    Stops(ending, retryable, maxRetries, i) && forall j: nat :: j < i ==> !Stops(ending, retryable, maxRetries, j)
  }

  /** The first attempt after which the loop does not go on. */
  function StopIndex(ending: nat -> Ending, retryable: string -> bool, maxRetries: nat, from: nat): (i: nat)
    requires from <= maxRetries
    ensures from <= i <= maxRetries && Stops(ending, retryable, maxRetries, i)
    ensures forall j: nat :: from <= j < i ==> !Stops(ending, retryable, maxRetries, j)
    decreases maxRetries - from
  {
    if Stops(ending, retryable, maxRetries, from) then from else StopIndex(ending, retryable, maxRetries, from + 1)
  }

  /** Only one attempt can be the first stop, so the loop's contract fixes how often COLMAP runs. */
  lemma FirstStopUnique(ending: nat -> Ending, retryable: string -> bool, maxRetries: nat, i: nat)
    ensures FirstStop(ending, retryable, maxRetries, i) <==> i == StopIndex(ending, retryable, maxRetries, 0)
  {
  }

  /** The first n attempts fail, all with errors that are worth a retry. */
  ghost predicate WorthRetrying(ending: nat -> Ending, retryable: string -> bool, n: nat) {
    forall j: nat :: j < n ==> !ending(j).Exited? && retryable(ending(j).error)
  }

  /** What the caller sees of all this: the loop ends well if and only if some attempt within the limit does and
      every one before it failed with an error worth a retry; and it ends with that attempt, or else with the
      first whose error is not worth one, or with the last that is allowed. */
  lemma {:induction false} ReturnsExactly(ending: nat -> Ending, retryable: string -> bool, maxRetries: nat, last: nat)
    requires last == StopIndex(ending, retryable, maxRetries, 0)
    ensures ending(last).Exited? <==>
            exists i: nat :: i <= maxRetries && ending(i).Exited? && WorthRetrying(ending, retryable, i)
    ensures last <= maxRetries && WorthRetrying(ending, retryable, last)
    ensures ending(last).Exited? || !retryable(ending(last).error) || last == maxRetries
  {
    forall j: nat | j < last ensures !ending(j).Exited? && retryable(ending(j).error) {
      assert !Stops(ending, retryable, maxRetries, j);
    }
    if i: nat :| i <= maxRetries && ending(i).Exited? && WorthRetrying(ending, retryable, i) {
      assert i < last ==> !ending(i).Exited?;
      assert Stops(ending, retryable, maxRetries, last);
    }
  }

  /** The effects of one attempt that is retried. */
  function RetriedOnce(ending: nat -> Ending, timeout: int, config: RetryConfig, hasCallback: bool,
                       n: nat): seq<Effect> {
    [Run(TimeoutOf(timeout, config, n))]
    + (if hasCallback && !ending(n).Exited? then [Callback(n + 1, config.maxRetries, ending(n).error)] else [])
    + [Sleep(DelayOf(config, n))]
  }

  /** The effects of the first n attempts when all of them are retried. */
  function Retried(ending: nat -> Ending, timeout: int, config: RetryConfig, hasCallback: bool, n: nat): seq<Effect> {
    if n == 0 then []
    else Retried(ending, timeout, config, hasCallback, n - 1) + RetriedOnce(ending, timeout, config, hasCallback, n - 1)
  }

  method RunColmap(timeout: int, retryConfig: Option<RetryConfig>, hasCallback: bool,
                   ending: nat -> Ending, retryable: string -> bool)
    returns (result: Result, effects: seq<Effect>)
    ensures var config := retryConfig.GetOr(NO_RETRY);
            if config.maxRetries < 0 then result == NoAttempt && effects == []
            else
              var last := StopIndex(ending, retryable, config.maxRetries, 0);
              && effects == Retried(ending, timeout, config, hasCallback, last)
                            + [Run(TimeoutOf(timeout, config, last))]
              && result == if ending(last).Exited? then Returned else Raised(ending(last).error)
  {
    var config := retryConfig.GetOr(NO_RETRY);
    effects := [];
    for attempt := 0 to Max(0, config.maxRetries + 1)
      invariant effects == Retried(ending, timeout, config, hasCallback, attempt)
      invariant forall j: nat :: j < attempt ==> !Stops(ending, retryable, config.maxRetries, j)
    {
      if config.maxRetries >= 0 {
        FirstStopUnique(ending, retryable, config.maxRetries, attempt);
      }
      effects := effects + [Run(TimeoutOf(timeout, config, attempt))];
      match ending(attempt) {
        case TimedOut(error) =>
          if attempt < config.maxRetries && retryable(error) {
            if hasCallback {
              effects := effects + [Callback(attempt + 1, config.maxRetries, error)];
            }
            effects := effects + [Sleep(DelayOf(config, attempt))];
          } else {
            result := Raised(error);
            return;
          }
        case ExitedWith(error) =>
          if attempt < config.maxRetries && retryable(error) {
            if hasCallback {
              effects := effects + [Callback(attempt + 1, config.maxRetries, error)];
            }
            effects := effects + [Sleep(DelayOf(config, attempt))];
          } else {
            result := Raised(error);
            return;
          }
        case Exited =>
          result := Returned;
          return;
      }
    }
    // The loop falls through only when its range is empty: the last attempt always stops.
    assert config.maxRetries >= 0 ==> Stops(ending, retryable, config.maxRetries, config.maxRetries);
    result := NoAttempt;
  }

  function Picked<T>(effects: seq<Effect>, pick: Effect -> Option<T>): seq<T> {
    if effects == [] then []
    else (match pick(effects[0]) case Some(x) => [x] case None => []) + Picked(effects[1..], pick)
  }

  lemma {:induction false} PickedConcat<T>(a: seq<Effect>, b: seq<Effect>, pick: Effect -> Option<T>)
    ensures Picked(a + b, pick) == Picked(a, pick) + Picked(b, pick)
  {
    if a == [] {
      assert a + b == b;
    } else {
      assert (a + b)[1..] == a[1..] + b;
      PickedConcat(a[1..], b, pick);
    }
  }

  const PICK_TIMEOUT: Effect -> Option<int> := (e: Effect) => if e.Run? then Some(e.timeout) else None

  const PICK_SLEEP: Effect -> Option<real> := (e: Effect) => if e.Sleep? then Some(e.delay) else None

  const PICK_ATTEMPT: Effect -> Option<int> := (e: Effect) => if e.Callback? then Some(e.attempt) else None

  /** The three kinds of effect, each in order. */
  function Timeouts(effects: seq<Effect>): seq<int> { Picked(effects, PICK_TIMEOUT) }

  function Sleeps(effects: seq<Effect>): seq<real> { Picked(effects, PICK_SLEEP) }

  function Attempts(effects: seq<Effect>): seq<int> { Picked(effects, PICK_ATTEMPT) }

  lemma ProjectionsConcat(a: seq<Effect>, b: seq<Effect>)
    ensures Timeouts(a + b) == Timeouts(a) + Timeouts(b)
    ensures Sleeps(a + b) == Sleeps(a) + Sleeps(b)
    ensures Attempts(a + b) == Attempts(a) + Attempts(b)
  {
    PickedConcat(a, b, PICK_TIMEOUT);
    PickedConcat(a, b, PICK_SLEEP);
    PickedConcat(a, b, PICK_ATTEMPT);
  }

  lemma PickedSingle<T>(e: Effect, pick: Effect -> Option<T>)
    ensures Picked([e], pick) == match pick(e) case Some(x) => [x] case None => []
  {
    assert [e][1..] == [];
    assert Picked([e][1..], pick) == [];
  }

  lemma SingleProjections(e: Effect)
    ensures Timeouts([e]) == if e.Run? then [e.timeout] else []
    ensures Sleeps([e]) == if e.Sleep? then [e.delay] else []
    ensures Attempts([e]) == if e.Callback? then [e.attempt] else []
  {
    PickedSingle(e, PICK_TIMEOUT);
    PickedSingle(e, PICK_SLEEP);
    PickedSingle(e, PICK_ATTEMPT);
  }

  lemma OnceProjections(ending: nat -> Ending, timeout: int, config: RetryConfig, hasCallback: bool, n: nat)
    ensures var effects := RetriedOnce(ending, timeout, config, hasCallback, n);
            && Timeouts(effects) == [TimeoutOf(timeout, config, n)]
            && Sleeps(effects) == [DelayOf(config, n)]
            && Attempts(effects) == (if hasCallback && !ending(n).Exited? then [n + 1] else [])
  {
    var run, sleep := Run(TimeoutOf(timeout, config, n)), Sleep(DelayOf(config, n));
    SingleProjections(run);
    SingleProjections(sleep);
    if hasCallback && !ending(n).Exited? {
      var callback := Callback(n + 1, config.maxRetries, ending(n).error);
      SingleProjections(callback);
      ProjectionsConcat([run] + [callback], [sleep]);
      ProjectionsConcat([run], [callback]);
    } else {
      assert RetriedOnce(ending, timeout, config, hasCallback, n) == [run] + [sleep];
      ProjectionsConcat([run], [sleep]);
    }
  }

  /** n retried attempts: n processes with growing timeouts, n growing sleeps, callbacks numbered 1..n. */
  lemma {:induction false} RetriedProjections(ending: nat -> Ending, timeout: int, config: RetryConfig,
                                              hasCallback: bool, n: nat)
    requires forall j: nat :: j < n ==> !ending(j).Exited?
    ensures var effects := Retried(ending, timeout, config, hasCallback, n);
            && Timeouts(effects) == seq(n, j requires 0 <= j < n => TimeoutOf(timeout, config, j))
            && Sleeps(effects) == seq(n, j requires 0 <= j < n => DelayOf(config, j))
            && Attempts(effects) == if hasCallback then seq(n, j => j + 1) else []
  {
    if n > 0 {
      RetriedProjections(ending, timeout, config, hasCallback, n - 1);
      OnceProjections(ending, timeout, config, hasCallback, n - 1);
      ProjectionsConcat(Retried(ending, timeout, config, hasCallback, n - 1),
                        RetriedOnce(ending, timeout, config, hasCallback, n - 1));
    }
  }

  function AsReals(s: seq<int>): seq<real> {
    seq(|s|, j requires 0 <= j < |s| => s[j] as real)
  }

  /** The longest time the effects can take: each process at most its timeout, each sleep exactly its delay. */
  function TotalTime(effects: seq<Effect>): real {
    SumOf(AsReals(Timeouts(effects))) + SumOf(Sleeps(effects))
  }

  lemma DelayInProgression(config: RetryConfig, n: nat)
    ensures DelayOf(config, n) == Progression(config.baseDelay, config.backoff)(n)
  {
  }

  lemma OneMoreRun(effects: seq<Effect>, timeout: int)
    ensures Timeouts(effects + [Run(timeout)]) == Timeouts(effects) + [timeout]
    ensures Sleeps(effects + [Run(timeout)]) == Sleeps(effects)
    ensures Attempts(effects + [Run(timeout)]) == Attempts(effects)
  {
    SingleProjections(Run(timeout));
    ProjectionsConcat(effects, [Run(timeout)]);
  }

  /** What one call costs. If its loop first stops at attempt i it starts i+1 processes, with the
      timeouts int(T*m^j), sleeps i times, b*k^j, and reports the attempts 1..i. */
  lemma RetryEffects(ending: nat -> Ending, retryable: string -> bool, timeout: int, config: RetryConfig,
                     hasCallback: bool, i: nat)
    requires FirstStop(ending, retryable, config.maxRetries, i)
    ensures var effects := Retried(ending, timeout, config, hasCallback, i) + [Run(TimeoutOf(timeout, config, i))];
            && Timeouts(effects) == seq(i + 1, j requires 0 <= j < i + 1 => TimeoutOf(timeout, config, j))
            && Sleeps(effects) == seq(i, j requires 0 <= j < i => DelayOf(config, j))
            && Attempts(effects) == (if hasCallback then seq(i, j => j + 1) else [])
  {
    forall j: nat | j < i ensures !ending(j).Exited? {
      assert !Stops(ending, retryable, config.maxRetries, j);
    }
    RetriedProjections(ending, timeout, config, hasCallback, i);
    OneMoreRun(Retried(ending, timeout, config, hasCallback, i), TimeoutOf(timeout, config, i));
  }

  predicate WholePart(n: int, x: real) {
    n as real <= x < n as real + 1.0
  }

  lemma TimeoutIsWhole(timeout: nat, config: RetryConfig, n: nat)
    requires config.timeoutMult >= 0.0
    ensures WholePart(TimeoutOf(timeout, config, n), Progression(timeout as real, config.timeoutMult)(n))
  {
    PowNonNegative(config.timeoutMult, n);
    var p := Pow(config.timeoutMult, n);
    assert timeout as real * p >= 0.0;
  }

  /** The timeouts in numbers: the j-th is the whole part of T*m^j. */
  lemma TimeoutSchedule(ending: nat -> Ending, retryable: string -> bool, timeout: nat, config: RetryConfig,
                        hasCallback: bool, i: nat)
    requires FirstStop(ending, retryable, config.maxRetries, i)
    requires config.timeoutMult >= 0.0
    ensures var timeouts := Timeouts(Retried(ending, timeout, config, hasCallback, i)
                                     + [Run(TimeoutOf(timeout, config, i))]);
            && |timeouts| == i + 1
            && forall j :: 0 <= j <= i ==>
                 WholePart(timeouts[j], Progression(timeout as real, config.timeoutMult)(j))
  {
    RetryEffects(ending, retryable, timeout, config, hasCallback, i);
    forall j | 0 <= j <= i
      ensures WholePart(TimeoutOf(timeout, config, j), Progression(timeout as real, config.timeoutMult)(j))
    {
      TimeoutIsWhole(timeout, config, j);
    }
  }

  lemma DelayGrows(config: RetryConfig, n: nat)
    requires n > 0
    ensures DelayOf(config, n) == DelayOf(config, n - 1) * config.backoff
  {
    var p := Pow(config.backoff, n - 1);
    assert config.baseDelay * (config.backoff * p) == config.baseDelay * p * config.backoff;
  }

  /** The sleeps: the first is the base delay, and each later one the backoff times the one before. */
  lemma SleepSchedule(ending: nat -> Ending, retryable: string -> bool, timeout: int, config: RetryConfig,
                      hasCallback: bool, i: nat)
    requires FirstStop(ending, retryable, config.maxRetries, i)
    ensures var sleeps := Sleeps(Retried(ending, timeout, config, hasCallback, i)
                                 + [Run(TimeoutOf(timeout, config, i))]);
            && |sleeps| == i && (i > 0 ==> sleeps[0] == config.baseDelay)
            && forall j :: 0 < j < i ==> sleeps[j] == sleeps[j - 1] * config.backoff
  {
    RetryEffects(ending, retryable, timeout, config, hasCallback, i);
    assert Pow(config.backoff, 0) == 1.0;
    forall j | 0 < j < i ensures DelayOf(config, j) == DelayOf(config, j - 1) * config.backoff {
      DelayGrows(config, j);
    }
  }

  /** In which order: each attempt that is retried runs, reports and sleeps; the last one only runs. */
  lemma {:induction false} EffectsInOrder(ending: nat -> Ending, timeout: int, config: RetryConfig, hasCallback: bool,
                                          n: nat, j: nat)
    requires j < n && !ending(j).Exited?
    requires forall k: nat :: k < n ==> !ending(k).Exited?
    ensures var effects, width := Retried(ending, timeout, config, hasCallback, n), if hasCallback then 3 else 2;
            && |effects| == n * width
            && effects[j * width] == Run(TimeoutOf(timeout, config, j))
            && (hasCallback ==> effects[j * width + 1] == Callback(j + 1, config.maxRetries, ending(j).error))
            && effects[j * width + width - 1] == Sleep(DelayOf(config, j))
  {
    if n == 1 {
      assert Retried(ending, timeout, config, hasCallback, 0) == [];
    } else {
      EffectsInOrder(ending, timeout, config, hasCallback, n - 1, if j < n - 1 then j else 0);
    }
  }

  /** And it takes no longer than the closed forms of the two geometric sums. */
  lemma RetryTime(ending: nat -> Ending, retryable: string -> bool, timeout: nat, config: RetryConfig,
                  hasCallback: bool, i: nat)
    requires FirstStop(ending, retryable, config.maxRetries, i)
    requires config.timeoutMult >= 0.0
    ensures TotalTime(Retried(ending, timeout, config, hasCallback, i) + [Run(TimeoutOf(timeout, config, i))]) <=
            ClosedForm(timeout as real, config.timeoutMult, i + 1, Pow(config.timeoutMult, i + 1))
            + ClosedForm(config.baseDelay, config.backoff, i, Pow(config.backoff, i))
  {
    var effects := Retried(ending, timeout, config, hasCallback, i) + [Run(TimeoutOf(timeout, config, i))];
    RetryEffects(ending, retryable, timeout, config, hasCallback, i);
    var timeouts := AsReals(Timeouts(effects));
    forall j | 0 <= j <= i ensures timeouts[j] <= Progression(timeout as real, config.timeoutMult)(j) {
      TimeoutIsWhole(timeout, config, j);
      assert timeouts[j] == TimeoutOf(timeout, config, j) as real;
    }
    SumBelow(timeouts, Progression(timeout as real, config.timeoutMult));
    forall j | 0 <= j < i ensures Sleeps(effects)[j] <= Progression(config.baseDelay, config.backoff)(j) {
      DelayInProgression(config, j);
    }
    SumBelow(Sleeps(effects), Progression(config.baseDelay, config.backoff));
    GeometricClosedForm(timeout as real, config.timeoutMult, i + 1);
    GeometricClosedForm(config.baseDelay, config.backoff, i);
  }
}

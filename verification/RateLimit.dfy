/** The sliding-window rate limiter (src/api/rate_limit.py). Times come from a monotonic clock. */
module RateLimit {
  import opened Prelude
  import opened TimeWindows

  datatype Rule = Rule(maxRequests: int, windowSeconds: int)

  /** IndexError is the exception of `timestamps[0]` on an empty list. */
  datatype Decision = Admitted | Denied(retryAfter: int) | IndexError

  function DecideOn(recent: seq<real>, rule: Rule, now: real): Decision {
    if |recent| < rule.maxRequests then Admitted
    else if recent == [] then IndexError
    else Denied(Max(1, Truncate(rule.windowSeconds as real - (now - recent[0])) + 1))
  }

  /** The decision as the full history of admitted requests would have it: `recent` are those in
      (now - window, now]. */
  function Decide(history: seq<real>, rule: Rule, now: real): Decision {
    DecideOn(After(history, now - rule.windowSeconds as real), rule, now)
  }

  /** The clock does not go backwards. */
  predicate NotAfter(history: seq<real>, now: real) {
    history != [] ==> history[|history| - 1] <= now
  }

  /** A history that the limiter itself produced: every entry was admitted when it was made. */
  ghost predicate Produced(history: seq<real>, rule: Rule) {
    history == [] ||
    (var before, last := history[..|history| - 1], history[|history| - 1];
     Produced(before, rule) && NotAfter(before, last) && Decide(before, rule, last) == Admitted)
  }

  lemma {:induction false} ProducedAt(history: seq<real>, rule: Rule, n: nat)
    requires Produced(history, rule) && n < |history|
    ensures Produced(history[..n], rule) && NotAfter(history[..n], history[n])
    ensures Decide(history[..n], rule, history[n]) == Admitted
  {
    var m := |history| - 1;
    if n < m {
      ProducedAt(history[..m], rule, n);
      assert history[..m][..n] == history[..n];
    }
  }

  lemma {:induction false} ProducedAscends(history: seq<real>, rule: Rule)
    requires Produced(history, rule)
    ensures Ascending(history)
  {
    if history != [] {
      ProducedAscends(history[..|history| - 1], rule);
    }
  }

  /** What the limiter keeps of a history: some suffix that a later window can still reach. */
  ghost predicate Trimmed(kept: seq<real>, history: seq<real>, cutoff: real) {
    && |kept| <= |history|
    && kept == history[|history| - |kept|..]
    && forall i :: 0 <= i < |history| - |kept| ==> history[i] <= cutoff
  }

  lemma {:induction false} AfterDropsOld(h: seq<real>, k: nat, cutoff: real)
    requires k <= |h| && forall i :: 0 <= i < k ==> h[i] <= cutoff
    ensures After(h[k..], cutoff) == After(h, cutoff)
  {
    if k > 0 {
      assert h[1..][k - 1..] == h[k..];
      AfterDropsOld(h[1..], k - 1, cutoff);
    } else {
      assert h[0..] == h;
    }
  }

  /** Trimming loses nothing. */
  lemma TrimmedDecidesAlike(kept: seq<real>, history: seq<real>, cutoff: real, later: real)
    requires Trimmed(kept, history, cutoff) && cutoff <= later
    ensures After(kept, later) == After(history, later)
    ensures Ascending(history) ==> Trimmed(After(kept, later), history, later)
  {
    AfterDropsOld(history, |history| - |kept|, later);
    if Ascending(history) {
      var k := AfterIsSuffix(history, later);
    }
  }

  /** An admission finds the entry `max` places earlier at least one window old. */
  lemma AdmittedIsLate(before: seq<real>, rule: Rule, now: real)
    requires Ascending(before) && Decide(before, rule, now) == Admitted && 1 <= rule.maxRequests <= |before|
    ensures before[|before| - rule.maxRequests] + rule.windowSeconds as real <= now
  {
    var k := AfterIsSuffix(before, now - rule.windowSeconds as real);
  }

  /** Among admitted requests the (i + max)-th comes at least one window after the i-th. */
  lemma {:induction false} ProducedIsSpaced(history: seq<real>, rule: Rule)
    requires Produced(history, rule)
    ensures Ascending(history)
    ensures history != [] ==> rule.maxRequests >= 1
    ensures rule.maxRequests >= 1 ==> Spaced(history, rule.maxRequests, rule.windowSeconds as real)
  {
    ProducedAscends(history, rule);
    if history != [] {
      var before, last := history[..|history| - 1], history[|history| - 1];
      ProducedIsSpaced(before, rule);
      if rule.maxRequests <= |before| {
        AdmittedIsLate(before, rule, last);
      }
      SpacedExtends(before, rule.maxRequests, rule.windowSeconds as real, last);
      assert history == before + [last];
    }
  }

  /** Main result: any half-open stretch of time as long as the window holds at most max admissions. */
  lemma AtMostMaxPerWindow(history: seq<real>, rule: Rule, from: real)
    requires Produced(history, rule)
    ensures CountIn(history, from, from + rule.windowSeconds as real) <= Max(0, rule.maxRequests)
  {
    ProducedIsSpaced(history, rule);
    if history != [] {
      SpacedBoundsWindows(history, rule.maxRequests, rule.windowSeconds as real, from);
    }
  }

  lemma WindowNeverOverflows(history: seq<real>, n: nat, w: real, now: real)
    requires Ascending(history) && Spaced(history, n, w) && NotAfter(history, now)
    ensures |After(history, now - w)| <= n
  {
    var k := AfterIsSuffix(history, now - w);
    forall i | 0 <= i < |history| - n ensures history[i] <= now - w {
      assert history[i] + w <= history[i + n];
    }
    assert k < |history| ==> history[k] > now - w;
  }

  lemma RecentBounded(history: seq<real>, rule: Rule, now: real)
    requires Produced(history, rule) && NotAfter(history, now)
    ensures Ascending(history)
    ensures |After(history, now - rule.windowSeconds as real)| <= Max(0, rule.maxRequests)
  {
    ProducedIsSpaced(history, rule);
    if rule.maxRequests >= 1 {
      WindowNeverOverflows(history, rule.maxRequests, rule.windowSeconds as real, now);
    }
  }

  /** The window never overflows, so a request is denied exactly when it is full; and it fails with
      IndexError exactly when the rule allows no requests at all. */
  lemma DeniedExactlyWhenFull(history: seq<real>, rule: Rule, now: real)
    requires Produced(history, rule) && NotAfter(history, now)
    ensures var full := |After(history, now - rule.windowSeconds as real)| == rule.maxRequests;
            && (Decide(history, rule, now) == IndexError <==> rule.maxRequests <= 0)
            && (Decide(history, rule, now).Denied? <==> rule.maxRequests >= 1 && full)
  {
    RecentBounded(history, rule, now);
  }

  /** The window loses its oldest entry exactly when that is a full window old. */
  lemma WindowMoves(history: seq<real>, w: real, now: real, later: real)
    requires Ascending(history) && now <= later && After(history, now - w) != []
    ensures After(history, now - w)[0] > now - w
    ensures later < After(history, now - w)[0] + w ==> After(history, later - w) == After(history, now - w)
    ensures later >= After(history, now - w)[0] + w ==> |After(history, later - w)| < |After(history, now - w)|
  {
    var k := AfterIsSuffix(history, now - w);
    var k' := AfterIsSuffix(history, later - w);
    assert history[k] == After(history, now - w)[0];
    assert k' < |history| ==> history[k'] > later - w;
    assert later < history[k] + w ==> k' == k;
    assert later >= history[k] + w ==> k' > k;
  }

  /** Retry-After is sound and tight. If nothing is admitted meanwhile, a request at time t is admitted
      exactly from `oldest + window` on; the header exceeds that wait by more than zero and at most one
      second; and `max(1, ...)` changes nothing. */
  lemma RetryAfterTight(history: seq<real>, rule: Rule, now: real, later: real)
    requires Produced(history, rule) && NotAfter(history, now)
    requires Decide(history, rule, now).Denied? && now <= later
    ensures var retryAfter := Decide(history, rule, now).retryAfter;
            var free := After(history, now - rule.windowSeconds as real)[0] + rule.windowSeconds as real;
            && now < free
            && free - now < retryAfter as real <= free - now + 1.0
            && retryAfter == Truncate(free - now) + 1
            && (later >= free ==> Decide(history, rule, later) == Admitted)
            && (later < free ==> Decide(history, rule, later).Denied?)
  {
    var w := rule.windowSeconds as real;
    RecentBounded(history, rule, now);
    WindowMoves(history, w, now, later);
  }

  /** One request on one key: the decision on the kept list, and what is kept afterwards. */
  function Handle(kept: seq<real>, rule: Rule, now: real): (Decision, seq<real>) {
    var recent := After(kept, now - rule.windowSeconds as real);
    var decision := DecideOn(recent, rule, now);
    (decision, if decision == Admitted then recent + [now] else recent)
  }

  function Recorded(history: seq<real>, decision: Decision, now: real): seq<real> {
    if decision == Admitted then history + [now] else history
  }

  /** How far back a rule looks. A window that is not positive holds nothing, however short. */
  function Reach(rule: Rule): real {
    Max(0, rule.windowSeconds) as real
  }

  /** The kept list stands for this history, for rules of this reach. */
  ghost predicate Kept(kept: seq<real>, history: seq<real>, reach: real, clock: real) {
    && Ascending(history) && NotAfter(history, clock)
    && Trimmed(kept, history, clock - reach)
  }

  lemma NoneLater(h: seq<real>, clock: real)
    requires Ascending(h) && NotAfter(h, clock)
    ensures forall i :: 0 <= i < |h| ==> h[i] <= clock
  {
  }

  lemma AfterNothing(h: seq<real>, now: real, cutoff: real)
    requires Ascending(h) && NotAfter(h, now) && now <= cutoff
    ensures After(h, cutoff) == []
  {
    NoneLater(h, now);
    var _ := AfterIsSuffix(h, cutoff);
  }

  /** Only the reach of a rule matters for what it counts. */
  lemma ReachCounts(h: seq<real>, rule: Rule, now: real)
    requires Ascending(h) && NotAfter(h, now)
    ensures After(h, now - rule.windowSeconds as real) == After(h, now - Reach(rule))
  {
    if rule.windowSeconds < 0 {
      AfterNothing(h, now, now - rule.windowSeconds as real);
      AfterNothing(h, now, now - Reach(rule));
    }
  }

  lemma KeptAscends(kept: seq<real>, history: seq<real>, reach: real, clock: real)
    requires Kept(kept, history, reach, clock)
    ensures Ascending(kept) && NotAfter(kept, clock)
  {
    assert forall i :: 0 <= i < |kept| ==> kept[i] == history[|history| - |kept| + i];
  }

  /** Cleaning the kept list gives what the full history would give. */
  lemma CleaningIsFaithful(kept: seq<real>, history: seq<real>, rule: Rule, now: real)
    requires Kept(kept, history, Reach(rule), now)
    ensures var recent := After(kept, now - rule.windowSeconds as real);
            && Kept(recent, history, Reach(rule), now)
            && Decide(history, rule, now) == DecideOn(recent, rule, now)
  {
    KeptAscends(kept, history, Reach(rule), now);
    ReachCounts(kept, rule, now);
    ReachCounts(history, rule, now);
    TrimmedDecidesAlike(kept, history, now - Reach(rule), now - Reach(rule));
  }

  lemma AdmittingIsFaithful(kept: seq<real>, history: seq<real>, reach: real, now: real)
    requires Kept(kept, history, reach, now)
    ensures Kept(kept + [now], history + [now], reach, now)
  {
  }

  /** A kept list that stands for its history decides as the history would, and goes on standing for it. */
  lemma HandlingIsFaithful(kept: seq<real>, history: seq<real>, rule: Rule, now: real)
    requires Kept(kept, history, Reach(rule), now)
    ensures var (decision, kept') := Handle(kept, rule, now);
            decision == Decide(history, rule, now) && Kept(kept', Recorded(history, decision, now), Reach(rule), now)
  {
    var recent := After(kept, now - rule.windowSeconds as real);
    CleaningIsFaithful(kept, history, rule, now);
    AdmittingIsFaithful(recent, history, Reach(rule), now);
    assert Handle(kept, rule, now).0 == Decide(history, rule, now);
  }

  lemma KeptLater(kept: seq<real>, history: seq<real>, reach: real, clock: real, later: real)
    requires Kept(kept, history, reach, clock) && clock <= later
    ensures Kept(kept, history, reach, later)
  {
  }
}

/** Login lockout (src/api/auth.py:57-114, 292-315) in its two forms: the in-memory record, which
    locks from the last failure, and the Redis counter, whose time to live starts at the first.

    A login is one step. The user store's answer is the parameter `verified`. Time to live is exact. */
module Lockout {
  import opened Prelude
  import opened TimeWindows

  datatype Config = Config(maxAttempts: int, lockout: real)

  datatype Outcome = Blocked | Rejected | Succeeded

  datatype Attempt = Attempt(now: real, verified: bool)

  /** With a limit below one the first failure is still let through. */
  function Cap(config: Config): nat {
    if config.maxAttempts < 1 then 1 else config.maxAttempts
  }

  /** (count, last_fail); a missing entry reads as (0, 0.0). */
  datatype Record = Record(count: nat, last: real)

  const NO_RECORD := Record(0, 0.0)

  /** `failures` are the failed verifications since the last success. */
  datatype Memory = Memory(record: Record, failures: seq<real>)

  function MemoryLogin(config: Config, m: Memory, a: Attempt): (Outcome, Memory) {
    if m.record.count >= config.maxAttempts && a.now - m.record.last < config.lockout then (Blocked, m)
    else if a.verified then (Succeeded, Memory(NO_RECORD, []))
    else
      var count := if m.record.count >= config.maxAttempts then 0 else m.record.count;
      (Rejected, Memory(Record(count + 1, a.now), m.failures + [a.now]))
  }

  function MemoryAfter(config: Config, attempts: seq<Attempt>): Memory {
    if attempts == [] then Memory(NO_RECORD, [])
    else MemoryLogin(config, MemoryAfter(config, attempts[..|attempts| - 1]), attempts[|attempts| - 1]).1
  }

  /** The counter of the Redis key; it exists until `expires`. */
  datatype Counter = Counter(count: nat, expires: real)

  datatype Shared = Shared(key: Option<Counter>, failures: seq<real>)

  function LiveCount(key: Option<Counter>, now: real): nat {
    match key
    case Some(c) => if now < c.expires then c.count else 0
    case None => 0
  }

  function SharedLogin(config: Config, s: Shared, a: Attempt): (Outcome, Shared) {
    var count := LiveCount(s.key, a.now);
    if count > 0 && count >= config.maxAttempts then (Blocked, s)
    else if a.verified then (Succeeded, Shared(None, []))
    else
      var key := if count > 0 then Counter(count + 1, s.key.value.expires) else Counter(1, a.now + config.lockout);
      (Rejected, Shared(Some(key), s.failures + [a.now]))
  }

  function SharedAfter(config: Config, attempts: seq<Attempt>): Shared {
    if attempts == [] then Shared(None, [])
    else SharedLogin(config, SharedAfter(config, attempts[..|attempts| - 1]), attempts[|attempts| - 1]).1
  }

  /** The clock does not go backwards. */
  predicate InTimeOrder(attempts: seq<Attempt>) {
    forall i, j :: 0 <= i < j < |attempts| ==> attempts[i].now <= attempts[j].now
  }

  predicate UpTo(failures: seq<real>, now: real) {
    Ascending(failures) && (failures != [] ==> failures[|failures| - 1] <= now)
  }

  /** The last `count` failures form the current block, which began a full lockout after the block before. */
  ghost predicate MemoryInv(config: Config, m: Memory, now: real) {
    var n, c := |m.failures|, m.record.count;
    && UpTo(m.failures, now)
    && c <= Cap(config) && c <= n && (c == 0 <==> n == 0)
    && (n > 0 ==> m.failures[n - 1] == m.record.last)
    && (0 < c < n ==> m.failures[n - c - 1] + config.lockout <= m.failures[n - c])
    && Spaced(m.failures, Cap(config), config.lockout)
  }

  /** The new failure against the one `cap` places before it: they are in different blocks. */
  lemma MemoryFailureSpaced(config: Config, m: Memory, before: real, a: Attempt)
    requires MemoryInv(config, m, before) && before <= a.now && MemoryLogin(config, m, a).0 == Rejected
    ensures Ascending(m.failures + [a.now]) && Spaced(m.failures + [a.now], Cap(config), config.lockout)
  {
    var n, c, cap := |m.failures|, m.record.count, Cap(config);
    if n >= cap {
      if c >= config.maxAttempts {
        assert m.failures[n - cap] <= m.failures[n - 1];
      } else {
        assert m.failures[n - cap] <= m.failures[n - c - 1];
        assert m.failures[n - c] <= m.failures[n - 1];
      }
    }
    SpacedExtends(m.failures, cap, config.lockout, a.now);
  }

  lemma MemoryLoginKeeps(config: Config, m: Memory, before: real, a: Attempt)
    requires MemoryInv(config, m, before) && before <= a.now
    ensures MemoryInv(config, MemoryLogin(config, m, a).1, a.now)
  {
    if MemoryLogin(config, m, a).0 == Rejected {
      MemoryFailureSpaced(config, m, before, a);
    }
  }

  lemma {:induction false} MemoryHolds(config: Config, attempts: seq<Attempt>, now: real)
    requires InTimeOrder(attempts) && (attempts != [] ==> attempts[|attempts| - 1].now == now)
    ensures MemoryInv(config, MemoryAfter(config, attempts), now)
  {
    if attempts != [] {
      var front := attempts[..|attempts| - 1];
      var before := if front == [] then now else front[|front| - 1].now;
      MemoryHolds(config, front, before);
      MemoryLoginKeeps(config, MemoryAfter(config, front), before, attempts[|attempts| - 1]);
    }
  }

  /** In-memory bound, for every run: since the last success, any half-open stretch as long as the
      lockout holds at most max_attempts failed verifications. */
  lemma MemoryBound(config: Config, attempts: seq<Attempt>, from: real)
    requires InTimeOrder(attempts)
    ensures CountIn(MemoryAfter(config, attempts).failures, from, from + config.lockout) <= Cap(config)
  {
    MemoryHolds(config, attempts, if attempts == [] then 0.0 else attempts[|attempts| - 1].now);
    SpacedBoundsWindows(MemoryAfter(config, attempts).failures, Cap(config), config.lockout, from);
  }

  /** The last `count` failures fall into the current lifetime of the key, which began with the first
      of them; `previous` counts those of the lifetime before, which was over by then. */
  ghost predicate SharedInv(config: Config, s: Shared, now: real, previous: nat) {
    var f, n := s.failures, |s.failures|;
    && UpTo(f, now)
    && Spaced(f, 2 * Cap(config) - 1, config.lockout)
    && match s.key
       case None => n == 0
       case Some(k) =>
         && 1 <= k.count <= Cap(config) && k.count <= n
         && k.expires == f[n - k.count] + config.lockout
         && (k.count < n ==>
               1 <= previous <= Cap(config) && previous <= n - k.count
               && f[n - k.count - previous] + config.lockout <= f[n - k.count])
  }

  /** A failure recorded in the lifetime that is running. */
  lemma GrownBlock(config: Config, f: seq<real>, k: Counter, now: real, previous: nat)
    requires SharedInv(config, Shared(Some(k), f), now, previous) && k.count < Cap(config)
    requires Ascending(f + [now]) && Spaced(f + [now], 2 * Cap(config) - 1, config.lockout)
    ensures SharedInv(config, Shared(Some(Counter(k.count + 1, k.expires)), f + [now]), now, previous)
  {
    var f', n, c := f + [now], |f|, k.count;
    assert f'[n] == now && f'[n - c] == f[n - c];
    if c < n {
      assert f'[n - c - previous] == f[n - c - previous];
    }
  }

  /** And one that begins a lifetime. */
  lemma BegunBlock(config: Config, s: Shared, now: real, previous: nat)
    requires SharedInv(config, s, now, previous) && (s.key.Some? ==> s.key.value.expires <= now)
    requires Ascending(s.failures + [now]) && Spaced(s.failures + [now], 2 * Cap(config) - 1, config.lockout)
    ensures SharedInv(config, Shared(Some(Counter(1, now + config.lockout)), s.failures + [now]), now,
                      if s.key.Some? then s.key.value.count else previous)
  {
    var f', n := s.failures + [now], |s.failures|;
    assert f'[n] == now;
    if s.key.Some? {
      var c := s.key.value.count;
      assert f'[n - c] == s.failures[n - c];
    }
  }

  /** The new failure against the one 2 * cap - 1 places before it: that one belongs to the lifetime
      before the current one, or to an earlier one. */
  lemma SharedFailureSpaced(config: Config, s: Shared, before: real, previous: nat, a: Attempt)
    requires SharedInv(config, s, before, previous) && before <= a.now && SharedLogin(config, s, a).0 == Rejected
    ensures Ascending(s.failures + [a.now]) && Spaced(s.failures + [a.now], 2 * Cap(config) - 1, config.lockout)
  {
    var f, n, wide := s.failures, |s.failures|, 2 * Cap(config) - 1;
    if s.key.Some? && n >= wide {
      var c := s.key.value.count;
      if LiveCount(s.key, a.now) > 0 {
        assert f[n - wide] <= f[n - c - previous];
        assert f[n - c] <= f[n - 1];
      } else {
        assert f[n - wide] <= f[n - c];
      }
    }
    SpacedExtends(f, wide, config.lockout, a.now);
  }

  lemma SharedInvLater(config: Config, s: Shared, before: real, now: real, previous: nat)
    requires SharedInv(config, s, before, previous) && before <= now
    ensures SharedInv(config, s, now, previous)
  {
  }

  lemma SharedLoginKeeps(config: Config, s: Shared, before: real, previous: nat, a: Attempt) returns (previous': nat)
    requires SharedInv(config, s, before, previous) && before <= a.now
    ensures SharedInv(config, SharedLogin(config, s, a).1, a.now, previous')
  {
    previous' := if s.key.Some? && LiveCount(s.key, a.now) == 0 then s.key.value.count else previous;
    SharedInvLater(config, s, before, a.now, previous);
    if SharedLogin(config, s, a).0 == Rejected {
      SharedFailureSpaced(config, s, before, previous, a);
      if LiveCount(s.key, a.now) > 0 {
        GrownBlock(config, s.failures, s.key.value, a.now, previous);
      } else {
        BegunBlock(config, s, a.now, previous);
      }
    }
  }

  lemma {:induction false} SharedHolds(config: Config, attempts: seq<Attempt>, now: real) returns (previous: nat)
    requires InTimeOrder(attempts) && (attempts != [] ==> attempts[|attempts| - 1].now == now)
    ensures SharedInv(config, SharedAfter(config, attempts), now, previous)
  {
    previous := 0;
    if attempts != [] {
      var front := attempts[..|attempts| - 1];
      var before := if front == [] then now else front[|front| - 1].now;
      var p := SharedHolds(config, front, before);
      previous := SharedLoginKeeps(config, SharedAfter(config, front), before, p, attempts[|attempts| - 1]);
    }
  }

  /** Redis bound, for every run: any half-open stretch as long as the lockout holds at most
      2 * max_attempts - 1 failed verifications. */
  lemma SharedBound(config: Config, attempts: seq<Attempt>, from: real)
    requires InTimeOrder(attempts)
    ensures CountIn(SharedAfter(config, attempts).failures, from, from + config.lockout) <= 2 * Cap(config) - 1
  {
    var _ := SharedHolds(config, attempts, if attempts == [] then 0.0 else attempts[|attempts| - 1].now);
    SpacedBoundsWindows(SharedAfter(config, attempts).failures, 2 * Cap(config) - 1, config.lockout, from);
  }

  /** When the key expires once a failure at this moment has been recorded. */
  function Expiry(config: Config, key: Option<Counter>, now: real): real {
    if LiveCount(key, now) > 0 then key.value.expires else now + config.lockout
  }

  function Times(now: real, n: nat): seq<real> {
    seq(n, _ => now)
  }

  function Wrong(now: real, n: nat): seq<Attempt> {
    seq(n, _ => Attempt(now, false))
  }

  lemma SharedAfterOneMore(config: Config, attempts: seq<Attempt>, a: Attempt)
    ensures SharedAfter(config, attempts + [a]) == SharedLogin(config, SharedAfter(config, attempts), a).1
  {
    assert (attempts + [a])[..|attempts|] == attempts;
  }

  /** From s to s' exactly n failures were recorded, all of them now. */
  ghost predicate Burst(config: Config, s: Shared, s': Shared, now: real, n: nat) {
    && s'.failures == s.failures + Times(now, n)
    && LiveCount(s'.key, now) == LiveCount(s.key, now) + n
    && (if n == 0 then s'.key == s.key else s'.key.Some? && s'.key.value.expires == Expiry(config, s.key, now))
  }

  lemma BurstGrows(config: Config, s: Shared, s': Shared, now: real, n: nat)
    requires Burst(config, s, s', now, n) && LiveCount(s.key, now) + n < config.maxAttempts && config.lockout > 0.0
    ensures Burst(config, s, SharedLogin(config, s', Attempt(now, false)).1, now, n + 1)
  {
    assert Times(now, n + 1) == Times(now, n) + [now];
  }

  /** Wrong passwords at one moment all count as failures until the limit is reached. */
  lemma {:induction false} BurstFails(config: Config, before: seq<Attempt>, now: real, n: nat)
    requires LiveCount(SharedAfter(config, before).key, now) + n <= config.maxAttempts && config.lockout > 0.0
    ensures Burst(config, SharedAfter(config, before), SharedAfter(config, before + Wrong(now, n)), now, n)
  {
    if n == 0 {
      assert before + Wrong(now, 0) == before;
    } else {
      var almost := before + Wrong(now, n - 1);
      BurstFails(config, before, now, n - 1);
      BurstGrows(config, SharedAfter(config, before), SharedAfter(config, almost), now, n - 1);
      SharedAfterOneMore(config, almost, Attempt(now, false));
      assert before + Wrong(now, n) == almost + [Attempt(now, false)];
    }
  }

  lemma {:induction false} BurstCounts(now: real, n: nat, a: real, b: real)
    requires a <= now < b
    ensures CountIn(Times(now, n), a, b) == n
  {
    if n > 0 {
      assert Times(now, n)[1..] == Times(now, n - 1);
      BurstCounts(now, n - 1, a, b);
    }
  }

  /** One failure, max - 1 more halfway through the lifetime of the key, and max more the moment it has
      expired. */
  function Reaching(m: nat, w: real): seq<Attempt>
    requires m > 0
  {
    Wrong(0.0, 1) + Wrong(w / 2.0, m - 1) + Wrong(w, m)
  }

  lemma ReachingInOrder(m: nat, w: real)
    requires m > 0 && w > 0.0
    ensures InTimeOrder(Reaching(m, w))
  {
    var attempts := Reaching(m, w);
    assert forall i :: 0 <= i < |attempts| ==> attempts[i].now == if i == 0 then 0.0 else if i < m then w / 2.0 else w;
  }

  lemma ReachingFailures(config: Config)
    requires config.maxAttempts >= 1 && config.lockout > 0.0
    ensures var m, w := config.maxAttempts, config.lockout;
            SharedAfter(config, Reaching(m, w)).failures == Times(0.0, 1) + Times(w / 2.0, m - 1) + Times(w, m)
  {
    var m, w := config.maxAttempts, config.lockout;
    BurstFails(config, [], 0.0, 1);
    assert [] + Wrong(0.0, 1) == Wrong(0.0, 1);
    assert [] + Times(0.0, 1) == Times(0.0, 1);
    BurstFails(config, Wrong(0.0, 1), w / 2.0, m - 1);
    BurstFails(config, Wrong(0.0, 1) + Wrong(w / 2.0, m - 1), w, m);
  }

  /** The Redis bound is reached. */
  lemma SharedBoundIsReached(config: Config) returns (attempts: seq<Attempt>, from: real)
    requires config.maxAttempts >= 1 && config.lockout > 0.0
    ensures InTimeOrder(attempts)
    ensures CountIn(SharedAfter(config, attempts).failures, from, from + config.lockout) == 2 * config.maxAttempts - 1
  {
    var m, w := config.maxAttempts, config.lockout;
    attempts, from := Reaching(m, w), w / 2.0;
    ReachingInOrder(m, w);
    ReachingFailures(config);
    var s, t, u := Times(0.0, 1), Times(from, m - 1), Times(w, m);
    CountInConcat(s + t, u, from, from + w);
    CountInConcat(s, t, from, from + w);
    CountInNone(s, from, from + w);
    BurstCounts(from, m - 1, from, from + w);
    BurstCounts(w, m, from, from + w);
  }

  /** What the attempts of a user were answered, one after the other. */
  function SharedOutcomes(config: Config, attempts: seq<Attempt>): (outcomes: seq<Outcome>)
    ensures |outcomes| == |attempts|
  {
    if attempts == [] then []
    else
      var n := |attempts| - 1;
      SharedOutcomes(config, attempts[..n]) + [SharedLogin(config, SharedAfter(config, attempts[..n]), attempts[n]).0]
  }

  function MemoryOutcomes(config: Config, attempts: seq<Attempt>): (outcomes: seq<Outcome>)
    ensures |outcomes| == |attempts|
  {
    if attempts == [] then []
    else
      var n := |attempts| - 1;
      MemoryOutcomes(config, attempts[..n]) + [MemoryLogin(config, MemoryAfter(config, attempts[..n]), attempts[n]).0]
  }

  /** Attempt i is a recorded failure, and no success came between it and attempt n. */
  predicate Stands(outcomes: seq<Outcome>, i: nat, n: nat) {
    i < n <= |outcomes| && outcomes[i] == Rejected && forall j :: i < j < n ==> outcomes[j] != Succeeded
  }

  /** The lifetime that a failure at attempt i would begin is still running at attempt n. */
  predicate Running(config: Config, attempts: seq<Attempt>, i: nat, n: nat)
    requires i < |attempts| && n < |attempts|
  {
    attempts[n].now < attempts[i].now + config.lockout
  }

  /** Attempt i is a failure that begins a lifetime: none that an earlier failure began, and no success ended,
      is still running. */
  predicate Begins(config: Config, attempts: seq<Attempt>, outcomes: seq<Outcome>, i: nat)
    requires |outcomes| <= |attempts|
    decreases i, 0
  {
    && i < |outcomes| && outcomes[i] == Rejected
    && forall b: nat :: b < i ==> !Covers(config, attempts, outcomes, b, i)
  }

  /** The lifetime that attempt b began covers attempt n. */
  predicate Covers(config: Config, attempts: seq<Attempt>, outcomes: seq<Outcome>, b: nat, n: nat)
    requires |outcomes| <= |attempts| && n < |attempts|
    decreases b, 1
  {
    && Stands(outcomes, b, n) && Running(config, attempts, b, n)
    && Begins(config, attempts, outcomes, b)
  }

  /** The failures among the attempts from b to before n. */
  function FailuresIn(outcomes: seq<Outcome>, b: nat, n: nat): nat
    requires b <= n <= |outcomes|
  {
    Count(outcomes[b..n], Rejected)
  }

  /** The counter in the key, in terms of the attempts: the lifetime that attempt b began is the last one. */
  ghost predicate Counts(config: Config, attempts: seq<Attempt>, outcomes: seq<Outcome>, key: Option<Counter>, b: nat,
                         n: nat)
    requires |outcomes| == |attempts| && n <= |attempts|
  {
    match key
    case None => forall i: nat :: !Stands(outcomes, i, n)
    case Some(c) =>
      && Begins(config, attempts, outcomes, b) && Stands(outcomes, b, n)
      && c.expires == attempts[b].now + config.lockout && c.count == FailuresIn(outcomes, b, n) > 0
      && forall i: nat :: b < i < n ==> !Begins(config, attempts, outcomes, i)
  }

  /** A lifetime that was over when a later one began stays over. */
  lemma EarlierOver(config: Config, attempts: seq<Attempt>, outcomes: seq<Outcome>, i: nat, b: nat, n: nat)
    requires |outcomes| == |attempts| && i < b < n < |attempts| && InTimeOrder(attempts)
    requires Begins(config, attempts, outcomes, b)
    ensures !Covers(config, attempts, outcomes, i, n)
  {
    if Stands(outcomes, i, n) && Begins(config, attempts, outcomes, i) {
      assert Stands(outcomes, i, b);
      assert !Covers(config, attempts, outcomes, i, b);
    }
  }

  /** So a lifetime covers the next attempt exactly if it is the last one and still running. */
  lemma LastCovers(config: Config, attempts: seq<Attempt>, outcomes: seq<Outcome>, key: Option<Counter>, b: nat,
                   n: nat, i: nat)
    requires |outcomes| == |attempts| && n < |attempts| && InTimeOrder(attempts)
    requires Counts(config, attempts, outcomes, key, b, n)
    ensures Covers(config, attempts, outcomes, i, n) <==> LiveCount(key, attempts[n].now) > 0 && i == b
  {
    if key.Some? && i < b {
      EarlierOver(config, attempts, outcomes, i, b, n);
    }
  }

  lemma OneMoreFailure(outcomes: seq<Outcome>, b: nat, n: nat)
    requires b <= n < |outcomes|
    ensures FailuresIn(outcomes, b, n + 1) == FailuresIn(outcomes, b, n) + (if outcomes[n] == Rejected then 1 else 0)
  {
    assert outcomes[b..n + 1] == outcomes[b..n] + [outcomes[n]];
    CountAppend(outcomes[b..n], outcomes[n], Rejected);
  }

  lemma FailureCounts(config: Config, attempts: seq<Attempt>, outcomes: seq<Outcome>, c: Counter, b: nat, n: nat)
    requires |outcomes| == |attempts| && n < |attempts| && InTimeOrder(attempts)
    requires Counts(config, attempts, outcomes, Some(c), b, n)
    requires outcomes[n] == Rejected && attempts[n].now < c.expires
    ensures Counts(config, attempts, outcomes, Some(Counter(c.count + 1, c.expires)), b, n + 1)
  {
    assert Covers(config, attempts, outcomes, b, n);
    assert !Begins(config, attempts, outcomes, n);
    OneMoreFailure(outcomes, b, n);
  }

  lemma FailureStarts(config: Config, attempts: seq<Attempt>, outcomes: seq<Outcome>, key: Option<Counter>, b: nat,
                      n: nat)
    requires |outcomes| == |attempts| && n < |attempts| && InTimeOrder(attempts)
    requires Counts(config, attempts, outcomes, key, b, n)
    requires outcomes[n] == Rejected && LiveCount(key, attempts[n].now) == 0
    ensures Counts(config, attempts, outcomes, Some(Counter(1, attempts[n].now + config.lockout)), n, n + 1)
  {
    forall i: nat | i < n ensures !Covers(config, attempts, outcomes, i, n) {
      LastCovers(config, attempts, outcomes, key, b, n, i);
    }
    assert Begins(config, attempts, outcomes, n);
    assert outcomes[n..n] == [];
    OneMoreFailure(outcomes, n, n);
  }

  lemma BlockedCounts(config: Config, attempts: seq<Attempt>, outcomes: seq<Outcome>, key: Option<Counter>, b: nat,
                      n: nat)
    requires |outcomes| == |attempts| && n < |attempts|
    requires Counts(config, attempts, outcomes, key, b, n) && outcomes[n] == Blocked
    ensures Counts(config, attempts, outcomes, key, b, n + 1)
  {
    if key.Some? {
      OneMoreFailure(outcomes, b, n);
      assert !Begins(config, attempts, outcomes, n);
    } else {
      var next := n + 1;
      forall i: nat ensures !Stands(outcomes, i, next) {
        assert !Stands(outcomes, i, n);
      }
    }
  }

  /** One more attempt. */
  lemma CountsNext(config: Config, attempts: seq<Attempt>, outcomes: seq<Outcome>, s: Shared, b: nat, n: nat)
    returns (b': nat)
    requires |outcomes| == |attempts| && n < |attempts| && InTimeOrder(attempts)
    requires Counts(config, attempts, outcomes, s.key, b, n)
    requires outcomes[n] == SharedLogin(config, s, attempts[n]).0
    ensures Counts(config, attempts, outcomes, SharedLogin(config, s, attempts[n]).1.key, b', n + 1)
  {
    b' := b;
    match outcomes[n]
    case Blocked => BlockedCounts(config, attempts, outcomes, s.key, b, n);
    case Succeeded =>
    case Rejected =>
      if LiveCount(s.key, attempts[n].now) > 0 {
        FailureCounts(config, attempts, outcomes, s.key.value, b, n);
      } else {
        b' := n;
        FailureStarts(config, attempts, outcomes, s.key, b, n);
      }
  }

  lemma {:induction false} SharedOutcomeAt(config: Config, attempts: seq<Attempt>, n: nat)
    requires n < |attempts|
    ensures SharedOutcomes(config, attempts)[n] ==
            SharedLogin(config, SharedAfter(config, attempts[..n]), attempts[n]).0
  {
    var m := |attempts| - 1;
    if n < m {
      SharedOutcomeAt(config, attempts[..m], n);
      assert attempts[..m][..n] == attempts[..n];
    }
  }

  lemma {:induction false} SharedCounts(config: Config, attempts: seq<Attempt>, n: nat) returns (b: nat)
    requires n <= |attempts| && InTimeOrder(attempts)
    ensures Counts(config, attempts, SharedOutcomes(config, attempts), SharedAfter(config, attempts[..n]).key, b, n)
  {
    b := 0;
    if n > 0 {
      var before := SharedCounts(config, attempts, n - 1);
      SharedOutcomeAt(config, attempts, n - 1);
      assert attempts[..n][..n - 1] == attempts[..n - 1];
      var outcomes, s := SharedOutcomes(config, attempts), SharedAfter(config, attempts[..n - 1]);
      b := CountsNext(config, attempts, outcomes, s, before, n - 1);
    }
  }

  /** Main result over Redis, for every run: a login is blocked if and only if a recorded failure began a
      lifetime that is still running, no success came since, and at least max(1, max_attempts) failures fell into
      it. Any other login succeeds or fails with its password. */
  lemma {:induction false} SharedBlockedExactly(config: Config, attempts: seq<Attempt>, n: nat)
    requires InTimeOrder(attempts) && n < |attempts|
    ensures var outcomes := SharedOutcomes(config, attempts);
            && (outcomes[n] == Blocked <==>
                  exists b: nat :: b < n && Covers(config, attempts, outcomes, b, n)
                                   && FailuresIn(outcomes, b, n) >= Cap(config))
            && (outcomes[n] != Blocked ==> (outcomes[n] == Succeeded <==> attempts[n].verified))
  {
    var outcomes, s := SharedOutcomes(config, attempts), SharedAfter(config, attempts[..n]);
    SharedOutcomeAt(config, attempts, n);
    var last := SharedCounts(config, attempts, n);
    forall b: nat
      ensures Covers(config, attempts, outcomes, b, n) <==> LiveCount(s.key, attempts[n].now) > 0 && b == last
    {
      LastCovers(config, attempts, outcomes, s.key, last, n, b);
    }
    if LiveCount(s.key, attempts[n].now) > 0 {
      assert Covers(config, attempts, outcomes, last, n);
    }
  }

  lemma {:induction false} FewerLater(outcomes: seq<Outcome>, i: nat, b: nat, n: nat)
    requires i <= b <= n <= |outcomes|
    ensures FailuresIn(outcomes, b, n) <= FailuresIn(outcomes, i, n)
    decreases n
  {
    if b < n {
      FewerLater(outcomes, i, b, n - 1);
      OneMoreFailure(outcomes, b, n - 1);
      OneMoreFailure(outcomes, i, n - 1);
    } else {
      assert outcomes[b..n] == [];
    }
  }

  /** In particular a success forgives everything: as long as fewer than max(1, max_attempts) failures followed it,
      no login is blocked. */
  lemma {:induction false} SharedForgives(config: Config, attempts: seq<Attempt>, i: nat, n: nat)
    requires InTimeOrder(attempts) && i < n < |attempts|
    requires var outcomes := SharedOutcomes(config, attempts);
             outcomes[i] == Succeeded && FailuresIn(outcomes, i, n) < Cap(config)
    ensures SharedOutcomes(config, attempts)[n] == if attempts[n].verified then Succeeded else Rejected
  {
    var outcomes := SharedOutcomes(config, attempts);
    SharedBlockedExactly(config, attempts, n);
    if outcomes[n] == Blocked {
      var b: nat :| b < n && Covers(config, attempts, outcomes, b, n) && FailuresIn(outcomes, b, n) >= Cap(config);
      assert b > i;
      FewerLater(outcomes, i, b, n);
    }
  }

  /** The failures since the last success, or since the beginning. */
  function FailuresSince(outcomes: seq<Outcome>, n: nat): nat
    requires n <= |outcomes|
  {
    if n == 0 || outcomes[n - 1] == Succeeded then 0
    else FailuresSince(outcomes, n - 1) + (if outcomes[n - 1] == Rejected then 1 else 0)
  }

  /** The last of them. */
  predicate LastFailure(outcomes: seq<Outcome>, i: nat, n: nat) {
    Stands(outcomes, i, n) && forall j :: i < j < n ==> outcomes[j] != Rejected
  }

  /** The record, in terms of the attempts: the count goes from 1 to the limit and begins anew. */
  ghost predicate Records(config: Config, attempts: seq<Attempt>, outcomes: seq<Outcome>, record: Record, n: nat)
    requires |outcomes| == |attempts| && n <= |attempts|
  {
    var f := FailuresSince(outcomes, n);
    if f == 0 then record == NO_RECORD
    else
      && record.count == (f - 1) % Cap(config) + 1
      && exists i: nat :: LastFailure(outcomes, i, n) && record.last == attempts[i].now
  }

  lemma AddMultiple(c: nat, a: nat, k: nat)
    ensures c * (a + k) == c * a + c * k
  {
  }

  lemma {:induction false} NextMultiple(c: nat, a: nat, b: nat)
    requires a < b
    ensures c * a + c <= c * b
    decreases b - a
  {
    AddMultiple(c, b - 1, 1);
    if a < b - 1 {
      NextMultiple(c, a, b - 1);
    }
  }

  lemma Remainder(f: nat, cap: nat, q: nat, r: nat)
    requires cap > 0 && f == cap * q + r && r < cap
    ensures f % cap == r
  {
    var d := f / cap;
    assert f == cap * d + f % cap;
    if q < d {
      NextMultiple(cap, q, d);
    } else if d < q {
      NextMultiple(cap, d, q);
    }
  }

  lemma CountGoesOn(f: nat, cap: nat)
    requires cap > 0
    ensures f > 0 ==> (f % cap == 0 <==> (f - 1) % cap + 1 == cap)
    ensures f > 0 && (f - 1) % cap + 1 < cap ==> f % cap == (f - 1) % cap + 1
  {
    if f > 0 {
      var q, r := (f - 1) / cap, (f - 1) % cap;
      assert f == cap * q + (r + 1);
      if r + 1 == cap {
        assert f == cap * (q + 1);
      }
      Remainder(f, cap, if r + 1 == cap then q + 1 else q, if r + 1 == cap then 0 else r + 1);
    }
  }

  lemma RecordsNext(config: Config, attempts: seq<Attempt>, outcomes: seq<Outcome>, m: Memory, n: nat)
    requires |outcomes| == |attempts| && n < |attempts|
    requires Records(config, attempts, outcomes, m.record, n)
    requires outcomes[n] == MemoryLogin(config, m, attempts[n]).0
    ensures Records(config, attempts, outcomes, MemoryLogin(config, m, attempts[n]).1.record, n + 1)
  {
    var f := FailuresSince(outcomes, n);
    CountGoesOn(f, Cap(config));
    match outcomes[n]
    case Blocked =>
      if f > 0 {
        var i: nat :| LastFailure(outcomes, i, n) && m.record.last == attempts[i].now;
        assert LastFailure(outcomes, i, n + 1);
      }
    case Succeeded =>
    case Rejected => assert LastFailure(outcomes, n, n + 1);
  }

  lemma {:induction false} MemoryOutcomeAt(config: Config, attempts: seq<Attempt>, n: nat)
    requires n < |attempts|
    ensures MemoryOutcomes(config, attempts)[n] ==
            MemoryLogin(config, MemoryAfter(config, attempts[..n]), attempts[n]).0
  {
    var m := |attempts| - 1;
    if n < m {
      MemoryOutcomeAt(config, attempts[..m], n);
      assert attempts[..m][..n] == attempts[..n];
    }
  }

  lemma {:induction false} MemoryRecords(config: Config, attempts: seq<Attempt>, n: nat)
    requires n <= |attempts|
    ensures Records(config, attempts, MemoryOutcomes(config, attempts), MemoryAfter(config, attempts[..n]).record, n)
  {
    if n > 0 {
      MemoryRecords(config, attempts, n - 1);
      MemoryOutcomeAt(config, attempts, n - 1);
      assert attempts[..n][..n - 1] == attempts[..n - 1];
      RecordsNext(config, attempts, MemoryOutcomes(config, attempts), MemoryAfter(config, attempts[..n - 1]), n - 1);
    }
  }

  lemma FullExactly(config: Config, attempts: seq<Attempt>, outcomes: seq<Outcome>, record: Record, n: nat)
    requires |outcomes| == |attempts| && n <= |attempts| && Records(config, attempts, outcomes, record, n)
    ensures var f := FailuresSince(outcomes, n);
            record.count >= config.maxAttempts <==> if f == 0 then config.maxAttempts < 1 else f % Cap(config) == 0
  {
    var f := FailuresSince(outcomes, n);
    CountGoesOn(f, Cap(config));
    if f > 0 && config.maxAttempts < 1 {
      Remainder(f, 1, f, 0);
    }
  }

  lemma RecentExactly(config: Config, attempts: seq<Attempt>, outcomes: seq<Outcome>, record: Record, n: nat)
    requires |outcomes| == |attempts| && n < |attempts| && Records(config, attempts, outcomes, record, n)
    ensures attempts[n].now - record.last < config.lockout <==>
            if FailuresSince(outcomes, n) == 0 then attempts[n].now < config.lockout
            else exists i: nat :: LastFailure(outcomes, i, n) && Running(config, attempts, i, n)
  {
    if FailuresSince(outcomes, n) > 0 {
      var i: nat :| LastFailure(outcomes, i, n) && record.last == attempts[i].now;
      assert forall j: nat :: LastFailure(outcomes, j, n) ==> j == i;
    }
  }

  /** Main result in memory, for every run: a login is blocked if and only if the failures since the last success
      fill one or more blocks of max(1, max_attempts) and the last of them is less than a lockout ago. A limit
      below one also blocks without any failure, as long as the clock itself shows less than a lockout. */
  lemma {:induction false} MemoryBlockedExactly(config: Config, attempts: seq<Attempt>, n: nat)
    requires n < |attempts|
    ensures var outcomes := MemoryOutcomes(config, attempts);
            var f := FailuresSince(outcomes, n);
            && (outcomes[n] == Blocked <==>
                  if f == 0 then config.maxAttempts < 1 && attempts[n].now < config.lockout
                  else
                    && f % Cap(config) == 0
                    && exists i: nat :: LastFailure(outcomes, i, n) && Running(config, attempts, i, n))
            && (outcomes[n] != Blocked ==> (outcomes[n] == Succeeded <==> attempts[n].verified))
  {
    var outcomes, m := MemoryOutcomes(config, attempts), MemoryAfter(config, attempts[..n]);
    MemoryOutcomeAt(config, attempts, n);
    MemoryRecords(config, attempts, n);
    FullExactly(config, attempts, outcomes, m.record, n);
    RecentExactly(config, attempts, outcomes, m.record, n);
  }

  /** In particular a success forgives everything here too. */
  lemma {:induction false} MemoryForgives(config: Config, attempts: seq<Attempt>, n: nat)
    requires n < |attempts| && (config.maxAttempts >= 1 || attempts[n].now >= config.lockout)
    requires FailuresSince(MemoryOutcomes(config, attempts), n) < Cap(config)
    ensures MemoryOutcomes(config, attempts)[n] == if attempts[n].verified then Succeeded else Rejected
  {
    var f := FailuresSince(MemoryOutcomes(config, attempts), n);
    MemoryBlockedExactly(config, attempts, n);
    if f > 0 {
      Remainder(f, Cap(config), 0, f);
    }
  }

  /** The login functions of src/api/auth.py without Redis. */
  class InMemoryLockout {
    const config: Config
    var attempts: map<string, Record>
    ghost var failures: map<string, seq<real>>

    ghost function Model(user: string): Memory
      reads this
    {
      Memory(if user in attempts then attempts[user] else NO_RECORD, if user in failures then failures[user] else [])
    }

    constructor (config: Config)
      ensures forall user :: Model(user) == Memory(NO_RECORD, [])
    {
      this.config := config;
      attempts, failures := map[], map[];
    }

    /** `_check_login_lockout`: raises 429, or clears a record whose lock has run out. */
    method Check(user: string, now: real) returns (locked: bool)
      modifies this`attempts
      ensures var record := old(Model(user)).record;
              var full := record.count >= config.maxAttempts;
              && (locked <==> full && now - record.last < config.lockout)
              && attempts == if full && !locked then old(attempts)[user := NO_RECORD] else old(attempts)
    {
      var record := if user in attempts then attempts[user] else NO_RECORD;
      locked := false;
      if record.count >= config.maxAttempts {
        if now - record.last < config.lockout {
          return true;
        }
        attempts := attempts[user := NO_RECORD];
      }
    }

    method RecordFailure(user: string, now: real)
      modifies this
      ensures attempts == old(attempts)[user := Record(old(Model(user)).record.count + 1, now)]
      ensures failures == old(failures)[user := old(Model(user)).failures + [now]]
    {
      failures := failures[user := Model(user).failures + [now]];
      var record := if user in attempts then attempts[user] else NO_RECORD;
      attempts := attempts[user := Record(record.count + 1, now)];
    }

    method Clear(user: string)
      modifies this
      ensures attempts == old(attempts) - {user} && failures == old(failures) - {user}
    {
      attempts, failures := attempts - {user}, failures - {user};
    }

    method Login(user: string, now: real, verified: bool) returns (outcome: Outcome)
      modifies this
      ensures (outcome, Model(user)) == MemoryLogin(config, old(Model(user)), Attempt(now, verified))
      ensures forall other :: other != user ==> Model(other) == old(Model(other))
    {
      var locked := Check(user, now);
      if locked {
        return Blocked;
      }
      if !verified {
        RecordFailure(user, now);
        return Rejected;
      }
      Clear(user);
      outcome := Succeeded;
    }
  }

  /** The same functions over Redis. A key that has expired is as good as none. */
  class RedisLockout {
    const config: Config
    var keys: map<string, Counter>
    ghost var failures: map<string, seq<real>>

    ghost function Model(user: string): Shared
      reads this
    {
      Shared(if user in keys then Some(keys[user]) else None, if user in failures then failures[user] else [])
    }

    constructor (config: Config)
      ensures forall user :: Model(user) == Shared(None, [])
    {
      this.config := config;
      keys, failures := map[], map[];
    }

    ghost predicate Valid()
      reads this
    {
      forall user :: user in keys ==> keys[user].count > 0
    }

    /** GET and TTL. */
    method Check(user: string, now: real) returns (locked: bool)
      requires Valid()
      ensures var count := LiveCount(Model(user).key, now);
              locked <==> count > 0 && count >= config.maxAttempts
    {
      locked := false;
      if user in keys && now < keys[user].expires {
        var count := keys[user].count;
        if count >= config.maxAttempts {
          var ttl := keys[user].expires - now;
          locked := ttl > 0.0;
        }
      }
    }

    /** INCR, and EXPIRE when the counter is new. */
    method RecordFailure(user: string, now: real)
      requires Valid()
      modifies this
      ensures var count := LiveCount(old(Model(user)).key, now);
              var expires := if count == 0 then now + config.lockout else old(keys)[user].expires;
              keys == old(keys)[user := Counter(count + 1, expires)]
      ensures failures == old(failures)[user := old(Model(user)).failures + [now]]
    {
      failures := failures[user := Model(user).failures + [now]];
      var current := if user in keys && now < keys[user].expires then keys[user] else Counter(0, now);
      var count := current.count + 1;
      var expires := current.expires;
      if count == 1 {
        expires := now + config.lockout;
      }
      keys := keys[user := Counter(count, expires)];
    }

    method Clear(user: string)
      modifies this
      ensures keys == old(keys) - {user} && failures == old(failures) - {user}
    {
      keys, failures := keys - {user}, failures - {user};
    }

    method Login(user: string, now: real, verified: bool) returns (outcome: Outcome)
      requires Valid()
      modifies this
      ensures Valid()
      ensures (outcome, Model(user)) == SharedLogin(config, old(Model(user)), Attempt(now, verified))
      ensures forall other :: other != user ==> Model(other) == old(Model(other))
    {
      var locked := Check(user, now);
      if locked {
        return Blocked;
      }
      if !verified {
        RecordFailure(user, now);
        return Rejected;
      }
      Clear(user);
      outcome := Succeeded;
    }
  }
}

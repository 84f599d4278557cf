/** The rate limiter itself (src/api/rate_limit.py:39-99): the kept lists of all keys, and exactly when they
    decide as the full histories would. */
module RateLimiter {
  import opened Prelude
  import opened RateKeys
  import opened RateLimit
  import opened TimeWindows

  /** Two rules on one key do not disturb each other: they look equally far back, or neither admits anything. */
  predicate Compatible(r: Rule, s: Rule) {
    Reach(r) == Reach(s) || (r.maxRequests <= 0 && s.maxRequests <= 0)
  }

  const COMPATIBLE: (Rule, Rule) -> bool := (r, s) => Compatible(r, s)

  /** The rules that meet on this key do not disturb each other. */
  ghost predicate Undisturbed(rules: seq<PathRule>, default: Rule, key: string) {
    Meet(rules, default, key, COMPATIBLE)
  }

  /** The kept list of a key stands for its history, under every rule that meets there; and while rules of
      different reach meet there, nothing was ever admitted. */
  ghost predicate KeyGood(rules: seq<PathRule>, default: Rule, key: string, kept: seq<real>, history: seq<real>,
                          clock: real)
  {
    && (forall q :: On(rules, q, key) ==> Kept(kept, history, Reach(RuleOf(rules, default, q)), clock))
    && (forall q, r :: On(rules, q, key) && On(rules, r, key) ==>
          Reach(RuleOf(rules, default, q)) == Reach(RuleOf(rules, default, r)) || history == [])
  }

  lemma NothingDisturbed(rules: seq<PathRule>, default: Rule, key: string, q: Request, r: Request,
                         kept: seq<real>, history: seq<real>, now: real)
    requires Undisturbed(rules, default, key) && KeyGood(rules, default, key, kept, history, now)
    requires On(rules, q, key) && On(rules, r, key)
    requires Reach(RuleOf(rules, default, q)) != Reach(RuleOf(rules, default, r))
    ensures var (decision, kept') := Handle(kept, RuleOf(rules, default, q), now);
            decision == IndexError && kept' == [] && history == []
  {
    assert Compatible(RuleOf(rules, default, q), RuleOf(rules, default, r));
    assert Kept(kept, history, Reach(RuleOf(rules, default, q)), now);
  }

  /** One request on an undisturbed key. */
  lemma HandlingKeepsKey(rules: seq<PathRule>, default: Rule, key: string, q: Request,
                         kept: seq<real>, history: seq<real>, now: real)
    requires Undisturbed(rules, default, key) && KeyGood(rules, default, key, kept, history, now) && On(rules, q, key)
    ensures var (decision, kept') := Handle(kept, RuleOf(rules, default, q), now);
            && decision == Decide(history, RuleOf(rules, default, q), now)
            && KeyGood(rules, default, key, kept', Recorded(history, decision, now), now)
  {
    var rule := RuleOf(rules, default, q);
    var (decision, kept') := Handle(kept, rule, now);
    var history' := Recorded(history, decision, now);
    assert Kept(kept, history, Reach(rule), now);
    HandlingIsFaithful(kept, history, rule, now);
    forall r | On(rules, r, key) ensures Kept(kept', history', Reach(RuleOf(rules, default, r)), now) {
      if Reach(RuleOf(rules, default, r)) != Reach(rule) {
        NothingDisturbed(rules, default, key, q, r, kept, history, now);
      }
    }
    forall r, s | On(rules, r, key) && On(rules, s, key)
                  && Reach(RuleOf(rules, default, r)) != Reach(RuleOf(rules, default, s))
      ensures history' == []
    {
      if Reach(RuleOf(rules, default, r)) != Reach(rule) {
        NothingDisturbed(rules, default, key, q, r, kept, history, now);
      } else {
        NothingDisturbed(rules, default, key, q, s, kept, history, now);
      }
    }
  }

  lemma KeyGoodLater(rules: seq<PathRule>, default: Rule, key: string, kept: seq<real>, history: seq<real>,
                     clock: real, later: real)
    requires KeyGood(rules, default, key, kept, history, clock) && clock <= later
    ensures KeyGood(rules, default, key, kept, history, later)
  {
    forall q | On(rules, q, key) ensures Kept(kept, history, Reach(RuleOf(rules, default, q)), later) {
      KeptLater(kept, history, Reach(RuleOf(rules, default, q)), clock, later);
    }
  }

  /** A request on a key, and when it comes. */
  datatype Timed = Timed(q: Request, now: real)

  /** The kept list and the full history of a key after these requests. */
  function Replay(rules: seq<PathRule>, default: Rule, requests: seq<Timed>): (seq<real>, seq<real>) {
    if requests == [] then ([], [])
    else
      var last := requests[|requests| - 1];
      var (kept, history) := Replay(rules, default, requests[..|requests| - 1]);
      var (decision, kept') := Handle(kept, RuleOf(rules, default, last.q), last.now);
      (kept', Recorded(history, decision, last.now))
  }

  /** All on this key, and the clock does not go backwards. */
  predicate Sequence(rules: seq<PathRule>, key: string, requests: seq<Timed>) {
    && (forall i :: 0 <= i < |requests| ==> On(rules, requests[i].q, key))
    && (forall i, j :: 0 <= i < j < |requests| ==> requests[i].now <= requests[j].now)
  }

  /** After these requests, this one is decided as the full history would. */
  predicate Agrees(rules: seq<PathRule>, default: Rule, requests: seq<Timed>, last: Timed) {
    var (kept, history) := Replay(rules, default, requests);
    var rule := RuleOf(rules, default, last.q);
    Handle(kept, rule, last.now).0 == Decide(history, rule, last.now)
  }

  /** On this key the limiter always decides as the full history would. */
  ghost predicate Faithful(rules: seq<PathRule>, default: Rule, key: string) {
    forall requests, last :: Sequence(rules, key, requests + [last]) ==> Agrees(rules, default, requests, last)
  }

  lemma {:induction false} ReplayGood(rules: seq<PathRule>, default: Rule, key: string, requests: seq<Timed>,
                                      clock: real)
    requires Undisturbed(rules, default, key) && Sequence(rules, key, requests)
    requires requests != [] ==> requests[|requests| - 1].now <= clock
    ensures var (kept, history) := Replay(rules, default, requests);
            KeyGood(rules, default, key, kept, history, clock)
  {
    if requests != [] {
      var front, last := requests[..|requests| - 1], requests[|requests| - 1];
      ReplayGood(rules, default, key, front, last.now);
      var (kept, history) := Replay(rules, default, front);
      HandlingKeepsKey(rules, default, key, last.q, kept, history, last.now);
      var (kept', history') := Replay(rules, default, requests);
      KeyGoodLater(rules, default, key, kept', history', last.now, clock);
    }
  }

  lemma UndisturbedIsFaithful(rules: seq<PathRule>, default: Rule, key: string)
    requires Undisturbed(rules, default, key)
    ensures Faithful(rules, default, key)
  {
    forall requests, last | Sequence(rules, key, requests + [last]) ensures Agrees(rules, default, requests, last) {
      var all := requests + [last];
      assert all[|requests|] == last && forall i :: 0 <= i < |requests| ==> all[i] == requests[i];
      ReplayGood(rules, default, key, requests, last.now);
      var (kept, history) := Replay(rules, default, requests);
      HandlingKeepsKey(rules, default, key, last.q, kept, history, last.now);
    }
  }

  /** The last of three stretches of requests: the rule that looks far back has n admissions at time 0 in its
      window, the kept list has only what came after the other rule cleaned it. */
  lemma DecisionsDiffer(far: Rule, n: nat, kept: seq<real>, t: real)
    requires far.windowSeconds > 0 && 0.0 < t < far.windowSeconds as real
    requires n >= 1 && n >= far.maxRequests
    requires kept == [t] || (kept == [] && far.maxRequests >= 1)
    ensures Handle(kept, far, t).0 != Decide(Repeated(0.0, n) + kept, far, t)
  {
    var w := far.windowSeconds as real;
    var h := Repeated(0.0, n) + kept;
    AllAfter(h, t - w);
    AllAfter(kept, t - w);
    assert h[0] == 0.0;
    assert DecideOn(h, far, t) == Denied(Max(1, Truncate(w - t) + 1));
    assert Truncate(w) == far.windowSeconds && Truncate(w - t) < far.windowSeconds;
  }

  /** The other rule cleans away what is older than its reach. */
  lemma Cleans(near: Rule, n: nat, t: real)
    requires Reach(near) <= t
    ensures var (decision, kept) := Handle(Repeated(0.0, n), near, t);
            kept == (if near.maxRequests > 0 then [t] else []) && (decision == Admitted <==> near.maxRequests > 0)
  {
    NoneAfter(Repeated(0.0, n), t - near.windowSeconds as real);
  }

  lemma OneMore(rules: seq<PathRule>, default: Rule, requests: seq<Timed>, last: Timed)
    ensures var (kept, history) := Replay(rules, default, requests);
            var (decision, kept') := Handle(kept, RuleOf(rules, default, last.q), last.now);
            Replay(rules, default, requests + [last]) == (kept', Recorded(history, decision, last.now))
  {
    assert (requests + [last])[..|requests|] == requests;
  }

  function Same(q: Request, n: nat): seq<Timed> {
    seq(n, _ => Timed(q, 0.0))
  }

  lemma {:induction false} FillWindow(rules: seq<PathRule>, default: Rule, q: Request, n: nat)
    requires var rule := RuleOf(rules, default, q); n <= rule.maxRequests && (n <= 1 || rule.windowSeconds > 0)
    ensures Replay(rules, default, Same(q, n)) == (Repeated(0.0, n), Repeated(0.0, n))
  {
    if n == 0 {
      assert Same(q, 0) == [] && Repeated(0.0, 0) == [];
    } else {
      var rule := RuleOf(rules, default, q);
      FillWindow(rules, default, q, n - 1);
      OneMore(rules, default, Same(q, n - 1), Timed(q, 0.0));
      assert Same(q, n) == Same(q, n - 1) + [Timed(q, 0.0)];
      if n > 1 {
        AllAfter(Repeated(0.0, n - 1), 0.0 - rule.windowSeconds as real);
      } else {
        assert Repeated(0.0, 0) == [];
      }
      assert Repeated(0.0, n) == Repeated(0.0, n - 1) + [0.0];
    }
  }

  lemma FilledAndCleaned(rules: seq<PathRule>, default: Rule, first: Request, n: nat, r: Request, t: real)
    requires Replay(rules, default, Same(first, n)) == (Repeated(0.0, n), Repeated(0.0, n))
    requires Reach(RuleOf(rules, default, r)) <= t
    ensures var kept := if RuleOf(rules, default, r).maxRequests > 0 then [t] else [];
            Replay(rules, default, Same(first, n) + [Timed(r, t)]) == (kept, Repeated(0.0, n) + kept)
  {
    OneMore(rules, default, Same(first, n), Timed(r, t));
    Cleans(RuleOf(rules, default, r), n, t);
    assert Repeated(0.0, n) + [] == Repeated(0.0, n);
  }

  lemma InSequence(rules: seq<PathRule>, key: string, first: Request, n: nat, r: Request, q: Request, t: real)
    requires On(rules, first, key) && On(rules, r, key) && On(rules, q, key) && t > 0.0
    ensures Sequence(rules, key, Same(first, n) + [Timed(r, t)] + [Timed(q, t)])
  {
    var all := Same(first, n) + [Timed(r, t)] + [Timed(q, t)];
    assert forall i :: 0 <= i < |all| ==>
             all[i] == if i < n then Timed(first, 0.0) else if i == n then Timed(r, t) else Timed(q, t);
  }

  lemma OneDisagreement(rules: seq<PathRule>, default: Rule, key: string, requests: seq<Timed>, last: Timed)
    requires Sequence(rules, key, requests + [last]) && !Agrees(rules, default, requests, last)
    ensures !Faithful(rules, default, key)
  {
  }

  /** Rules that disturb each other make the limiter decide differently: fill the window of one, or open that
      of the other; clean with the one that looks less far back; ask again with the one that looks farther. */
  lemma DisturbedIsUnfaithful(rules: seq<PathRule>, default: Rule, key: string, q: Request, r: Request)
    requires On(rules, q, key) && On(rules, r, key)
    requires Reach(RuleOf(rules, default, q)) > Reach(RuleOf(rules, default, r))
    requires RuleOf(rules, default, q).maxRequests > 0 || RuleOf(rules, default, r).maxRequests > 0
    ensures !Faithful(rules, default, key)
  {
    var far, near := RuleOf(rules, default, q), RuleOf(rules, default, r);
    var t := if Reach(near) > 0.0 then Reach(near) else 0.5;
    var first := if far.maxRequests > 0 then q else r;
    var n: nat := if far.maxRequests > 0 then far.maxRequests else 1;
    FillWindow(rules, default, first, n);
    FilledAndCleaned(rules, default, first, n, r, t);
    var kept := if near.maxRequests > 0 then [t] else [];
    DecisionsDiffer(far, n, kept, t);
    InSequence(rules, key, first, n, r, q, t);
    OneDisagreement(rules, default, key, Same(first, n) + [Timed(r, t)], Timed(q, t));
  }

  /** Main result for one key: the limiter always decides as the full history would if and only if the rules
      that meet on the key do not disturb each other. */
  lemma FaithfulExactly(rules: seq<PathRule>, default: Rule, key: string)
    ensures Faithful(rules, default, key) <==> Undisturbed(rules, default, key)
  {
    if Undisturbed(rules, default, key) {
      UndisturbedIsFaithful(rules, default, key);
    } else {
      var q, r :| On(rules, q, key) && On(rules, r, key)
                  && !Compatible(RuleOf(rules, default, q), RuleOf(rules, default, r));
      if Reach(RuleOf(rules, default, q)) > Reach(RuleOf(rules, default, r)) {
        DisturbedIsUnfaithful(rules, default, key, q, r);
      } else {
        DisturbedIsUnfaithful(rules, default, key, r, q);
      }
    }
  }

  /** Main result: for every key, if and only if the configuration is clear. */
  lemma LimiterFaithfulExactly(rules: seq<PathRule>, default: Rule)
    ensures (forall key :: Faithful(rules, default, key)) <==> Clear(rules, default, COMPATIBLE)
  {
    forall key ensures Faithful(rules, default, key) <==> Undisturbed(rules, default, key) {
      FaithfulExactly(rules, default, key);
    }
    MeetExactly(rules, default, COMPATIBLE);
    if forall key :: Faithful(rules, default, key) {
      forall key ensures Meet(rules, default, key, COMPATIBLE) {
        assert Faithful(rules, default, key);
      }
    } else {
      var key :| !Faithful(rules, default, key);
      assert !Meet(rules, default, key, COMPATIBLE);
    }
  }

  /** Rules that are equal do not disturb each other. */
  lemma OneRuleUndisturbed(rules: seq<PathRule>, default: Rule, key: string)
    requires Meet(rules, default, key, EQUAL)
    ensures Undisturbed(rules, default, key)
  {
    forall q, r | On(rules, q, key) && On(rules, r, key)
      ensures COMPATIBLE(RuleOf(rules, default, q), RuleOf(rules, default, r))
    {
      assert EQUAL(RuleOf(rules, default, q), RuleOf(rules, default, r));
    }
  }

  /** Such a configuration, and what happens: one entry for the path "default", two addresses with one key.
      A request under the shorter window makes the limiter forget what the longer one has to remember, and
      more than max are admitted. */
  const SHARING := [PathRule("GET", "default", Rule(2, 60))]

  const FEW_PER_SECOND := Rule(5, 1)

  lemma SharingRules()
    ensures var far, near := Request("1", "GET", "default"), Request("1:GET", "GET", "/other");
            && On(SHARING, far, "1:GET:default") && On(SHARING, near, "1:GET:default")
            && RuleOf(SHARING, FEW_PER_SECOND, far) == Rule(2, 60)
            && RuleOf(SHARING, FEW_PER_SECOND, near) == FEW_PER_SECOND
  {
    assert SHARING[1..] == [];
    assert RuleFor(SHARING[1..], "GET", "/other") == None;
    assert "1" + ":" + "GET" + ":" + "default" == "1:GET:default";
    assert "1:GET" + ":default" == "1:GET:default";
  }

  lemma AdmitsAfterAll(h: seq<real>, rule: Rule, now: real)
    requires (forall i :: 0 <= i < |h| ==> h[i] > now - rule.windowSeconds as real) && |h| < rule.maxRequests
    ensures Handle(h, rule, now) == (Admitted, h + [now])
  {
    AllAfter(h, now - rule.windowSeconds as real);
  }

  lemma AdmitsAfterNone(h: seq<real>, rule: Rule, now: real)
    requires (forall i :: 0 <= i < |h| ==> h[i] <= now - rule.windowSeconds as real) && 0 < rule.maxRequests
    ensures Handle(h, rule, now) == (Admitted, [now])
  {
    NoneAfter(h, now - rule.windowSeconds as real);
    assert [] + [now] == [now];
  }

  lemma ForgettingSteps()
    ensures var far, near := Rule(2, 60), FEW_PER_SECOND;
            && Handle([], far, 0.0) == (Admitted, [0.0])
            && Handle([0.0], far, 0.5) == (Admitted, [0.0, 0.5])
            && Handle([0.0, 0.5], near, 2.0) == (Admitted, [2.0])
            && Handle([2.0], far, 3.0).0 == Admitted
            && Decide([0.0, 0.5, 2.0], far, 3.0).Denied?
  {
    var far, near := Rule(2, 60), FEW_PER_SECOND;
    AdmitsAfterAll([], far, 0.0);
    AdmitsAfterAll([0.0], far, 0.5);
    AdmitsAfterNone([0.0, 0.5], near, 2.0);
    AdmitsAfterAll([2.0], far, 3.0);
    AllAfter([0.0, 0.5, 2.0], 3.0 - far.windowSeconds as real);
    assert [] + [0.0] == [0.0] && [0.0] + [0.5] == [0.0, 0.5];
  }

  lemma OneAdmitted(rules: seq<PathRule>, default: Rule, requests: seq<Timed>, last: Timed,
                    kept: seq<real>, history: seq<real>, kept': seq<real>)
    requires Replay(rules, default, requests) == (kept, history)
    requires Handle(kept, RuleOf(rules, default, last.q), last.now) == (Admitted, kept')
    ensures Replay(rules, default, requests + [last]) == (kept', history + [last.now])
  {
    OneMore(rules, default, requests, last);
  }

  /** Two requests that are both admitted, from the beginning. */
  lemma ReplayTwo(rules: seq<PathRule>, default: Rule, a: Timed, b: Timed, k1: seq<real>, k2: seq<real>)
    requires Handle([], RuleOf(rules, default, a.q), a.now) == (Admitted, k1)
    requires Handle(k1, RuleOf(rules, default, b.q), b.now) == (Admitted, k2)
    ensures Replay(rules, default, [a] + [b]) == (k2, [a.now] + [b.now])
  {
    OneAdmitted(rules, default, [], a, [], [], k1);
    assert [] + [a] == [a] && [] + [a.now] == [a.now];
    OneAdmitted(rules, default, [a], b, k1, [a.now], k2);
  }

  lemma SharedKeyForgets()
    ensures var far, near := Request("1", "GET", "default"), Request("1:GET", "GET", "/other");
            var requests := [Timed(far, 0.0)] + [Timed(far, 0.5)] + [Timed(near, 2.0)];
            && Sequence(SHARING, "1:GET:default", requests + [Timed(far, 3.0)])
            && (var (kept, history) := Replay(SHARING, FEW_PER_SECOND, requests);
                && Handle(kept, Rule(2, 60), 3.0).0 == Admitted
                && Decide(history, Rule(2, 60), 3.0).Denied?)
  {
    var far, near := Request("1", "GET", "default"), Request("1:GET", "GET", "/other");
    SharingRules();
    ForgettingSteps();
    ReplayTwo(SHARING, FEW_PER_SECOND, Timed(far, 0.0), Timed(far, 0.5), [0.0], [0.0, 0.5]);
    OneAdmitted(SHARING, FEW_PER_SECOND, [Timed(far, 0.0)] + [Timed(far, 0.5)], Timed(near, 2.0),
                [0.0, 0.5], [0.0] + [0.5], [2.0]);
    assert [0.0] + [0.5] + [2.0] == [0.0, 0.5, 2.0];
  }

  /** Every undisturbed key is in order. */
  ghost predicate AllGood(rules: seq<PathRule>, default: Rule, windows: map<string, seq<real>>,
                          histories: map<string, seq<real>>, clock: real)
  {
    && windows.Keys == histories.Keys
    && forall key :: key in windows && Undisturbed(rules, default, key) ==>
         KeyGood(rules, default, key, windows[key], histories[key], clock)
  }

  lemma AllGoodLater(rules: seq<PathRule>, default: Rule, windows: map<string, seq<real>>,
                     histories: map<string, seq<real>>, clock: real, later: real)
    requires AllGood(rules, default, windows, histories, clock) && clock <= later
    ensures AllGood(rules, default, windows, histories, later)
  {
    forall key | key in windows && Undisturbed(rules, default, key)
      ensures KeyGood(rules, default, key, windows[key], histories[key], later)
    {
      KeyGoodLater(rules, default, key, windows[key], histories[key], clock, later);
    }
  }

  lemma OneKeyChanged(rules: seq<PathRule>, default: Rule, windows: map<string, seq<real>>,
                      histories: map<string, seq<real>>, clock: real, key: string, kept: seq<real>, history: seq<real>)
    requires AllGood(rules, default, windows, histories, clock)
    requires Undisturbed(rules, default, key) ==> KeyGood(rules, default, key, kept, history, clock)
    ensures AllGood(rules, default, windows[key := kept], histories[key := history], clock)
  {
    var w, h := windows[key := kept], histories[key := history];
    forall k | k in w && Undisturbed(rules, default, k) ensures KeyGood(rules, default, k, w[k], h[k], clock) {
      if k != key {
        assert w[k] == windows[k] && h[k] == histories[k];
        assert KeyGood(rules, default, k, windows[k], histories[k], clock);
      }
    }
  }

  lemma NothingGood(rules: seq<PathRule>, default: Rule, key: string, clock: real)
    ensures KeyGood(rules, default, key, [], [], clock)
  {
  }

  lemma OthersUnchanged(m: map<string, seq<real>>, key: string, value: seq<real>)
    ensures m[key := value] - {key} == m - {key}
  {
  }

  lemma SameValue<V>(m: map<string, V>, key: string)
    requires key in m
    ensures m[key := m[key]] == m
  {
  }

  /** src/api/rate_limit.py: RateLimitMiddleware. Beside the trimmed lists it keeps, as ghosts, every
      admitted request of each key, and the latest time seen. */
  class RateLimiter {
    const defaultRule: Rule
    const pathRules: seq<PathRule>
    var windows: map<string, seq<real>>
    ghost var histories: map<string, seq<real>>
    ghost var clock: real

    ghost function History(key: string): seq<real>
      reads this`histories
    {
      if key in histories then histories[key] else []
    }

    ghost function KeptFor(key: string): seq<real>
      reads this`windows
    {
      if key in windows then windows[key] else []
    }

    ghost predicate Valid()
      reads this
    {
      AllGood(pathRules, defaultRule, windows, histories, clock)
    }

    constructor (rule: Rule, rules: seq<PathRule>)
      ensures Valid() && windows == map[] && histories == map[] && defaultRule == rule && pathRules == rules
    {
      defaultRule, pathRules, windows := rule, rules, map[];
      histories, clock := map[], 0.0;
    }

    method GetRule(httpMethod: string, path: string) returns (rule: Rule, isDefault: bool)
      ensures isDefault <==> RuleFor(pathRules, httpMethod, path) == None
      ensures rule == RuleFor(pathRules, httpMethod, path).GetOr(defaultRule)
    {
      assert pathRules[0..] == pathRules;
      for i := 0 to |pathRules|
        invariant RuleFor(pathRules, httpMethod, path) == RuleFor(pathRules[i..], httpMethod, path)
      {
        if Upper(httpMethod) == Upper(pathRules[i].httpMethod) && path == pathRules[i].path {
          return pathRules[i].rule, false;
        }
        assert pathRules[i..][1..] == pathRules[i + 1..];
      }
      return defaultRule, true;
    }

    /** `_SlidingWindow.count_and_clean`. */
    method CountAndClean(key: string, now: real, window: real) returns (count: nat)
      requires key in windows
      modifies this`windows
      ensures windows == old(windows)[key := After(old(windows)[key], now - window)]
      ensures count == |windows[key]|
    {
      windows := windows[key := After(windows[key], now - window)];
      count := |windows[key]|;
    }

    /** `self._windows[key]` of a defaultdict, at the time `now`. */
    method Touch(key: string, now: real)
      requires Valid() && clock <= now
      modifies this
      ensures Valid() && clock == now && key in windows && windows[key] == old(KeptFor(key))
      ensures History(key) == old(History(key))
      ensures windows - {key} == old(windows) - {key} && histories - {key} == old(histories) - {key}
    {
      AllGoodLater(pathRules, defaultRule, windows, histories, clock, now);
      if key !in windows {
        NothingGood(pathRules, defaultRule, key, now);
        OneKeyChanged(pathRules, defaultRule, windows, histories, now, key, [], []);
        OthersUnchanged(windows, key, []);
        OthersUnchanged(histories, key, []);
        windows := windows[key := []];
        histories := histories[key := []];
      }
      clock := now;
    }

    /** The locked part of `dispatch`. */
    method Admit(key: string, rule: Rule, now: real) returns (decision: Decision)
      requires key in windows && key in histories
      modifies this`windows, this`histories
      ensures decision == Handle(old(windows[key]), rule, now).0
      ensures windows == old(windows)[key := Handle(old(windows[key]), rule, now).1]
      ensures histories == old(histories)[key := Recorded(old(histories[key]), decision, now)]
    {
      SameValue(histories, key);
      var count := CountAndClean(key, now, rule.windowSeconds as real);
      if count >= rule.maxRequests {
        if windows[key] == [] {
          decision := IndexError;
        } else {
          var elapsed := now - windows[key][0];
          var retryAfter := Truncate(rule.windowSeconds as real - elapsed) + 1;
          decision := Denied(Max(1, retryAfter));
        }
      } else {
        windows := windows[key := windows[key] + [now]];
        histories := histories[key := histories[key] + [now]];
        decision := Admitted;
      }
    }

    /** `dispatch` once key and rule are known. */
    method Serve(key: string, rule: Rule, now: real, ghost q: Request) returns (decision: Decision)
      requires Valid() && clock <= now
      requires On(pathRules, q, key) && rule == RuleOf(pathRules, defaultRule, q)
      modifies this
      ensures Valid() && clock == now
      ensures (decision, KeptFor(key)) == Handle(old(KeptFor(key)), rule, now)
      ensures History(key) == Recorded(old(History(key)), decision, now)
      ensures Undisturbed(pathRules, defaultRule, key) ==> decision == Decide(old(History(key)), rule, now)
      ensures windows - {key} == old(windows) - {key} && histories - {key} == old(histories) - {key}
    {
      Touch(key, now);
      ghost var w, h := windows, histories;
      decision := Admit(key, rule, now);
      OthersUnchanged(w, key, windows[key]);
      OthersUnchanged(h, key, histories[key]);
      if Undisturbed(pathRules, defaultRule, key) {
        HandlingKeepsKey(pathRules, defaultRule, key, q, w[key], h[key], now);
      }
      OneKeyChanged(pathRules, defaultRule, w, h, clock, key, windows[key], histories[key]);
    }

    /** `dispatch`, up to passing the request on. It decides on the kept list of the key, and as the full
        history of the key would if the rules that meet there do not disturb each other: on exactly the keys
        where it always does, and so on every key if the configuration is clear. */
    method Dispatch(q: Request, now: real) returns (decision: Decision)
      requires Valid() && ':' !in q.httpMethod && clock <= now
      modifies this
      ensures Valid() && clock == now
      ensures var key, rule := Key(pathRules, q), RuleOf(pathRules, defaultRule, q);
              && (decision, KeptFor(key)) == Handle(old(KeptFor(key)), rule, now)
              && History(key) == Recorded(old(History(key)), decision, now)
              && (Clear(pathRules, defaultRule, COMPATIBLE) || Undisturbed(pathRules, defaultRule, key) ==>
                    decision == Decide(old(History(key)), rule, now))
              && windows - {key} == old(windows) - {key} && histories - {key} == old(histories) - {key}
    {
      var rule, isDefault := GetRule(q.httpMethod, q.path);
      var key := if !isDefault then q.ip + ":" + q.httpMethod + ":" + q.path else q.ip + ":default";
      if Clear(pathRules, defaultRule, COMPATIBLE) {
        ClearSuffices(pathRules, defaultRule, COMPATIBLE, key);
      }
      decision := Serve(key, rule, now, q);
    }
  }
}

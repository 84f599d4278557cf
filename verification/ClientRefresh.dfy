/** One browser tab (src/viewer/src/auth.ts, src/viewer/src/contexts/AuthContext.tsx) against the server
    of module RefreshTokens, behind the limiter of module RateLimit.

    A token is its id. The tab keeps the refresh token in local storage and the refresh under way in a
    module variable. Requests and responses cross a network that may lose them. The limiter may turn a
    request away before the endpoint sees it, and the endpoint may raise anywhere. A 401 can reach the tab
    at any time and any number of times, and so can a login, a logout and the requests of others. */
module ClientRefresh {
  import opened Prelude
  import opened Server = RefreshTokens
  import Gate = RateLimiter
  import Keys = RateKeys
  import Limiter = RateLimit
  import opened TimeWindows

  /** `refreshPromise`: null, waiting for the network, or settled with its `finally` still to run. */
  datatype Promise = Null | Waiting | Settled

  /** What answers a request: the endpoint, the limiter with 429, or the limiter failing. */
  datatype Answer = FromEndpoint(reply: Reply) | TooManyRequests(retryAfter: int) | LimiterFailed

  /** A refresh request on its way, or the answer to one. `usable` says whether the request arrived with
      an unrevoked, unexpired token of an existing user. */
  datatype Flight = Request(token: TokenId) | Response(token: TokenId, answer: Answer, usable: bool)

  /** One time the tab cleared its tokens on its own account: the token it had presented, the one it
      dropped, the answer, and whether the dropped token was still unrevoked. */
  datatype Clearing = Clearing(presented: TokenId, dropped: Option<TokenId>, answer: Answer, usable: bool, live: bool)

  /** `logins` are the tokens of login responses under way; `lost` says that a response to a refresh got
      lost; `admitted` are the requests the limiter let through under the key of this tab, `clock` its time. */
  datatype State = State(
    ledger: Ledger,
    stored: Option<TokenId>,
    promise: Promise,
    network: seq<Flight>,
    logins: set<TokenId>,
    cleared: seq<Clearing>,
    lost: bool,
    admitted: seq<real>,
    clock: real)

  function Begin(clock: real): State {
    State(EMPTY, None, Null, [], {}, [], false, [], clock)
  }

  /** `tick` is the limiter's monotonic time, `now` the endpoint's. Traffic is any other request under the
      same key, be it of this tab or not. */
  datatype Event =
    | Unauthorized
    | Arrive(k: nat, tick: real, now: real, userExists: bool, id: TokenId, expires: real, stage: Stage)
    | Traffic(tick: real)
    | Deliver(k: nat)
    | Lose(k: nat)
    | Settle
    | LogIn(user: UserId, id: TokenId, expires: real)
    | LoggedIn(id: TokenId)
    | LoginLost(id: TokenId)
    | LogOut
    | Elsewhere(step: Step)

  predicate Carries(f: Flight, t: TokenId) {
    f.token == t || (f.Response? && f.answer == FromEndpoint(Issued(t)))
  }

  /** The tokens this tab holds. */
  predicate Holds(st: State, t: TokenId) {
    st.stored == Some(t) || t in st.logins || exists k :: 0 <= k < |st.network| && Carries(st.network[k], t)
  }

  function RefreshStep(t: TokenId, e: Event): Step
    requires e.Arrive?
  {
    Refresh(Some(t), e.now, e.userExists, e.id, e.expires, e.stage)
  }

  predicate Usable(l: Ledger, t: TokenId, now: real, userExists: bool) {
    Live(l, t) && l.rows[t].expires >= now && userExists
  }

  /** New ids are new, the limiter's clock does not go backwards, and tokens are not shared between tabs. */
  predicate Possible(st: State, e: Event) {
    match e
    case Arrive(k, tick, _, _, id, _, _) =>
      k < |st.network| && st.network[k].Request? && id !in st.ledger.rows && st.clock <= tick
    case Traffic(tick) => st.clock <= tick
    case Deliver(k) => k < |st.network| && st.network[k].Response?
    case Lose(k) => k < |st.network|
    case Settle => st.promise == Settled
    case LogIn(_, id, _) => id !in st.ledger.rows
    case LoggedIn(id) => id in st.logins
    case LoginLost(id) => id in st.logins
    case Elsewhere(step) =>
      && Enabled(st.ledger, step)
      && (step.Refresh? && step.token.Some? ==> !Holds(st, step.token.value))
    case _ => true
  }

  /** What a 401 does to a tab. `authFetch` gives up without a stored token, and `refreshAccessToken`
      joins the refresh under way if there is one. */
  function Asked(stored: Option<TokenId>, promise: Promise): (Promise, seq<Flight>) {
    match stored
    case None => (promise, [])
    case Some(t) => if promise == Null then (Waiting, [Request(t)]) else (promise, [])
  }

  /** What the answer leaves in the storage: any status but success clears it. */
  function Kept(answer: Answer): Option<TokenId> {
    match answer
    case FromEndpoint(Issued(t)) => Some(t)
    case _ => None
  }

  function WithoutFlight(network: seq<Flight>, k: nat): seq<Flight>
    requires k < |network|
  {
    network[..k] + network[k + 1..]
  }

  function AnswerTo(rule: Limiter.Rule, st: State, e: Event): Answer
    requires e.Arrive? && Possible(st, e)
  {
    match Limiter.Decide(st.admitted, rule, e.tick)
    case Admitted => FromEndpoint(ReplyTo(st.ledger, RefreshStep(st.network[e.k].token, e)))
    case Denied(retryAfter) => TooManyRequests(retryAfter)
    case IndexError => LimiterFailed
  }

  function Arrived(rule: Limiter.Rule, st: State, e: Event): State
    requires e.Arrive? && Possible(st, e)
  {
    var t, decision := st.network[e.k].token, Limiter.Decide(st.admitted, rule, e.tick);
    var response := Response(t, AnswerTo(rule, st, e), Usable(st.ledger, t, e.now, e.userExists));
    st.(ledger := if decision == Limiter.Admitted then Server.Apply(st.ledger, RefreshStep(t, e)) else st.ledger,
        network := st.network[e.k := response],
        admitted := Limiter.Recorded(st.admitted, decision, e.tick),
        clock := e.tick)
  }

  function Delivered(st: State, k: nat): State
    requires Possible(st, Deliver(k))
  {
    var f := st.network[k];
    var live := st.stored.Some? && Live(st.ledger, st.stored.value);
    st.(stored := Kept(f.answer), promise := Settled, network := WithoutFlight(st.network, k),
        cleared := if Kept(f.answer).Some? then st.cleared
                   else st.cleared + [Clearing(f.token, st.stored, f.answer, f.usable, live)])
  }

  function Apply(rule: Limiter.Rule, st: State, e: Event): State
    requires Possible(st, e)
  {
    match e
    case Unauthorized =>
      var (promise, sent) := Asked(st.stored, st.promise);
      st.(promise := promise, network := st.network + sent)
    case Arrive(_, _, _, _, _, _, _) => Arrived(rule, st, e)
    case Traffic(tick) =>
      st.(admitted := Limiter.Recorded(st.admitted, Limiter.Decide(st.admitted, rule, tick), tick), clock := tick)
    case Deliver(k) => Delivered(st, k)
    case Lose(k) =>
      st.(promise := Settled, network := WithoutFlight(st.network, k), lost := st.lost || st.network[k].Response?)
    case Settle => st.(promise := Null)
    case LogIn(user, id, expires) =>
      st.(ledger := Server.Apply(st.ledger, Login(user, id, expires)), logins := st.logins + {id})
    case LoggedIn(id) => st.(stored := Some(id), logins := st.logins - {id})
    case LoginLost(id) => st.(logins := st.logins - {id})
    case LogOut => st.(stored := None)
    case Elsewhere(step) => st.(ledger := Server.Apply(st.ledger, step))
  }

  predicate Runs(rule: Limiter.Rule, st: State, events: seq<Event>)
    decreases |events|
  {
    events == [] || (Possible(st, events[0]) && Runs(rule, Apply(rule, st, events[0]), events[1..]))
  }

  function After(rule: Limiter.Rule, st: State, events: seq<Event>): State
    requires Runs(rule, st, events)
    decreases |events|
  {
    if events == [] then st else After(rule, Apply(rule, st, events[0]), events[1..])
  }

  lemma {:induction false} RunsConcat(rule: Limiter.Rule, st: State, a: seq<Event>, b: seq<Event>)
    requires Runs(rule, st, a) && Runs(rule, After(rule, st, a), b)
    ensures Runs(rule, st, a + b) && After(rule, st, a + b) == After(rule, After(rule, st, a), b)
    decreases |a|
  {
    if a == [] {
      assert a + b == b;
    } else {
      RunsConcat(rule, Apply(rule, st, a[0]), a[1..], b);
      assert (a + b)[1..] == a[1..] + b;
    }
  }

  lemma OneEvent(rule: Limiter.Rule, st: State, e: Event)
    requires Possible(st, e)
    ensures Runs(rule, st, [e]) && After(rule, st, [e]) == Apply(rule, st, e)
  {
    assert [e][1..] == [];
    assert Runs(rule, Apply(rule, st, e), []);
  }

  /** The promise is pending exactly while one request or response is under way. */
  predicate SingleFlight(st: State) {
    |st.network| == if st.promise == Waiting then 1 else 0
  }

  /** A refusal that the tab is not to blame for. */
  predicate Excused(reason: Reason) {
    reason == Expired || reason == UserMissing
  }

  /** The answer did not come from a check of the token, and the token was not touched. */
  predicate FromOutside(answer: Answer) {
    answer.TooManyRequests? || answer.LimiterFailed? || answer == FromEndpoint(Raised(RaisesBeforeRevoke))
  }

  /** The answer leaves the token unrevoked. */
  predicate LeavesUnspent(answer: Answer) {
    FromOutside(answer) || answer == FromEndpoint(Refused(Expired))
  }

  predicate FlightGood(l: Ledger, f: Flight) {
    f.token in l.rows &&
    match f
    case Request(t) => Live(l, t)
    case Response(t, answer, usable) =>
      && (Live(l, t) <==> LeavesUnspent(answer))
      && (usable && answer.FromEndpoint? ==> !answer.reply.Refused?)
      && (answer.FromEndpoint? && answer.reply.Refused? ==> Excused(answer.reply.reason))
      && (answer.FromEndpoint? && answer.reply.Issued? ==> Live(l, answer.reply.token) && usable)
  }

  /** The stored token is live, unless the answer to the request that used it up is still under way. */
  predicate StoredGood(st: State) {
    match st.stored
    case None => true
    case Some(s) => Live(st.ledger, s) || (st.network != [] && st.network[0].Response? && st.network[0].token == s)
  }

  /** Tokens of logins under way are live and not yet used for anything. */
  ghost predicate LoginsGood(st: State) {
    forall u :: u in st.logins ==>
      Live(st.ledger, u) && st.stored != Some(u) && (st.network != [] ==> !Carries(st.network[0], u))
  }

  predicate ClearingGood(c: Clearing) {
    && (c.live <==> c.dropped.Some? && (c.dropped != Some(c.presented) || LeavesUnspent(c.answer)))
    && (c.answer.FromEndpoint? ==> !c.answer.reply.Issued?)
    && (c.usable && c.answer.FromEndpoint? ==> !c.answer.reply.Refused?)
    && (c.answer.FromEndpoint? && c.answer.reply.Refused? ==> Excused(c.answer.reply.reason))
  }

  ghost predicate LimiterGood(rule: Limiter.Rule, st: State) {
    Limiter.Produced(st.admitted, rule) && Limiter.NotAfter(st.admitted, st.clock)
  }

  ghost predicate TokensGood(st: State) {
    && (st.network != [] ==> FlightGood(st.ledger, st.network[0]))
    && StoredGood(st)
    && LoginsGood(st)
  }

  ghost predicate Inv(rule: Limiter.Rule, st: State) {
    && SingleFlight(st)
    && LimiterGood(rule, st)
    && (!st.lost ==> TokensGood(st) && forall i :: 0 <= i < |st.cleared| ==> ClearingGood(st.cleared[i]))
  }

  /** A server step revokes at most the token it presents. */
  lemma TokensStay(l: Ledger, step: Step, t: TokenId)
    requires Enabled(l, step) && t in l.rows && !(step.Refresh? && step.token == Some(t))
    ensures var l' := Server.Apply(l, step); t in l'.rows && (Live(l', t) <==> Live(l, t))
  {
  }

  lemma ServerStepKeeps(rule: Limiter.Rule, st: State, e: Event)
    requires Inv(rule, st) && Possible(st, e) && (e.LogIn? || e.Elsewhere?)
    ensures Inv(rule, Apply(rule, st, e))
  {
    var step := if e.LogIn? then Login(e.user, e.id, e.expires) else e.step;
    forall t | Holds(st, t) && t in st.ledger.rows
      ensures t in Apply(rule, st, e).ledger.rows && (Live(Apply(rule, st, e).ledger, t) <==> Live(st.ledger, t))
    {
      TokensStay(st.ledger, step, t);
    }
    if st.network != [] {
      assert Carries(st.network[0], st.network[0].token);
      if st.network[0].Response? && st.network[0].answer.FromEndpoint? && st.network[0].answer.reply.Issued? {
        assert Carries(st.network[0], st.network[0].answer.reply.token);
      }
    }
  }

  /** What a request does to its own token. */
  lemma AnsweredWell(l: Ledger, step: Step, t: TokenId)
    requires Enabled(l, step) && step.Refresh? && step.token == Some(t) && Live(l, t)
    ensures FlightGood(Server.Apply(l, step),
                       Response(t, FromEndpoint(ReplyTo(l, step)), Usable(l, t, step.now, step.userExists)))
    ensures forall u :: Live(l, u) && u != t ==> Live(Server.Apply(l, step), u)
    ensures forall u :: u in l.rows ==> u in Server.Apply(l, step).rows
    ensures ReplyTo(l, step).Issued? ==> ReplyTo(l, step).token !in l.rows
  {
  }

  lemma RecordedKeeps(rule: Limiter.Rule, admitted: seq<real>, clock: real, tick: real)
    requires Limiter.Produced(admitted, rule) && Limiter.NotAfter(admitted, clock) && clock <= tick
    ensures var admitted' := Limiter.Recorded(admitted, Limiter.Decide(admitted, rule, tick), tick);
            Limiter.Produced(admitted', rule) && Limiter.NotAfter(admitted', tick)
  {
    assert (admitted + [tick])[..|admitted|] == admitted;
  }

  lemma ArriveKeepsTokens(rule: Limiter.Rule, st: State, e: Event)
    requires SingleFlight(st) && TokensGood(st) && Possible(st, e) && e.Arrive?
    ensures TokensGood(Arrived(rule, st, e))
  {
    AnsweredWell(st.ledger, RefreshStep(st.network[0].token, e), st.network[0].token);
  }

  lemma ArriveKeeps(rule: Limiter.Rule, st: State, e: Event)
    requires Inv(rule, st) && Possible(st, e) && e.Arrive?
    ensures Inv(rule, Apply(rule, st, e))
  {
    RecordedKeeps(rule, st.admitted, st.clock, e.tick);
    if !st.lost {
      ArriveKeepsTokens(rule, st, e);
    }
  }

  lemma StepKeeps(rule: Limiter.Rule, st: State, e: Event)
    requires Inv(rule, st) && Possible(st, e)
    ensures Inv(rule, Apply(rule, st, e))
  {
    match e
    case Arrive(_, _, _, _, _, _, _) => ArriveKeeps(rule, st, e);
    case Traffic(tick) => RecordedKeeps(rule, st.admitted, st.clock, tick);
    case LogIn(_, _, _) => ServerStepKeeps(rule, st, e);
    case Elsewhere(_) => ServerStepKeeps(rule, st, e);
    case _ =>
  }

  lemma {:induction false} RunKeeps(rule: Limiter.Rule, st: State, events: seq<Event>)
    requires Inv(rule, st) && Runs(rule, st, events)
    ensures Inv(rule, After(rule, st, events))
    decreases |events|
  {
    if events != [] {
      StepKeeps(rule, st, events[0]);
      RunKeeps(rule, Apply(rule, st, events[0]), events[1..]);
    }
  }

  /** Main result, for every run, whatever gets lost: at most one refresh is outstanding, and one is
      exactly while the promise is pending. */
  lemma OneRefreshAtATime(rule: Limiter.Rule, clock: real, events: seq<Event>)
    requires Runs(rule, Begin(clock), events)
    ensures var st := After(rule, Begin(clock), events);
            |st.network| <= 1 && (|st.network| == 1 <==> st.promise == Waiting)
  {
    RunKeeps(rule, Begin(clock), events);
  }

  /** Main result, for every run in which no response to a refresh got lost: a refresh request never
      carries a revoked token, and whenever no refresh is under way the stored token is live. */
  lemma RequestsCarryLiveTokens(rule: Limiter.Rule, clock: real, events: seq<Event>, k: nat)
    requires Runs(rule, Begin(clock), events) && !After(rule, Begin(clock), events).lost
    ensures var st := After(rule, Begin(clock), events);
            && (k < |st.network| && st.network[k].Request? ==> Live(st.ledger, st.network[k].token))
            && (st.promise != Waiting && st.stored.Some? ==> Live(st.ledger, st.stored.value))
  {
    RunKeeps(rule, Begin(clock), events);
  }

  /** Main result, for the same runs: what happened whenever the tab cleared its tokens on its own account.
      The endpoint's own refusal is only ever about an expired token or a missing user. If the token was
      usable when it was presented, it was cleared while still live if and only if the answer came from
      outside: from the limiter, or from an exception before the revocation. And a token the tab acquired
      by a login meanwhile is cleared with the rest. */
  lemma ClearsLiveTokenExactly(rule: Limiter.Rule, clock: real, events: seq<Event>, c: Clearing)
    requires Runs(rule, Begin(clock), events) && !After(rule, Begin(clock), events).lost
    requires c in After(rule, Begin(clock), events).cleared
    ensures c.answer.FromEndpoint? && c.answer.reply.Refused? ==> Excused(c.answer.reply.reason) && !c.usable
    ensures c.usable && c.dropped == Some(c.presented) ==> (c.live <==> FromOutside(c.answer))
    ensures c.dropped.Some? && c.dropped != Some(c.presented) ==> c.live
  {
    RunKeeps(rule, Begin(clock), events);
    var st := After(rule, Begin(clock), events);
    var i :| 0 <= i < |st.cleared| && st.cleared[i] == c;
    assert ClearingGood(st.cleared[i]);
  }

  /** The limiter has room for one more request. */
  predicate HasRoom(rule: Limiter.Rule, admitted: seq<real>, tick: real) {
    |TimeWindows.After(admitted, tick - rule.windowSeconds as real)| < rule.maxRequests
  }

  lemma GrantedExactlyIf(rule: Limiter.Rule, st: State, e: Event)
    requires e.Arrive? && Possible(st, e)
    ensures Kept(AnswerTo(rule, st, e)).Some? <==>
              && HasRoom(rule, st.admitted, e.tick)
              && Usable(st.ledger, st.network[e.k].token, e.now, e.userExists) && e.stage == Completes
  {
  }

  lemma AnswerDelivered(rule: Limiter.Rule, st: State, e: Event)
    requires SingleFlight(st) && e.Arrive? && e.k == 0 && Possible(st, e)
    ensures Runs(rule, st, [e, Deliver(0)])
    ensures After(rule, st, [e, Deliver(0)]) == Delivered(Arrived(rule, st, e), 0)
    ensures After(rule, st, [e, Deliver(0)]).stored == Kept(AnswerTo(rule, st, e))
  {
    OneEvent(rule, st, e);
    OneEvent(rule, Apply(rule, st, e), Deliver(0));
    RunsConcat(rule, st, [e], [Deliver(0)]);
    assert [e] + [Deliver(0)] == [e, Deliver(0)];
  }

  /** Which refreshes keep the tab logged in, in terms of what holds before the request arrives: the window
      of its key has room, the token is usable, and nothing raises. */
  lemma RefreshSucceedsExactly(rule: Limiter.Rule, clock: real, events: seq<Event>, e: Event)
    requires Runs(rule, Begin(clock), events) && !After(rule, Begin(clock), events).lost
    requires e.Arrive? && e.k == 0 && Possible(After(rule, Begin(clock), events), e)
    ensures var st := After(rule, Begin(clock), events);
            && Runs(rule, st, [e, Deliver(0)])
            && var st' := After(rule, st, [e, Deliver(0)]);
               && (st'.stored.Some? <==>
                     && HasRoom(rule, st.admitted, e.tick)
                     && Usable(st.ledger, st.network[0].token, e.now, e.userExists)
                     && e.stage == Completes)
               && (st'.stored.Some? ==> Live(st'.ledger, st'.stored.value))
  {
    RunKeeps(rule, Begin(clock), events);
    var st := After(rule, Begin(clock), events);
    AnswerDelivered(rule, st, e);
    GrantedExactlyIf(rule, st, e);
    StepKeeps(rule, st, e);
  }

  /** A tab at rest that gets a 401, asks, and has its answer. */
  function Asking(e: Event): seq<Event> {
    [Unauthorized, e, Deliver(0)]
  }

  lemma AskedAndAnswered(rule: Limiter.Rule, st: State, e: Event)
    requires st.promise == Null && st.network == [] && st.stored.Some?
    requires e.Arrive? && e.k == 0 && e.id !in st.ledger.rows && st.clock <= e.tick
    ensures var asked := st.(promise := Waiting, network := [Request(st.stored.value)]);
            && Possible(asked, e)
            && Runs(rule, st, Asking(e))
            && After(rule, st, Asking(e)) == Delivered(Arrived(rule, asked, e), 0)
            && After(rule, st, Asking(e)).stored == Kept(AnswerTo(rule, asked, e))
  {
    var asked := st.(promise := Waiting, network := [Request(st.stored.value)]);
    OneEvent(rule, st, Unauthorized);
    assert Apply(rule, st, Unauthorized) == asked;
    AnswerDelivered(rule, asked, e);
    RunsConcat(rule, st, [Unauthorized], [e, Deliver(0)]);
    assert [Unauthorized] + [e, Deliver(0)] == Asking(e);
  }

  /** The tab has logged in and the requests of its key are `n` at one moment. */
  function Busy(user: UserId, id: TokenId, expires: real, tick: real, n: nat): seq<Event> {
    [LogIn(user, id, expires), LoggedIn(id)] + seq(n, _ => Traffic(tick))
  }

  function Logged(user: UserId, id: TokenId, expires: real, tick: real, n: nat): State {
    var l := Server.Apply(EMPTY, Login(user, id, expires));
    State(l, Some(id), Null, [], {}, [], false, Repeated(tick, n), tick)
  }

  lemma {:induction false} BusyRuns(rule: Limiter.Rule, user: UserId, id: TokenId, expires: real, tick: real, n: nat)
    requires n <= rule.maxRequests && rule.windowSeconds > 0
    ensures Runs(rule, Begin(tick), Busy(user, id, expires, tick, n))
    ensures After(rule, Begin(tick), Busy(user, id, expires, tick, n)) == Logged(user, id, expires, tick, n)
  {
    if n == 0 {
      var s1 := Apply(rule, Begin(tick), LogIn(user, id, expires));
      OneEvent(rule, Begin(tick), LogIn(user, id, expires));
      OneEvent(rule, s1, LoggedIn(id));
      RunsConcat(rule, Begin(tick), [LogIn(user, id, expires)], [LoggedIn(id)]);
      assert Busy(user, id, expires, tick, 0) == [LogIn(user, id, expires)] + [LoggedIn(id)];
      assert s1.logins - {id} == {};
    } else {
      BusyRuns(rule, user, id, expires, tick, n - 1);
      AllAfter(Repeated(tick, n - 1), tick - rule.windowSeconds as real);
      var before := Logged(user, id, expires, tick, n - 1);
      OneEvent(rule, before, Traffic(tick));
      RunsConcat(rule, Begin(tick), Busy(user, id, expires, tick, n - 1), [Traffic(tick)]);
      assert Busy(user, id, expires, tick, n) == Busy(user, id, expires, tick, n - 1) + [Traffic(tick)];
      assert Repeated(tick, n - 1) + [tick] == Repeated(tick, n);
    }
  }

  /** The promise "never logs itself out" fails: with the limit's worth of requests in the window, a 401
      makes the tab present a usable token, get 429, and discard the token, with nothing lost. */
  lemma ThrottledLogsOut(rule: Limiter.Rule, user: UserId, id: TokenId, next: TokenId, expires: real, now: real,
                         tick: real)
    requires rule.maxRequests >= 1 && rule.windowSeconds > 0 && now <= expires && next != id
    ensures var events := Busy(user, id, expires, tick, rule.maxRequests)
                          + Asking(Arrive(0, tick, now, true, next, expires, Completes));
            && Runs(rule, Begin(tick), events)
            && var st := After(rule, Begin(tick), events);
               && st.stored == None && !st.lost && Usable(st.ledger, id, now, true)
               && |st.cleared| == 1 && st.cleared[0].answer.TooManyRequests? && st.cleared[0].live
  {
    var n, arrive := rule.maxRequests, Arrive(0, tick, now, true, next, expires, Completes);
    var busy := Busy(user, id, expires, tick, n);
    BusyRuns(rule, user, id, expires, tick, n);
    AllAfter(Repeated(tick, n), tick - rule.windowSeconds as real);
    AskedAndAnswered(rule, Logged(user, id, expires, tick, n), arrive);
    RunsConcat(rule, Begin(tick), busy, Asking(arrive));
  }

  /** A granted response is under way. */
  predicate GrantUnderWay(st: State) {
    st.network != [] && st.network[0].Response? && Kept(st.network[0].answer).Some?
  }

  /** The next refresh after the one under way got lost. */
  function Again(e: Event): seq<Event> {
    [Lose(0), Settle] + Asking(e)
  }

  lemma UsedUpOrLive(st: State)
    requires TokensGood(st) && GrantUnderWay(st) && st.stored.Some?
    ensures Live(st.ledger, st.stored.value) <==> st.stored.value != st.network[0].token
  {
  }

  lemma LostAndSettled(rule: Limiter.Rule, st: State)
    requires SingleFlight(st) && st.network != []
    ensures var events := [Lose(0), Settle];
            && Runs(rule, st, events)
            && After(rule, st, events) ==
               st.(promise := Null, network := [], lost := st.lost || st.network[0].Response?)
  {
    var s1 := Apply(rule, st, Lose(0));
    assert s1.network == [];
    OneEvent(rule, st, Lose(0));
    OneEvent(rule, s1, Settle);
    RunsConcat(rule, st, [Lose(0)], [Settle]);
    assert [Lose(0)] + [Settle] == [Lose(0), Settle];
  }

  /** Why responses must not get lost. Take any run in which none did, that ends with a granted response
      under way. If that one is lost, the stored token is revoked exactly if it is the one that was used
      up, and the next refresh keeps the tab logged in exactly if it is another one, which is usable, the
      window has room and nothing raises. */
  lemma LostResponse(rule: Limiter.Rule, clock: real, events: seq<Event>, e: Event)
    requires Runs(rule, Begin(clock), events) && !After(rule, Begin(clock), events).lost
    requires var st := After(rule, Begin(clock), events);
             && GrantUnderWay(st) && st.stored.Some?
             && e.Arrive? && e.k == 0 && e.id !in st.ledger.rows && st.clock <= e.tick
    ensures var st := After(rule, Begin(clock), events);
            var s, used := st.stored.value, st.network[0].token;
            && (Live(st.ledger, s) <==> s != used)
            && Runs(rule, st, Again(e))
            && (After(rule, st, Again(e)).stored.Some? <==>
                  && s != used && Usable(st.ledger, s, e.now, e.userExists)
                  && HasRoom(rule, st.admitted, e.tick) && e.stage == Completes)
  {
    RunKeeps(rule, Begin(clock), events);
    var st := After(rule, Begin(clock), events);
    UsedUpOrLive(st);
    LostAndSettled(rule, st);
    var rest := After(rule, st, [Lose(0), Settle]);
    AskedAndAnswered(rule, rest, e);
    GrantedExactlyIf(rule, rest.(promise := Waiting, network := [Request(rest.stored.value)]), e);
    RunsConcat(rule, st, [Lose(0), Settle], Asking(e));
  }

  predicate NoLogin(events: seq<Event>) {
    forall i :: 0 <= i < |events| ==> !events[i].LoggedIn?
  }

  /** A granted response is under way, or a request that can still be granted. */
  predicate CanComeBack(rule: Limiter.Rule, st: State) {
    || GrantUnderWay(st)
    || (st.network != [] && st.network[0].Request? && Live(st.ledger, st.network[0].token) && rule.maxRequests >= 1)
  }

  /** Every token the tab holds was issued, whatever got lost. */
  ghost predicate Known(st: State) {
    forall t :: Holds(st, t) ==> t in st.ledger.rows
  }

  lemma RowsStay(l: Ledger, step: Step)
    requires Enabled(l, step)
    ensures forall t :: t in l.rows ==> t in Server.Apply(l, step).rows
    ensures forall t :: t in l.rows && Live(Server.Apply(l, step), t) ==> Live(l, t)
    ensures step.Refresh? && ReplyTo(l, step).Issued? ==> step.id in Server.Apply(l, step).rows
    ensures step.Login? ==> step.id in Server.Apply(l, step).rows
  {
  }

  lemma KnownArrives(rule: Limiter.Rule, st: State, e: Event)
    requires Known(st) && SingleFlight(st) && e.Arrive? && Possible(st, e)
    ensures Known(Apply(rule, st, e))
  {
    var t := st.network[0].token;
    RowsStay(st.ledger, RefreshStep(t, e));
    assert Carries(st.network[0], t) && Holds(st, t);
    var st' := Apply(rule, st, e);
    forall u | Holds(st', u) ensures u in st'.ledger.rows {
      assert Holds(st, u) || u == t || st'.network[0].answer == FromEndpoint(Issued(u));
    }
  }

  lemma KnownKeeps(rule: Limiter.Rule, st: State, e: Event)
    requires Known(st) && SingleFlight(st) && Possible(st, e)
    ensures Known(Apply(rule, st, e))
  {
    var st' := Apply(rule, st, e);
    match e
    case Arrive(_, _, _, _, _, _, _) => KnownArrives(rule, st, e);
    case LogIn(user, id, expires) =>
      RowsStay(st.ledger, Login(user, id, expires));
      assert forall t :: Holds(st', t) ==> t == id || Holds(st, t);
    case Elsewhere(step) =>
      RowsStay(st.ledger, step);
      assert forall t :: Holds(st', t) ==> Holds(st, t);
    case Deliver(k) =>
      assert st'.network == [];
      assert forall t :: Holds(st', t) && t !in st.logins ==> Carries(st.network[k], t);
    case Lose(k) =>
      assert st'.network == [];
      assert forall t :: Holds(st', t) ==> Holds(st, t);
    case Unauthorized => assert forall t :: Holds(st', t) ==> Holds(st, t);
    case _ => assert forall t :: Holds(st', t) ==> Holds(st, t);
  }

  ghost predicate StaysOut(rule: Limiter.Rule, st: State) {
    SingleFlight(st) && LimiterGood(rule, st) && Known(st) && st.stored == None && !CanComeBack(rule, st)
  }

  lemma ArriveStaysOut(rule: Limiter.Rule, st: State, e: Event)
    requires StaysOut(rule, st) && Possible(st, e) && e.Arrive?
    ensures !CanComeBack(rule, Apply(rule, st, e))
  {
    Limiter.DeniedExactlyWhenFull(st.admitted, rule, e.tick);
    GrantedExactlyIf(rule, st, e);
  }

  lemma ServerStaysOut(rule: Limiter.Rule, st: State, e: Event)
    requires StaysOut(rule, st) && Possible(st, e) && (e.LogIn? || e.Elsewhere?)
    ensures !CanComeBack(rule, Apply(rule, st, e))
  {
    RowsStay(st.ledger, if e.LogIn? then Login(e.user, e.id, e.expires) else e.step);
    if st.network != [] {
      assert Carries(st.network[0], st.network[0].token) && Holds(st, st.network[0].token);
    }
  }

  lemma StaysOutOnce(rule: Limiter.Rule, st: State, e: Event)
    requires StaysOut(rule, st) && Possible(st, e) && !e.LoggedIn?
    ensures StaysOut(rule, Apply(rule, st, e))
  {
    KnownKeeps(rule, st, e);
    match e
    case Arrive(_, _, _, _, _, _, _) =>
      RecordedKeeps(rule, st.admitted, st.clock, e.tick);
      ArriveStaysOut(rule, st, e);
    case Traffic(tick) => RecordedKeeps(rule, st.admitted, st.clock, tick);
    case LogIn(_, _, _) => ServerStaysOut(rule, st, e);
    case Elsewhere(_) => ServerStaysOut(rule, st, e);
    case _ =>
  }

  lemma {:induction false} StaysLoggedOut(rule: Limiter.Rule, st: State, events: seq<Event>)
    requires StaysOut(rule, st) && Runs(rule, st, events) && NoLogin(events)
    ensures After(rule, st, events).stored == None
    decreases |events|
  {
    if events != [] {
      assert !events[0].LoggedIn?;
      assert forall i :: 0 <= i < |events| - 1 ==> events[1..][i] == events[i + 1];
      StaysOutOnce(rule, st, events[0]);
      StaysLoggedOut(rule, Apply(rule, st, events[0]), events[1..]);
    }
  }

  lemma {:induction false} RunKnows(rule: Limiter.Rule, st: State, events: seq<Event>)
    requires Inv(rule, st) && Known(st) && Runs(rule, st, events)
    ensures Known(After(rule, st, events))
    decreases |events|
  {
    if events != [] {
      StepKeeps(rule, st, events[0]);
      KnownKeeps(rule, st, events[0]);
      RunKnows(rule, Apply(rule, st, events[0]), events[1..]);
    }
  }

  ghost predicate LogOutLasts(rule: Limiter.Rule, st: State) {
    forall events :: Runs(rule, Apply(rule, st, LogOut), events) && NoLogin(events) ==>
      After(rule, Apply(rule, st, LogOut), events).stored == None
  }

  /** When a full window has passed, nothing admitted so far counts any more. */
  lemma RoomLater(rule: Limiter.Rule, st: State) returns (tick: real)
    requires LimiterGood(rule, st) && rule.maxRequests >= 1
    ensures st.clock <= tick && HasRoom(rule, st.admitted, tick)
  {
    tick := st.clock + (if rule.windowSeconds > 0 then rule.windowSeconds as real else 0.0);
    Limiter.ProducedAscends(st.admitted, rule);
    var _ := AfterIsSuffix(st.admitted, tick - rule.windowSeconds as real);
    Limiter.NoneLater(st.admitted, st.clock);
  }

  lemma ComesBack(rule: Limiter.Rule, st: State, id: TokenId, expires: real) returns (events: seq<Event>)
    requires CanComeBack(rule, st) && SingleFlight(st) && LimiterGood(rule, st) && id !in st.ledger.rows
    ensures Runs(rule, st, events) && NoLogin(events) && After(rule, st, events).stored.Some?
  {
    if st.network[0].Response? {
      events := [Deliver(0)];
      OneEvent(rule, st, Deliver(0));
    } else {
      var tick := RoomLater(rule, st);
      var arrive := Arrive(0, tick, st.ledger.rows[st.network[0].token].expires, true, id, expires, Completes);
      events := [arrive, Deliver(0)];
      AnswerDelivered(rule, st, arrive);
    }
  }

  /** `clearTokens` does not stop a refresh under way, which then saves its tokens. So a logout lasts, up
      to the next login, exactly if no refresh is under way that is, or can still be, granted; this holds
      in every run, whatever got lost. */
  lemma LogOutLastsExactly(rule: Limiter.Rule, clock: real, events: seq<Event>, id: TokenId, expires: real)
    requires Runs(rule, Begin(clock), events)
    requires id !in After(rule, Begin(clock), events).ledger.rows
    ensures var st := After(rule, Begin(clock), events); LogOutLasts(rule, st) <==> !CanComeBack(rule, st)
  {
    RunKeeps(rule, Begin(clock), events);
    RunKnows(rule, Begin(clock), events);
    var st := After(rule, Begin(clock), events);
    var out := Apply(rule, st, LogOut);
    KnownKeeps(rule, st, LogOut);
    if !CanComeBack(rule, st) {
      forall more | Runs(rule, out, more) && NoLogin(more) ensures After(rule, out, more).stored == None {
        StaysLoggedOut(rule, out, more);
      }
    } else {
      var more := ComesBack(rule, out, id, expires);
    }
  }

  /** The token functions of src/viewer/src/auth.ts. */
  class AuthClient {
    var refreshToken: Option<TokenId>
    var refreshPromise: Promise

    constructor ()
      ensures refreshToken == None && refreshPromise == Null
    {
      refreshToken, refreshPromise := None, Null;
    }

    method SaveTokens(token: TokenId)
      modifies this`refreshToken
      ensures refreshToken == Some(token)
    {
      refreshToken := Some(token);
    }

    method ClearTokens()
      modifies this`refreshToken
      ensures refreshToken == None
    {
      refreshToken := None;
    }

    /** `refreshAccessToken` up to its first await: the request it sends, if any. Without a stored
        token the new promise is rejected at once. */
    method RefreshAccessToken() returns (request: Option<TokenId>)
      modifies this`refreshPromise
      ensures request == if old(refreshPromise) == Null then refreshToken else None
      ensures refreshPromise == if old(refreshPromise) != Null then old(refreshPromise)
                                else if refreshToken.Some? then Waiting else Settled
    {
      if refreshPromise != Null {
        return None;
      }
      request := refreshToken;
      refreshPromise := if refreshToken.Some? then Waiting else Settled;
    }

    /** `authFetch` on a 401. */
    method OnUnauthorized() returns (sent: seq<Flight>)
      modifies this`refreshPromise
      ensures if refreshToken.Some? && old(refreshPromise) == Null
              then refreshPromise == Waiting && sent == [Request(refreshToken.value)]
              else refreshPromise == old(refreshPromise) && sent == []
    {
      sent := [];
      if refreshToken.Some? {
        var request := RefreshAccessToken();
        if request.Some? {
          sent := [Request(request.value)];
        }
      }
    }

    /** The rest of `refreshAccessToken`, once it has its answer: `ok` is the status check of fetch, and
        the body is read only then. */
    method OnAnswer(answer: Answer)
      modifies this
      ensures answer.FromEndpoint? && answer.reply.Issued? ==> refreshToken == Some(answer.reply.token)
      ensures !(answer.FromEndpoint? && answer.reply.Issued?) ==> refreshToken == None
      ensures refreshPromise == Settled
    {
      var ok := answer.FromEndpoint? && answer.reply.Issued?;
      if !ok {
        ClearTokens();
      } else {
        SaveTokens(answer.reply.token);
      }
      refreshPromise := Settled;
    }

    /** The rest of it if `fetch` throws: the tokens stay. */
    method OnNetworkError()
      modifies this`refreshPromise
      ensures refreshPromise == Settled
    {
      refreshPromise := Settled;
    }

    /** The `finally` of the promise. */
    method Finally()
      modifies this`refreshPromise
      ensures refreshPromise == Null
    {
      refreshPromise := Null;
    }
  }

  /** The tab, the server and the limiter hold what the machine says they hold; `key` is the limiter's key
      for the refreshes of this tab, on which no other rule meets. */
  ghost predicate Mirrors(client: AuthClient, server: AuthServer, limiter: Gate.RateLimiter, key: string, st: State)
    reads client, server, server.store, limiter
  {
    && client.refreshToken == st.stored && client.refreshPromise == st.promise
    && server.Valid() && server.ledger == st.ledger
    && limiter.Valid() && Keys.Meet(limiter.pathRules, limiter.defaultRule, key, Keys.EQUAL)
    && limiter.History(key) == st.admitted && limiter.clock <= st.clock
  }

  method UnauthorizedStep(client: AuthClient, server: AuthServer, limiter: Gate.RateLimiter, ghost key: string,
                          ghost rule: Limiter.Rule, ghost st: State)
    returns (sent: seq<Flight>)
    requires Mirrors(client, server, limiter, key, st)
    modifies client
    ensures Mirrors(client, server, limiter, key, Apply(rule, st, Unauthorized))
    ensures Apply(rule, st, Unauthorized).network == st.network + sent
  {
    sent := client.OnUnauthorized();
  }

  /** A refresh reaches the application: the limiter first, the endpoint only if it is let through. */
  method ArriveStep(client: AuthClient, server: AuthServer, limiter: Gate.RateLimiter, q: Keys.Request, token: TokenId,
                    tick: real, now: real, userExists: bool, id: TokenId, expires: real, stage: Stage,
                    ghost st: State, ghost k: nat)
    returns (answer: Answer)
    requires Mirrors(client, server, limiter, Keys.Key(limiter.pathRules, q), st) && ':' !in q.httpMethod
    requires Possible(st, Arrive(k, tick, now, userExists, id, expires, stage)) && st.network[k].token == token
    modifies server, server.store, limiter
    ensures var rule := Keys.RuleOf(limiter.pathRules, limiter.defaultRule, q);
            var e := Arrive(k, tick, now, userExists, id, expires, stage);
            && Mirrors(client, server, limiter, Keys.Key(limiter.pathRules, q), Apply(rule, st, e))
            && answer == AnswerTo(rule, st, e)
  {
    Gate.OneRuleUndisturbed(limiter.pathRules, limiter.defaultRule, Keys.Key(limiter.pathRules, q));
    var decision := limiter.Dispatch(q, tick);
    match decision {
      case Denied(retryAfter) => answer := TooManyRequests(retryAfter);
      case IndexError => answer := LimiterFailed;
      case Admitted =>
        var reply := server.RefreshTokens(Some(token), now, userExists, id, expires, stage);
        answer := FromEndpoint(reply);
    }
  }

  /** Any other request on the key falls under the same rule, and counts. */
  method TrafficStep(client: AuthClient, server: AuthServer, limiter: Gate.RateLimiter, ghost q: Keys.Request,
                     other: Keys.Request, tick: real, ghost st: State)
    requires Mirrors(client, server, limiter, Keys.Key(limiter.pathRules, q), st) && ':' !in q.httpMethod
    requires Possible(st, Traffic(tick)) && Keys.On(limiter.pathRules, other, Keys.Key(limiter.pathRules, q))
    modifies limiter
    ensures var rule := Keys.RuleOf(limiter.pathRules, limiter.defaultRule, q);
            Mirrors(client, server, limiter, Keys.Key(limiter.pathRules, q), Apply(rule, st, Traffic(tick)))
  {
    Gate.OneRuleUndisturbed(limiter.pathRules, limiter.defaultRule, Keys.Key(limiter.pathRules, q));
    assert Keys.On(limiter.pathRules, q, Keys.Key(limiter.pathRules, q));
    assert Keys.EQUAL(Keys.RuleOf(limiter.pathRules, limiter.defaultRule, q),
                      Keys.RuleOf(limiter.pathRules, limiter.defaultRule, other));
    var _ := limiter.Dispatch(other, tick);
  }

  method DeliverStep(client: AuthClient, server: AuthServer, limiter: Gate.RateLimiter, answer: Answer,
                     ghost key: string, ghost rule: Limiter.Rule, ghost st: State, ghost k: nat)
    requires Mirrors(client, server, limiter, key, st)
    requires Possible(st, Deliver(k)) && st.network[k].answer == answer
    modifies client
    ensures Mirrors(client, server, limiter, key, Apply(rule, st, Deliver(k)))
  {
    client.OnAnswer(answer);
  }

  method LoseStep(client: AuthClient, server: AuthServer, limiter: Gate.RateLimiter, ghost key: string,
                  ghost rule: Limiter.Rule, ghost st: State, ghost k: nat)
    requires Mirrors(client, server, limiter, key, st) && Possible(st, Lose(k))
    modifies client
    ensures Mirrors(client, server, limiter, key, Apply(rule, st, Lose(k)))
  {
    client.OnNetworkError();
  }

  method SettleStep(client: AuthClient, server: AuthServer, limiter: Gate.RateLimiter, ghost key: string,
                    ghost rule: Limiter.Rule, ghost st: State)
    requires Mirrors(client, server, limiter, key, st) && Possible(st, Settle)
    modifies client
    ensures Mirrors(client, server, limiter, key, Apply(rule, st, Settle))
  {
    client.Finally();
  }

  method LogInStep(client: AuthClient, server: AuthServer, limiter: Gate.RateLimiter, user: UserId, id: TokenId,
                   expires: real, ghost key: string, ghost rule: Limiter.Rule, ghost st: State)
    requires Mirrors(client, server, limiter, key, st) && Possible(st, LogIn(user, id, expires))
    modifies server, server.store
    ensures Mirrors(client, server, limiter, key, Apply(rule, st, LogIn(user, id, expires)))
  {
    server.FinishLogin(user, id, expires);
  }

  method LoggedInStep(client: AuthClient, server: AuthServer, limiter: Gate.RateLimiter, id: TokenId,
                      ghost key: string, ghost rule: Limiter.Rule, ghost st: State)
    requires Mirrors(client, server, limiter, key, st) && Possible(st, LoggedIn(id))
    modifies client
    ensures Mirrors(client, server, limiter, key, Apply(rule, st, LoggedIn(id)))
  {
    client.SaveTokens(id);
  }

  method LogOutStep(client: AuthClient, server: AuthServer, limiter: Gate.RateLimiter, ghost key: string,
                    ghost rule: Limiter.Rule, ghost st: State)
    requires Mirrors(client, server, limiter, key, st)
    modifies client
    ensures Mirrors(client, server, limiter, key, Apply(rule, st, LogOut))
  {
    client.ClearTokens();
  }
}

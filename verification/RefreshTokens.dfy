/** Refresh-token rotation on the server (src/api/auth.py:292-355, src/api/db.py:91-146), requests one
    after the other, each of which may fail with an exception between its database calls. Token ids are
    new uuids. A decoded token is its id; its subject is the user it was issued to. */
module RefreshTokens {
  import opened Prelude

  type TokenId = string

  type UserId = string

  datatype Row = Row(user: UserId, expires: real, revoked: bool)

  /** The table, and what happened so far: the logins in order, the tokens a refresh was granted for,
      the token each rotated one came from, and the login each one descends from. */
  datatype Ledger = Ledger(
    rows: map<TokenId, Row>,
    logins: seq<UserId>,
    accepted: map<TokenId, nat>,
    parent: map<TokenId, TokenId>,
    origin: map<TokenId, nat>)
  {
    /** How often a refresh was granted for this token. */
    function Accepted(t: TokenId): nat {
      if t in accepted then accepted[t] else 0
    }
  }

  const EMPTY := Ledger(map[], [], map[], map[], map[])

  datatype Reason = Malformed | NotStored | Expired | UserMissing

  /** How far a refresh gets before something in it raises, if anything does. */
  datatype Stage = Completes | RaisesBeforeRevoke | RaisesAfterRevoke | RaisesAfterCreate

  /** Raised is status 500; where it was raised is not part of the answer, only of the model. */
  datatype Reply = Issued(token: TokenId) | Refused(reason: Reason) | Raised(at: Stage)

  /** `token` is None if the JWT does not decode or is not a refresh token. `userExists` is the answer
      of the user table. */
  datatype Step =
    | Login(user: UserId, id: TokenId, expires: real)
    | Refresh(token: Option<TokenId>, now: real, userExists: bool, id: TokenId, expires: real, stage: Stage)

  predicate Enabled(l: Ledger, step: Step) {
    step.id !in l.rows
  }

  predicate Live(l: Ledger, t: TokenId) {
    t in l.rows && !l.rows[t].revoked
  }

  /** The request gets as far as revoking the token it presents. */
  predicate Spends(l: Ledger, step: Step)
    requires step.Refresh?
  {
    && step.token.Some? && step.stage != RaisesBeforeRevoke
    && Live(l, step.token.value) && l.rows[step.token.value].expires >= step.now
  }

  /** And as far as creating its successor. */
  predicate Rotates(l: Ledger, step: Step)
    requires step.Refresh?
  {
    Spends(l, step) && step.stage != RaisesAfterRevoke && step.userExists
  }

  /** What the refresh endpoint answers. */
  function ReplyTo(l: Ledger, step: Step): Reply
    requires step.Refresh?
  {
    match step.token
    case None => Refused(Malformed)
    case Some(t) =>
      if step.stage == RaisesBeforeRevoke then Raised(step.stage)
      else if !Live(l, t) then Refused(NotStored)
      else if l.rows[t].expires < step.now then Refused(Expired)
      else if step.stage == RaisesAfterRevoke then Raised(step.stage)
      else if !step.userExists then Refused(UserMissing)
      else if step.stage == RaisesAfterCreate then Raised(step.stage)
      else Issued(step.id)
  }

  function Revoked(rows: map<TokenId, Row>, t: TokenId): map<TokenId, Row> {
    if t in rows then rows[t := rows[t].(revoked := true)] else rows
  }

  function Apply(l: Ledger, step: Step): Ledger
    requires Enabled(l, step)
  {
    match step
    case Login(user, id, expires) =>
      l.(rows := l.rows[id := Row(user, expires, false)], logins := l.logins + [user],
         origin := l.origin[id := |l.logins|])
    case Refresh(token, _, _, id, expires, _) =>
      if Rotates(l, step) then
        var t := token.value;
        Ledger(Revoked(l.rows, t)[id := Row(l.rows[t].user, expires, false)], l.logins,
               l.accepted[t := l.Accepted(t) + 1], l.parent[id := t],
               if t in l.origin then l.origin[id := l.origin[t]] else l.origin)
      else if Spends(l, step) then l.(rows := Revoked(l.rows, token.value))
      else l
  }

  predicate Runs(l: Ledger, steps: seq<Step>)
    decreases |steps|
  {
    steps == [] || (Enabled(l, steps[0]) && Runs(Apply(l, steps[0]), steps[1..]))
  }

  function After(l: Ledger, steps: seq<Step>): Ledger
    requires Runs(l, steps)
    decreases |steps|
  {
    if steps == [] then l else After(Apply(l, steps[0]), steps[1..])
  }

  /** Every token descends from a login of its user. */
  ghost predicate Rooted(l: Ledger) {
    && l.origin.Keys == l.rows.Keys
    && (forall t :: t in l.rows ==> l.origin[t] < |l.logins| && l.rows[t].user == l.logins[l.origin[t]])
  }

  ghost predicate AcceptedOnce(l: Ledger) {
    forall t :: t in l.accepted ==> l.accepted[t] <= 1 && t in l.rows && l.rows[t].revoked
  }

  ghost predicate LinkedAt(l: Ledger, c: TokenId)
    requires c in l.parent
  {
    var p := l.parent[c];
    p in l.accepted && p in l.origin && c in l.origin && l.origin[p] == l.origin[c]
  }

  /** Successors come from accepted tokens and stay in the chain. */
  ghost predicate Linked(l: Ledger)
    requires Rooted(l) && AcceptedOnce(l)
  {
    && l.parent.Keys <= l.rows.Keys
    && (forall c :: c in l.parent ==> LinkedAt(l, c))
  }

  ghost predicate OneSuccessor(l: Ledger) {
    forall c, d :: c in l.parent && d in l.parent && l.parent[c] == l.parent[d] ==> c == d
  }

  ghost predicate OneLive(l: Ledger)
    requires Rooted(l)
  {
    forall t, u :: Live(l, t) && Live(l, u) && l.origin[t] == l.origin[u] ==> t == u
  }

  ghost predicate Inv(l: Ledger) {
    Rooted(l) && AcceptedOnce(l) && Linked(l) && OneSuccessor(l) && OneLive(l)
  }

  /** What a step leaves of a token that was there before. */
  lemma OldToken(l: Ledger, step: Step, t: TokenId)
    requires Rooted(l) && Enabled(l, step) && t in l.rows
    ensures var l' := Apply(l, step);
            && t in l'.rows && l'.rows[t].user == l.rows[t].user && t in l'.origin && l'.origin[t] == l.origin[t]
            && (l.rows[t].revoked ==> l'.rows[t].revoked)
            && (t in l'.parent <==> t in l.parent) && (t in l.parent ==> l'.parent[t] == l.parent[t])
  {
  }

  /** A token that is new after a step is the first of a login or the successor of the token presented. */
  lemma NewToken(l: Ledger, step: Step, t: TokenId)
    requires Rooted(l) && Enabled(l, step) && t !in l.rows && t in Apply(l, step).rows
    ensures var l' := Apply(l, step);
            && t == step.id && t in l'.origin
            && (step.Login? ==>
                  && l'.logins == l.logins + [l'.rows[t].user]
                  && l'.origin[t] == |l.logins| && l'.parent == l.parent)
            && (step.Refresh? ==>
                  && l'.logins == l.logins && step.token.Some?
                  && (var p := step.token.value;
                      && Live(l, p) && !Live(l', p) && l'.rows[t].user == l.rows[p].user
                      && l'.origin[t] == l.origin[p] && l'.parent == l.parent[t := p] && p in l'.accepted))
  {
  }

  lemma KeepsRooted(l: Ledger, step: Step)
    requires Rooted(l) && Enabled(l, step)
    ensures Rooted(Apply(l, step))
  {
    var l' := Apply(l, step);
    forall t | t in l'.rows ensures l'.origin[t] < |l'.logins| && l'.rows[t].user == l'.logins[l'.origin[t]] {
      if t in l.rows {
        OldToken(l, step, t);
      } else {
        NewToken(l, step, t);
      }
    }
  }

  lemma KeepsAcceptedOnce(l: Ledger, step: Step)
    requires AcceptedOnce(l) && Enabled(l, step)
    ensures AcceptedOnce(Apply(l, step))
  {
  }

  lemma KeepsLinked(l: Ledger, step: Step)
    requires Rooted(l) && AcceptedOnce(l) && Linked(l) && Enabled(l, step)
    requires Rooted(Apply(l, step)) && AcceptedOnce(Apply(l, step))
    ensures Linked(Apply(l, step))
  {
    var l' := Apply(l, step);
    forall c | c in l'.parent ensures c in l'.rows && LinkedAt(l', c) {
      if c in l.rows {
        OldToken(l, step, c);
        assert LinkedAt(l, c);
        OldToken(l, step, l.parent[c]);
      } else {
        NewToken(l, step, c);
        OldToken(l, step, l'.parent[c]);
      }
    }
  }

  /** The token that was accepted had been unrevoked, so it had no successor yet. */
  lemma KeepsOneSuccessor(l: Ledger, step: Step)
    requires Rooted(l) && AcceptedOnce(l) && Linked(l) && OneSuccessor(l) && Enabled(l, step)
    ensures OneSuccessor(Apply(l, step))
  {
    var l' := Apply(l, step);
    forall c, d | c in l'.parent && d in l'.parent && l'.parent[c] == l'.parent[d] ensures c == d {
      assert c != step.id ==> c in l.parent && l'.parent[c] == l.parent[c];
      assert d != step.id ==> d in l.parent && l'.parent[d] == l.parent[d];
    }
  }

  lemma OneLiveAfter(l: Ledger, step: Step, t: TokenId, u: TokenId)
    requires Rooted(l) && OneLive(l) && Enabled(l, step) && Rooted(Apply(l, step))
    requires var l' := Apply(l, step); Live(l', t) && Live(l', u) && l'.origin[t] == l'.origin[u]
    ensures u in l.rows ==> t == u
    ensures u !in l.rows && t !in l.rows ==> t == u
  {
    if t in l.rows {
      OldToken(l, step, t);
    } else {
      NewToken(l, step, t);
    }
    if u in l.rows {
      OldToken(l, step, u);
    } else {
      NewToken(l, step, u);
    }
  }

  lemma KeepsOneLive(l: Ledger, step: Step)
    requires Rooted(l) && OneLive(l) && Enabled(l, step) && Rooted(Apply(l, step))
    ensures OneLive(Apply(l, step))
  {
    var l' := Apply(l, step);
    forall t, u | Live(l', t) && Live(l', u) && l'.origin[t] == l'.origin[u] ensures t == u {
      OneLiveAfter(l, step, t, u);
      OneLiveAfter(l, step, u, t);
    }
  }

  lemma StepKeeps(l: Ledger, step: Step)
    requires Inv(l) && Enabled(l, step)
    ensures Inv(Apply(l, step))
  {
    KeepsRooted(l, step);
    KeepsAcceptedOnce(l, step);
    KeepsLinked(l, step);
    KeepsOneSuccessor(l, step);
    KeepsOneLive(l, step);
  }

  lemma {:induction false} RunKeeps(l: Ledger, steps: seq<Step>)
    requires Inv(l) && Runs(l, steps)
    ensures Inv(After(l, steps))
    decreases |steps|
  {
    if steps != [] {
      StepKeeps(l, steps[0]);
      RunKeeps(Apply(l, steps[0]), steps[1..]);
    }
  }

  /** Main result, for every run: a token is accepted at most once and then revoked, has at most one
      successor, and of all tokens descending from one login at most one is unrevoked. */
  lemma RotationSafe(steps: seq<Step>, t: TokenId, u: TokenId)
    requires Runs(EMPTY, steps)
    ensures var l := After(EMPTY, steps);
            && l.Accepted(t) <= 1
            && (l.Accepted(t) > 0 ==> !Live(l, t))
            && (t in l.parent && u in l.parent && l.parent[t] == l.parent[u] ==> t == u)
            && (Live(l, t) && Live(l, u) && t in l.origin && u in l.origin && l.origin[t] == l.origin[u] ==> t == u)
  {
    RunKeeps(EMPTY, steps);
  }

  /** A token once revoked stays revoked, whatever follows. */
  lemma {:induction false} RevocationIsFinal(l: Ledger, steps: seq<Step>, t: TokenId)
    requires Runs(l, steps) && t in l.rows && l.rows[t].revoked
    ensures var l' := After(l, steps); t in l'.rows && l'.rows[t].revoked
    decreases |steps|
  {
    if steps != [] {
      RevocationIsFinal(Apply(l, steps[0]), steps[1..], t);
    }
  }

  predicate PresentsInTime(l: Ledger, step: Step, t: TokenId) {
    && step.Refresh? && step.token == Some(t) && step.stage != RaisesBeforeRevoke
    && t in l.rows && l.rows[t].expires >= step.now
  }

  /** Somewhere in the run a request for this token got as far as revoking it, or tried to in vain
      because it was revoked already. Expiry times never change, so this can be read off the requests. */
  predicate Presented(l: Ledger, steps: seq<Step>, t: TokenId)
    requires Runs(l, steps)
    decreases |steps|
  {
    steps != [] &&
    (PresentsInTime(l, steps[0], t) || Presented(Apply(l, steps[0]), steps[1..], t))
  }

  lemma {:induction false} UnspentExactly(l: Ledger, steps: seq<Step>, t: TokenId)
    requires Runs(l, steps)
    ensures var l' := After(l, steps);
            && (t in l.rows ==>
                  t in l'.rows && l'.rows[t].expires == l.rows[t].expires && l'.rows[t].user == l.rows[t].user)
            && (Live(l', t) <==> t in l'.rows && !(t in l.rows && l.rows[t].revoked) && !Presented(l, steps, t))
    decreases |steps|
  {
    if steps != [] {
      UnspentExactly(Apply(l, steps[0]), steps[1..], t);
    }
  }

  /** Step m presents the token of step i, which expires then, in time. */
  predicate PresentsAt(steps: seq<Step>, i: nat, m: nat)
    requires i < |steps| && m < |steps|
  {
    && steps[m].Refresh? && steps[m].token == Some(steps[i].id) && steps[m].stage != RaisesBeforeRevoke
    && steps[m].now <= steps[i].expires
  }

  /** Between step i, which issued it, and step n its token was not presented in time. */
  predicate UnpresentedUntil(steps: seq<Step>, i: nat, n: nat)
    requires i < |steps| && n <= |steps|
  {
    forall m :: i < m < n ==> !PresentsAt(steps, i, m)
  }

  /** Read off the steps alone: step n issues a token to this user. A login does; and a refresh that gets so far
      does if it presents, in time and for the first time, a token that was issued to the user. */
  ghost predicate IssuedTo(steps: seq<Step>, n: nat, user: UserId)
    requires n < |steps|
  {
    match steps[n]
    case Login(u, _, _) => u == user
    case Refresh(token, now, userExists, _, _, stage) =>
      && token.Some? && userExists && (stage == Completes || stage == RaisesAfterCreate)
      && exists i :: 0 <= i < n && steps[i].id == token.value && IssuedTo(steps, i, user)
                     && now <= steps[i].expires && UnpresentedUntil(steps, i, n)
  }

  /** The row of a token, as the steps have it. */
  ghost predicate RowOf(steps: seq<Step>, t: TokenId, row: Row) {
    exists i :: 0 <= i < |steps| && steps[i].id == t && IssuedTo(steps, i, row.user) && row.expires == steps[i].expires
                && (row.revoked <==> !UnpresentedUntil(steps, i, |steps|))
  }

  /** No two steps issue the same token, or one token to two users. */
  ghost predicate IssuedOnce(steps: seq<Step>) {
    forall i, j, u, v :: 0 <= i < |steps| && 0 <= j < |steps| && steps[i].id == steps[j].id ==>
      IssuedTo(steps, i, u) && IssuedTo(steps, j, v) ==> i == j && u == v
  }

  /** The table is what the steps make of it. */
  ghost predicate Tabled(steps: seq<Step>, l: Ledger) {
    && IssuedOnce(steps)
    && (forall t :: t in l.rows ==> RowOf(steps, t, l.rows[t]))
    && (forall i, user :: 0 <= i < |steps| && IssuedTo(steps, i, user) ==> steps[i].id in l.rows)
  }

  lemma {:induction false} RunSplits(l: Ledger, steps: seq<Step>, n: nat)
    requires Runs(l, steps) && n < |steps|
    ensures Runs(l, steps[..n]) && Enabled(After(l, steps[..n]), steps[n])
    ensures Runs(l, steps[..n + 1])
    ensures After(l, steps[..n + 1]) == Apply(After(l, steps[..n]), steps[n])
    decreases n
  {
    if n == 0 {
      assert steps[..1] == [steps[0]] && steps[..1][1..] == [];
    } else {
      RunSplits(Apply(l, steps[0]), steps[1..], n - 1);
      assert steps[1..][..n - 1] == steps[..n][1..];
      assert steps[1..][..n] == steps[..n + 1][1..];
    }
  }

  /** What later steps do not change. */
  lemma {:induction false} IssuedStill(steps: seq<Step>, more: seq<Step>, n: nat, user: UserId)
    requires n < |steps| && steps <= more
    ensures IssuedTo(more, n, user) <==> IssuedTo(steps, n, user)
  {
    if steps[n].Refresh? {
      forall i | 0 <= i < n ensures IssuedTo(more, i, user) <==> IssuedTo(steps, i, user) {
        IssuedStill(steps, more, i, user);
      }
      forall i | 0 <= i < n ensures UnpresentedUntil(more, i, n) <==> UnpresentedUntil(steps, i, n) {
        assert forall m :: i < m < n ==> (PresentsAt(more, i, m) <==> PresentsAt(steps, i, m));
      }
    }
  }

  lemma UnpresentedStill(front: seq<Step>, step: Step, i: nat, n: nat)
    requires i < |front| && n <= |front|
    ensures UnpresentedUntil(front + [step], i, n) <==> UnpresentedUntil(front, i, n)
  {
    var steps := front + [step];
    assert forall m :: i < m < n ==> (PresentsAt(steps, i, m) <==> PresentsAt(front, i, m));
  }

  /** The next step issues a token exactly if the table says so. */
  lemma NextIssues(front: seq<Step>, l: Ledger, step: Step, user: UserId)
    requires Tabled(front, l)
    ensures IssuedTo(front + [step], |front|, user) <==>
            if step.Login? then step.user == user
            else Rotates(l, step) && l.rows[step.token.value].user == user
  {
    var steps, n := front + [step], |front|;
    if step.Refresh? && step.token.Some? {
      var t := step.token.value;
      forall i | 0 <= i < n
        ensures IssuedTo(steps, i, user) <==> IssuedTo(front, i, user)
        ensures steps[i] == front[i] && (UnpresentedUntil(steps, i, n) <==> UnpresentedUntil(front, i, n))
      {
        IssuedStill(front, steps, i, user);
        UnpresentedStill(front, step, i, n);
      }
      if t in l.rows {
        assert RowOf(front, t, l.rows[t]);
      }
    }
  }

  lemma NextRevokes(l: Ledger, step: Step, t: TokenId)
    requires Enabled(l, step) && t in l.rows
    ensures var l' := Apply(l, step);
            && t in l'.rows && l'.rows[t].user == l.rows[t].user && l'.rows[t].expires == l.rows[t].expires
            && (l'.rows[t].revoked <==> l.rows[t].revoked || PresentsInTime(l, step, t))
  {
  }

  lemma RowGoesOn(front: seq<Step>, step: Step, t: TokenId, row: Row, row': Row)
    requires RowOf(front, t, row) && row'.user == row.user && row'.expires == row.expires
    requires row'.revoked <==>
               row.revoked || (step.Refresh? && step.token == Some(t) && step.stage != RaisesBeforeRevoke
                               && step.now <= row.expires)
    ensures RowOf(front + [step], t, row')
  {
    var steps, n := front + [step], |front|;
    var i :| 0 <= i < n && front[i].id == t && IssuedTo(front, i, row.user) && row.expires == front[i].expires
             && (row.revoked <==> !UnpresentedUntil(front, i, n));
    IssuedStill(front, steps, i, row.user);
    UnpresentedStill(front, step, i, n);
    assert UnpresentedUntil(steps, i, n + 1) <==> UnpresentedUntil(steps, i, n) && !PresentsAt(steps, i, n);
    assert steps[i] == front[i];
  }

  lemma OldRow(front: seq<Step>, l: Ledger, step: Step, t: TokenId)
    requires Tabled(front, l) && Enabled(l, step) && t in l.rows
    ensures t in Apply(l, step).rows && RowOf(front + [step], t, Apply(l, step).rows[t])
  {
    NextRevokes(l, step, t);
    RowGoesOn(front, step, t, l.rows[t], Apply(l, step).rows[t]);
  }

  lemma StillOnce(front: seq<Step>, l: Ledger, step: Step)
    requires Tabled(front, l) && Enabled(l, step)
    ensures IssuedOnce(front + [step])
  {
    var steps, n := front + [step], |front|;
    forall i, j, u, v | 0 <= i < |steps| && 0 <= j < |steps| && steps[i].id == steps[j].id
                        && IssuedTo(steps, i, u) && IssuedTo(steps, j, v)
      ensures i == j && u == v
    {
      if i < n {
        IssuedStill(front, steps, i, u);
      } else {
        NextIssues(front, l, step, u);
      }
      if j < n {
        IssuedStill(front, steps, j, v);
      } else {
        NextIssues(front, l, step, v);
      }
    }
  }

  lemma TabledNext(front: seq<Step>, l: Ledger, step: Step)
    requires Tabled(front, l) && Enabled(l, step)
    ensures Tabled(front + [step], Apply(l, step))
  {
    var steps, n, l' := front + [step], |front|, Apply(l, step);
    StillOnce(front, l, step);
    forall t | t in l'.rows ensures RowOf(steps, t, l'.rows[t]) {
      if t in l.rows {
        OldRow(front, l, step, t);
      } else {
        NextIssues(front, l, step, l'.rows[t].user);
        assert UnpresentedUntil(steps, n, n + 1);
      }
    }
    forall i, user | 0 <= i < |steps| && IssuedTo(steps, i, user) ensures steps[i].id in l'.rows {
      if i < n {
        IssuedStill(front, steps, i, user);
        OldRow(front, l, step, front[i].id);
      } else {
        NextIssues(front, l, step, user);
      }
    }
  }

  /** Main result: the table is what the steps make of it. After any run a token is in the table if and only if
      some step issued it; its user and its expiry are those of that step; and it is revoked if and only if it
      was presented in time since. */
  lemma {:induction false} TableExactly(steps: seq<Step>)
    requires Runs(EMPTY, steps)
    ensures Tabled(steps, After(EMPTY, steps))
  {
    if steps != [] {
      var n := |steps| - 1;
      RunSplits(EMPTY, steps, n);
      assert steps[..n + 1] == steps && steps[..n] + [steps[n]] == steps;
      TableExactly(steps[..n]);
      TabledNext(steps[..n], After(EMPTY, steps[..n]), steps[n]);
    }
  }

  /** Step i issued this token to somebody, and it was not presented in time since. */
  ghost predicate HeldFrom(steps: seq<Step>, t: TokenId, i: nat) {
    && i < |steps| && steps[i].id == t && (exists user :: IssuedTo(steps, i, user))
    && UnpresentedUntil(steps, i, |steps|)
  }

  lemma HeldIsLive(steps: seq<Step>, l: Ledger, t: TokenId)
    requires Tabled(steps, l)
    ensures Live(l, t) <==> exists i: nat :: HeldFrom(steps, t, i)
    ensures forall i: nat :: HeldFrom(steps, t, i) ==> t in l.rows && l.rows[t].expires == steps[i].expires
  {
    if t in l.rows {
      assert RowOf(steps, t, l.rows[t]);
      var i :| 0 <= i < |steps| && steps[i].id == t && IssuedTo(steps, i, l.rows[t].user)
               && l.rows[t].expires == steps[i].expires
               && (l.rows[t].revoked <==> !UnpresentedUntil(steps, i, |steps|));
      forall j: nat | HeldFrom(steps, t, j) ensures j == i {
        var user :| IssuedTo(steps, j, user);
      }
      assert HeldFrom(steps, t, i) <==> !l.rows[t].revoked;
    }
  }

  /** Main result: the whole history decides. After any run a refresh is granted if and only if its token
      was issued by some step, has not been presented in time since, has not expired by the expiry it was issued
      with, its user exists, and nothing raises. */
  lemma {:induction false} GrantedExactly(steps: seq<Step>, step: Step)
    requires Runs(EMPTY, steps) && Enabled(After(EMPTY, steps), step) && step.Refresh?
    ensures ReplyTo(After(EMPTY, steps), step).Issued? <==>
              && step.token.Some? && step.userExists && step.stage == Completes
              && exists i: nat :: HeldFrom(steps, step.token.value, i) && step.now <= steps[i].expires
  {
    TableExactly(steps);
    if step.token.Some? {
      HeldIsLive(steps, After(EMPTY, steps), step.token.value);
    }
  }

  /** And the refusals: a token that is not held is not stored, one that is held but too old has expired, and a
      missing user is noticed only after these and only if nothing raises before. */
  lemma {:induction false} RefusedExactly(steps: seq<Step>, step: Step)
    requires Runs(EMPTY, steps) && Enabled(After(EMPTY, steps), step) && step.Refresh? && step.token.Some?
    ensures var reply, t := ReplyTo(After(EMPTY, steps), step), step.token.value;
            && (reply == Refused(NotStored) <==>
                  step.stage != RaisesBeforeRevoke && !exists i: nat :: HeldFrom(steps, t, i))
            && (reply == Refused(Expired) <==>
                  && step.stage != RaisesBeforeRevoke
                  && exists i: nat :: HeldFrom(steps, t, i) && steps[i].expires < step.now)
            && (reply == Refused(UserMissing) <==>
                  && step.stage != RaisesBeforeRevoke && step.stage != RaisesAfterRevoke && !step.userExists
                  && exists i: nat :: HeldFrom(steps, t, i) && step.now <= steps[i].expires)
  {
    TableExactly(steps);
    HeldIsLive(steps, After(EMPTY, steps), step.token.value);
  }

  ghost function LiveTokens(l: Ledger, user: UserId): set<TokenId> {
    set t | t in l.rows && !l.rows[t].revoked && l.rows[t].user == user
  }

  function LoginsOf(l: Ledger, user: UserId): set<nat> {
    set i: nat | i < |l.logins| && l.logins[i] == user
  }

  /** A set that maps injectively into another is no larger. */
  lemma {:induction false} Injective(ts: set<TokenId>, f: map<TokenId, nat>, ns: set<nat>)
    requires forall t :: t in ts ==> t in f && f[t] in ns
    requires forall t, u :: t in ts && u in ts && f[t] == f[u] ==> t == u
    ensures |ts| <= |ns|
    decreases ts
  {
    if ts != {} {
      var t :| t in ts;
      Injective(ts - {t}, f, ns - {f[t]});
    }
  }

  /** A user never holds more unrevoked tokens than they logged in. */
  lemma LiveTokensWithinLogins(steps: seq<Step>, user: UserId)
    requires Runs(EMPTY, steps)
    ensures |LiveTokens(After(EMPTY, steps), user)| <= |LoginsOf(After(EMPTY, steps), user)|
  {
    RunKeeps(EMPTY, steps);
    var l := After(EMPTY, steps);
    forall t, u | t in LiveTokens(l, user) && u in LiveTokens(l, user) && l.origin[t] == l.origin[u] ensures t == u {
      assert Live(l, t) && Live(l, u);
    }
    Injective(LiveTokens(l, user), l.origin, LoginsOf(l, user));
  }

  /** src/api/db.py: RefreshTokenStore. */
  class RefreshTokenStore {
    var rows: map<TokenId, Row>

    constructor ()
      ensures rows == map[]
    {
      rows := map[];
    }

    /** The primary key is new. */
    method Create(id: TokenId, user: UserId, expires: real)
      requires id !in rows
      modifies this
      ensures rows == old(rows)[id := Row(user, expires, false)]
    {
      rows := rows[id := Row(user, expires, false)];
    }

    /** Revoked tokens are not found. */
    method Get(id: TokenId) returns (row: Option<Row>)
      ensures row == if id in rows && !rows[id].revoked then Some(rows[id]) else None
    {
      row := if id in rows && !rows[id].revoked then Some(rows[id]) else None;
    }

    method Revoke(id: TokenId)
      modifies this
      ensures rows == Revoked(old(rows), id)
    {
      if id in rows {
        rows := rows[id := rows[id].(revoked := true)];
      }
    }
  }

  /** The two endpoints of src/api/auth.py that issue refresh tokens. */
  class AuthServer {
    const store: RefreshTokenStore
    ghost var ledger: Ledger

    ghost predicate Valid()
      reads this, store
    {
      ledger.rows == store.rows && Inv(ledger)
    }

    constructor ()
      ensures Valid() && ledger == EMPTY && fresh(store)
    {
      store := new RefreshTokenStore();
      ledger := EMPTY;
    }

    /** The end of `login`, after the password was verified. */
    method FinishLogin(user: UserId, id: TokenId, expires: real)
      requires Valid() && id !in store.rows
      modifies this, store
      ensures Valid() && ledger == Apply(old(ledger), Login(user, id, expires))
    {
      StepKeeps(ledger, Login(user, id, expires));
      ledger := Apply(ledger, Login(user, id, expires));
      store.Create(id, user, expires);
    }

    method RefreshTokens(token: Option<TokenId>, now: real, userExists: bool, id: TokenId, expires: real, stage: Stage)
      returns (reply: Reply)
      requires Valid() && id !in store.rows
      modifies this, store
      ensures var step := Refresh(token, now, userExists, id, expires, stage);
              Valid() && reply == ReplyTo(old(ledger), step) && ledger == Apply(old(ledger), step)
    {
      ghost var step := Refresh(token, now, userExists, id, expires, stage);
      StepKeeps(ledger, step);
      ledger := Apply(ledger, step);
      if token.None? {
        return Refused(Malformed);
      }
      if stage == RaisesBeforeRevoke {
        return Raised(stage);
      }
      var stored := store.Get(token.value);
      if stored.None? {
        return Refused(NotStored);
      }
      if stored.value.expires < now {
        return Refused(Expired);
      }
      store.Revoke(token.value);
      if stage == RaisesAfterRevoke {
        return Raised(stage);
      }
      if !userExists {
        return Refused(UserMissing);
      }
      store.Create(id, stored.value.user, expires);
      reply := if stage == RaisesAfterCreate then Raised(stage) else Issued(id);
    }
  }
}

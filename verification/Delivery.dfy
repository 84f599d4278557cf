/** Delivery of progress events with every send interleaved freely (src/api/ws.py:36-71, 219-253,
    fed by the writers of module JobUpdates).

    Writers run their programs one effect at a time, and may be killed in between. `broadcast` numbers an
    event and takes the connection list in one step; its sends, and the replay sends of a handler that has
    just connected a socket, then run one by one in any order relative to everything else. */
module Delivery {
  import opened JobUpdates
  import opened Prelude
  import opened ProgressManager

  /** One accepted socket. It reported `last`; it is owed the events above `base`, those up to `joined` by
      its own replay, later ones by broadcasts. Its handler read `row` when `seen` changes had been
      committed, and the queue position, and sent a snapshot if it had nothing to replay. The socket stops
      being open at its first failed send or at disconnect. */
  datatype Conn = Conn(job: JobId, last: int, base: nat, joined: nat, seen: nat, row: Row, position: Option<nat>,
                       snapshot: Option<Message<Entry>>, open: bool)

  /** A writer under way: what it has still to do, and how many changes there were once its own was stored. */
  datatype Writer = Writer(job: JobId, todo: seq<Effect>, stored: nat)

  type WriterId = nat

  datatype State = State(
    changes: map<JobId, seq<Change>>,
    writers: map<WriterId, Writer>,
    logs: map<JobId, seq<Entry>>,
    conns: map<JobId, seq<Socket>>,
    info: map<Socket, Conn>,
    replay: map<Socket, seq<Event<Entry>>>,
    live: map<(JobId, nat), seq<Socket>>,
    delivered: map<Socket, seq<Event<Entry>>>)
  {
    function Changes(job: JobId): seq<Change> { At(changes, job, []) }

    function Log(job: JobId): seq<Entry> { At(logs, job, []) }

    function Conns(job: JobId): seq<Socket> { At(conns, job, []) }

    /** The sockets that the broadcast of event k has not been sent to yet. */
    function Waiting(job: JobId, k: nat): seq<Socket> {
      if (job, k) in live then live[(job, k)] else []
    }
  }

  datatype Step =
    | Begin(writer: WriterId, job: JobId, change: Change)
    | Store(writer: WriterId)
    | Publish(writer: WriterId)
    | Kill(writer: WriterId)
    | Join(ws: Socket, job: JobId, last: int, position: Option<nat>)
    | SendReplay(ws: Socket, ok: bool)
    | SendLive(job: JobId, k: nat, ok: bool)
    | RemoveDead(job: JobId, dead: set<Socket>)
    | Leave(ws: Socket)

  const EMPTY := State(map[], map[], map[], map[], map[], map[], map[], map[])

  /** The next effect of a writer. */
  predicate Next(st: State, writer: WriterId, stores: bool) {
    && writer in st.writers && st.writers[writer].todo != []
    && st.writers[writer].todo[0].Stored? == stores
  }

  /** A handler joins its own new socket once, if the row exists; a send needs something to send; only
      sockets whose send failed are removed as dead. */
  predicate Enabled(st: State, step: Step) {
    match step
    case Begin(writer, _, _) => writer !in st.writers
    case Store(writer) => Next(st, writer, true)
    case Publish(writer) => Next(st, writer, false)
    case Kill(writer) => writer in st.writers
    case Join(ws, job, _, _) => ws !in st.info && RowAfter(st.Changes(job)).Some?
    case SendReplay(ws, _) => ws in st.info && ws in st.replay && ws in st.delivered && st.replay[ws] != []
    case SendLive(job, k, _) =>
      && 0 < k <= |st.Log(job)| && st.Waiting(job, k) != []
      && (var ws := st.Waiting(job, k)[0]; ws in st.info && ws in st.delivered)
    case RemoveDead(_, dead) => forall ws :: ws in dead ==> ws in st.info && !st.info[ws].open
    case Leave(ws) => ws in st.info
  }

  function Close(st: State, ws: Socket): State
    requires ws in st.info
  {
    st.(info := st.info[ws := st.info[ws].(open := false)])
  }

  function Deliver(st: State, ws: Socket, event: Event<Entry>): State
    requires ws in st.delivered
  {
    st.(delivered := st.delivered[ws := st.delivered[ws] + [event]])
  }

  /** The locked part of `broadcast`. */
  function Broadcast(st: State, job: JobId, entry: Entry): State {
    var log := st.Log(job) + [entry];
    st.(logs := st.logs[job := log], live := st.live[(job, |log|) := st.Conns(job)])
  }

  /** What the handler finds and decides when it joins. */
  function Joining(st: State, job: JobId, last: int, position: Option<nat>): Conn
    requires RowAfter(st.Changes(job)).Some?
  {
    var n, row := |st.Log(job)|, RowAfter(st.Changes(job)).value;
    var base := GreetingBase(n, last);
    var snapshot := if base == n then Some(BuildInitialState(row, n, position)) else None;
    Conn(job, last, base, n, |st.Changes(job)|, row, position, snapshot, true)
  }

  function Joined(st: State, ws: Socket, c: Conn): State
    requires c.base <= |st.Log(c.job)|
  {
    st.(conns := st.conns[c.job := st.Conns(c.job) + [ws]],
        info := st.info[ws := c],
        replay := st.replay[ws := Slice(st.Log(c.job), c.base, |st.Log(c.job)|)],
        delivered := st.delivered[ws := []])
  }

  function NextEntry(st: State, writer: WriterId): Entry
    requires Next(st, writer, false)
  {
    var w := st.writers[writer];
    Entry(w.stored - 1, w.todo[0].notice)
  }

  function Apply(st: State, step: Step): State
    requires Enabled(st, step)
  {
    match step
    case Begin(writer, job, change) => st.(writers := st.writers[writer := Writer(job, ProgramOf(change), 0)])
    case Store(writer) =>
      var w := st.writers[writer];
      var changes := st.Changes(w.job) + [w.todo[0].change];
      st.(changes := st.changes[w.job := changes],
          writers := st.writers[writer := Writer(w.job, w.todo[1..], |changes|)])
    case Publish(writer) =>
      var w := st.writers[writer];
      Broadcast(st.(writers := st.writers[writer := w.(todo := w.todo[1..])]), w.job, NextEntry(st, writer))
    case Kill(writer) => st.(writers := st.writers - {writer})
    case Join(ws, job, last, position) => Joined(st, ws, Joining(st, job, last, position))
    case SendReplay(ws, ok) =>
      var st' := st.(replay := st.replay[ws := st.replay[ws][1..]]);
      if ok then Deliver(st', ws, st.replay[ws][0]) else Close(st', ws)
    case SendLive(job, k, ok) =>
      var ws := st.Waiting(job, k)[0];
      var st' := st.(live := st.live[(job, k) := st.Waiting(job, k)[1..]]);
      if ok then Deliver(st', ws, Event(k, st.Log(job)[k - 1])) else Close(st', ws)
    case RemoveDead(job, dead) => st.(conns := st.conns[job := Without(st.Conns(job), dead)])
    case Leave(ws) =>
      var job := st.info[ws].job;
      Close(st.(conns := st.conns[job := Without(st.Conns(job), {ws})]), ws)
  }

  /** Event k as it was broadcast. */
  function EventAt(st: State, job: JobId, k: nat): Event<Entry>
    requires 0 < k <= |st.Log(job)|
  {
    Event(k, st.Log(job)[k - 1])
  }

  /** How often a socket has been sent event k, will be by its replay, or will be by a broadcast. */
  function Copies(st: State, ws: Socket, k: nat): nat
    requires ws in st.info && ws in st.replay && ws in st.delivered && 0 < k <= |st.Log(st.info[ws].job)|
  {
    var e := EventAt(st, st.info[ws].job, k);
    Count(st.delivered[ws], e) + Count(st.replay[ws], e) + Count(st.Waiting(st.info[ws].job, k), ws)
  }

  ghost predicate Shape(st: State, ws: Socket) {
    && ws in st.info && ws in st.replay && ws in st.delivered
    && (var c, n, r := st.info[ws], |st.Log(st.info[ws].job)|, |st.replay[ws]|;
        c.base <= c.joined <= n && r <= c.joined - c.base
        && st.replay[ws] == Slice(st.Log(c.job), c.joined - r, c.joined))
  }

  /** A socket that is registered for its own job only, and only for events after it joined. */
  ghost predicate Registered(st: State, ws: Socket)
    requires Shape(st, ws)
  {
    var c := st.info[ws];
    && Count(st.Conns(c.job), ws) == 1
    && (forall job :: job != c.job ==> ws !in st.Conns(job))
    && (forall job, k: nat :: ws in st.Waiting(job, k) ==> job == c.job && c.joined < k <= |st.Log(job)|)
  }

  /** Nothing foreign was delivered, and every event above the base is accounted for exactly once. */
  ghost predicate Conserved(st: State, ws: Socket)
    requires Shape(st, ws)
  {
    var c, n := st.info[ws], |st.Log(st.info[ws].job)|;
    && (forall e :: e in st.delivered[ws] ==> c.base < e.number <= n && e == EventAt(st, c.job, e.number))
    && (forall k: nat :: c.base < k <= n ==> Copies(st, ws, k) == 1)
  }

  /** Where a client that reported `last` starts from: there, or at the edge of the history, or at the
      number of its snapshot. */
  function BaseFor(last: int, joined: nat): int {
    if 0 < last < joined then Max(last, joined - MAX_EVENT_HISTORY) else joined
  }

  /** The row a handler read is the row after the first `seen` changes, every change announced by an event
      numbered when it joined is among them, and a snapshot shows that row with that number. */
  ghost predicate Informed(st: State, ws: Socket)
    requires Shape(st, ws)
  {
    var c := st.info[ws];
    && c.base == BaseFor(c.last, c.joined)
    && c.seen <= |st.Changes(c.job)| && RowAfter(st.Changes(c.job)[..c.seen]) == Some(c.row)
    && c.snapshot == (if c.base == c.joined then Some(BuildInitialState(c.row, c.joined, c.position)) else None)
    && forall k :: 0 <= k < c.joined ==> st.Log(c.job)[k].update < c.seen
  }

  ghost predicate Good(st: State, ws: Socket) {
    if ws in st.info then
      && Shape(st, ws) && Informed(st, ws)
      && (st.info[ws].open ==> Registered(st, ws) && Conserved(st, ws))
    else
      && (forall job :: ws !in st.Conns(job))
      && (forall job, k: nat :: ws !in st.Waiting(job, k))
  }

  /** An event announces a change that was committed. */
  predicate Tells(changes: seq<Change>, entry: Entry) {
    && 0 <= entry.update < |changes| && Announces(changes[entry.update])
    && entry.notice == NoticeOf(changes[entry.update])
  }

  ghost predicate Announced(st: State, job: JobId) {
    forall i :: 0 <= i < |st.Log(job)| ==> Tells(st.Changes(job), st.Log(job)[i])
  }

  /** A writer has its whole program before it, or only the notice of the change it has stored, or nothing. */
  predicate OnCourse(st: State, w: Writer) {
    || w.todo == []
    || (w.todo[0].Stored? && w.todo == ProgramOf(w.todo[0].change))
    || (w.todo[0].Published? && |w.todo| == 1 && Tells(st.Changes(w.job), Entry(w.stored - 1, w.todo[0].notice)))
  }

  ghost predicate WritersGood(st: State) {
    forall writer :: writer in st.writers ==> OnCourse(st, st.writers[writer])
  }

  ghost predicate Inv(st: State) {
    && (forall ws :: Good(st, ws))
    && (forall job :: Announced(st, job))
    && WritersGood(st)
  }

  /** A step leaves the records of a socket alone. */
  predicate SameRecords(st: State, st': State, ws: Socket) {
    && (ws in st.info <==> ws in st'.info)
    && (ws in st.info ==> st'.info[ws] == st.info[ws])
    && (ws in st.info && ws in st.replay ==> ws in st'.replay && st'.replay[ws] == st.replay[ws])
    && (ws in st.info && ws in st.delivered ==> ws in st'.delivered && st'.delivered[ws] == st.delivered[ws])
  }

  /** And what it is registered for. */
  ghost predicate SameFor(st: State, st': State, ws: Socket) {
    && SameRecords(st, st', ws)
    && (forall job :: st'.Log(job) == st.Log(job) && st.Changes(job) <= st'.Changes(job))
    && (forall job :: ws in st'.Conns(job) <==> ws in st.Conns(job))
    && (ws in st.info ==> Count(st'.Conns(st.info[ws].job), ws) == Count(st.Conns(st.info[ws].job), ws))
    && (forall job, k: nat :: Count(st'.Waiting(job, k), ws) == Count(st.Waiting(job, k), ws))
  }

  lemma SameWaiting(st: State, st': State, ws: Socket)
    requires SameFor(st, st', ws)
    ensures forall job, k: nat :: ws in st'.Waiting(job, k) <==> ws in st.Waiting(job, k)
  {
    forall job, k: nat ensures ws in st'.Waiting(job, k) <==> ws in st.Waiting(job, k) {
      assert ws in st'.Waiting(job, k) <==> Count(st'.Waiting(job, k), ws) > 0;
      assert ws in st.Waiting(job, k) <==> Count(st.Waiting(job, k), ws) > 0;
    }
  }

  lemma SameConserved(st: State, st': State, ws: Socket)
    requires SameFor(st, st', ws) && Shape(st, ws) && Shape(st', ws) && Conserved(st, ws)
    ensures Conserved(st', ws)
  {
    var job := st.info[ws].job;
    assert forall k: nat :: 0 < k <= |st.Log(job)| ==> EventAt(st', job, k) == EventAt(st, job, k);
    forall k: nat | st.info[ws].base < k <= |st.Log(job)| ensures Copies(st', ws, k) == 1 {
      assert Copies(st, ws, k) == 1;
    }
  }

  lemma SameInformed(st: State, st': State, ws: Socket)
    requires SameFor(st, st', ws) && Shape(st, ws) && Shape(st', ws) && Informed(st, ws)
    ensures Informed(st', ws)
  {
    var c := st.info[ws];
    assert st'.Changes(c.job)[..c.seen] == st.Changes(c.job)[..c.seen];
  }

  /** One connection list was changed, but not for this socket. */
  lemma OtherConns(st: State, st': State, job: JobId, conns: seq<Socket>, ws: Socket)
    requires SameRecords(st, st', ws)
    requires st'.changes == st.changes && st'.logs == st.logs && st'.live == st.live
    requires st'.conns == st.conns[job := conns] && Count(conns, ws) == Count(st.Conns(job), ws)
    ensures SameFor(st, st', ws)
  {
    forall j ensures Count(st'.Conns(j), ws) == Count(st.Conns(j), ws) {
      assert st'.Conns(j) == if j == job then conns else st.Conns(j);
    }
    assert forall j :: ws in st'.Conns(j) <==> Count(st'.Conns(j), ws) > 0;
    assert forall j :: ws in st.Conns(j) <==> Count(st.Conns(j), ws) > 0;
  }

  /** Then it stays good. */
  lemma Untouched(st: State, st': State, ws: Socket)
    requires Good(st, ws) && SameFor(st, st', ws)
    ensures Good(st', ws)
  {
    SameWaiting(st, st', ws);
    if ws in st.info {
      assert Shape(st', ws);
      SameInformed(st, st', ws);
      if st.info[ws].open {
        SameConserved(st, st', ws);
      }
    }
  }

  /** What a writer does before it publishes leaves every socket alone. */
  lemma WritingKeeps(st: State, step: Step, ws: Socket)
    requires Good(st, ws) && Enabled(st, step) && (step.Begin? || step.Store? || step.Kill?)
    ensures Good(Apply(st, step), ws)
  {
    Untouched(st, Apply(st, step), ws);
  }

  lemma {:induction false} CopiesInSlice(log: seq<Entry>, lo: nat, hi: nat, k: nat)
    requires lo <= hi <= |log| && 0 < k <= |log|
    ensures Count(Slice(log, lo, hi), Event(k, log[k - 1])) == if lo < k <= hi then 1 else 0
    decreases hi - lo
  {
    if lo < hi {
      assert Slice(log, lo, hi) == [Event(lo + 1, log[lo])] + Slice(log, lo + 1, hi);
      CopiesInSlice(log, lo + 1, hi, k);
    }
  }

  lemma BroadcastKeepsShape(st: State, job: JobId, entry: Entry, ws: Socket)
    requires Good(st, ws) && ws in st.info
    ensures Shape(Broadcast(st, job, entry), ws) && Informed(Broadcast(st, job, entry), ws)
  {
    var st' := Broadcast(st, job, entry);
    var c := st.info[ws];
    assert st'.Log(c.job) == if job == c.job then st.Log(job) + [entry] else st.Log(c.job);
    assert st'.replay[ws] == Slice(st'.Log(c.job), c.joined - |st'.replay[ws]|, c.joined);
  }

  lemma PublishConserves(st: State, st': State, job: JobId, entry: Entry, ws: Socket)
    requires Good(st, ws) && ws in st.info && st.info[ws].open
    requires st'.info == st.info && st'.replay == st.replay && st'.delivered == st.delivered
    requires st'.Log(job) == st.Log(job) + [entry] && forall j :: j != job ==> st'.Log(j) == st.Log(j)
    requires Shape(st', ws)
    requires st'.Waiting(job, |st.Log(job)| + 1) == st.Conns(job)
    requires forall j, k: nat :: (j, k) != (job, |st.Log(job)| + 1) ==> st'.Waiting(j, k) == st.Waiting(j, k)
    ensures Conserved(st', ws)
  {
    var c, n := st.info[ws], |st.Log(job)|;
    forall k: nat | c.base < k <= |st'.Log(c.job)| ensures Copies(st', ws, k) == 1 {
      if k <= |st.Log(c.job)| {
        assert Copies(st, ws, k) == 1;
        assert EventAt(st', c.job, k) == EventAt(st, c.job, k);
      } else {
        var e := EventAt(st', job, n + 1);
        assert e !in st.delivered[ws] && e !in st.replay[ws];
      }
    }
  }

  lemma BroadcastKeeps(st: State, job: JobId, entry: Entry, ws: Socket)
    requires Good(st, ws)
    ensures Good(Broadcast(st, job, entry), ws)
  {
    var st' := Broadcast(st, job, entry);
    var n := |st.Log(job)|;
    assert forall j :: j != job ==> st'.Log(j) == st.Log(j);
    assert forall j :: st'.Conns(j) == st.Conns(j);
    assert forall j, k: nat :: (j, k) != (job, n + 1) ==> st'.Waiting(j, k) == st.Waiting(j, k);
    if ws in st.info {
      BroadcastKeepsShape(st, job, entry, ws);
      if st.info[ws].open {
        PublishConserves(st, st', job, entry, ws);
      }
    }
  }

  lemma PublishKeeps(st: State, writer: WriterId, ws: Socket)
    requires Good(st, ws) && Enabled(st, Publish(writer))
    ensures Good(Apply(st, Publish(writer)), ws)
  {
    var w := st.writers[writer];
    var st' := st.(writers := st.writers[writer := w.(todo := w.todo[1..])]);
    Untouched(st, st', ws);
    BroadcastKeeps(st', w.job, NextEntry(st, writer), ws);
  }

  lemma JoinRegisters(st: State, step: Step)
    requires step.Join? && Good(st, step.ws) && Enabled(st, step)
    ensures var st' := Apply(st, step); Shape(st', step.ws) && Registered(st', step.ws)
  {
    var st' := Apply(st, step);
    CountAppend(st.Conns(step.job), step.ws, step.ws);
    assert forall j :: j != step.job ==> st'.Conns(j) == st.Conns(j);
    assert forall j, k: nat :: st'.Waiting(j, k) == st.Waiting(j, k);
  }

  lemma JoinInforms(st: State, step: Step)
    requires step.Join? && Announced(st, step.job) && Enabled(st, step) && Shape(Apply(st, step), step.ws)
    ensures Informed(Apply(st, step), step.ws)
  {
    var changes := st.Changes(step.job);
    assert changes[..|changes|] == changes;
    assert forall k :: 0 <= k < |st.Log(step.job)| ==> Tells(changes, st.Log(step.job)[k]);
  }

  lemma JoinStarts(st: State, step: Step)
    requires step.Join? && Good(st, step.ws) && Announced(st, step.job) && Enabled(st, step)
    ensures Good(Apply(st, step), step.ws)
  {
    var st', ws := Apply(st, step), step.ws;
    var c := st'.info[ws];
    JoinRegisters(st, step);
    JoinInforms(st, step);
    forall k: nat | c.base < k <= c.joined ensures Copies(st', ws, k) == 1 {
      CopiesInSlice(st.Log(step.job), c.base, c.joined, k);
      assert ws !in st.Waiting(step.job, k);
    }
  }

  lemma JoinKeeps(st: State, step: Step, w: Socket)
    requires step.Join? && Good(st, w) && Announced(st, step.job) && Enabled(st, step)
    ensures Good(Apply(st, step), w)
  {
    if w == step.ws {
      JoinStarts(st, step);
    } else {
      var st' := Apply(st, step);
      CountAppend(st.Conns(step.job), step.ws, w);
      OtherConns(st, st', step.job, st.Conns(step.job) + [step.ws], w);
      Untouched(st, st', w);
    }
  }

  /** The sends of event k that a socket still has coming. */
  function Queued(st: State, ws: Socket, job: JobId, k: nat): nat
    requires ws in st.replay && 0 < k <= |st.Log(job)|
  {
    Count(st.replay[ws], EventAt(st, job, k)) + Count(st.Waiting(job, k), ws)
  }

  /** One queued send of event k turned into its delivery. */
  lemma SendConserves(st: State, st': State, ws: Socket, k: nat)
    requires ws in st.info && st.info[ws].open && Good(st, ws) && st'.info == st.info
    requires ws in st'.replay && ws in st'.delivered && st'.logs == st.logs && Shape(st', ws)
    requires st.info[ws].base < k <= |st.Log(st.info[ws].job)|
    requires st'.delivered[ws] == st.delivered[ws] + [EventAt(st, st.info[ws].job, k)]
    requires forall i: nat :: 0 < i <= |st.Log(st.info[ws].job)| ==>
      Queued(st, ws, st.info[ws].job, i) == Queued(st', ws, st.info[ws].job, i) + (if i == k then 1 else 0)
    ensures Conserved(st', ws)
  {
    var c := st.info[ws];
    forall i: nat | c.base < i <= |st.Log(c.job)| ensures Copies(st', ws, i) == 1 {
      assert Copies(st, ws, i) == 1;
      assert EventAt(st', c.job, i) == EventAt(st, c.job, i);
      assert Queued(st, ws, c.job, i) == Queued(st', ws, c.job, i) + (if i == k then 1 else 0);
      CountAppend(st.delivered[ws], EventAt(st, c.job, k), EventAt(st, c.job, i));
    }
  }

  lemma ReplayShrinks(st: State, st': State, ws: Socket)
    requires ws in st.info && ws in st.replay && st.replay[ws] != [] && st'.logs == st.logs && st'.live == st.live
    requires ws in st'.replay && st'.replay[ws] == st.replay[ws][1..]
    requires var job, k := st.info[ws].job, st.replay[ws][0].number;
             0 < k <= |st.Log(job)| && st.replay[ws][0] == EventAt(st, job, k)
    ensures forall i: nat :: 0 < i <= |st.Log(st.info[ws].job)| ==>
              Queued(st, ws, st.info[ws].job, i) ==
              Queued(st', ws, st.info[ws].job, i) + (if i == st.replay[ws][0].number then 1 else 0)
  {
    var job := st.info[ws].job;
    forall i: nat | 0 < i <= |st.Log(job)|
      ensures Queued(st, ws, job, i) == Queued(st', ws, job, i) + (if i == st.replay[ws][0].number then 1 else 0)
    {
      assert EventAt(st', job, i) == EventAt(st, job, i);
    }
  }

  lemma ReplayAdvances(st: State, ws: Socket, ok: bool)
    requires Good(st, ws) && Enabled(st, SendReplay(ws, ok))
    ensures Good(Apply(st, SendReplay(ws, ok)), ws)
  {
    var st' := Apply(st, SendReplay(ws, ok));
    var c, rest := st.info[ws], st.replay[ws][1..];
    assert rest == Slice(st.Log(c.job), c.joined - |rest|, c.joined);
    assert Shape(st', ws);
    if st'.info[ws].open {
      var k := st.replay[ws][0].number;
      ReplayShrinks(st, st', ws);
      SendConserves(st, st', ws, k);
      assert forall j :: st'.Conns(j) == st.Conns(j);
      assert forall j, i: nat :: st'.Waiting(j, i) == st.Waiting(j, i);
    }
  }

  lemma SendReplayKeeps(st: State, ws: Socket, ok: bool, w: Socket)
    requires Good(st, w) && Enabled(st, SendReplay(ws, ok))
    ensures Good(Apply(st, SendReplay(ws, ok)), w)
  {
    if w == ws {
      ReplayAdvances(st, ws, ok);
    } else {
      Untouched(st, Apply(st, SendReplay(ws, ok)), w);
    }
  }

  lemma LiveShrinks(st: State, st': State, ws: Socket, job: JobId, k: nat)
    requires 0 < k <= |st.Log(job)| && st.Waiting(job, k) != [] && st.Waiting(job, k)[0] == ws
    requires st'.logs == st.logs && st'.live == st.live[(job, k) := st.Waiting(job, k)[1..]]
    requires ws in st.replay && ws in st'.replay && st'.replay[ws] == st.replay[ws]
    ensures forall i: nat :: 0 < i <= |st.Log(job)| ==>
              Queued(st, ws, job, i) == Queued(st', ws, job, i) + (if i == k then 1 else 0)
  {
    forall i: nat | 0 < i <= |st.Log(job)|
      ensures Queued(st, ws, job, i) == Queued(st', ws, job, i) + (if i == k then 1 else 0)
    {
      assert EventAt(st', job, i) == EventAt(st, job, i);
    }
  }

  lemma LiveAdvances(st: State, job: JobId, k: nat, ok: bool)
    requires Enabled(st, SendLive(job, k, ok)) && Good(st, st.Waiting(job, k)[0])
    ensures Good(Apply(st, SendLive(job, k, ok)), st.Waiting(job, k)[0])
  {
    var st' := Apply(st, SendLive(job, k, ok));
    var ws := st.Waiting(job, k)[0];
    assert Shape(st', ws);
    if st'.info[ws].open {
      assert ws in st.Waiting(job, k);
      var c := st.info[ws];
      assert c.job == job && c.joined < k;
      LiveShrinks(st, st', ws, job, k);
      SendConserves(st, st', ws, k);
      assert forall j :: st'.Conns(j) == st.Conns(j);
      assert forall j, i: nat :: (j, i) != (job, k) ==> st'.Waiting(j, i) == st.Waiting(j, i);
    }
  }

  lemma SendLiveKeeps(st: State, job: JobId, k: nat, ok: bool, w: Socket)
    requires Good(st, w) && Enabled(st, SendLive(job, k, ok))
    ensures Good(Apply(st, SendLive(job, k, ok)), w)
  {
    if w == st.Waiting(job, k)[0] {
      LiveAdvances(st, job, k, ok);
    } else {
      var st' := Apply(st, SendLive(job, k, ok));
      assert forall j, i: nat :: (j, i) != (job, k) ==> st'.Waiting(j, i) == st.Waiting(j, i);
      Untouched(st, st', w);
    }
  }

  lemma RemoveDeadKeeps(st: State, job: JobId, dead: set<Socket>, ws: Socket)
    requires Good(st, ws) && Enabled(st, RemoveDead(job, dead))
    ensures Good(Apply(st, RemoveDead(job, dead)), ws)
  {
    var st' := Apply(st, RemoveDead(job, dead));
    if ws !in st.info || st.info[ws].open {
      WithoutKeepsCount(st.Conns(job), dead, ws);
      OtherConns(st, st', job, Without(st.Conns(job), dead), ws);
      Untouched(st, st', ws);
    } else {
      assert Shape(st', ws) && Informed(st', ws);
    }
  }

  lemma LeaveKeeps(st: State, ws: Socket, w: Socket)
    requires Good(st, w) && Enabled(st, Leave(ws))
    ensures Good(Apply(st, Leave(ws)), w)
  {
    var st' := Apply(st, Leave(ws));
    var job := st.info[ws].job;
    if w != ws {
      WithoutKeepsCount(st.Conns(job), {ws}, w);
      OtherConns(st, st', job, Without(st.Conns(job), {ws}), w);
      Untouched(st, st', w);
    } else {
      assert Shape(st', w) && Informed(st', w);
    }
  }

  lemma TellsStill(changes: seq<Change>, more: seq<Change>, entry: Entry)
    requires Tells(changes, entry) && changes <= more
    ensures Tells(more, entry)
  {
  }

  /** Changes are only ever appended, and events too. */
  lemma OnlyGrows(st: State, step: Step, job: JobId)
    requires Enabled(st, step)
    ensures var st' := Apply(st, step);
            && st.Changes(job) <= st'.Changes(job)
            && st'.Log(job) == if step.Publish? && st.writers[step.writer].job == job
                               then st.Log(job) + [NextEntry(st, step.writer)] else st.Log(job)
  {
  }

  /** What is published announces the change just stored. */
  lemma AnnouncedKeeps(st: State, step: Step, job: JobId)
    requires Announced(st, job) && WritersGood(st) && Enabled(st, step)
    ensures Announced(Apply(st, step), job)
  {
    var st' := Apply(st, step);
    OnlyGrows(st, step, job);
    if step.Publish? {
      assert OnCourse(st, st.writers[step.writer]);
    }
    forall i | 0 <= i < |st'.Log(job)| ensures Tells(st'.Changes(job), st'.Log(job)[i]) {
      if i < |st.Log(job)| {
        assert Tells(st.Changes(job), st.Log(job)[i]);
        TellsStill(st.Changes(job), st'.Changes(job), st.Log(job)[i]);
      } else {
        TellsStill(st.Changes(job), st'.Changes(job), NextEntry(st, step.writer));
      }
    }
  }

  lemma OnCourseStill(st: State, st': State, w: Writer)
    requires OnCourse(st, w) && st.Changes(w.job) <= st'.Changes(w.job)
    ensures OnCourse(st', w)
  {
  }

  lemma WriterAdvances(st: State, writer: WriterId)
    requires WritersGood(st) && Enabled(st, Store(writer))
    ensures OnCourse(Apply(st, Store(writer)), Apply(st, Store(writer)).writers[writer])
  {
    var w := st.writers[writer];
    assert OnCourse(st, w);
    var change := w.todo[0].change;
    assert w.todo[1..] == if Announces(change) then [Published(NoticeOf(change))] else [];
  }

  lemma WritersKeep(st: State, step: Step)
    requires WritersGood(st) && Enabled(st, step)
    ensures WritersGood(Apply(st, step))
  {
    var st' := Apply(st, step);
    forall id | id in st'.writers ensures OnCourse(st', st'.writers[id]) {
      if id in st.writers && st'.writers[id] == st.writers[id] {
        assert OnCourse(st, st.writers[id]);
        OnCourseStill(st, st', st.writers[id]);
      } else if step.Store? {
        WriterAdvances(st, step.writer);
      } else if step.Publish? {
        assert OnCourse(st, st.writers[id]);
      }
    }
  }

  lemma StepKeeps(st: State, step: Step)
    requires Inv(st) && Enabled(st, step)
    ensures Inv(Apply(st, step))
  {
    var st' := Apply(st, step);
    forall ws ensures Good(st', ws) {
      assert Good(st, ws);
      match step
      case Publish(writer) => PublishKeeps(st, writer, ws);
      case Join(_, job, _, _) => assert Announced(st, job); JoinKeeps(st, step, ws);
      case SendReplay(w, ok) => SendReplayKeeps(st, w, ok, ws);
      case SendLive(job, k, ok) => SendLiveKeeps(st, job, k, ok, ws);
      case RemoveDead(job, dead) => RemoveDeadKeeps(st, job, dead, ws);
      case Leave(w) => LeaveKeeps(st, w, ws);
      case _ => WritingKeeps(st, step, ws);
    }
    forall job ensures Announced(st', job) {
      assert Announced(st, job);
      AnnouncedKeeps(st, step, job);
    }
    WritersKeep(st, step);
  }

  /** A run: every step is enabled where it is taken. */
  predicate Runs(st: State, steps: seq<Step>)
    decreases |steps|
  {
    steps == [] || (Enabled(st, steps[0]) && Runs(Apply(st, steps[0]), steps[1..]))
  }

  function After(st: State, steps: seq<Step>): State
    requires Runs(st, steps)
    decreases |steps|
  {
    if steps == [] then st else After(Apply(st, steps[0]), steps[1..])
  }

  lemma {:induction false} RunKeeps(st: State, steps: seq<Step>)
    requires Inv(st) && Runs(st, steps)
    ensures Inv(After(st, steps))
    decreases |steps|
  {
    if steps != [] {
      StepKeeps(st, steps[0]);
      RunKeeps(Apply(st, steps[0]), steps[1..]);
    }
  }

  lemma EmptyGood()
    ensures Inv(EMPTY)
  {
  }

  /** Main result. In every reachable state every open socket has every event of its own job above
      its base exactly once, counting what was delivered and what is still queued; up to `joined`
      it comes from the replay, later from a broadcast; and nothing else ever reached it. The base
      is what it reported, or the edge of the history, or the number its snapshot carries. */
  lemma ExactlyOnce(steps: seq<Step>, ws: Socket)
    requires Runs(EMPTY, steps)
    requires ws in After(EMPTY, steps).info && After(EMPTY, steps).info[ws].open
    ensures var st := After(EMPTY, steps);
            var c := st.info[ws];
            && ws in st.replay && ws in st.delivered && c.base <= c.joined <= |st.Log(c.job)|
            && c.base == (if 0 < c.last < c.joined then Max(c.last, c.joined - MAX_EVENT_HISTORY) else c.joined)
            && (c.base == c.joined <==> c.snapshot.Some?)
            && (c.snapshot.Some? ==> c.snapshot.value.Initial? && c.snapshot.value.number == c.base)
            && (forall k: nat :: c.base < k <= |st.Log(c.job)| ==> Copies(st, ws, k) == 1)
            && (forall e :: e in st.delivered[ws] ==>
                  c.base < e.number <= |st.Log(c.job)| && e == EventAt(st, c.job, e.number))
            && (forall e :: e in st.replay[ws] ==>
                  c.base < e.number <= c.joined && e == EventAt(st, c.job, e.number))
            && (forall job, k: nat :: ws in st.Waiting(job, k) ==> job == c.job && c.joined < k <= |st.Log(job)|)
  {
    EmptyGood();
    RunKeeps(EMPTY, steps);
    assert Good(After(EMPTY, steps), ws);
  }

  /** Once nothing is queued any more, the client has received exactly the events above its base. */
  lemma DrainedMeansComplete(steps: seq<Step>, ws: Socket, k: nat)
    requires Runs(EMPTY, steps)
    requires var st := After(EMPTY, steps);
             && ws in st.info && st.info[ws].open && ws in st.replay && st.replay[ws] == []
             && 0 < k <= |st.Log(st.info[ws].job)|
             && ws !in st.Waiting(st.info[ws].job, k)
    ensures var st := After(EMPTY, steps);
            && ws in st.delivered
            && Count(st.delivered[ws], EventAt(st, st.info[ws].job, k)) == if k > st.info[ws].base then 1 else 0
  {
    ExactlyOnce(steps, ws);
    var st := After(EMPTY, steps);
    if k > st.info[ws].base {
      assert Copies(st, ws, k) == 1;
    }
  }

  /** Main result: a snapshot is never older than its number. In every reachable state, what a handler sent
      as a snapshot shows the row as it was after a number of committed changes that includes every change
      announced by an event up to the snapshot's number; and an open socket has every later event exactly
      once. So snapshot and later events together miss nothing that was sequenced. */
  lemma SnapshotNeverStale(steps: seq<Step>, ws: Socket, k: nat)
    requires Runs(EMPTY, steps)
    requires var st := After(EMPTY, steps);
             ws in st.info && st.info[ws].snapshot.Some? && 0 < k <= |st.Log(st.info[ws].job)|
    ensures var st := After(EMPTY, steps);
            var c, changes, e := st.info[ws], st.Changes(st.info[ws].job), st.Log(st.info[ws].job)[k - 1];
            && c.seen <= |changes| && RowAfter(changes[..c.seen]).Some?
            && c.snapshot == Some(BuildInitialState(RowAfter(changes[..c.seen]).value, c.joined, c.position))
            && Tells(changes, e)
            && (k <= c.joined ==> e.update < c.seen)
            && (k > c.joined && c.open ==> ws in st.replay && ws in st.delivered && Copies(st, ws, k) == 1)
  {
    EmptyGood();
    RunKeeps(EMPTY, steps);
    assert Good(After(EMPTY, steps), ws) && Announced(After(EMPTY, steps), After(EMPTY, steps).info[ws].job);
  }

  /** In terms of the status: if an event up to the snapshot's number announced a status, the snapshot shows
      that status or one written after it, but before the row was read. */
  lemma SnapshotShowsStatus(steps: seq<Step>, ws: Socket, k: nat)
    requires Runs(EMPTY, steps)
    requires var st := After(EMPTY, steps);
             ws in st.info && st.info[ws].snapshot.Some? && 0 < k <= |st.Log(st.info[ws].job)|
             && st.info[ws].snapshot.value.Initial? && k <= st.info[ws].snapshot.value.number
    ensures var st := After(EMPTY, steps);
            var c, changes, e := st.info[ws], st.Changes(st.info[ws].job), st.Log(st.info[ws].job)[k - 1];
            && Tells(changes, e)
            && (!changes[e.update].Progressed? ==>
                  && Sets(changes[e.update]) == Some(e.notice.status)
                  && exists j :: e.update <= j < c.seen <= |changes|
                                 && Sets(changes[j]) == Some(c.snapshot.value.status))
  {
    SnapshotNeverStale(steps, ws, k);
    var st := After(EMPTY, steps);
    var c, changes, e := st.info[ws], st.Changes(st.info[ws].job), st.Log(st.info[ws].job)[k - 1];
    NoticeTellsStatus(changes[e.update]);
    if !changes[e.update].Progressed? {
      StatusIsLatest(changes[..c.seen], e.update);
      var j :| e.update <= j < c.seen && Sets(changes[..c.seen][j]) == Some(c.snapshot.value.status);
      assert Sets(changes[j]) == Some(c.snapshot.value.status);
    }
  }

  /** A connection list holds only sockets that joined its own job. */
  ghost predicate ListedOwn(st: State) {
    forall job, ws :: ws in st.Conns(job) ==> ws in st.info && st.info[ws].job == job
  }

  lemma ListedOwnKeeps(st: State, step: Step)
    requires ListedOwn(st) && Enabled(st, step)
    ensures ListedOwn(Apply(st, step))
  {
    var st' := Apply(st, step);
    forall job, ws | ws in st'.Conns(job) ensures ws in st'.info && st'.info[ws].job == job {
      assert ws in st.Conns(job) || (step.Join? && ws == step.ws && job == step.job);
    }
  }

  lemma {:induction false} RunListsOwn(st: State, steps: seq<Step>)
    requires ListedOwn(st) && Runs(st, steps)
    ensures ListedOwn(After(st, steps))
    decreases |steps|
  {
    if steps != [] {
      ListedOwnKeeps(st, steps[0]);
      RunListsOwn(Apply(st, steps[0]), steps[1..]);
    }
  }

  /** A socket that is in no connection list. */
  ghost predicate Unlisted(st: State, ws: Socket) {
    ws in st.info && forall job :: ws !in st.Conns(job)
  }

  lemma NotWaitingAnew(st: State, step: Step, ws: Socket, job: JobId, k: nat)
    requires Unlisted(st, ws) && Enabled(st, step) && ws in Apply(st, step).Waiting(job, k)
    ensures ws in st.Waiting(job, k)
  {
    var st' := Apply(st, step);
    match step
    case Publish(writer) =>
      var w := st.writers[writer];
      assert ws !in st.Conns(w.job);
      assert (job, k) != (w.job, |st.Log(w.job)| + 1) ==> st'.Waiting(job, k) == st.Waiting(job, k);
    case SendLive(job', k', _) =>
      assert (job, k) != (job', k') ==> st'.Waiting(job, k) == st.Waiting(job, k);
    case _ => assert st'.Waiting(job, k) == st.Waiting(job, k);
  }

  lemma UnlistedKeeps(st: State, step: Step, ws: Socket)
    requires Unlisted(st, ws) && Enabled(st, step)
    ensures Unlisted(Apply(st, step), ws)
    ensures forall job, k: nat :: ws in Apply(st, step).Waiting(job, k) ==> ws in st.Waiting(job, k)
  {
    var st' := Apply(st, step);
    forall job ensures ws !in st'.Conns(job) {
      assert ws !in st.Conns(job);
    }
    forall job, k: nat | ws in st'.Waiting(job, k) ensures ws in st.Waiting(job, k) {
      NotWaitingAnew(st, step, ws, job, k);
    }
  }

  lemma {:induction false} StaysUnlisted(st: State, steps: seq<Step>, ws: Socket)
    requires Unlisted(st, ws) && Runs(st, steps)
    ensures Unlisted(After(st, steps), ws)
    ensures forall job, k: nat :: ws in After(st, steps).Waiting(job, k) ==> ws in st.Waiting(job, k)
    decreases |steps|
  {
    if steps != [] {
      UnlistedKeeps(st, steps[0], ws);
      StaysUnlisted(Apply(st, steps[0]), steps[1..], ws);
    }
  }

  /** A socket that has left, or was removed as dead, is never again the target of a broadcast: whatever follows,
      only sends that were queued before can still go out to it. */
  lemma {:induction false} LeavesForGood(steps: seq<Step>, step: Step, ws: Socket, more: seq<Step>)
    requires Runs(EMPTY, steps) && Enabled(After(EMPTY, steps), step) && ws in After(EMPTY, steps).info
    requires step == Leave(ws) || (step.RemoveDead? && ws in step.dead && step.job == After(EMPTY, steps).info[ws].job)
    requires Runs(Apply(After(EMPTY, steps), step), more)
    ensures var st, st' := After(EMPTY, steps), After(Apply(After(EMPTY, steps), step), more);
            && (forall job :: ws !in st'.Conns(job))
            && (forall job, k: nat :: ws in st'.Waiting(job, k) ==> ws in st.Waiting(job, k))
  {
    RunListsOwn(EMPTY, steps);
    var st := After(EMPTY, steps);
    var st' := Apply(st, step);
    forall job ensures ws !in st'.Conns(job) {
      assert ws in st.Conns(job) ==> job == st.info[ws].job;
    }
    assert forall job, k: nat :: st'.Waiting(job, k) == st.Waiting(job, k);
    StaysUnlisted(st', more, ws);
  }

  /** What a snapshot has to say, in terms of the changes committed when its row was read: the status that was
      written last, with the result, the error or the queue position that goes with it, and the progress that
      was written last since the row was inserted. */
  ghost predicate Tell(changes: seq<Change>, born: nat, last: nat, position: Option<nat>, m: Message<Entry>)
    requires LastStatus(changes, born, last)
  {
    && m.Initial? && Column(changes, born, WritesProgress, None, m.progress)
    && match changes[last]
       case Finished(result) => m.status == Completed && m.detail == Result(Some(result))
       case Broke(error) => m.status == Failed && m.detail == Error(Some(error))
       case Stopped(_) => m.status == Cancelled && m.detail == NoDetail
       case Retried(_, _) => m.status == Retrying && m.detail == NoDetail
       case Started => m.status == Processing && m.detail == NoDetail
       case _ => m.status == Pending && m.detail == if position.Some? then Position(position.value) else NoDetail
  }

  lemma RowTells(changes: seq<Change>, number: nat, position: Option<nat>) returns (born: nat, last: nat)
    requires RowAfter(changes).Some?
    ensures LastStatus(changes, born, last)
    ensures Tell(changes, born, last, position, BuildInitialState(RowAfter(changes).value, number, position))
  {
    born := RowIsLatest(changes);
    last := LastStatusExists(changes, born);
    LastStatusTells(changes, born, last);
  }

  /** Main result: every snapshot tells the truth about the changes committed when its row was read, and carries
      the number of the last event its client is not owed. */
  lemma {:induction false} SnapshotTells(steps: seq<Step>, ws: Socket) returns (born: nat, last: nat)
    requires Runs(EMPTY, steps)
    requires var st := After(EMPTY, steps); ws in st.info && st.info[ws].snapshot.Some?
    ensures var st := After(EMPTY, steps);
            var c, changes := st.info[ws], st.Changes(st.info[ws].job);
            && c.seen <= |changes| && LastStatus(changes[..c.seen], born, last)
            && Tell(changes[..c.seen], born, last, c.position, c.snapshot.value)
            && c.snapshot.value.number == c.base == c.joined
  {
    EmptyGood();
    RunKeeps(EMPTY, steps);
    var st := After(EMPTY, steps);
    var c := st.info[ws];
    assert Good(st, ws);
    born, last := RowTells(st.Changes(c.job)[..c.seen], c.joined, c.position);
  }

  /** The steps above are what the methods of the writers and of the manager do. */
  ghost predicate Mirrors(manager: JobProgressManager<Entry>, table: Updates, st: State)
    reads manager, table
  {
    && manager.Valid() && table.Valid()
    && (forall job :: manager.Log(job) == st.Log(job) && manager.Conns(job) == st.Conns(job))
    && (forall job :: table.Changes(job) == st.Changes(job))
  }

  /** The first effect of a writer's program: the row. */
  method StoreStep(manager: JobProgressManager<Entry>, table: Updates, job: JobId, change: Change,
                   ghost writer: WriterId, ghost st: State)
    requires Mirrors(manager, table, st) && Enabled(st, Store(writer))
    requires st.writers[writer].job == job && st.writers[writer].todo[0] == Stored(change)
    modifies table
    ensures Mirrors(manager, table, Apply(st, Store(writer)))
  {
    ghost var st' := Apply(st, Store(writer));
    assert forall j :: j != job ==> st'.Changes(j) == st.Changes(j);
    table.Store(job, change);
    assert forall j :: table.Changes(j) == At(table.changes, j, []);
  }

  /** The second: the message, which `broadcast` numbers. */
  method BroadcastStep(manager: JobProgressManager<Entry>, table: Updates, job: JobId, entry: Entry,
                       ghost writer: WriterId, ghost st: State)
    returns (enriched: Event<Entry>, conns: seq<Socket>)
    requires Mirrors(manager, table, st) && Enabled(st, Publish(writer))
    requires st.writers[writer].job == job && entry == NextEntry(st, writer)
    modifies manager
    ensures Mirrors(manager, table, Apply(st, Publish(writer)))
    ensures var st' := Apply(st, Publish(writer));
            && enriched == EventAt(st', job, |st'.Log(job)|)
            && conns == st'.Waiting(job, |st'.Log(job)|)
  {
    ghost var st' := Apply(st, Publish(writer));
    assert forall j :: j != job ==> st'.Log(j) == st.Log(j);
    enriched, conns := manager.Broadcast(job, entry);
  }

  /** `broadcast_progress`: with nobody connected the message is dropped, as if its writer had died. */
  method RelayStep(manager: JobProgressManager<Entry>, table: Updates, job: JobId, entry: Entry,
                   ghost writer: WriterId, ghost st: State)
    returns (sent: Option<Event<Entry>>, conns: seq<Socket>)
    requires Mirrors(manager, table, st) && Enabled(st, Publish(writer))
    requires st.writers[writer].job == job && entry == NextEntry(st, writer)
    modifies manager
    ensures sent.Some? <==> exists ws :: ws in st.Conns(job)
    ensures sent.None? ==> conns == [] && Mirrors(manager, table, Apply(st, Kill(writer)))
    ensures sent.Some? ==>
              var st' := Apply(st, Publish(writer));
              && Mirrors(manager, table, st')
              && sent.value == EventAt(st', job, |st'.Log(job)|) && conns == st'.Waiting(job, |st'.Log(job)|)
  {
    var some := manager.HasConnections(job);
    assert manager.Conns(job) == st.Conns(job);
    if !some {
      return None, [];
    }
    var enriched;
    enriched, conns := BroadcastStep(manager, table, job, entry, writer, st);
    sent := Some(enriched);
  }

  /** What goes out to a socket that has just joined: its snapshot, or else its replay. */
  function Greets(st: State, ws: Socket): seq<Message<Entry>>
    requires ws in st.info && ws in st.replay
  {
    match st.info[ws].snapshot
    case Some(m) => [m]
    case None => AsMessages(st.replay[ws])
  }

  lemma JoiningGreets(st: State, ws: Socket, job: JobId, last: int, position: Option<nat>)
    requires Enabled(st, Join(ws, job, last, position))
    ensures var st' := Apply(st, Join(ws, job, last, position));
            && ws in st'.info && ws in st'.replay
            && Greeting(st.Log(job), RowAfter(st.Changes(job)).value, last, position) == Greets(st', ws)
  {
  }

  lemma JoiningConns(st: State, ws: Socket, job: JobId, last: int, position: Option<nat>)
    requires Enabled(st, Join(ws, job, last, position))
    ensures var st' := Apply(st, Join(ws, job, last, position));
            && st'.changes == st.changes && st'.logs == st.logs
            && forall j :: st'.Conns(j) == if j == job then st.Conns(job) + [ws] else st.Conns(j)
  {
  }

  /** The part after the row was found. */
  method GreetStep(manager: JobProgressManager<Entry>, table: Updates, ws: Socket, job: JobId, row: Row, last: int,
                   position: Option<nat>, ghost st: State)
    returns (greeting: seq<Message<Entry>>)
    requires Mirrors(manager, table, st) && ws !in manager.Conns(job)
    requires Enabled(st, Join(ws, job, last, position)) && RowAfter(st.Changes(job)) == Some(row)
    modifies manager
    ensures var st' := Apply(st, Join(ws, job, last, position));
            Mirrors(manager, table, st') && ws in st'.info && ws in st'.replay && greeting == Greets(st', ws)
  {
    JoiningGreets(st, ws, job, last, position);
    JoiningConns(st, ws, job, last, position);
    greeting := ProgressManager.Join(manager, job, ws, row, last, position);
  }

  /** `websocket_job_handler` from the database read on: None is the closing of the socket for a job that
      does not exist. */
  method JoinStep(manager: JobProgressManager<Entry>, table: Updates, ws: Socket, job: JobId, last: int,
                  position: Option<nat>, ghost st: State)
    returns (greeting: Option<seq<Message<Entry>>>)
    requires Mirrors(manager, table, st) && Good(st, ws) && ws !in st.info
    modifies manager
    ensures greeting.Some? <==> Enabled(st, Join(ws, job, last, position))
    ensures greeting.None? ==> Mirrors(manager, table, st)
    ensures greeting.Some? ==>
              var st' := Apply(st, Join(ws, job, last, position));
              Mirrors(manager, table, st') && ws in st'.info && ws in st'.replay && greeting.value == Greets(st', ws)
  {
    var row := table.Get(job);
    if row.None? {
      return None;
    }
    var messages := GreetStep(manager, table, ws, job, row.value, last, position, st);
    greeting := Some(messages);
  }

  method RemoveDeadStep(manager: JobProgressManager<Entry>, table: Updates, job: JobId, dead: seq<Socket>,
                        ghost st: State)
    requires Mirrors(manager, table, st) && Enabled(st, RemoveDead(job, Members(dead)))
    modifies manager
    ensures Mirrors(manager, table, Apply(st, RemoveDead(job, Members(dead))))
  {
    ghost var st' := Apply(st, RemoveDead(job, Members(dead)));
    assert forall j :: j != job ==> st'.Conns(j) == st.Conns(j);
    manager.RemoveDead(job, dead);
  }

  method LeaveStep(manager: JobProgressManager<Entry>, table: Updates, job: JobId, ws: Socket, ghost st: State)
    requires Mirrors(manager, table, st) && Enabled(st, Leave(ws)) && job == st.info[ws].job
    modifies manager
    ensures Mirrors(manager, table, Apply(st, Leave(ws)))
  {
    ghost var st' := Apply(st, Leave(ws));
    assert forall j :: j != job ==> st'.Conns(j) == st.Conns(j);
    manager.Disconnect(job, ws);
  }
}

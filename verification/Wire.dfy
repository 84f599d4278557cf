/** One client against the server with its freely interleaved sends (src/viewer/src/hooks/useJobWebSocket.ts,
    src/api/ws.py): when the sends of module Delivery amount to the wire of module Reconnect.

    The client uses one socket after the other. A snapshot goes out when the socket joins. Other clients,
    other jobs, writers and removals may do what they like; of the sends to the client's own socket it is
    asked that they are in order, and that none succeeds after one has failed. */
module Wire {
  import opened JobUpdates
  import opened Prelude
  import opened ProgressManager
  import Client = Reconnect
  import Server = Delivery

  /** The server, and the client: its refs, the socket it has open, and how many messages it has taken from
      that socket; the rest is the client's record, as in Reconnect. */
  datatype State = State(
    server: Server.State,
    client: Client.Client,
    socket: Option<Socket>,
    taken: nat,
    start: nat,
    processed: seq<Event<Entry>>,
    lost: nat,
    within: bool)

  const BEGIN := State(Server.EMPTY, Client.Client(0, Client.INITIAL_RECONNECT_DELAY, false), None, 0, 0, [], 0, true)

  datatype Step =
    | Serve(step: Server.Step)
    | Connect(ws: Socket, position: Option<nat>)
    | Receive
    | Drop(maxDelay: nat)

  function SnapshotOf(c: Server.Conn): seq<Message<Entry>> {
    match c.snapshot
    case Some(m) => [m]
    case None => []
  }

  /** The messages sent to a socket so far. */
  function Sent(d: Server.State, ws: Socket): seq<Message<Entry>>
    requires ws in d.info && ws in d.delivered
  {
    SnapshotOf(d.info[ws]) + AsMessages(d.delivered[ws])
  }

  /** All the messages a socket is owed so far. */
  function Owed(d: Server.State, ws: Socket): seq<Message<Entry>>
    requires ws in d.info && d.info[ws].base <= |d.Log(d.info[ws].job)|
  {
    var c := d.info[ws];
    SnapshotOf(c) + AsMessages(Slice(d.Log(c.job), c.base, |d.Log(c.job)|))
  }

  /** Sends to this socket are in order: a broadcast waits for the replay and for earlier broadcasts; and none
      succeeds after one has failed. */
  predicate InOrder(d: Server.State, ws: Socket, step: Server.Step)
    requires Server.Enabled(d, step)
  {
    match step
    case SendReplay(w, ok) => w == ws && ok ==> d.info[w].open
    case SendLive(job, k, ok) =>
      d.Waiting(job, k)[0] == ws && ok ==>
        && d.info[ws].open && ws in d.replay && d.replay[ws] == []
        && forall j: nat :: j < k ==> ws !in d.Waiting(job, j)
    case _ => true
  }

  /** The client's connections are for its job; the server does not join or serve a socket on its behalf. */
  ghost predicate Enabled(st: State, job: JobId, step: Step) {
    match step
    case Serve(s) =>
      && Server.Enabled(st.server, s)
      && (st.socket.Some? ==> InOrder(st.server, st.socket.value, s))
    case Connect(ws, position) =>
      && st.socket.None? && !st.client.stopped
      && Server.Enabled(st.server, Server.Join(ws, job, st.client.lastSeq, position))
    case Receive =>
      && st.socket.Some? && st.socket.value in st.server.info && st.socket.value in st.server.delivered
      && st.taken < |Sent(st.server, st.socket.value)|
    case Drop(_) => st.socket.Some?
  }

  /** What the client makes of the next message: exactly what it does in Reconnect. */
  function Received(st: State, m: Message<Entry>): State {
    var client := st.client.Received(m);
    var st' := st.(client := client, socket := if client.stopped then None else st.socket, taken := st.taken + 1);
    match m
    case Live(event) => st'.(processed := st.processed + [event],
                             lost := st.lost + Max(0, event.number - st.client.lastSeq - 1))
    case Initial(_, _, number, _) => if st.client.lastSeq == 0 then st'.(start := number) else st'
  }

  ghost function Apply(st: State, job: JobId, step: Step): State
    requires Enabled(st, job, step)
  {
    match step
    case Serve(s) => st.(server := Server.Apply(st.server, s))
    case Connect(ws, position) =>
      var n, last := |st.server.Log(job)|, st.client.lastSeq;
      st.(server := Server.Apply(st.server, Server.Join(ws, job, last, position)),
          client := st.client.Opened(), socket := Some(ws), taken := 0,
          within := st.within && (last == 0 || n - last <= MAX_EVENT_HISTORY))
    case Receive => Received(st, Sent(st.server, st.socket.value)[st.taken])
    case Drop(maxDelay) => st.(client := st.client.Closed(maxDelay), socket := None)
  }

  ghost predicate Runs(st: State, job: JobId, steps: seq<Step>)
    decreases |steps|
  {
    steps == [] || (Enabled(st, job, steps[0]) && Runs(Apply(st, job, steps[0]), job, steps[1..]))
  }

  ghost function After(st: State, job: JobId, steps: seq<Step>): State
    requires Runs(st, job, steps)
    decreases |steps|
  {
    if steps == [] then st else After(Apply(st, job, steps[0]), job, steps[1..])
  }

  /** What was sent to the socket is an unbroken stretch of the log from its base. */
  ghost predicate Sequenced(d: Server.State, ws: Socket) {
    && ws in d.info && ws in d.delivered
    && (var c := d.info[ws];
        && c.base + |d.delivered[ws]| <= |d.Log(c.job)|
        && d.delivered[ws] == Slice(d.Log(c.job), c.base, c.base + |d.delivered[ws]|))
  }

  ghost predicate Inv(st: State, job: JobId) {
    && Server.Inv(st.server)
    && (st.socket.Some? ==>
          && Sequenced(st.server, st.socket.value)
          && st.server.info[st.socket.value].job == job
          && st.taken <= |Sent(st.server, st.socket.value)|)
  }

  /** What the socket is owed and the client has not taken. */
  ghost function WireOf(st: State, job: JobId): seq<Message<Entry>>
    requires Inv(st, job)
  {
    match st.socket
    case Some(ws) => Owed(st.server, ws)[st.taken..]
    case None => []
  }

  /** The client with a given log and wire. */
  function Seeing(st: State, log: seq<Entry>, wire: seq<Message<Entry>>): Client.State {
    Client.State(log, st.client, st.socket.Some?, wire, st.start, st.processed, st.lost, st.within)
  }

  /** The client's view of it all: the log of its job, and as its wire what it is owed. */
  ghost function View(st: State, job: JobId): Client.State
    requires Inv(st, job)
  {
    Seeing(st, st.server.Log(job), WireOf(st, job))
  }

  lemma CountsIn(log: seq<Entry>, events: seq<Event<Entry>>, lo: nat, hi: nat, k: nat)
    requires lo <= hi <= |log| && 0 < k <= |log| && events == Slice(log, lo, hi)
    ensures Count(events, Event(k, log[k - 1])) == if lo < k <= hi then 1 else 0
  {
    Server.CopiesInSlice(log, lo, hi, k);
  }

  /** Where event k is, for a socket that was sent an unbroken stretch: sent, or in the replay, or waiting. */
  lemma Accounts(d: Server.State, ws: Socket, k: nat)
    requires Server.Good(d, ws) && Sequenced(d, ws) && d.info[ws].open
    requires d.info[ws].base < k <= |d.Log(d.info[ws].job)|
    ensures var c, r := d.info[ws], |d.replay[ws]|;
            (if k <= c.base + |d.delivered[ws]| then 1 else 0) + (if c.joined - r < k <= c.joined then 1 else 0)
            + Count(d.Waiting(c.job, k), ws) == 1
  {
    var c := d.info[ws];
    assert Server.Copies(d, ws, k) == 1;
    CountsIn(d.Log(c.job), d.delivered[ws], c.base, c.base + |d.delivered[ws]|, k);
    CountsIn(d.Log(c.job), d.replay[ws], c.joined - |d.replay[ws]|, c.joined, k);
  }

  /** The next event of a replay is the next event. */
  lemma ReplayIsNext(d: Server.State, ws: Socket)
    requires Server.Good(d, ws) && Sequenced(d, ws) && d.info[ws].open && d.replay[ws] != []
    ensures d.replay[ws][0].number == d.info[ws].base + |d.delivered[ws]| + 1
  {
    var c, first, next := d.info[ws], d.replay[ws][0].number, d.info[ws].base + |d.delivered[ws]| + 1;
    Accounts(d, ws, first);
    if next < first {
      Accounts(d, ws, next);
    }
  }

  /** A broadcast event is the next one exactly if the replay is through and no earlier one is waiting. */
  lemma LiveIsNextExactly(d: Server.State, ws: Socket, k: nat)
    requires Server.Good(d, ws) && Sequenced(d, ws) && d.info[ws].open && ws in d.Waiting(d.info[ws].job, k)
    ensures k == d.info[ws].base + |d.delivered[ws]| + 1
            <==> d.replay[ws] == [] && forall j: nat :: j < k ==> ws !in d.Waiting(d.info[ws].job, j)
  {
    var c, next := d.info[ws], d.info[ws].base + |d.delivered[ws]| + 1;
    Accounts(d, ws, k);
    if k == next {
      if d.replay[ws] != [] {
        ReplayIsNext(d, ws);
      }
      forall j: nat | j < k ensures ws !in d.Waiting(c.job, j) {
        if ws in d.Waiting(c.job, j) {
          Accounts(d, ws, j);
        }
      }
    } else if d.replay[ws] == [] {
      Accounts(d, ws, next);
      assert ws in d.Waiting(c.job, next);
    }
  }

  /** The send of a step that succeeds, if it goes to this socket. */
  function Sends(d: Server.State, ws: Socket, step: Server.Step): Option<Event<Entry>>
    requires Server.Enabled(d, step)
  {
    match step
    case SendReplay(w, ok) => if w == ws && ok then Some(d.replay[ws][0]) else None
    case SendLive(job, k, ok) => if d.Waiting(job, k)[0] == ws && ok then Some(Server.EventAt(d, job, k)) else None
    case _ => None
  }

  /** All that a step does to the record of a socket. */
  ghost predicate Recorded(d: Server.State, d': Server.State, ws: Socket, sent: Option<Event<Entry>>)
    requires ws in d.info && ws in d.delivered
  {
    && ws in d'.info && ws in d'.delivered && d'.info[ws] == d.info[ws].(open := d'.info[ws].open)
    && d'.delivered[ws] == (match sent case Some(e) => d.delivered[ws] + [e] case None => d.delivered[ws])
  }

  lemma LiveRecords(d: Server.State, ws: Socket, job: JobId, k: nat, ok: bool)
    requires var step := Server.SendLive(job, k, ok); Server.Enabled(d, step) && ws in d.info && ws in d.delivered
    ensures var step := Server.SendLive(job, k, ok); Recorded(d, Server.Apply(d, step), ws, Sends(d, ws, step))
  {
  }

  lemma ReplayRecords(d: Server.State, ws: Socket, w: Socket, ok: bool)
    requires var step := Server.SendReplay(w, ok); Server.Enabled(d, step) && ws in d.info && ws in d.delivered
    ensures var step := Server.SendReplay(w, ok); Recorded(d, Server.Apply(d, step), ws, Sends(d, ws, step))
  {
  }

  lemma StepRecords(d: Server.State, ws: Socket, step: Server.Step)
    requires Server.Enabled(d, step) && ws in d.info && ws in d.delivered
    ensures Recorded(d, Server.Apply(d, step), ws, Sends(d, ws, step))
  {
    match step
    case SendReplay(w, ok) => ReplayRecords(d, ws, w, ok);
    case SendLive(job, k, ok) => LiveRecords(d, ws, job, k, ok);
    case Join(w, job, last, position) => assert w != ws;
    case _ =>
  }

  /** What is sent to an open socket is an event of its log. */
  lemma SendsItsLog(d: Server.State, ws: Socket, step: Server.Step)
    requires Server.Enabled(d, step) && Server.Good(d, ws) && Sequenced(d, ws) && d.info[ws].open
    requires Sends(d, ws, step).Some?
    ensures var c, e := d.info[ws], Sends(d, ws, step).value;
            && c.base < e.number <= |d.Log(c.job)| && e == Server.EventAt(d, c.job, e.number)
            && (e.number == c.base + |d.delivered[ws]| + 1 <==> InOrder(d, ws, step))
  {
    match step
    case SendReplay(_, _) =>
      ReplayIsNext(d, ws);
    case SendLive(job, k, _) =>
      assert ws in d.Waiting(job, k);
      LiveIsNextExactly(d, ws, k);
  }

  lemma SequencedGrows(d: Server.State, d': Server.State, ws: Socket)
    requires Sequenced(d, ws) && ws in d'.info && ws in d'.delivered && d'.delivered[ws] == d.delivered[ws]
    requires d'.info[ws] == d.info[ws].(open := d'.info[ws].open)
    requires d.Log(d.info[ws].job) <= d'.Log(d.info[ws].job)
    ensures Sequenced(d', ws)
  {
  }

  lemma SequencedExtends(d: Server.State, d': Server.State, ws: Socket, k: nat)
    requires Sequenced(d, ws) && ws in d'.info && ws in d'.delivered && d.info[ws].base < k <= |d.Log(d.info[ws].job)|
    requires d'.info[ws] == d.info[ws].(open := d'.info[ws].open) && d'.Log(d.info[ws].job) == d.Log(d.info[ws].job)
    requires d'.delivered[ws] == d.delivered[ws] + [Server.EventAt(d, d.info[ws].job, k)]
    ensures Sequenced(d', ws) <==> k == d.info[ws].base + |d.delivered[ws]| + 1
  {
    assert d'.delivered[ws][|d.delivered[ws]|].number == k;
  }

  /** Main result for the server: what an open socket is sent stays an unbroken stretch exactly while the sends
      to it are in order. */
  lemma SequencedExactly(d: Server.State, ws: Socket, step: Server.Step)
    requires Server.Enabled(d, step) && Server.Good(d, ws) && Sequenced(d, ws) && d.info[ws].open
    ensures Sequenced(Server.Apply(d, step), ws) <==> InOrder(d, ws, step)
  {
    var d' := Server.Apply(d, step);
    StepRecords(d, ws, step);
    Server.OnlyGrows(d, step, d.info[ws].job);
    match Sends(d, ws, step)
    case Some(e) =>
      SendsItsLog(d, ws, step);
      SequencedExtends(d, d', ws, e.number);
    case None =>
      SequencedGrows(d, d', ws);
  }

  /** A socket that has failed is sent nothing more. */
  lemma OrderKeeps(d: Server.State, ws: Socket, step: Server.Step)
    requires Server.Enabled(d, step) && Server.Good(d, ws) && Sequenced(d, ws) && InOrder(d, ws, step)
    ensures Sequenced(Server.Apply(d, step), ws)
  {
    if d.info[ws].open {
      SequencedExactly(d, ws, step);
    } else {
      StepRecords(d, ws, step);
      Server.OnlyGrows(d, step, d.info[ws].job);
      SequencedGrows(d, Server.Apply(d, step), ws);
    }
  }

  /** What was sent is the beginning of what is owed. */
  lemma SentIsOwed(d: Server.State, ws: Socket, i: nat)
    requires Sequenced(d, ws) && i < |Sent(d, ws)|
    ensures i < |Owed(d, ws)| && Sent(d, ws)[i] == Owed(d, ws)[i]
  {
  }

  /** What one step of the server is to the client: a broadcast of its job, or nothing. */
  function Broadcasts(d: Server.State, job: JobId, step: Server.Step): seq<Client.Step>
    requires Server.Enabled(d, step)
  {
    if step.Publish? && d.writers[step.writer].job == job then [Client.Broadcast(Server.NextEntry(d, step.writer))]
    else []
  }

  /** And what that adds to the log and to the client's wire. */
  function Entries(steps: seq<Client.Step>): seq<Entry> {
    if steps != [] && steps[0].Broadcast? then [steps[0].entry] else []
  }

  function Messages(online: bool, n: nat, entries: seq<Entry>): seq<Message<Entry>> {
    if online && entries != [] then [Live(Event(n + 1, entries[0]))] else []
  }

  lemma RestGrows(front: seq<Message<Entry>>, log: seq<Entry>, base: nat, entries: seq<Entry>)
    requires base <= |log| && |entries| <= 1
    ensures front + AsMessages(Slice(log + entries, base, |log + entries|)) ==
            front + AsMessages(Slice(log, base, |log|)) + Messages(true, |log|, entries)
  {
  }

  lemma OwedGrows(d: Server.State, ws: Socket, step: Server.Step)
    requires Server.Enabled(d, step) && Sequenced(d, ws) && Sequenced(Server.Apply(d, step), ws)
    ensures var job := d.info[ws].job;
            Owed(Server.Apply(d, step), ws) ==
            Owed(d, ws) + Messages(true, |d.Log(job)|, Entries(Broadcasts(d, job, step)))
    ensures |Sent(d, ws)| <= |Sent(Server.Apply(d, step), ws)|
  {
    var c := d.info[ws];
    StepRecords(d, ws, step);
    Server.OnlyGrows(d, step, c.job);
    RestGrows(SnapshotOf(c), d.Log(c.job), c.base, Entries(Broadcasts(d, c.job, step)));
  }

  lemma ServeKeeps(st: State, job: JobId, step: Server.Step)
    requires Inv(st, job) && Enabled(st, job, Serve(step))
    ensures Inv(Apply(st, job, Serve(step)), job)
  {
    Server.StepKeeps(st.server, step);
    match st.socket
    case None =>
    case Some(ws) =>
      assert Server.Good(st.server, ws);
      OrderKeeps(st.server, ws, step);
      StepRecords(st.server, ws, step);
      OwedGrows(st.server, ws, step);
  }

  lemma TailExtends<T>(s: seq<T>, t: seq<T>, n: nat)
    requires n <= |s|
    ensures (s + t)[n..] == s[n..] + t
  {
  }

  /** The wire after a step of the server. */
  lemma ServeWire(st: State, job: JobId, step: Server.Step)
    requires Inv(st, job) && Enabled(st, job, Serve(step)) && Inv(Apply(st, job, Serve(step)), job)
    ensures WireOf(Apply(st, job, Serve(step)), job) ==
            WireOf(st, job) +
            Messages(st.socket.Some?, |st.server.Log(job)|, Entries(Broadcasts(st.server, job, step)))
  {
    match st.socket
    case None =>
    case Some(ws) =>
      OwedGrows(st.server, ws, step);
      TailExtends(Owed(st.server, ws), Messages(true, |st.server.Log(job)|, Entries(Broadcasts(st.server, job, step))),
                  st.taken);
  }

  lemma OneStep(v: Client.State, step: Client.Step)
    requires Client.Enabled(v, step)
    ensures Client.Runs(v, [step]) && Client.After(v, [step]) == Client.Apply(v, step)
  {
    assert Client.After(v, [step]) == Client.After(Client.Apply(v, step), [step][1..]);
  }

  lemma BroadcastAlike(st: State, log: seq<Entry>, wire: seq<Message<Entry>>, entry: Entry)
    ensures Client.Apply(Seeing(st, log, wire), Client.Broadcast(entry)) ==
            Seeing(st, log + [entry], wire + Messages(st.socket.Some?, |log|, [entry]))
  {
    assert wire + [] == wire;
  }

  lemma BroadcastsAlike(st: State, log: seq<Entry>, wire: seq<Message<Entry>>, steps: seq<Client.Step>)
    requires steps == [] || (|steps| == 1 && steps[0].Broadcast?)
    ensures Client.Runs(Seeing(st, log, wire), steps)
    ensures Client.After(Seeing(st, log, wire), steps) ==
            Seeing(st, log + Entries(steps), wire + Messages(st.socket.Some?, |log|, Entries(steps)))
  {
    if steps == [] {
      assert log + [] == log && wire + [] == wire;
    } else {
      assert steps == [steps[0]];
      OneStep(Seeing(st, log, wire), steps[0]);
      BroadcastAlike(st, log, wire, steps[0].entry);
    }
  }

  lemma ServeView(st: State, job: JobId, step: Server.Step)
    requires Inv(st, job) && Enabled(st, job, Serve(step)) && Inv(Apply(st, job, Serve(step)), job)
    ensures var log, entries := st.server.Log(job), Entries(Broadcasts(st.server, job, step));
            View(Apply(st, job, Serve(step)), job) ==
            Seeing(st, log + entries, WireOf(st, job) + Messages(st.socket.Some?, |log|, entries))
  {
    Server.OnlyGrows(st.server, step, job);
    ServeWire(st, job, step);
  }

  lemma ServeRefines(st: State, job: JobId, step: Server.Step)
    requires Inv(st, job) && Enabled(st, job, Serve(step)) && Inv(Apply(st, job, Serve(step)), job)
    ensures Client.Runs(View(st, job), Broadcasts(st.server, job, step))
    ensures View(Apply(st, job, Serve(step)), job) ==
            Client.After(View(st, job), Broadcasts(st.server, job, step))
  {
    ServeView(st, job, step);
    BroadcastsAlike(st, st.server.Log(job), WireOf(st, job), Broadcasts(st.server, job, step));
  }

  lemma ConnectRefines(st: State, job: JobId, ws: Socket, position: Option<nat>)
    requires Inv(st, job) && Enabled(st, job, Connect(ws, position))
    ensures var st', row := Apply(st, job, Connect(ws, position)), RowAfter(st.server.Changes(job)).value;
            && Inv(st', job) && Client.Enabled(View(st, job), Client.Connect(row, position))
            && View(st', job) == Client.Apply(View(st, job), Client.Connect(row, position))
  {
    var d, last := st.server, st.client.lastSeq;
    Server.StepKeeps(d, Server.Join(ws, job, last, position));
    var d' := Server.Apply(d, Server.Join(ws, job, last, position));
    assert d'.Log(job) == d.Log(job);
    assert Owed(d', ws) == Greeting(d.Log(job), RowAfter(d.Changes(job)).value, last, position);
  }

  lemma ReceiveKeeps(st: State, job: JobId)
    requires Inv(st, job) && Enabled(st, job, Receive)
    ensures Inv(Apply(st, job, Receive), job)
  {
  }

  lemma TailSplits<T>(s: seq<T>, n: nat)
    requires n < |s|
    ensures s[n..] != [] && s[n..][0] == s[n] && s[n..][1..] == s[n + 1..]
  {
  }

  lemma ReceivedAlike(st: State, log: seq<Entry>, wire: seq<Message<Entry>>)
    requires st.socket.Some? && wire != []
    ensures Client.Enabled(Seeing(st, log, wire), Client.Receive)
    ensures var st' := Received(st, wire[0]);
            Client.Apply(Seeing(st, log, wire), Client.Receive) ==
            Seeing(st', log, if st'.socket.Some? then wire[1..] else [])
  {
  }

  lemma ReceiveWire(st: State, job: JobId)
    requires Inv(st, job) && Enabled(st, job, Receive) && Inv(Apply(st, job, Receive), job)
    ensures var wire, st' := WireOf(st, job), Apply(st, job, Receive);
            && wire != [] && st' == Received(st, wire[0])
            && WireOf(st', job) == if st'.socket.Some? then wire[1..] else []
  {
    var ws := st.socket.value;
    SentIsOwed(st.server, ws, st.taken);
    TailSplits(Owed(st.server, ws), st.taken);
  }

  lemma ReceiveRefines(st: State, job: JobId)
    requires Inv(st, job) && Enabled(st, job, Receive) && Inv(Apply(st, job, Receive), job)
    ensures Client.Enabled(View(st, job), Client.Receive)
    ensures View(Apply(st, job, Receive), job) == Client.Apply(View(st, job), Client.Receive)
  {
    ReceiveWire(st, job);
    ReceivedAlike(st, st.server.Log(job), WireOf(st, job));
  }

  /** One step of client and server is a step of the client on its wire, or nothing. */
  lemma StepRefines(st: State, job: JobId, step: Step) returns (steps: seq<Client.Step>)
    requires Inv(st, job) && Enabled(st, job, step)
    ensures var st' := Apply(st, job, step);
            Inv(st', job) && Client.Runs(View(st, job), steps) && View(st', job) == Client.After(View(st, job), steps)
  {
    match step
    case Serve(s) =>
      ServeKeeps(st, job, s);
      ServeRefines(st, job, s);
      steps := Broadcasts(st.server, job, s);
    case Connect(ws, position) =>
      ConnectRefines(st, job, ws, position);
      steps := [Client.Connect(RowAfter(st.server.Changes(job)).value, position)];
    case Receive =>
      ReceiveKeeps(st, job);
      ReceiveRefines(st, job);
      steps := [Client.Receive];
    case Drop(maxDelay) =>
      steps := [Client.Drop(maxDelay)];
  }

  lemma {:induction false} RunsTogether(st: Client.State, first: seq<Client.Step>, second: seq<Client.Step>)
    requires Client.Runs(st, first) && Client.Runs(Client.After(st, first), second)
    ensures Client.Runs(st, first + second)
    ensures Client.After(st, first + second) == Client.After(Client.After(st, first), second)
    decreases |first|
  {
    if first == [] {
      assert first + second == second;
    } else {
      assert (first + second)[1..] == first[1..] + second;
      RunsTogether(Client.Apply(st, first[0]), first[1..], second);
    }
  }

  /** Every run refines a run of the client on its wire. */
  lemma {:induction false} RunRefines(st: State, job: JobId, steps: seq<Step>) returns (seen: seq<Client.Step>)
    requires Inv(st, job) && Runs(st, job, steps)
    ensures Inv(After(st, job, steps), job) && Client.Runs(View(st, job), seen)
    ensures View(After(st, job, steps), job) == Client.After(View(st, job), seen)
    decreases |steps|
  {
    if steps == [] {
      seen := [];
    } else {
      var first := StepRefines(st, job, steps[0]);
      var rest := RunRefines(Apply(st, job, steps[0]), job, steps[1..]);
      RunsTogether(View(st, job), first, rest);
      seen := first + rest;
    }
  }

  /** Main result: while the sends to the client's socket are in order, and whatever else the server does, the
      client processes events of the job in order and without repetition, counts exactly what it skips, and
      skips nothing if no reconnect found it more than one history behind. */
  lemma EndToEndOverServer(job: JobId, steps: seq<Step>)
    requires Runs(BEGIN, job, steps)
    ensures var st := After(BEGIN, job, steps);
            var log, last := st.server.Log(job), st.client.lastSeq;
            && st.start <= last <= |log|
            && Client.InOrder(log, st.processed, st.start, last)
            && |st.processed| + st.lost == last - st.start
            && (st.processed == Slice(log, st.start, last) <==> st.lost == 0)
            && (st.within ==> st.lost == 0)
  {
    Server.EmptyGood();
    var seen := RunRefines(BEGIN, job, steps);
    assert View(BEGIN, job) == Client.Begin([]);
    Client.EndToEnd([], seen);
  }

  lemma {:induction false} RunExtends(d: Server.State, steps: seq<Server.Step>, step: Server.Step)
    requires Server.Runs(d, steps) && Server.Enabled(Server.After(d, steps), step)
    ensures Server.Runs(d, steps + [step])
    ensures Server.After(d, steps + [step]) == Server.Apply(Server.After(d, steps), step)
    decreases |steps|
  {
    if steps == [] {
      assert steps + [step] == [step] && [step][1..] == [];
    } else {
      assert (steps + [step])[1..] == steps[1..] + [step];
      RunExtends(Server.Apply(d, steps[0]), steps[1..], step);
    }
  }

  /** A run in which a writer begins, stores and publishes a piece of progress. */
  lemma Announce(steps: seq<Server.Step>, writer: Server.WriterId, job: JobId) returns (steps': seq<Server.Step>)
    requires Server.Runs(Server.EMPTY, steps) && writer !in Server.After(Server.EMPTY, steps).writers
    ensures Server.Runs(Server.EMPTY, steps')
    ensures var d, d' := Server.After(Server.EMPTY, steps), Server.After(Server.EMPTY, steps');
            && d'.writers.Keys == d.writers.Keys + {writer}
            && d'.changes == d.changes[job := d.Changes(job) + [Progressed("")]]
            && |d'.Log(job)| == |d.Log(job)| + 1
            && d'.live == d.live[(job, |d'.Log(job)|) := d.Conns(job)]
            && d'.conns == d.conns && d'.info == d.info && d'.replay == d.replay && d'.delivered == d.delivered
  {
    RunExtends(Server.EMPTY, steps, Server.Begin(writer, job, Progressed("")));
    var begun := steps + [Server.Begin(writer, job, Progressed(""))];
    RunExtends(Server.EMPTY, begun, Server.Store(writer));
    var stored := begun + [Server.Store(writer)];
    RunExtends(Server.EMPTY, stored, Server.Publish(writer));
    steps' := stored + [Server.Publish(writer)];
  }

  /** A job with one event, for which a socket is still to come. */
  lemma FirstEvent(job: JobId) returns (steps: seq<Server.Step>)
    ensures Server.Runs(Server.EMPTY, steps)
    ensures var d := Server.After(Server.EMPTY, steps);
            && d.writers.Keys == {0, 1} && RowAfter(d.Changes(job)).Some? && |d.Log(job)| == 1
            && d.conns == map[] && d.info == map[]
  {
    RunExtends(Server.EMPTY, [], Server.Begin(0, job, Created));
    RunExtends(Server.EMPTY, [Server.Begin(0, job, Created)], Server.Store(0));
    steps := Announce([Server.Begin(0, job, Created)] + [Server.Store(0)], 1, job);
  }

  /** A socket joins with one event to be replayed, and another is broadcast before that is sent. */
  lemma JoinedMeanwhile(ws: Socket, job: JobId) returns (steps: seq<Server.Step>)
    ensures Server.Runs(Server.EMPTY, steps)
    ensures var d := Server.After(Server.EMPTY, steps);
            && ws in d.info && ws in d.replay && ws in d.delivered && d.info[ws].open && d.info[ws].job == job
            && d.delivered[ws] == [] && |d.Log(job)| == 3 && d.Waiting(job, 3) == [ws]
            && |d.replay[ws]| == 1 && d.replay[ws][0].number == 2
  {
    var first := FirstEvent(job);
    var second := Announce(first, 2, job);
    var d := Server.After(Server.EMPTY, second);
    var join := Server.Join(ws, job, 1, None);
    assert RowAfter(d.Changes(job)).Some?;
    RunExtends(Server.EMPTY, second, join);
    assert d.Conns(job) == [];
    steps := Announce(second + [join], 3, job);
  }

  /** Sends are not always in order: a broadcast can overtake the replay, and then the client is handed event
      3 before event 2. */
  lemma ReplayOvertaken(ws: Socket, job: JobId) returns (steps: seq<Server.Step>)
    ensures Server.Runs(Server.EMPTY, steps)
    ensures var d := Server.After(Server.EMPTY, steps);
            && ws in d.info && ws in d.delivered && d.info[ws].open && d.info[ws].job == job && |d.Log(job)| == 3
            && d.delivered[ws] == [Server.EventAt(d, job, 3), Server.EventAt(d, job, 2)]
  {
    var before := JoinedMeanwhile(ws, job);
    Server.ExactlyOnce(before, ws);
    RunExtends(Server.EMPTY, before, Server.SendLive(job, 3, true));
    RunExtends(Server.EMPTY, before + [Server.SendLive(job, 3, true)], Server.SendReplay(ws, true));
    steps := before + [Server.SendLive(job, 3, true)] + [Server.SendReplay(ws, true)];
  }

  /** And what the client makes of it: its cursor follows the last message, not the highest, so it falls back, and
      on its next connection it asks for, and is sent, an event again that it has already processed (unless one of
      the two was terminal and stopped it). */
  lemma {:induction false} CursorFallsBack(d: Server.State, job: JobId, client: Client.Client, k: nat, late: nat)
    requires 0 < late < k <= |d.Log(job)| && |d.Log(job)| - late <= 50
    ensures var log := d.Log(job);
            var high, low := Server.EventAt(d, job, k), Server.EventAt(d, job, late);
            var client' := client.Received(Live(high)).Received(Live(low));
            client'.lastSeq == late && high in EventsSince(log, late) && low !in EventsSince(log, late)
  {
    var log := d.Log(job);
    assert EventsSince(log, late)[k - late - 1] == Server.EventAt(d, job, k);
  }
}

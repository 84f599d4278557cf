/** One client following one job over dropped and reopened connections
    (src/viewer/src/hooks/useJobWebSocket.ts against src/api/ws.py).

    A connection is a first-in first-out wire that can be cut at any moment, losing what is on it. Module
    Wire shows which sends of the server amount to such a wire. */
module Reconnect {
  import opened JobUpdates
  import opened Prelude
  import opened ProgressManager

  const INITIAL_RECONNECT_DELAY := 1000
  const BACKOFF_MULTIPLIER := 2

  function NumberOf(m: Message<Entry>): nat {
    match m
    case Live(event) => event.number
    case Initial(_, _, number, _) => number
  }

  function StatusOf(m: Message<Entry>): Status {
    match m
    case Live(event) => event.data.notice.status
    case Initial(status, _, _, _) => status
  }

  predicate Terminal(status: Status) {
    status == Completed || status == Failed || status == Cancelled
  }

  /** The refs of the hook that outlive a connection, and its `stopped` flag. */
  datatype Client = Client(lastSeq: nat, delay: nat, stopped: bool) {
    /** A message moves the cursor to its number; a terminal one stops the hook for good. */
    function Received(m: Message<Entry>): Client {
      this.(lastSeq := NumberOf(m), stopped := stopped || Terminal(StatusOf(m)))
    }

    function Opened(): Client {
      this.(delay := INITIAL_RECONNECT_DELAY)
    }

    function Closed(maxDelay: nat): Client {
      if stopped then this else this.(delay := Min(delay * BACKOFF_MULTIPLIER, maxDelay))
    }
  }

  /** src/viewer/src/hooks/useJobWebSocket.ts: the effect and its callbacks. */
  class JobSocket {
    var lastSeq: nat
    var reconnectDelay: nat
    var stopped: bool
    const maxReconnectDelay: nat

    function Model(): Client
      reads this
    {
      Client(lastSeq, reconnectDelay, stopped)
    }

    constructor (maxDelay: nat)
      ensures Model() == Client(0, INITIAL_RECONNECT_DELAY, false) && maxReconnectDelay == maxDelay
    {
      lastSeq, reconnectDelay, stopped, maxReconnectDelay := 0, INITIAL_RECONNECT_DELAY, false, maxDelay;
    }

    /** onopen: returns the cursor that is sent to the server. */
    method OnOpen() returns (last: nat)
      modifies this
      ensures last == old(lastSeq)
      ensures Model() == old(Model()).Opened()
    {
      last := lastSeq;
      reconnectDelay := INITIAL_RECONNECT_DELAY;
    }

    /** onmessage: returns whether the socket is to be closed. */
    method OnMessage(m: Message<Entry>) returns (close: bool)
      modifies this
      ensures Model() == old(Model()).Received(m)
      ensures close <==> Terminal(StatusOf(m))
    {
      lastSeq := NumberOf(m);
      close := false;
      var status := StatusOf(m);
      if status == Completed || status == Failed || status == Cancelled {
        stopped := true;
        close := true;
      }
    }

    /** onclose: returns after how long to reconnect, unless the hook has stopped. */
    method OnClose() returns (wait: Option<nat>)
      modifies this
      ensures Model() == old(Model()).Closed(maxReconnectDelay)
      ensures wait == if old(stopped) then None else Some(old(reconnectDelay))
    {
      wait := None;
      if !stopped {
        wait := Some(reconnectDelay);
        reconnectDelay := Min(reconnectDelay * BACKOFF_MULTIPLIER, maxReconnectDelay);
      }
    }
  }

  function Doubled(start: nat, k: nat): nat {
    if k == 0 then start else 2 * Doubled(start, k - 1)
  }

  function ClosedTimes(c: Client, maxDelay: nat, k: nat): Client {
    if k == 0 then c else ClosedTimes(c, maxDelay, k - 1).Closed(maxDelay)
  }

  /** After an open connection the k-th failure in a row waits 1000 * 2^k, cut off at the maximum. */
  lemma {:induction false} BackoffClosedForm(c: Client, maxDelay: nat, k: nat)
    requires !c.stopped
    ensures ClosedTimes(c.Opened(), maxDelay, k).delay ==
            if k == 0 then 1000 else Min(Doubled(1000, k), maxDelay)
    ensures !ClosedTimes(c.Opened(), maxDelay, k).stopped
  {
    if k > 0 {
      BackoffClosedForm(c, maxDelay, k - 1);
    }
  }

  /** `processed` are the events handed to onMessage since `start`, the number of the snapshot the
      client began from; `lost` counts the numbers it skipped since then; `within` records whether
      every reconnect so far found the client at most one history length behind. */
  datatype State = State(
    log: seq<Entry>,
    client: Client,
    online: bool,
    wire: seq<Message<Entry>>,
    start: nat,
    processed: seq<Event<Entry>>,
    lost: nat,
    within: bool)

  datatype Step =
    | Broadcast(entry: Entry)
    | Connect(row: Row, position: Option<nat>)
    | Receive
    | Drop(maxDelay: nat)

  function Begin(log: seq<Entry>): State {
    State(log, Client(0, INITIAL_RECONNECT_DELAY, false), false, [], 0, [], 0, true)
  }

  predicate Enabled(st: State, step: Step) {
    match step
    case Broadcast(_) => true
    case Connect(_, _) => !st.online && !st.client.stopped
    case Receive => st.online && st.wire != []
    case Drop(_) => st.online
  }

  function Apply(st: State, step: Step): State
    requires Enabled(st, step)
  {
    match step
    case Broadcast(entry) =>
      var log := st.log + [entry];
      st.(log := log, wire := if st.online then st.wire + [Live(Event(|log|, entry))] else st.wire)
    case Connect(row, position) =>
      var last := st.client.lastSeq;
      st.(client := st.client.Opened(),
          online := true,
          wire := Greeting(st.log, row, last, position),
          within := st.within && (last == 0 || |st.log| - last <= MAX_EVENT_HISTORY))
    case Receive =>
      var m, client := st.wire[0], st.client.Received(st.wire[0]);
      var st' := st.(client := client,
                     online := !client.stopped,
                     wire := if client.stopped then [] else st.wire[1..]);
      match m {
        case Live(event) => st'.(processed := st.processed + [event],
                                 lost := st.lost + Max(0, event.number - st.client.lastSeq - 1))
        case Initial(_, _, number, _) => if st.client.lastSeq == 0 then st'.(start := number) else st'
      }
    case Drop(maxDelay) => st.(client := st.client.Closed(maxDelay), online := false, wire := [])
  }

  predicate Runs(st: State, steps: seq<Step>)
    decreases |steps|
  {
    steps == [] || (Enabled(st, steps[0]) && Runs(Apply(st, steps[0]), steps[1..]))
  }

  function After(st: State, steps: seq<Step>): State
    requires Runs(st, steps)
    decreases |steps|
  {
    if steps == [] then st else After(Apply(st, steps[0]), steps[1..])
  }

  /** The wire carries a snapshot followed by everything after it, or a stretch of the log up to its end. */
  ghost predicate WireInv(st: State) {
    var n, last := |st.log|, st.client.lastSeq;
    if st.wire != [] && st.wire[0].Initial? then
      var number := st.wire[0].number;
      && number <= n && (last == 0 || number == last)
      && st.wire[1..] == AsMessages(Slice(st.log, number, n))
    else
      && |st.wire| <= n - last
      && st.wire == AsMessages(Slice(st.log, n - |st.wire|, n))
      && (last == 0 || st.within ==> n - |st.wire| == last)
  }

  /** Events of the log, numbered in (start, last], in order and without repetition. */
  predicate InOrder(log: seq<Entry>, events: seq<Event<Entry>>, start: nat, last: nat)
    requires last <= |log|
  {
    && (forall i :: 0 <= i < |events| ==>
          start < events[i].number <= last && events[i] == Event(events[i].number, log[events[i].number - 1]))
    && (forall i, j :: 0 <= i < j < |events| ==> events[i].number < events[j].number)
  }

  lemma InOrderExtends(log: seq<Entry>, events: seq<Event<Entry>>, start: nat, last: nat, k: nat)
    requires last < k <= |log| && start <= last && InOrder(log, events, start, last)
    ensures InOrder(log, events + [Event(k, log[k - 1])], start, k)
  {
  }

  ghost predicate Inv(st: State) {
    var last := st.client.lastSeq;
    && st.start <= last <= |st.log|
    && (last == 0 ==> st.processed == [])
    && (st.online ==> WireInv(st))
    && |st.processed| + st.lost == last - st.start
    && InOrder(st.log, st.processed, st.start, last)
    && (st.lost == 0 ==> st.processed == Slice(st.log, st.start, last))
    && (st.within ==> st.lost == 0)
  }

  lemma BroadcastKeeps(st: State, entry: Entry)
    requires Inv(st)
    ensures Inv(Apply(st, Broadcast(entry)))
  {
    var st' := Apply(st, Broadcast(entry));
    var n := |st.log|;
    if st.online {
      if st.wire != [] && st.wire[0].Initial? {
        assert st'.wire[1..] == st.wire[1..] + [Live(Event(n + 1, entry))];
      }
    }
    assert Slice(st'.log, st.start, st.client.lastSeq) == Slice(st.log, st.start, st.client.lastSeq);
  }

  lemma ReceiveLiveWire(st: State)
    requires Inv(st) && Enabled(st, Receive) && st.wire[0].Live?
    ensures var lo := |st.log| - |st.wire|;
            && st.client.lastSeq <= lo < |st.log| && st.wire[0] == Live(Event(lo + 1, st.log[lo]))
            && (Apply(st, Receive).online ==> WireInv(Apply(st, Receive)))
  {
    var lo := |st.log| - |st.wire|;
    assert st.wire[1..] == AsMessages(Slice(st.log, lo + 1, |st.log|));
  }

  lemma ReceiveLiveKeeps(st: State)
    requires Inv(st) && Enabled(st, Receive) && st.wire[0].Live?
    ensures Inv(Apply(st, Receive))
  {
    var st', last, lo := Apply(st, Receive), st.client.lastSeq, |st.log| - |st.wire|;
    ReceiveLiveWire(st);
    InOrderExtends(st.log, st.processed, st.start, last, lo + 1);
    if st'.lost == 0 {
      assert st'.processed == Slice(st.log, st.start, lo + 1);
    }
  }

  lemma ReceiveInitialKeeps(st: State)
    requires Inv(st) && Enabled(st, Receive) && st.wire[0].Initial?
    ensures Inv(Apply(st, Receive))
  {
    var st', number := Apply(st, Receive), st.wire[0].number;
    assert st'.online ==> st'.wire == AsMessages(Slice(st.log, number, |st.log|));
  }

  lemma StepKeeps(st: State, step: Step)
    requires Inv(st) && Enabled(st, step)
    ensures Inv(Apply(st, step))
  {
    match step
    case Broadcast(entry) => BroadcastKeeps(st, entry);
    case Receive =>
      if st.wire[0].Live? {
        ReceiveLiveKeeps(st);
      } else {
        ReceiveInitialKeeps(st);
      }
    case _ =>
  }

  lemma {:induction false} RunKeeps(st: State, steps: seq<Step>)
    requires Inv(st) && Runs(st, steps)
    ensures Inv(After(st, steps))
    decreases |steps|
  {
    if steps != [] {
      StepKeeps(st, steps[0]);
      RunKeeps(Apply(st, steps[0]), steps[1..]);
    }
  }

  /** Main result, for every run. What the client has processed is always in order, free of
      duplicates and part of the log, and the numbers it skipped are counted exactly; if it skipped
      none, and so if every reconnect found it at most 50 events behind, it is one unbroken stretch of
      the log ending at the cursor. */
  lemma EndToEnd(log: seq<Entry>, steps: seq<Step>)
    requires Runs(Begin(log), steps)
    ensures var st := After(Begin(log), steps);
            var last := st.client.lastSeq;
            && st.start <= last <= |st.log|
            && InOrder(st.log, st.processed, st.start, last)
            && |st.processed| + st.lost == last - st.start
            && (st.processed == Slice(st.log, st.start, last) <==> st.lost == 0)
            && (st.within ==> st.lost == 0)
  {
    RunKeeps(Begin(log), steps);
  }

  /** The bound is exact: a client that has a cursor and comes back more than 50 events behind skips
      exactly the excess with the first message it receives, so what it has processed is then too
      short to be an unbroken stretch (and stays so: `lost` never shrinks). */
  lemma LateReconnectLoses(log: seq<Entry>, steps: seq<Step>, row: Row, position: Option<nat>)
    requires Runs(Begin(log), steps)
    requires var st := After(Begin(log), steps);
             Enabled(st, Connect(row, position)) && st.client.lastSeq > 0
             && |st.log| - st.client.lastSeq > MAX_EVENT_HISTORY
    ensures var st := After(Begin(log), steps);
            var st' := Apply(st, Connect(row, position));
            && Enabled(st', Receive)
            && Apply(st', Receive).lost == st.lost + (|st.log| - st.client.lastSeq - MAX_EVENT_HISTORY)
            && |Apply(st', Receive).processed| < Apply(st', Receive).client.lastSeq - st.start
  {
    RunKeeps(Begin(log), steps);
    var st := After(Begin(log), steps);
    StepKeeps(st, Connect(row, position));
    StepKeeps(Apply(st, Connect(row, position)), Receive);
  }

  /** Skipped numbers stay skipped, and after a terminal message nothing is processed any more. */
  lemma {:induction false} NothingIsUndone(st: State, steps: seq<Step>)
    requires Runs(st, steps)
    ensures After(st, steps).lost >= st.lost
    ensures st.client.stopped && !st.online ==>
      After(st, steps).processed == st.processed && After(st, steps).client.stopped && !After(st, steps).online
    decreases |steps|
  {
    if steps != [] {
      NothingIsUndone(Apply(st, steps[0]), steps[1..]);
    }
  }
}

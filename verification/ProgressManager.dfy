/** The server side of the progress stream (src/api/ws.py): one sequence counter, one bounded
    history and one connection list per job, and the messages a joining client is greeted with.

    The class keeps the fields of the source. Beside them it keeps a ghost log of everything ever
    broadcast, which is never trimmed; every contract speaks about that log. */
module ProgressManager {
  import opened Prelude

  const MAX_EVENT_HISTORY: nat := 50

  /** A WebSocket object, known by its identity only. */
  type Socket = nat

  datatype Event<T> = Event(number: nat, data: T)

  /** The events numbered lo+1 .. hi of a log. */
  function Slice<T>(log: seq<T>, lo: nat, hi: nat): (events: seq<Event<T>>)
    requires lo <= hi <= |log|
    ensures |events| == hi - lo
    ensures forall i :: 0 <= i < hi - lo ==> events[i] == Event(lo + i + 1, log[lo + i])
  {
    seq(hi - lo, i requires 0 <= i < hi - lo => Event(lo + i + 1, log[lo + i]))
  }

  /** The number of the last event that a history of n events has forgotten. */
  function Forgotten(n: nat): nat {
    if n < MAX_EVENT_HISTORY then 0 else n - MAX_EVENT_HISTORY
  }

  /** What the bounded history must hold for a given log. */
  function Window<T>(log: seq<T>): seq<Event<T>> {
    Slice(log, Forgotten(|log|), |log|)
  }

  /** Where a replay for a client that has seen everything up to `last` begins. */
  function ReplayBase(n: nat, last: int): nat {
    if last >= n then n else if last < Forgotten(n) then Forgotten(n) else last
  }

  /** What a client that has seen everything up to `last` is owed, as far as history reaches. */
  function EventsSince<T>(log: seq<T>, last: int): seq<Event<T>> {
    Slice(log, ReplayBase(|log|, last), |log|)
  }

  /** A list comprehension over the history: the events numbered above `last`. */
  function Above<T>(events: seq<Event<T>>, last: int): seq<Event<T>> {
    if events == [] then []
    else if events[0].number > last then [events[0]] + Above(events[1..], last)
    else Above(events[1..], last)
  }

  /** Filtering a stretch of the log by number cuts off its front and nothing else. */
  lemma {:induction false} AboveCutsFront<T>(log: seq<T>, lo: nat, hi: nat, last: int)
    requires lo <= hi <= |log|
    ensures Above(Slice(log, lo, hi), last) ==
            Slice(log, if last <= lo then lo else if last >= hi then hi else last, hi)
    decreases hi - lo
  {
    if lo < hi {
      assert Slice(log, lo, hi)[1..] == Slice(log, lo + 1, hi);
      AboveCutsFront(log, lo + 1, hi, last);
    }
  }

  /** A client that reports `last` gets the whole gap unless it is longer than the history,
      and then loses exactly the excess; it gets nothing at all only when it is up to date. */
  lemma ReplayLoss<T>(log: seq<T>, last: nat)
    requires last <= |log|
    ensures |log| - last == |EventsSince(log, last)| + Max(0, |log| - last - 50)
    ensures EventsSince(log, last) == [] <==> last == |log|
  {
  }

  /** The list without the members of `gone`, order kept. */
  function Without(s: seq<Socket>, gone: set<Socket>): (rest: seq<Socket>)
    ensures forall x :: x in rest <==> x in s && x !in gone
  {
    if s == [] then []
    else if s[0] in gone then Without(s[1..], gone)
    else [s[0]] + Without(s[1..], gone)
  }

  /** list.remove: drops the first occurrence. */
  function RemoveFirst(s: seq<Socket>, x: Socket): seq<Socket>
    requires x in s
  {
    if s[0] == x then s[1..] else [s[0]] + RemoveFirst(s[1..], x)
  }

  lemma {:induction false} WithoutKeepsCount(s: seq<Socket>, gone: set<Socket>, x: Socket)
    ensures Count(Without(s, gone), x) == if x in gone then 0 else Count(s, x)
  {
    if s != [] {
      WithoutKeepsCount(s[1..], gone, x);
    }
  }

  lemma {:induction false} WithoutStaysDistinct(s: seq<Socket>, gone: set<Socket>)
    requires NoDuplicates(s)
    ensures NoDuplicates(Without(s, gone))
  {
    if s != [] {
      WithoutStaysDistinct(s[1..], gone);
    }
  }

  lemma {:induction false} WithoutNothing(s: seq<Socket>, gone: set<Socket>)
    requires forall x :: x in s ==> x !in gone
    ensures Without(s, gone) == s
  {
    if s != [] {
      WithoutNothing(s[1..], gone);
    }
  }

  lemma {:induction false} WithoutTwice(s: seq<Socket>, a: set<Socket>, b: set<Socket>)
    ensures Without(Without(s, a), b) == Without(s, a + b)
  {
    if s != [] {
      WithoutTwice(s[1..], a, b);
    }
  }

  /** In a list of distinct sockets the first occurrence is the only one. */
  lemma {:induction false} RemoveFirstRemovesAll(s: seq<Socket>, x: Socket)
    requires NoDuplicates(s) && x in s
    ensures RemoveFirst(s, x) == Without(s, {x})
  {
    if s[0] == x {
      WithoutNothing(s[1..], {x});
    } else {
      RemoveFirstRemovesAll(s[1..], x);
    }
  }

  /** dict.get with a default. */
  function At<V>(m: map<JobId, V>, job: JobId, default: V): V {
    if job in m then m[job] else default
  }

  /** src/api/ws.py: JobProgressManager. */
  class JobProgressManager<T> {
    var connections: map<JobId, seq<Socket>>
    var seqs: map<JobId, nat>
    var events: map<JobId, seq<Event<T>>>

    /** Everything ever broadcast, per job. */
    ghost var logs: map<JobId, seq<T>>

    function Conns(job: JobId): seq<Socket>
      reads this`connections
    {
      At(connections, job, [])
    }

    function Seq(job: JobId): nat
      reads this`seqs
    {
      At(seqs, job, 0)
    }

    function Retained(job: JobId): seq<Event<T>>
      reads this`events
    {
      At(events, job, [])
    }

    ghost function Log(job: JobId): seq<T>
      reads this`logs
    {
      At(logs, job, [])
    }

    /** The bounded history refines the log: for every job it holds the consecutive run of
        min(seq, 50) events that ends at the current number. */
    ghost predicate Valid()
      reads this
    {
      && (forall job :: At(seqs, job, 0) == |At(logs, job, [])|)
      && (forall job :: At(events, job, []) == Window(At(logs, job, [])))
      && (forall job :: NoDuplicates(At(connections, job, [])))
    }

    constructor ()
      ensures Valid()
      ensures forall job :: Log(job) == [] && Conns(job) == []
    {
      connections, seqs, events := map[], map[], map[];
      logs := map[];
    }

    method Connect(job: JobId, ws: Socket)
      requires Valid() && ws !in Conns(job)
      modifies this`connections
      ensures Valid()
      ensures Conns(job) == old(Conns(job)) + [ws]
      ensures forall j :: j != job ==> Conns(j) == old(Conns(j))
    {
      connections := connections[job := Conns(job) + [ws]];
      assert forall j :: j != job ==> At(connections, j, []) == At(old(connections), j, []);
    }

    method Disconnect(job: JobId, ws: Socket)
      requires Valid()
      modifies this`connections
      ensures Valid()
      ensures Conns(job) == Without(old(Conns(job)), {ws})
      ensures forall j :: j != job ==> Conns(j) == old(Conns(j))
    {
      var conns := Conns(job);
      WithoutStaysDistinct(conns, {ws});
      if ws in conns {
        RemoveFirstRemovesAll(conns, ws);
        conns := RemoveFirst(conns, ws);
      } else {
        WithoutNothing(conns, {ws});
      }
      if conns == [] {
        connections := connections - {job};
      } else {
        connections := connections[job := conns];
      }
      assert forall j :: j != job ==> At(connections, j, []) == At(old(connections), j, []);
    }

    /** The locked part of `broadcast`: number the event, remember it, and take the list of
        sockets it will be sent to. */
    method Broadcast(job: JobId, data: T) returns (enriched: Event<T>, conns: seq<Socket>)
      requires Valid()
      modifies this`seqs, this`events, this`logs
      ensures Valid()
      ensures Log(job) == old(Log(job)) + [data]
      ensures forall j :: j != job ==> Log(j) == old(Log(j))
      ensures enriched == Event(|Log(job)|, data)
      ensures conns == Conns(job)
    {
      var number := Seq(job) + 1;
      seqs := seqs[job := number];
      enriched := Event(number, data);
      var history := Retained(job);
      ghost var log := Log(job);
      // A deque with maxlen drops its oldest element when it is full.
      events := events[job := (if |history| == MAX_EVENT_HISTORY then history[1..] else history) + [enriched]];
      logs := logs[job := log + [data]];
      conns := Conns(job);
      assert Retained(job) == Window(Log(job));
      assert forall j :: j != job ==> At(logs, j, []) == At(old(logs), j, []);
      assert forall j :: j != job ==> At(seqs, j, 0) == At(old(seqs), j, 0);
      assert forall j :: j != job ==> At(events, j, []) == At(old(events), j, []);
    }

    /** The second locked part of `broadcast`: forget the sockets whose send failed. */
    method RemoveDead(job: JobId, dead: seq<Socket>)
      requires Valid()
      modifies this`connections
      ensures Valid()
      ensures Conns(job) == Without(old(Conns(job)), Members(dead))
      ensures forall j :: j != job ==> Conns(j) == old(Conns(j))
    {
      ghost var start := Conns(job);
      WithoutNothing(start, {});
      assert Members(dead[..0]) == {};
      for i := 0 to |dead|
        invariant Valid()
        invariant Conns(job) == Without(start, Members(dead[..i]))
        invariant forall j :: j != job ==> At(connections, j, []) == At(old(connections), j, [])
      {
        var conns := Conns(job);
        WithoutStaysDistinct(conns, {dead[i]});
        WithoutTwice(start, Members(dead[..i]), {dead[i]});
        assert Members(dead[..i + 1]) == Members(dead[..i]) + {dead[i]};
        ghost var before := connections;
        if dead[i] in conns {
          RemoveFirstRemovesAll(conns, dead[i]);
          connections := connections[job := RemoveFirst(conns, dead[i])];
        } else {
          WithoutNothing(conns, {dead[i]});
        }
        assert forall j :: j != job ==> At(connections, j, []) == At(before, j, []);
      }
      assert dead[..|dead|] == dead;
    }

    method HasConnections(job: JobId) returns (some: bool)
      requires Valid()
      ensures some <==> exists ws :: ws in Conns(job)
    {
      some := Conns(job) != [];
      assert some ==> Conns(job)[0] in Conns(job);
    }

    /** The history answers exactly as the untrimmed log would, down to the point it has forgotten. */
    method GetEventsSince(job: JobId, last: int) returns (missed: seq<Event<T>>)
      requires Valid()
      ensures missed == EventsSince(Log(job), last)
    {
      missed := Above(Retained(job), last);
      AboveCutsFront(Log(job), Forgotten(|Log(job)|), |Log(job)|, last);
    }

    method GetCurrentSeq(job: JobId) returns (n: nat)
      requires Valid()
      ensures n == |Log(job)|
    {
      n := Seq(job);
    }
  }

  /** The columns of a job row that a greeting is built from. */
  datatype Row = Row(status: Status, progress: Option<string>, result: Option<string>, error: Option<string>)

  datatype Detail = NoDetail | Result(result: Option<string>) | Error(error: Option<string>) | Position(position: nat)

  datatype Message<T> =
    | Live(event: Event<T>)
    | Initial(status: Status, progress: Option<string>, number: nat, detail: Detail)

  /** `position` is the answer of the queue manager; None stands for "not waiting" and for its failure. */
  function BuildInitialState<T>(row: Row, number: nat, position: Option<nat>): Message<T> {
    var detail :=
      match row.status
      case Completed => Result(row.result)
      case Failed => Error(row.error)
      case Pending => (match position case Some(p) => Position(p) case None => NoDetail)
      case _ => NoDetail;
    Initial(row.status, row.progress, number, detail)
  }

  /** The number up to which a joining client is not owed events one by one: its own `last`, the
      edge of the history if that is newer, or the number carried by its snapshot. */
  function GreetingBase(n: nat, last: int): (base: nat)
    ensures base <= n
  {
    if 0 < last < n then ReplayBase(n, last) else n
  }

  function AsMessages<T>(events: seq<Event<T>>): seq<Message<T>> {
    seq(|events|, i requires 0 <= i < |events| => Live(events[i]))
  }

  /** What a joining client is sent: the events above its base, or a snapshot if there are none. */
  function Greeting<T>(log: seq<T>, row: Row, last: int, position: Option<nat>): seq<Message<T>> {
    var base := GreetingBase(|log|, last);
    if base < |log| then AsMessages(Slice(log, base, |log|))
    else [BuildInitialState(row, |log|, position)]
  }

  /** The connect-and-replay part of `websocket_job_handler`, up to the sends themselves. */
  method Join<T>(manager: JobProgressManager<T>, job: JobId, ws: Socket, row: Row, last: int, position: Option<nat>)
    returns (greeting: seq<Message<T>>)
    requires manager.Valid() && ws !in manager.Conns(job)
    modifies manager`connections
    ensures manager.Valid()
    ensures manager.Conns(job) == old(manager.Conns(job)) + [ws]
    ensures forall j :: j != job ==> manager.Conns(j) == old(manager.Conns(j))
    ensures greeting == Greeting(manager.Log(job), row, last, position)
  {
    manager.Connect(job, ws);
    greeting := [];
    if last > 0 {
      var missed := manager.GetEventsSince(job, last);
      if missed != [] {
        for i := 0 to |missed|
          invariant greeting == AsMessages(missed[..i])
        {
          greeting := greeting + [Live(missed[i])];
        }
        assert missed[..|missed|] == missed;
      } else {
        var number := manager.GetCurrentSeq(job);
        greeting := [BuildInitialState(row, number, position)];
      }
    } else {
      var number := manager.GetCurrentSeq(job);
      greeting := [BuildInitialState(row, number, position)];
    }
  }
}

/** The waiting and active sets (src/api/queue_manager.py). The waiting set is a Redis sorted set:
    ordered by score, equal scores by member. */
module QueueManager {
  import opened Prelude

  datatype Priority = High | Normal

  const NORMAL_PENALTY := 1000000000.0

  function Score(priority: Priority, now: real): real {
    (match priority case High => 0.0 case Normal => NORMAL_PENALTY) + now
  }

  datatype Entry = Entry(job: JobId, score: real)

  /** Lexicographic order of members. */
  predicate Less(s: string, t: string) {
    t != [] && (s == [] || s[0] < t[0] || (s[0] == t[0] && Less(s[1..], t[1..])))
  }

  lemma {:induction false} LessTotal(s: string, t: string)
    ensures s != t ==> Less(s, t) || Less(t, s)
    ensures !(Less(s, t) && Less(t, s))
    ensures !Less(s, s)
  {
    if s != [] && t != [] && s[0] == t[0] {
      LessTotal(s[1..], t[1..]);
      assert s == [s[0]] + s[1..] && t == [t[0]] + t[1..];
    }
    if s != [] {
      LessTotal(s[1..], s[1..]);
    }
  }

  lemma {:induction false} LessTransitive(s: string, t: string, u: string)
    requires Less(s, t) && Less(t, u)
    ensures Less(s, u)
  {
    if s != [] && s[0] == t[0] == u[0] {
      LessTransitive(s[1..], t[1..], u[1..]);
    }
  }

  /** As a dictionary has it: the first is a proper beginning of the second, or at the first place where they
      differ it has the smaller character. */
  lemma {:induction false} LessIsLexicographic(s: string, t: string)
    ensures Less(s, t) <==>
            s < t || exists i :: 0 <= i < |s| && i < |t| && s[..i] == t[..i] && s[i] < t[i]
  {
    if s != [] && t != [] && s[0] == t[0] {
      LessIsLexicographic(s[1..], t[1..]);
      assert s[1..] < t[1..] <==> s < t by {
        assert s == [s[0]] + s[1..] && t == [t[0]] + t[1..];
      }
      if i :| 0 <= i < |s| - 1 && i < |t| - 1 && s[1..][..i] == t[1..][..i] && s[1..][i] < t[1..][i] {
        assert s[..i + 1] == [s[0]] + s[1..][..i] && t[..i + 1] == [t[0]] + t[1..][..i];
        assert s[i + 1] < t[i + 1];
      }
      if i :| 0 <= i < |s| && i < |t| && s[..i] == t[..i] && s[i] < t[i] {
        assert s[1..][..i - 1] == s[..i][1..] && t[1..][..i - 1] == t[..i][1..];
        assert s[1..][i - 1] < t[1..][i - 1];
      }
    } else if s != [] && t != [] {
      assert s[0] < t[0] ==> s[..0] == t[..0];
    }
  }

  predicate Before(a: Entry, b: Entry) {
    a.score < b.score || (a.score == b.score && Less(a.job, b.job))
  }

  lemma BeforeTransitive(a: Entry, b: Entry, c: Entry)
    requires Before(a, b) && Before(b, c)
    ensures Before(a, c)
  {
    if a.score == b.score == c.score {
      LessTransitive(a.job, b.job, c.job);
    }
  }

  /** The sorted set: strictly ascending, every member once. */
  predicate Sorted(q: seq<Entry>) {
    && (forall i, j :: 0 <= i < j < |q| ==> Before(q[i], q[j]))
    && (forall i, j :: 0 <= i < j < |q| ==> q[i].job != q[j].job)
  }

  function Jobs(q: seq<Entry>): set<JobId> {
    set e <- q :: e.job
  }

  /** zrem. */
  function Removed(q: seq<Entry>, job: JobId): seq<Entry> {
    if q == [] then [] else if q[0].job == job then q[1..] else [q[0]] + Removed(q[1..], job)
  }

  /** zadd of a member that is not in the set. */
  function Inserted(q: seq<Entry>, e: Entry): seq<Entry> {
    if q == [] || Before(e, q[0]) then [e] + q else [q[0]] + Inserted(q[1..], e)
  }

  /** zrank; the length stands for "no such member". */
  function Rank(q: seq<Entry>, job: JobId): (r: nat)
    ensures r <= |q|
    ensures r < |q| ==> q[r].job == job
    ensures forall i :: 0 <= i < r ==> q[i].job != job
  {
    if q == [] || q[0].job == job then 0 else 1 + Rank(q[1..], job)
  }

  /** Removal takes out the one entry of the job, wherever it was. */
  lemma {:induction false} RemovedSplits(q: seq<Entry>, job: JobId)
    ensures var r := Rank(q, job);
            Removed(q, job) == if r == |q| then q else q[..r] + q[r + 1..]
  {
    if q != [] && q[0].job != job {
      RemovedSplits(q[1..], job);
      var r := Rank(q[1..], job);
      if r < |q| - 1 {
        assert q[..r + 1] == [q[0]] + q[1..][..r];
        assert q[r + 2..] == q[1..][r + 1..];
      }
    }
  }

  /** Insertion puts the entry in front of everything that comes after it. */
  lemma {:induction false} InsertedSplits(q: seq<Entry>, e: Entry) returns (k: nat)
    requires Sorted(q) && forall i :: 0 <= i < |q| ==> q[i].job != e.job
    ensures k <= |q| && Inserted(q, e) == q[..k] + [e] + q[k..]
    ensures forall i :: 0 <= i < k ==> Before(q[i], e)
    ensures forall i :: k <= i < |q| ==> Before(e, q[i])
  {
    if q == [] {
      k := 0;
    } else if Before(e, q[0]) {
      forall i | 0 < i < |q| ensures Before(e, q[i]) {
        BeforeTransitive(e, q[0], q[i]);
      }
      k := 0;
    } else {
      LessTotal(e.job, q[0].job);
      var k' := InsertedSplits(q[1..], e);
      k := k' + 1;
      assert q[..k] == [q[0]] + q[1..][..k'];
      assert q[k..] == q[1..][k'..];
    }
  }

  lemma InsertedInOrder(q: seq<Entry>, e: Entry, k: nat, w: seq<Entry>)
    requires Sorted(q) && (forall i :: 0 <= i < |q| ==> q[i].job != e.job)
    requires k <= |q| && w == q[..k] + [e] + q[k..]
    requires (forall i :: 0 <= i < k ==> Before(q[i], e)) && (forall i :: k <= i < |q| ==> Before(e, q[i]))
    ensures Sorted(w)
  {
    assert forall i :: 0 <= i < |w| ==> w[i] == if i < k then q[i] else if i == k then e else q[i - 1];
  }

  lemma {:induction false} InsertedMembers(q: seq<Entry>, e: Entry, x: Entry)
    ensures x in Inserted(q, e) <==> x == e || x in q
  {
    if q != [] && !Before(e, q[0]) {
      InsertedMembers(q[1..], e, x);
      assert q == [q[0]] + q[1..];
    }
  }

  lemma InsertedSorted(q: seq<Entry>, e: Entry)
    requires Sorted(q) && forall i :: 0 <= i < |q| ==> q[i].job != e.job
    ensures Sorted(Inserted(q, e))
    ensures forall x :: x in Inserted(q, e) <==> x == e || x in q
  {
    var k := InsertedSplits(q, e);
    InsertedInOrder(q, e, k, Inserted(q, e));
    forall x ensures x in Inserted(q, e) <==> x == e || x in q {
      InsertedMembers(q, e, x);
    }
  }

  lemma {:induction false} RemovedMembers(q: seq<Entry>, job: JobId, x: Entry)
    requires Sorted(q)
    ensures x in Removed(q, job) <==> x in q && x.job != job
  {
    if q != [] {
      if q[0].job != job {
        RemovedMembers(q[1..], job, x);
      }
      assert q == [q[0]] + q[1..];
    }
  }

  lemma RemovedInOrder(q: seq<Entry>, r: nat, w: seq<Entry>)
    requires Sorted(q) && r < |q| && w == q[..r] + q[r + 1..]
    ensures Sorted(w)
  {
    assert forall i :: 0 <= i < |w| ==> w[i] == q[if i < r then i else i + 1];
  }

  lemma RemovedSorted(q: seq<Entry>, job: JobId)
    requires Sorted(q)
    ensures Sorted(Removed(q, job))
    ensures forall x :: x in Removed(q, job) <==> x in q && x.job != job
  {
    RemovedSplits(q, job);
    if Rank(q, job) < |q| {
      RemovedInOrder(q, Rank(q, job), Removed(q, job));
    }
    forall x ensures x in Removed(q, job) <==> x in q && x.job != job {
      RemovedMembers(q, job, x);
    }
  }

  lemma RankFinds(q: seq<Entry>, job: JobId)
    ensures job in Jobs(q) <==> Rank(q, job) < |q|
  {
    assert forall i :: 0 <= i < |q| ==> q[i] in q;
  }

  lemma RankOf(q: seq<Entry>, i: nat)
    requires Sorted(q) && i < |q|
    ensures Rank(q, q[i].job) == i
  {
  }

  /** In a sorted queue, earlier in the list means earlier in the order, both ways. */
  lemma OrderIsPosition(q: seq<Entry>, a: Entry, b: Entry)
    requires Sorted(q) && a in q && b in q
    ensures Rank(q, a.job) < |q| && q[Rank(q, a.job)] == a
    ensures Rank(q, a.job) < Rank(q, b.job) <==> Before(a, b)
  {
    var i :| 0 <= i < |q| && q[i] == a;
    var j :| 0 <= j < |q| && q[j] == b;
    RankOf(q, i);
    RankOf(q, j);
    LessTotal(a.job, b.job);
  }

  /** The order of the queue in terms of priority and enqueue time. While times differ by less than
      a billion seconds every high job precedes every normal one; within a class the earlier job
      goes first; and a normal job precedes a high one enqueued more than a billion seconds later. */
  lemma {:induction false} QueueOrder(q: seq<Entry>, a: Entry, b: Entry, pa: Priority, ta: real, pb: Priority, tb: real)
    requires Sorted(q) && a in q && b in q
    requires a.score == Score(pa, ta) && b.score == Score(pb, tb)
    ensures pa == High && pb == Normal && ta - tb < 1000000000.0 ==> Rank(q, a.job) < Rank(q, b.job)
    ensures pa == pb && ta < tb ==> Rank(q, a.job) < Rank(q, b.job)
    ensures pa == Normal && pb == High && tb - ta > 1000000000.0 ==> Rank(q, a.job) < Rank(q, b.job)
  {
    OrderIsPosition(q, a, b);
  }

  lemma RemovedIsGone(q: seq<Entry>, job: JobId)
    requires Sorted(q)
    ensures Rank(Removed(q, job), job) == |Removed(q, job)|
  {
    var w := Removed(q, job);
    if Rank(w, job) < |w| {
      RemovedMembers(q, job, w[Rank(w, job)]);
    }
  }

  /** Taking a job out moves up by one exactly the jobs behind it. */
  lemma RemovalShifts(q: seq<Entry>, gone: Entry, other: Entry)
    requires Sorted(q) && gone in q && other in q && other != gone
    ensures Rank(Removed(q, gone.job), other.job) == Rank(q, other.job) - (if Before(gone, other) then 1 else 0)
    ensures Rank(Removed(q, gone.job), gone.job) == |Removed(q, gone.job)|
  {
    RemovedSplits(q, gone.job);
    OrderIsPosition(q, gone, other);
    OrderIsPosition(q, other, gone);
    var r, i, w := Rank(q, gone.job), Rank(q, other.job), Removed(q, gone.job);
    RemovedInOrder(q, r, w);
    var k := if i < r then i else i - 1;
    assert w[k] == q[i] == other;
    RankOf(w, k);
    RemovedIsGone(q, gone.job);
  }

  /** Putting a job in moves back by one exactly the jobs that come after it. */
  lemma InsertionShifts(q: seq<Entry>, e: Entry, other: Entry)
    requires Sorted(q) && other in q && forall i :: 0 <= i < |q| ==> q[i].job != e.job
    ensures Rank(Inserted(q, e), other.job) == Rank(q, other.job) + (if Before(e, other) then 1 else 0)
  {
    var k := InsertedSplits(q, e);
    var w := Inserted(q, e);
    InsertedInOrder(q, e, k, w);
    OrderIsPosition(q, other, other);
    var i := Rank(q, other.job);
    LessTotal(e.job, other.job);
    var j := if i < k then i else i + 1;
    assert w[j] == q[i] == other;
    RankOf(w, j);
  }

  datatype WaitingJob = WaitingJob(job: JobId, position: nat)

  /** `waiting_jobs` of `get_status`. */
  function Listing(q: seq<Entry>): seq<WaitingJob> {
    seq(|q|, i requires 0 <= i < |q| => WaitingJob(q[i].job, i + 1))
  }

  /** `get_position`. */
  function PositionOf(q: seq<Entry>, job: JobId): Option<nat> {
    if Rank(q, job) < |q| then Some(Rank(q, job) + 1) else None
  }

  /** The two queries agree, and together they are a bijection between the waiting jobs and 1..n. */
  lemma {:induction false} PositionsAgree(q: seq<Entry>, job: JobId, p: nat)
    requires Sorted(q)
    ensures PositionOf(q, job) == Some(p) <==> WaitingJob(job, p) in Listing(q)
    ensures PositionOf(q, job) == None <==> job !in Jobs(q)
    ensures 0 < p <= |q| ==> PositionOf(q, Listing(q)[p - 1].job) == Some(p)
  {
    RankFinds(q, job);
    var list := Listing(q);
    if 0 < p <= |q| {
      RankOf(q, p - 1);
    }
    if PositionOf(q, job) == Some(p) {
      assert list[p - 1] in list;
    }
  }

  datatype QueueStatus = QueueStatus(
    maxConcurrent: nat, activeCount: nat, activeJobs: seq<JobId>, pendingCount: nat, waitingJobs: seq<WaitingJob>)

  predicate Alphabetical(jobs: seq<JobId>) {
    forall i, j :: 0 <= i < j < |jobs| ==> Less(jobs[i], jobs[j])
  }

  predicate Least(j: JobId, jobs: set<JobId>) {
    j in jobs && forall k :: k in jobs && k != j ==> Less(j, k)
  }

  lemma LessThanAll(x: JobId, y: JobId, jobs: set<JobId>)
    requires Less(x, y) && Least(y, jobs)
    ensures Least(x, jobs + {x})
  {
    forall k | k in jobs && k != x ensures Less(x, k) {
      if k != y {
        LessTransitive(x, y, k);
      }
    }
  }

  /** A nonempty set of strings has a least one. */
  lemma {:induction false} LeastExists(jobs: set<JobId>) returns (least: JobId)
    requires jobs != {}
    ensures Least(least, jobs)
  {
    var x :| x in jobs;
    var others := jobs - {x};
    least := x;
    if others == {} {
      assert jobs == {x};
    } else {
      var y := LeastExists(others);
      LessTotal(x, y);
      assert jobs == others + {x};
      if Less(x, y) {
        LessThanAll(x, y, others);
      } else {
        least := y;
        forall k | k in jobs && k != y ensures Less(y, k) {
          assert k == x || k in others;
        }
      }
    }
  }

  /** What is listed precedes what is not. */
  predicate Split(list: seq<JobId>, rest: set<JobId>) {
    Alphabetical(list) && forall i, k :: 0 <= i < |list| && k in rest ==> Less(list[i], k)
  }

  lemma SplitOn(list: seq<JobId>, rest: set<JobId>, least: JobId)
    requires Split(list, rest) && Least(least, rest)
    ensures Split(list + [least], rest - {least})
    ensures Members(list + [least]) + (rest - {least}) == Members(list) + rest
    ensures |list + [least]| + |rest - {least}| == |list| + |rest|
  {
    assert Members(list + [least]) == Members(list) + {least};
  }

  /** sorted(): in alphabetical order, each once. */
  method SortedJobs(jobs: set<JobId>) returns (list: seq<JobId>)
    ensures Alphabetical(list) && Members(list) == jobs && |list| == |jobs|
  {
    list := [];
    var rest := jobs;
    while rest != {}
      invariant Split(list, rest) && Members(list) + rest == jobs && |list| + |rest| == |jobs|
      decreases |rest|
    {
      ghost var some := LeastExists(rest);
      var least :| least in rest && Least(least, rest);
      SplitOn(list, rest, least);
      list, rest := list + [least], rest - {least};
    }
    assert Members(list) + {} == Members(list);
  }

  /** src/api/queue_manager.py: QueueManager over its two Redis keys. */
  class QueueManager {
    var waiting: seq<Entry>
    var active: set<JobId>
    const maxConcurrent: nat

    ghost predicate Valid()
      reads this`waiting
    {
      Sorted(waiting)
    }

    function Waiting(): set<JobId>
      reads this`waiting
    {
      Jobs(waiting)
    }

    constructor (limit: nat)
      ensures Valid() && waiting == [] && active == {}
    {
      waiting, active, maxConcurrent := [], {}, limit;
    }

    /** `_get_position`: 0 if the job is not waiting. */
    method CurrentPosition(job: JobId) returns (position: nat)
      requires Valid()
      ensures position == if Rank(waiting, job) == |waiting| then 0 else Rank(waiting, job) + 1
    {
      var rank := Rank(waiting, job);
      position := if rank == |waiting| then 0 else rank + 1;
    }

    /** A job that is waiting already is moved: zadd overwrites its score. */
    method Enqueue(job: JobId, priority: Priority, now: real) returns (position: nat)
      requires Valid()
      modifies this`waiting
      ensures Valid()
      ensures var e := Entry(job, Score(priority, now));
              forall x :: x in waiting <==> x == e || (x in old(waiting) && x.job != job)
      ensures 0 < position <= |waiting| && waiting[position - 1].job == job
      ensures Waiting() == old(Waiting()) + {job}
    {
      RemovedSorted(waiting, job);
      var e, rest := Entry(job, Score(priority, now)), Removed(waiting, job);
      assert forall i :: 0 <= i < |rest| ==> rest[i] in rest;
      InsertedSorted(rest, e);
      waiting := Inserted(rest, e);
      position := CurrentPosition(job);
      OrderIsPosition(waiting, e, e);
    }

    method Activate(job: JobId)
      requires Valid()
      modifies this
      ensures Valid()
      ensures forall x :: x in waiting <==> x in old(waiting) && x.job != job
      ensures Waiting() == old(Waiting()) - {job} && active == old(active) + {job}
    {
      RemovedSorted(waiting, job);
      waiting := Removed(waiting, job);
      active := active + {job};
    }

    method Complete(job: JobId)
      modifies this`active
      ensures active == old(active) - {job}
    {
      active := active - {job};
    }

    method Cancel(job: JobId) returns (removed: bool)
      requires Valid()
      modifies this
      ensures Valid()
      ensures forall x :: x in waiting <==> x in old(waiting) && x.job != job
      ensures Waiting() == old(Waiting()) - {job} && active == old(active) - {job}
      ensures removed <==> job in old(Waiting()) || job in old(active)
    {
      RemovedSorted(waiting, job);
      var wasWaiting, wasActive := Rank(waiting, job) < |waiting|, job in active;
      RankFinds(waiting, job);
      waiting := Removed(waiting, job);
      active := active - {job};
      removed := wasWaiting || wasActive;
    }

    method GetPosition(job: JobId) returns (position: Option<nat>)
      requires Valid()
      ensures position == PositionOf(waiting, job)
    {
      var p := CurrentPosition(job);
      position := if p > 0 then Some(p) else None;
    }

    method GetStatus() returns (status: QueueStatus)
      requires Valid()
      ensures status.maxConcurrent == maxConcurrent && status.activeCount == |active|
      ensures Alphabetical(status.activeJobs) && Members(status.activeJobs) == active
      ensures status.pendingCount == |waiting| && status.waitingJobs == Listing(waiting)
    {
      var listed: seq<WaitingJob> := [];
      for i := 0 to |waiting|
        invariant |listed| == i
        invariant forall j :: 0 <= j < i ==> listed[j] == WaitingJob(waiting[j].job, j + 1)
      {
        listed := listed + [WaitingJob(waiting[i].job, |listed| + 1)];
      }
      var running := SortedJobs(active);
      status := QueueStatus(maxConcurrent, |active|, running, |waiting|, listed);
    }
  }
}

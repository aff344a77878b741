// What each kind of committed edit does to the queue, field by field, and when a worker can lose a job.

module QueueRuns {
  import opened Types
  import opened Cas
  import opened Queue

  // ---------------------------------------------------------------- one commit

  // Job k, which the worker is on, carries the stamp; nothing else changed.
  ghost predicate Beaten(a: seq<Job>, b: seq<Job>, k: nat, ns: string, worker: string, stamp: int) {
    && k < |a| == |b| && a[k].ns == ns && a[k].worker == worker && a[k].state == InProgress
    && b[k] == Job(ns, a[k].requestedUpTo, InProgress, worker, stamp, a[k].enqueuedAt)
    && forall m | 0 <= m < |a| && m != k :: b[m] == a[m]
  }

  // After a committed heartbeat the owner's job carries that attempt's stamp.
  lemma {:induction false} HeartbeatMoves(moves: seq<Move<Edit, Clock>>, i: nat, ns: string, worker: string)
    requires Workers(moves) && i < |RunQueue(moves).history| && RunQueue(moves).history[i].edit == Heartbeat(ns, worker)
    ensures var s := RunQueue(moves);
            var a, b, stamp := After(s, i), After(s, i + 1), s.history[i].input.stamp;
            exists k: nat :: Beaten(a, b, k, ns, worker, stamp)
  {
    hide RunQueue;
    LinkIsEdit(moves, i);
    var s := RunQueue(moves);
    var k := OwnIndex(After(s, i), ns, worker, true);
    assert Beaten(After(s, i), After(s, i + 1), k, ns, worker, s.history[i].input.stamp);
  }

  // Job k, which the worker was on, is gone; the others follow in their order.
  ghost predicate Removed(a: seq<Job>, b: seq<Job>, k: nat, ns: string, worker: string) {
    k < |a| && a[k].ns == ns && a[k].worker == worker && b == a[..k] + a[k + 1..]
  }

  lemma {:induction false} CompleteRemoves(moves: seq<Move<Edit, Clock>>, i: nat, ns: string, worker: string)
    requires Workers(moves) && i < |RunQueue(moves).history| && RunQueue(moves).history[i].edit == Complete(ns, worker)
    ensures var s := RunQueue(moves);
            var a, b := After(s, i), After(s, i + 1);
            (exists k: nat :: Removed(a, b, k, ns, worker)) && forall m | 0 <= m < |b| :: b[m].ns != ns
  {
    hide RunQueue;
    LinkIsEdit(moves, i);
    OneJobPerNamespace(moves, i);
    var s := RunQueue(moves);
    var a, b := After(s, i), After(s, i + 1);
    var k := OwnIndex(a, ns, worker, false);
    assert Removed(a, b, k, ns, worker);
    forall m | 0 <= m < |b| ensures b[m].ns != ns {
      assert b[m] == a[if m < k then m else m + 1];
    }
  }

  // ---------------------------------------------------------------- notifications

  // b is a with the namespace's job moved forward to upTo, or with a first, unclaimed job for it.
  ghost predicate Noted(a: seq<Job>, b: seq<Job>, ns: string, upTo: int, stamp: int) {
    || (exists k: nat :: MovedUp(a, b, k, ns, upTo))
    || ((forall m | 0 <= m < |a| :: a[m].ns != ns) && b == a + [Job(ns, upTo, Unclaimed, "", 0, stamp)])
  }

  ghost predicate MovedUp(a: seq<Job>, b: seq<Job>, k: nat, ns: string, upTo: int) {
    && k < |a| == |b| && a[k].ns == ns && a[k].requestedUpTo < upTo
    && b[k] == Job(ns, upTo, a[k].state, a[k].worker, a[k].heartbeatAt, a[k].enqueuedAt)
    && forall m | 0 <= m < |a| && m != k :: b[m] == a[m]
  }

  // The namespace has a job that reaches at least so far.
  ghost predicate Reaches(jobs: seq<Job>, ns: string, upTo: int) {
    exists k :: 0 <= k < |jobs| && jobs[k].ns == ns && jobs[k].requestedUpTo >= upTo
  }

  // A notification either changes exactly that, or there is a job that reaches as far already.
  lemma {:induction false} NotifyMeans(jobs: seq<Job>, ns: string, upTo: int, stamp: int)
    ensures match Notify(jobs, ns, upTo, stamp)
            case Some(after) => Noted(jobs, after, ns, upTo, stamp) && Reaches(after, ns, upTo)
            case None => Reaches(jobs, ns, upTo)
  {
    var k := Find(jobs, ns);
    if k == |jobs| {
      var after := jobs + [Fresh(ns, upTo, stamp)];
      assert after[k].ns == ns;
    } else if upTo > jobs[k].requestedUpTo {
      assert MovedUp(jobs, jobs[k := jobs[k].(requestedUpTo := upTo)], k, ns, upTo);
    }
  }

  // A committed enqueue leaves the namespace with a job that reaches as far, and touches no other.
  lemma {:induction false} EnqueueLands(moves: seq<Move<Edit, Clock>>, i: nat, ns: string, upTo: int)
    requires Workers(moves) && i < |RunQueue(moves).history| && RunQueue(moves).history[i].edit == Enqueue(ns, upTo)
    ensures var s := RunQueue(moves);
            Noted(After(s, i), After(s, i + 1), ns, upTo, s.history[i].input.stamp) && Reaches(After(s, i + 1), ns, upTo)
  {
    hide RunQueue, Notify, Noted, Reaches;
    LinkIsEdit(moves, i);
    var s := RunQueue(moves);
    NotifyMeans(After(s, i), ns, upTo, s.history[i].input.stamp);
  }

  // b is a with jobs moved forward and first jobs added, for notifications of the batch only; and every
  // notification of the batch is covered.
  ghost predicate Merged(a: seq<Job>, b: seq<Job>, batch: seq<Note>) {
    && |a| <= |b|
    && (forall k | 0 <= k < |a| :: Forward(a[k], b[k], batch))
    && (forall k | |a| <= k < |b| :: b[k].state == Unclaimed && b[k].worker == "" && AskedFor(b[k], batch))
    && (forall n | 0 <= n < |batch| :: Reaches(b, batch[n].ns, batch[n].upTo))
  }

  ghost predicate Forward(a: Job, b: Job, batch: seq<Note>) {
    || a == b
    || (b == Job(a.ns, b.requestedUpTo, a.state, a.worker, a.heartbeatAt, a.enqueuedAt) && a.requestedUpTo < b.requestedUpTo && AskedFor(b, batch))
  }

  ghost predicate AskedFor(j: Job, batch: seq<Note>) {
    exists n :: 0 <= n < |batch| && batch[n] == Note(j.ns, j.requestedUpTo)
  }

  lemma {:induction false} AskedMore(j: Job, first: Note, rest: seq<Note>)
    ensures AskedFor(j, [first]) || AskedFor(j, rest) ==> AskedFor(j, [first] + rest)
  {
    if AskedFor(j, [first]) {
      assert ([first] + rest)[0] == Note(j.ns, j.requestedUpTo);
    } else if AskedFor(j, rest) {
      var n :| 0 <= n < |rest| && rest[n] == Note(j.ns, j.requestedUpTo);
      assert ([first] + rest)[n + 1] == Note(j.ns, j.requestedUpTo);
    }
  }

  lemma {:induction false} MergeOne(jobs: seq<Job>, note: Note, stamp: int)
    ensures var r := Notify(jobs, note.ns, note.upTo, stamp);
            Merged(jobs, if r.Some? then r.value else jobs, [note])
  {
    var r := Notify(jobs, note.ns, note.upTo, stamp);
    var b := if r.Some? then r.value else jobs;
    NotifyMeans(jobs, note.ns, note.upTo, stamp);
    forall k | 0 <= k < |b| && (k >= |jobs| || b[k] != jobs[k]) ensures AskedFor(b[k], [note]) {
      assert [note][0] == Note(b[k].ns, b[k].requestedUpTo);
    }
  }

  lemma {:induction false} ReachesOn(a: seq<Job>, b: seq<Job>, batch: seq<Note>, ns: string, upTo: int)
    requires Merged(a, b, batch) && Reaches(a, ns, upTo)
    ensures Reaches(b, ns, upTo)
  {
    var k :| 0 <= k < |a| && a[k].ns == ns && a[k].requestedUpTo >= upTo;
    assert Forward(a[k], b[k], batch);
  }

  lemma {:induction false} MergeChain(a: seq<Job>, b: seq<Job>, c: seq<Job>, first: Note, rest: seq<Note>)
    requires Merged(a, b, [first]) && Merged(b, c, rest)
    ensures Merged(a, c, [first] + rest)
  {
    hide AskedFor, Reaches;
    forall k | 0 <= k < |c|
      ensures k < |a| ==> Forward(a[k], c[k], [first] + rest)
      ensures k >= |a| ==> c[k].state == Unclaimed && c[k].worker == "" && AskedFor(c[k], [first] + rest)
    {
      AskedMore(c[k], first, rest);
      if k < |b| { assert Forward(b[k], c[k], rest); }
      if k < |a| { assert Forward(a[k], b[k], [first]); }
    }
    assert Reaches(b, [first][0].ns, [first][0].upTo);
    ReachesOn(b, c, rest, first.ns, first.upTo);
    forall n | 0 <= n < |[first] + rest| ensures Reaches(c, ([first] + rest)[n].ns, ([first] + rest)[n].upTo) {
      if n > 0 { assert ([first] + rest)[n] == rest[n - 1]; }
    }
  }

  lemma {:induction false} MergeMeans(jobs: seq<Job>, batch: seq<Note>, stamps: seq<int>)
    ensures Merged(jobs, MergeFrom(jobs, batch, stamps), batch)
    decreases |batch|
  {
    hide Merged, Notify;
    if batch == [] {
      NothingMerged(jobs);
    } else {
      var stamp := if stamps == [] then 0 else stamps[0];
      var r := Notify(jobs, batch[0].ns, batch[0].upTo, stamp);
      var next := if r.Some? then r.value else jobs;
      MergeOne(jobs, batch[0], stamp);
      MergeMeans(next, batch[1..], if stamps == [] then [] else stamps[1..]);
      MergeChain(jobs, next, MergeFrom(jobs, batch, stamps), batch[0], batch[1..]);
      assert batch == [batch[0]] + batch[1..];
    }
  }

  lemma {:induction false} NothingMerged(jobs: seq<Job>)
    ensures Merged(jobs, jobs, [])
  {
  }

  // A committed batch of the broker covers every notification of it, and changes nothing for others.
  lemma {:induction false} BatchLands(moves: seq<Move<Edit, Clock>>, i: nat, batch: seq<Note>)
    requires Workers(moves) && i < |RunQueue(moves).history| && RunQueue(moves).history[i].edit == Merge(batch)
    ensures var s := RunQueue(moves); Merged(After(s, i), After(s, i + 1), batch)
  {
    hide RunQueue, MergeFrom, Merged;
    LinkIsEdit(moves, i);
    var s := RunQueue(moves);
    MergeMeans(After(s, i), batch, s.history[i].input.stamps);
  }

  // ---------------------------------------------------------------- losing a job

  ghost predicate HeldSince(jobs: seq<Job>, ns: string, worker: string, at: int) {
    exists k :: 0 <= k < |jobs| && jobs[k].ns == ns && jobs[k].worker == worker && jobs[k].state == InProgress && jobs[k].heartbeatAt == at
  }

  // Commit i is the worker's own heartbeat, or its own claim, of the namespace's job.
  ghost predicate Stamps(s: Queues, i: nat, ns: string, worker: string)
    requires i < |s.history|
  {
    var l := s.history[i];
    l.edit == Heartbeat(ns, worker) || (l.edit.Claim? && l.edit.worker == worker && HeldSince(After(s, i + 1), ns, worker, l.input.stamp))
  }

  // An edit that leaves the job with its worker, and is not that worker's stamp, keeps the stamp.
  lemma {:induction false} EditKeepsStamp(e: Edit, t: Clock, jobs: seq<Job>, ns: string, worker: string, at: int)
    requires QueueOk(jobs) && NamedWorkers(e) && EditJobs(e, t, jobs).Some? && HeldSince(jobs, ns, worker, at) && worker != ""
    requires Owned(EditJobs(e, t, jobs).value, ns, worker) && e != Heartbeat(ns, worker)
    ensures var after := EditJobs(e, t, jobs).value;
            HeldSince(after, ns, worker, at) || (e.Claim? && e.worker == worker && HeldSince(after, ns, worker, t.stamp))
  {
    var after := EditJobs(e, t, jobs).value;
    var k :| 0 <= k < |jobs| && jobs[k].ns == ns && jobs[k].worker == worker && jobs[k].state == InProgress && jobs[k].heartbeatAt == at;
    match e
    case Enqueue(n, upTo) =>
      assert after[k].heartbeatAt == at && after[k].ns == ns && after[k].worker == worker;
    case Merge(batch) =>
      MergeMeans(jobs, batch, t.stamps);
      assert Forward(jobs[k], after[k], batch);
    case Claim(w, timeout) => ClaimStamp(w, timeout, t, jobs, k, ns, worker, at);
    case Heartbeat(n, w) =>
      assert after[k] == jobs[k];
    case Complete(n, w) => CompleteStamp(n, w, t, jobs, k, ns, worker, at);
  }

  lemma {:induction false} ClaimStamp(w: string, timeout: int, t: Clock, jobs: seq<Job>, k: nat, ns: string, worker: string, at: int)
    requires QueueOk(jobs) && EditJobs(Claim(w, timeout), t, jobs).Some?
    requires k < |jobs| && jobs[k].ns == ns && jobs[k].worker == worker && jobs[k].state == InProgress && jobs[k].heartbeatAt == at
    requires Owned(EditJobs(Claim(w, timeout), t, jobs).value, ns, worker)
    ensures var after := EditJobs(Claim(w, timeout), t, jobs).value;
            HeldSince(after, ns, worker, at) || (w == worker && HeldSince(after, ns, worker, t.stamp))
  {
    var after := EditJobs(Claim(w, timeout), t, jobs).value;
    var p := Pick(jobs, Timeout(timeout), t.now, |jobs|);
    var o :| 0 <= o < |after| && after[o].ns == ns && after[o].worker == worker && after[o].state == InProgress;
    assert after[o].ns == jobs[o].ns;
    assert o == k;
    if p != k { assert after[k] == jobs[k]; }
  }

  lemma {:induction false} CompleteStamp(n: string, w: string, t: Clock, jobs: seq<Job>, k: nat, ns: string, worker: string, at: int)
    requires QueueOk(jobs) && EditJobs(Complete(n, w), t, jobs).Some?
    requires k < |jobs| && jobs[k].ns == ns && jobs[k].worker == worker && jobs[k].state == InProgress && jobs[k].heartbeatAt == at
    requires Owned(EditJobs(Complete(n, w), t, jobs).value, ns, worker)
    ensures HeldSince(EditJobs(Complete(n, w), t, jobs).value, ns, worker, at)
  {
    var after := EditJobs(Complete(n, w), t, jobs).value;
    var p := OwnIndex(jobs, n, w, false);
    var o :| 0 <= o < |after| && after[o].ns == ns && after[o].worker == worker && after[o].state == InProgress;
    var q := if o < p then o else o + 1;
    assert after[o] == jobs[q];
    assert q == k;
  }

  // The stamp of an owned job is the one its owner last gave it.
  lemma {:induction false} StampStays(moves: seq<Move<Edit, Clock>>, i: nat, j: nat, ns: string, worker: string)
    requires Workers(moves) && i < j <= |RunQueue(moves).history| && worker != ""
    requires Stamps(RunQueue(moves), i, ns, worker)
    requires forall m | i < m <= j :: Owned(After(RunQueue(moves), m), ns, worker)
    requires forall m | i < m < j :: !Stamps(RunQueue(moves), m, ns, worker)
    ensures HeldSince(After(RunQueue(moves), j), ns, worker, RunQueue(moves).history[i].input.stamp)
    decreases j
  {
    hide RunQueue, EditJobs, QueueOk, Owned, HeldSince;
    var s := RunQueue(moves);
    assert Stamps(s, i, ns, worker);
    if j == i + 1 {
      if s.history[i].edit == Heartbeat(ns, worker) {
        HeartbeatMoves(moves, i, ns, worker);
        BeatenHeld(After(s, i), After(s, j), ns, worker, s.history[i].input.stamp);
      }
    } else {
      StampStays(moves, i, j - 1, ns, worker);
      assert !Stamps(s, j - 1, ns, worker);
      LinkIsEdit(moves, j - 1);
      OneJobPerNamespace(moves, j - 1);
      EditKeepsStamp(s.history[j - 1].edit, s.history[j - 1].input, After(s, j - 1), ns, worker, s.history[i].input.stamp);
    }
  }

  lemma {:induction false} BeatenHeld(a: seq<Job>, b: seq<Job>, ns: string, worker: string, stamp: int)
    requires exists k: nat :: Beaten(a, b, k, ns, worker, stamp)
    ensures HeldSince(b, ns, worker, stamp)
  {
    var k: nat :| Beaten(a, b, k, ns, worker, stamp);
    assert b[k].ns == ns;
  }

  // A worker that does not complete its job loses it only to a claim, and only when the stamp it gave
  // the job last is older than the timeout at the claimer's clock.
  lemma {:induction false} TakenOnlyWhenStale(moves: seq<Move<Edit, Clock>>, i: nat, j: nat, ns: string, worker: string)
    requires Workers(moves) && i < j < |RunQueue(moves).history| && worker != ""
    requires Stamps(RunQueue(moves), i, ns, worker)
    requires forall m | i < m <= j :: Owned(After(RunQueue(moves), m), ns, worker)
    requires forall m | i < m < j :: !Stamps(RunQueue(moves), m, ns, worker)
    requires !Owned(After(RunQueue(moves), j + 1), ns, worker) && RunQueue(moves).history[j].edit != Complete(ns, worker)
    ensures var s := RunQueue(moves);
            var l := s.history[j];
            && l.edit.Claim? && l.edit.worker != worker
            && l.input.now - s.history[i].input.stamp > (if l.edit.timeout <= 0 then 30_000_000_000 else l.edit.timeout)
  {
    hide RunQueue, EditJobs, QueueOk, Owned, Stamps;
    var s := RunQueue(moves);
    StampStays(moves, i, j, ns, worker);
    LinkIsEdit(moves, j);
    OneJobPerNamespace(moves, j);
    OwnershipMoves(s.history[j].edit, s.history[j].input, After(s, j), ns, worker);
    StaleSince(s.history[j].edit, s.history[j].input, After(s, j), ns, worker, s.history[i].input.stamp);
  }

  lemma {:induction false} StaleSince(e: Edit, t: Clock, jobs: seq<Job>, ns: string, worker: string, at: int)
    requires QueueOk(jobs) && HeldSince(jobs, ns, worker, at) && StaleClaim(e, t, jobs, ns, worker)
    ensures e.Claim? && t.now - at > (if e.timeout <= 0 then 30_000_000_000 else e.timeout)
  {
  }

  // If the worker's stamps never go back, none of the stamps of its ownership is fresh when it is lost.
  lemma {:induction false} NoFreshStamp(moves: seq<Move<Edit, Clock>>, i: nat, j: nat, ns: string, worker: string, m: nat)
    requires Workers(moves) && i <= m < j < |RunQueue(moves).history| && worker != ""
    requires Stamps(RunQueue(moves), i, ns, worker) && Stamps(RunQueue(moves), m, ns, worker)
    requires forall n | i < n <= j :: Owned(After(RunQueue(moves), n), ns, worker)
    requires forall a, b | i <= a < b < j && Stamps(RunQueue(moves), a, ns, worker) && Stamps(RunQueue(moves), b, ns, worker) ::
               RunQueue(moves).history[a].input.stamp <= RunQueue(moves).history[b].input.stamp
    requires !Owned(After(RunQueue(moves), j + 1), ns, worker) && RunQueue(moves).history[j].edit != Complete(ns, worker)
    ensures var s := RunQueue(moves);
            var l := s.history[j];
            && l.edit.Claim? && l.edit.worker != worker
            && l.input.now - s.history[m].input.stamp > (if l.edit.timeout <= 0 then 30_000_000_000 else l.edit.timeout)
  {
    hide RunQueue, Owned, Stamps, Workers;
    var last := LastStamp(RunQueue(moves), m, j, ns, worker);
    TakenOnlyWhenStale(moves, last, j, ns, worker);
  }

  lemma {:induction false} LastStamp(s: Queues, m: nat, j: nat, ns: string, worker: string) returns (last: nat)
    requires m < j <= |s.history| && Stamps(s, m, ns, worker)
    ensures m <= last < j && Stamps(s, last, ns, worker) && forall n | last < n < j :: !Stamps(s, n, ns, worker)
    decreases j - m
  {
    hide Stamps;
    if n :| m < n < j && Stamps(s, n, ns, worker) {
      last := LastStamp(s, n, j, ns, worker);
    } else {
      last := m;
    }
  }
}

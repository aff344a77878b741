// The indexing job queue: one object, many clients, every change a compare-and-swap of the whole
// document. Queue operations are the closures handed to SaveQueueCAS.

module Queue {
  import opened Types
  import opened Cas

  const MAX_QUEUE_CAS_ATTEMPTS := 32
  const DEFAULT_HEARTBEAT_TIMEOUT := 30_000_000_000

  datatype JobState = Unclaimed | InProgress

  // Times are nanoseconds read from the acting process's own clock.
  datatype Job = Job(ns: string, requestedUpTo: int, state: JobState, worker: string, heartbeatAt: int, enqueuedAt: int)

  datatype Doc = Doc(version: nat, jobs: seq<Job>)

  // One notification of the broker's batch.
  datatype Note = Note(ns: string, upTo: int)

  datatype Edit =
    | Enqueue(ns: string, upTo: int)
    | Claim(worker: string, timeout: int)
    | Heartbeat(ns: string, worker: string)
    | Complete(ns: string, worker: string)
    | Merge(batch: seq<Note>)

  // What a closure reads from the clock on one attempt: `now` where the eligibility is judged,
  // `stamp` where a time is written, `stamps[i]` for the i-th notification of a batch.
  datatype Clock = Clock(now: int, stamp: int, stamps: seq<int>)

  function Find(jobs: seq<Job>, ns: string): (k: nat)
    ensures k <= |jobs| && (k < |jobs| ==> jobs[k].ns == ns)
    ensures forall i | 0 <= i < k :: jobs[i].ns != ns
    decreases |jobs|
  {
    if jobs == [] then 0 else if jobs[0].ns == ns then 0 else Find(jobs[1..], ns) + 1
  }

  function Fresh(ns: string, upTo: int, stamp: int): Job { Job(ns, upTo, Unclaimed, "", 0, stamp) }

  // One notification: at most one job per namespace, a later position bumps it. None is "no change".
  function Notify(jobs: seq<Job>, ns: string, upTo: int, stamp: int): Option<seq<Job>> {
    var k := Find(jobs, ns);
    if k == |jobs| then Some(jobs + [Fresh(ns, upTo, stamp)])
    else if upTo > jobs[k].requestedUpTo then Some(jobs[k := jobs[k].(requestedUpTo := upTo)])
    else None
  }

  function MergeFrom(jobs: seq<Job>, batch: seq<Note>, stamps: seq<int>): seq<Job>
    decreases |batch|
  {
    if batch == [] then jobs else
    var next := match Notify(jobs, batch[0].ns, batch[0].upTo, if stamps == [] then 0 else stamps[0]) case Some(j) => j case None => jobs;
    MergeFrom(next, batch[1..], if stamps == [] then [] else stamps[1..])
  }

  predicate Eligible(j: Job, timeout: int, now: int) {
    j.state == Unclaimed || now - j.heartbeatAt > timeout
  }

  // The oldest eligible job, the first of them on a tie; |jobs| when there is none.
  predicate IsPick(jobs: seq<Job>, timeout: int, now: int, k: nat) {
    && k <= |jobs|
    && (k < |jobs| ==> jobs[k].state == Unclaimed || now - jobs[k].heartbeatAt > timeout)
    && (forall i | 0 <= i < |jobs| && (jobs[i].state == Unclaimed || now - jobs[i].heartbeatAt > timeout) ::
          k < |jobs| && (jobs[k].enqueuedAt < jobs[i].enqueuedAt || (jobs[k].enqueuedAt == jobs[i].enqueuedAt && k <= i)))
  }

  // What pickEligible's loop has chosen among the first n jobs.
  function Pick(jobs: seq<Job>, timeout: int, now: int, n: nat): (best: int)
    requires n <= |jobs|
    ensures -1 <= best < n
    decreases n
  {
    if n == 0 then -1 else
    var best := Pick(jobs, timeout, now, n - 1);
    if Eligible(jobs[n - 1], timeout, now) && (best < 0 || jobs[n - 1].enqueuedAt < jobs[best].enqueuedAt) then n - 1 else best
  }

  lemma {:induction false} PickIsOldest(jobs: seq<Job>, timeout: int, now: int, n: nat)
    requires n <= |jobs|
    ensures var best := Pick(jobs, timeout, now, n); IsPick(jobs[..n], timeout, now, if best < 0 then n else best)
    decreases n
  {
    if n > 0 {
      PickIsOldest(jobs, timeout, now, n - 1);
      assert forall i | 0 <= i < n - 1 :: jobs[..n][i] == jobs[..n - 1][i];
    }
  }

  function OwnIndex(jobs: seq<Job>, ns: string, worker: string, progressing: bool): (k: nat)
    ensures k <= |jobs|
    ensures k < |jobs| ==> jobs[k].ns == ns && jobs[k].worker == worker && (progressing ==> jobs[k].state == InProgress)
    ensures forall i | 0 <= i < k :: !(jobs[i].ns == ns && jobs[i].worker == worker && (progressing ==> jobs[i].state == InProgress))
    decreases |jobs|
  {
    if jobs == [] then 0
    else if jobs[0].ns == ns && jobs[0].worker == worker && (progressing ==> jobs[0].state == InProgress) then 0
    else OwnIndex(jobs[1..], ns, worker, progressing) + 1
  }

  // Half a minute, in nanoseconds, unless a positive one is asked for.
  function Timeout(t: int): (r: int)
    ensures r == if t > 0 then t else 30_000_000_000
  {
    if t <= 0 then DEFAULT_HEARTBEAT_TIMEOUT else t
  }

  function EditJobs(e: Edit, t: Clock, jobs: seq<Job>): Option<seq<Job>> {
    match e
    case Enqueue(ns, upTo) => Notify(jobs, ns, upTo, t.stamp)
    case Claim(worker, timeout) =>
      var k := Pick(jobs, Timeout(timeout), t.now, |jobs|);
      if k < 0 then None
      else Some(jobs[k := jobs[k].(state := InProgress, worker := worker, heartbeatAt := t.stamp)])
    case Heartbeat(ns, worker) =>
      var k := OwnIndex(jobs, ns, worker, true);
      if k == |jobs| then None else Some(jobs[k := jobs[k].(heartbeatAt := t.stamp)])
    case Complete(ns, worker) =>
      var k := OwnIndex(jobs, ns, worker, false);
      if k == |jobs| then None else Some(jobs[..k] + jobs[k + 1..])
    case Merge(batch) =>
      var merged := MergeFrom(jobs, batch, t.stamps);
      if merged == jobs then None else Some(merged)
  }

  // The job a claim's closure copies out of the queue it edits. Every other closure copies none.
  function Copied(e: Edit, t: Clock, jobs: seq<Job>): Option<Job> {
    if !e.Claim? then None else
    var k := Pick(jobs, Timeout(e.timeout), t.now, |jobs|);
    if k < 0 then None else Some(jobs[k].(state := InProgress, worker := e.worker, heartbeatAt := t.stamp))
  }

  function Mutate(e: Edit, t: Clock, q: Doc): Option<Doc> {
    match EditJobs(e, t, q.jobs)
    case None => None
    case Some(jobs) => Some(Doc(q.version + 1, jobs))
  }

  // b is a with more jobs or later positions.
  ghost predicate Grew(a: seq<Job>, b: seq<Job>) {
    && |a| <= |b| && (forall i | 0 <= i < |a| :: a[i].requestedUpTo <= b[i].requestedUpTo)
    && a != b
  }

  // A notification that changes anything moves the queue forward, so no later one undoes it.
  lemma {:induction false} NotifyGrows(start: seq<Job>, jobs: seq<Job>, ns: string, upTo: int, stamp: int)
    requires (start == jobs || Grew(start, jobs)) && Notify(jobs, ns, upTo, stamp).Some?
    ensures Grew(start, Notify(jobs, ns, upTo, stamp).value)
  {
    var after := Notify(jobs, ns, upTo, stamp).value;
    var k := Find(jobs, ns);
    if k < |jobs| {
      assert after[k].requestedUpTo > jobs[k].requestedUpTo;
      assert k < |start| ==> after[k].requestedUpTo > start[k].requestedUpTo;
    }
  }

  // ---------------------------------------------------------------- the closures, in place

  // The loaded queue document, edited in place by the closures.
  class Loaded {
    var jobs: seq<Job>

    constructor (jobs: seq<Job>)
      ensures this.jobs == jobs
    {
      this.jobs := jobs;
    }

    // mergeNotification, and the closure of EnqueueReindex.
    method Merge1(ns: string, upTo: int, stamp: int) returns (changed: bool)
      modifies this
      ensures changed <==> Notify(old(jobs), ns, upTo, stamp).Some?
      ensures jobs == (match Notify(old(jobs), ns, upTo, stamp) case Some(j) => j case None => old(jobs))
    {
      var i := 0;
      while i < |jobs|
        invariant i <= |jobs| && jobs == old(jobs)
        invariant forall j | 0 <= j < i :: jobs[j].ns != ns
      {
        if jobs[i].ns == ns {
          assert Find(jobs, ns) == i;
          if upTo > jobs[i].requestedUpTo {
            jobs := jobs[i := jobs[i].(requestedUpTo := upTo)];
            return true;
          }
          return false;
        }
        i := i + 1;
      }
      assert Find(jobs, ns) == |jobs|;
      jobs := jobs + [Fresh(ns, upTo, stamp)];
      changed := true;
    }

    // The broker's flush closure: a whole batch in one mutation.
    method MergeBatch(batch: seq<Note>, stamps: seq<int>) returns (changed: bool)
      requires |stamps| == |batch|
      modifies this
      ensures var r := EditJobs(Merge(batch), Clock(0, 0, stamps), old(jobs));
              changed == r.Some? && jobs == (if r.Some? then r.value else old(jobs))
    {
      changed := false;
      var i := 0;
      while i < |batch|
        invariant i <= |batch|
        invariant MergeFrom(jobs, batch[i..], stamps[i..]) == MergeFrom(old(jobs), batch, stamps)
        invariant if changed then Grew(old(jobs), jobs) else jobs == old(jobs)
      {
        ghost var before := jobs;
        var did := Merge1(batch[i].ns, batch[i].upTo, stamps[i]);
        if did { NotifyGrows(old(jobs), before, batch[i].ns, batch[i].upTo, stamps[i]); }
        assert batch[i..][1..] == batch[i + 1..] && stamps[i..][1..] == stamps[i + 1..];
        if did { changed := true; }
        i := i + 1;
      }
    }

    method ClaimNext(worker: string, timeout: int, now: int, stamp: int) returns (claimed: Option<Job>)
      modifies this
      ensures var r := EditJobs(Claim(worker, timeout), Clock(now, stamp, []), old(jobs));
              claimed.Some? == r.Some? && jobs == (if r.Some? then r.value else old(jobs))
      ensures claimed == Copied(Claim(worker, timeout), Clock(now, stamp, []), old(jobs))
      ensures claimed.Some? ==>
                exists k :: 0 <= k < |old(jobs)| && IsPick(old(jobs), Timeout(timeout), now, k)
                            && jobs == old(jobs)[k := claimed.value] && claimed.value.worker == worker
    {
      var k := PickEligible(jobs, Timeout(timeout), now);
      if k < 0 {
        return None;
      }
      jobs := jobs[k := jobs[k].(state := InProgress, worker := worker, heartbeatAt := stamp)];
      claimed := Some(jobs[k]);
      assert IsPick(old(jobs), Timeout(timeout), now, k) && jobs == old(jobs)[k := claimed.value];
    }

    method Refresh(ns: string, worker: string, stamp: int) returns (ok: bool)
      modifies this
      ensures var r := EditJobs(Heartbeat(ns, worker), Clock(0, stamp, []), old(jobs));
              ok == r.Some? && jobs == (if r.Some? then r.value else old(jobs))
      ensures ok ==>
                exists k :: 0 <= k < |old(jobs)| && old(jobs)[k].ns == ns && old(jobs)[k].worker == worker && old(jobs)[k].state == InProgress
                            && jobs == old(jobs)[k := Job(ns, old(jobs)[k].requestedUpTo, InProgress, worker, stamp, old(jobs)[k].enqueuedAt)]
      ensures !ok ==> forall k | 0 <= k < |old(jobs)| :: !(old(jobs)[k].ns == ns && old(jobs)[k].worker == worker && old(jobs)[k].state == InProgress)
    {
      var i := 0;
      while i < |jobs|
        invariant i <= |jobs| && jobs == old(jobs)
        invariant forall j | 0 <= j < i :: !(jobs[j].ns == ns && jobs[j].worker == worker && jobs[j].state == InProgress)
      {
        if jobs[i].ns == ns && jobs[i].state == InProgress && jobs[i].worker == worker {
          assert OwnIndex(jobs, ns, worker, true) == i;
          jobs := jobs[i := jobs[i].(heartbeatAt := stamp)];
          return true;
        }
        i := i + 1;
      }
      ok := false;
    }

    method Remove(ns: string, worker: string) returns (removed: bool)
      modifies this
      ensures var r := EditJobs(Complete(ns, worker), Clock(0, 0, []), old(jobs));
              removed == r.Some? && jobs == (if r.Some? then r.value else old(jobs))
    {
      var i := 0;
      while i < |jobs|
        invariant i <= |jobs| && jobs == old(jobs)
        invariant forall j | 0 <= j < i :: !(jobs[j].ns == ns && jobs[j].worker == worker)
      {
        if jobs[i].ns == ns && jobs[i].worker == worker {
          assert OwnIndex(jobs, ns, worker, false) == i;
          jobs := jobs[..i] + jobs[i + 1..];
          return true;
        }
        i := i + 1;
      }
      removed := false;
    }
  }

  method PickEligible(jobs: seq<Job>, timeout: int, now: int) returns (best: int)
    ensures best == Pick(jobs, timeout, now, |jobs|)
    ensures -1 <= best < |jobs| && IsPick(jobs, timeout, now, if best < 0 then |jobs| else best)
  {
    best := -1;
    var i := 0;
    while i < |jobs|
      invariant i <= |jobs|
      invariant best == Pick(jobs, timeout, now, i)
    {
      var eligible := false;
      match jobs[i].state {
        case Unclaimed => eligible := true;
        case InProgress => if now - jobs[i].heartbeatAt > timeout { eligible := true; }
      }
      if eligible && (best < 0 || jobs[i].enqueuedAt < jobs[best].enqueuedAt) {
        best := i;
      }
      i := i + 1;
    }
    PickIsOldest(jobs, timeout, now, |jobs|);
    assert jobs[..|jobs|] == jobs;
  }

  // ---------------------------------------------------------------- one commit

  // At most one job per namespace; exactly the claimed jobs name a worker.
  ghost predicate QueueOk(jobs: seq<Job>) {
    && (forall i, j | 0 <= i < j < |jobs| :: jobs[i].ns != jobs[j].ns)
    && (forall i | 0 <= i < |jobs| :: jobs[i].worker == "" <==> jobs[i].state == Unclaimed)
  }

  ghost predicate Owned(jobs: seq<Job>, ns: string, worker: string) {
    exists i :: 0 <= i < |jobs| && jobs[i].ns == ns && jobs[i].worker == worker && jobs[i].state == InProgress
  }

  // Worker ids are non-empty.
  predicate NamedWorkers(e: Edit) { (e.Claim? || e.Heartbeat? || e.Complete?) ==> e.worker != "" }

  lemma {:induction false} NotifyKeeps(jobs: seq<Job>, ns: string, upTo: int, stamp: int, other: string, worker: string)
    requires QueueOk(jobs) && Notify(jobs, ns, upTo, stamp).Some?
    ensures QueueOk(Notify(jobs, ns, upTo, stamp).value)
    ensures worker != "" ==> (Owned(Notify(jobs, ns, upTo, stamp).value, other, worker) <==> Owned(jobs, other, worker))
  {
    var after := Notify(jobs, ns, upTo, stamp).value;
    if Owned(jobs, other, worker) {
      var i :| 0 <= i < |jobs| && jobs[i].ns == other && jobs[i].worker == worker && jobs[i].state == InProgress;
      assert after[i].ns == other && after[i].worker == worker && after[i].state == InProgress;
    }
  }

  lemma {:induction false} MergeKeeps(jobs: seq<Job>, batch: seq<Note>, stamps: seq<int>, other: string, worker: string)
    requires QueueOk(jobs)
    ensures QueueOk(MergeFrom(jobs, batch, stamps))
    ensures worker != "" ==> (Owned(MergeFrom(jobs, batch, stamps), other, worker) <==> Owned(jobs, other, worker))
    decreases |batch|
  {
    if batch != [] {
      var stamp := if stamps == [] then 0 else stamps[0];
      var r := Notify(jobs, batch[0].ns, batch[0].upTo, stamp);
      if r.Some? { NotifyKeeps(jobs, batch[0].ns, batch[0].upTo, stamp, other, worker); }
      MergeKeeps(if r.Some? then r.value else jobs, batch[1..], if stamps == [] then [] else stamps[1..], other, worker);
    }
  }

  // A takeover: a claim of a job whose heartbeat is older than the timeout at the claimer's clock.
  ghost predicate StaleClaim(e: Edit, t: Clock, jobs: seq<Job>, ns: string, worker: string) {
    e.Claim? && exists i :: 0 <= i < |jobs| && jobs[i].ns == ns && jobs[i].worker == worker
                            && jobs[i].state == InProgress && t.now - jobs[i].heartbeatAt > Timeout(e.timeout)
  }

  lemma {:induction false} EditKeepsOk(e: Edit, t: Clock, jobs: seq<Job>)
    requires QueueOk(jobs) && NamedWorkers(e) && EditJobs(e, t, jobs).Some?
    ensures QueueOk(EditJobs(e, t, jobs).value)
  {
    match e
    case Enqueue(n, upTo) => NotifyKeeps(jobs, n, upTo, t.stamp, "", "");
    case Merge(batch) => MergeKeeps(jobs, batch, t.stamps, "", "");
    case _ =>
  }

  // An owned job stays with its owner unless the owner completes it or a claimer finds it stale.
  lemma {:induction false} OwnershipMoves(e: Edit, t: Clock, jobs: seq<Job>, ns: string, worker: string)
    requires QueueOk(jobs) && NamedWorkers(e) && worker != "" && EditJobs(e, t, jobs).Some? && Owned(jobs, ns, worker)
    ensures Owned(EditJobs(e, t, jobs).value, ns, worker) || e == Complete(ns, worker)
            || (StaleClaim(e, t, jobs, ns, worker) && e.worker != worker)
  {
    match e
    case Enqueue(n, upTo) => NotifyKeeps(jobs, n, upTo, t.stamp, ns, worker);
    case Merge(batch) => MergeKeeps(jobs, batch, t.stamps, ns, worker);
    case Claim(w, timeout) => ClaimMoves(w, timeout, t, jobs, ns, worker);
    case Heartbeat(n, w) => HeartbeatKeeps(n, w, t, jobs, ns, worker);
    case Complete(n, w) => CompleteMoves(n, w, t, jobs, ns, worker);
  }

  lemma {:induction false} ClaimMoves(w: string, timeout: int, t: Clock, jobs: seq<Job>, ns: string, worker: string)
    requires QueueOk(jobs) && EditJobs(Claim(w, timeout), t, jobs).Some? && Owned(jobs, ns, worker)
    ensures Owned(EditJobs(Claim(w, timeout), t, jobs).value, ns, worker)
            || (StaleClaim(Claim(w, timeout), t, jobs, ns, worker) && w != worker)
  {
    var after := EditJobs(Claim(w, timeout), t, jobs).value;
    var i :| 0 <= i < |jobs| && jobs[i].ns == ns && jobs[i].worker == worker && jobs[i].state == InProgress;
    var k := Pick(jobs, Timeout(timeout), t.now, |jobs|);
    PickIsOldest(jobs, Timeout(timeout), t.now, |jobs|);
    assert jobs[..|jobs|] == jobs;
    assert after[i].ns == ns && after[i].state == InProgress && (k != i ==> after[i].worker == worker);
  }

  lemma {:induction false} HeartbeatKeeps(n: string, w: string, t: Clock, jobs: seq<Job>, ns: string, worker: string)
    requires EditJobs(Heartbeat(n, w), t, jobs).Some? && Owned(jobs, ns, worker)
    ensures Owned(EditJobs(Heartbeat(n, w), t, jobs).value, ns, worker)
  {
    var after := EditJobs(Heartbeat(n, w), t, jobs).value;
    var i :| 0 <= i < |jobs| && jobs[i].ns == ns && jobs[i].worker == worker && jobs[i].state == InProgress;
    assert after[i].ns == ns && after[i].worker == worker && after[i].state == InProgress;
  }

  lemma {:induction false} CompleteMoves(n: string, w: string, t: Clock, jobs: seq<Job>, ns: string, worker: string)
    requires EditJobs(Complete(n, w), t, jobs).Some? && Owned(jobs, ns, worker)
    ensures Owned(EditJobs(Complete(n, w), t, jobs).value, ns, worker) || (n == ns && w == worker)
  {
    var after := EditJobs(Complete(n, w), t, jobs).value;
    var i :| 0 <= i < |jobs| && jobs[i].ns == ns && jobs[i].worker == worker && jobs[i].state == InProgress;
    var k := OwnIndex(jobs, n, w, false);
    if k != i { assert after[if i < k then i else i - 1] == jobs[i]; }
  }

  // A former owner's heartbeat or completion finds nothing of its own and does not write at all.
  lemma {:induction false} FormerOwnerIsRefused(t: Clock, jobs: seq<Job>, ns: string, former: string, owner: string)
    requires QueueOk(jobs) && former != owner && former != "" && Owned(jobs, ns, owner)
    ensures EditJobs(Heartbeat(ns, former), t, jobs) == None
    ensures EditJobs(Complete(ns, former), t, jobs) == None
  {
  }

  // A claim that writes takes the oldest eligible job, and changes nothing else.
  lemma {:induction false} ClaimTakesOldest(worker: string, timeout: int, t: Clock, jobs: seq<Job>)
    ensures EditJobs(Claim(worker, timeout), t, jobs) == None
            <==> forall i | 0 <= i < |jobs| :: !Eligible(jobs[i], Timeout(timeout), t.now)
    ensures EditJobs(Claim(worker, timeout), t, jobs).Some? ==>
              exists k :: 0 <= k < |jobs| && TakesPick(worker, timeout, t, jobs, k)
  {
    PickIsOldest(jobs, Timeout(timeout), t.now, |jobs|);
    assert jobs[..|jobs|] == jobs;
    var k := Pick(jobs, Timeout(timeout), t.now, |jobs|);
    if k >= 0 { assert TakesPick(worker, timeout, t, jobs, k); }
  }

  // The claim edits job k, the oldest eligible one, and copies it out as edited.
  ghost predicate TakesPick(worker: string, timeout: int, t: Clock, jobs: seq<Job>, k: nat)
    requires k < |jobs|
  {
    var job := jobs[k].(state := InProgress, worker := worker, heartbeatAt := t.stamp);
    && IsPick(jobs, Timeout(timeout), t.now, k)
    && EditJobs(Claim(worker, timeout), t, jobs) == Some(jobs[k := job])
    && Copied(Claim(worker, timeout), t, jobs) == Some(job)
  }

  // ---------------------------------------------------------------- whole runs

  type Queues = Machine<Edit, Clock, Doc>

  const EmptyQueue := Doc(1, [])

  function RunQueue(moves: seq<Move<Edit, Clock>>): Queues {
    RunCas(Mutate, MAX_QUEUE_CAS_ATTEMPTS, Start(EmptyQueue), moves)
  }

  ghost predicate Workers(moves: seq<Move<Edit, Clock>>) {
    forall i | 0 <= i < |moves| :: moves[i].Begin? ==> NamedWorkers(moves[i].edit)
  }

  ghost predicate EditsNamed(s: Queues) {
    && (forall c | c in s.calls :: NamedWorkers(s.calls[c].edit))
    && (forall i | 0 <= i < |s.history| :: NamedWorkers(s.history[i].edit))
  }

  lemma {:induction false} NamedThroughout(s: Queues, moves: seq<Move<Edit, Clock>>)
    requires EditsNamed(s) && Workers(moves)
    ensures EditsNamed(RunCas(Mutate, MAX_QUEUE_CAS_ATTEMPTS, s, moves))
    decreases |moves|
  {
    hide Mutate;
    if moves != [] {
      assert moves[0].Begin? ==> NamedWorkers(moves[0].edit);
      assert Workers(moves[1..]) by {
        forall i | 0 <= i < |moves[1..]| ensures moves[1..][i].Begin? ==> NamedWorkers(moves[1..][i].edit) {
          assert moves[1..][i] == moves[i + 1];
        }
      }
      NamedThroughout(StepCas(Mutate, MAX_QUEUE_CAS_ATTEMPTS, s, moves[0]), moves[1..]);
    }
  }

  // The queue after the first i commits.
  function After(s: Queues, i: nat): seq<Job>
    requires i <= |s.history|
  {
    if i == 0 then EmptyQueue.jobs else s.history[i - 1].after.jobs
  }

  lemma {:induction false} LinkIsEdit(moves: seq<Move<Edit, Clock>>, i: nat)
    requires Workers(moves) && i < |RunQueue(moves).history|
    ensures var s := RunQueue(moves);
            && NamedWorkers(s.history[i].edit)
            && EditJobs(s.history[i].edit, s.history[i].input, After(s, i)) == Some(After(s, i + 1))
            && s.history[i].before.jobs == After(s, i)
            && s.history[i].after.version == s.history[i].before.version + 1
  {
    NamedThroughout(Start(EmptyQueue), moves);
    CommitsAreSerial(Mutate, MAX_QUEUE_CAS_ATTEMPTS, EmptyQueue, moves);
    hide EditJobs, RunCas;
    var l := RunQueue(moves).history[i];
    assert LinkOk(Mutate, EmptyQueue, RunQueue(moves).history, i);
    assert Mutate(l.edit, l.input, l.before) == Some(l.after);
    assert l.before == if i == 0 then EmptyQueue else RunQueue(moves).history[i - 1].after;
  }

  // At most one job per namespace, after every commit of every run, broker included.
  lemma {:induction false} OneJobPerNamespace(moves: seq<Move<Edit, Clock>>, i: nat)
    requires Workers(moves) && i <= |RunQueue(moves).history|
    ensures QueueOk(After(RunQueue(moves), i))
    decreases i
  {
    hide RunQueue, EditJobs, QueueOk;
    if i == 0 {
      EmptyOk();
    } else {
      OneJobPerNamespace(moves, i - 1);
      LinkIsEdit(moves, i - 1);
      var l := RunQueue(moves).history[i - 1];
      EditKeepsOk(l.edit, l.input, After(RunQueue(moves), i - 1));
    }
  }

  lemma {:induction false} EmptyOk()
    ensures QueueOk(EmptyQueue.jobs)
  {
  }

  // Over whole runs: a job owned after commit i and no longer owned by that worker after commit j
  // left it through the worker's own completion, or through a claim that found its heartbeat older
  // than the timeout at the claimer's clock.
  lemma {:induction false} OwnershipIsSafe(moves: seq<Move<Edit, Clock>>, i: nat, j: nat, ns: string, worker: string)
    requires Workers(moves) && i < j <= |RunQueue(moves).history| && worker != ""
    requires Owned(After(RunQueue(moves), i), ns, worker) && !Owned(After(RunQueue(moves), j), ns, worker)
    ensures exists k :: i <= k < j && Owned(After(RunQueue(moves), k), ns, worker)
              && var l := RunQueue(moves).history[k];
                 l.edit == Complete(ns, worker)
                 || (StaleClaim(l.edit, l.input, After(RunQueue(moves), k), ns, worker) && l.edit.worker != worker)
    decreases j
  {
    hide RunQueue, EditJobs, StaleClaim, Owned;
    var s := RunQueue(moves);
    if Owned(After(s, j - 1), ns, worker) {
      LinkIsEdit(moves, j - 1);
      OneJobPerNamespace(moves, j - 1);
      OwnershipMoves(s.history[j - 1].edit, s.history[j - 1].input, After(s, j - 1), ns, worker);
    } else {
      OwnershipIsSafe(moves, i, j - 1, ns, worker);
    }
  }

  // What ClaimNextJob hands to its caller: the copy the committed attempt made, or nothing.
  function Returned(call: Call<Edit, Clock, Doc>): Option<Job> {
    if call.Won? then Copied(call.edit, call.input, call.before.jobs) else None
  }

  // Commit i is call c turning the oldest eligible job, the k-th, into `job`, and nothing else.
  ghost predicate ClaimedBy(s: Queues, c: nat, worker: string, timeout: int, i: nat, k: nat, job: Job) {
    && i < |s.history| && s.history[i].call == c
    && k < |After(s, i)| && IsPick(After(s, i), Timeout(timeout), s.history[i].input.now, k)
    && job == After(s, i)[k].(state := InProgress, worker := worker, heartbeatAt := s.history[i].input.stamp)
    && After(s, i + 1) == After(s, i)[k := job]
  }

  // ClaimNextJob returns a job exactly when its claim committed, and then the job is the one that was,
  // in the queue it committed against, the oldest eligible, as the commit left it.
  lemma {:induction false} ClaimIsExact(moves: seq<Move<Edit, Clock>>, c: nat, worker: string, timeout: int)
    requires Workers(moves) && c in RunQueue(moves).calls && RunQueue(moves).calls[c].edit == Claim(worker, timeout)
    ensures var s := RunQueue(moves);
            Returned(s.calls[c]).Some? <==> exists i :: 0 <= i < |s.history| && s.history[i].call == c
    ensures var s := RunQueue(moves);
            Returned(s.calls[c]).Some? ==> exists i, k :: ClaimedBy(s, c, worker, timeout, i, k, Returned(s.calls[c]).value)
  {
    var s := RunQueue(moves);
    CommitsAreSerial(Mutate, MAX_QUEUE_CAS_ATTEMPTS, EmptyQueue, moves);
    hide RunQueue, EditJobs, RunCas, Mutate, Serial, IsPick, Copied;
    if s.calls[c].Won? {
      var i :| 0 <= i < |s.history| && s.history[i].call == c
               && s.history[i].edit == s.calls[c].edit && Reports(s.calls[c], s.history[i]);
      LinkIsEdit(moves, i);
      ClaimTakesOldest(worker, timeout, s.history[i].input, After(s, i));
      var k :| 0 <= k < |After(s, i)| && TakesPick(worker, timeout, s.history[i].input, After(s, i), k);
      assert ClaimedBy(s, c, worker, timeout, i, k, Returned(s.calls[c]).value);
    }
  }
}

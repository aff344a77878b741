// Group commit: many writers, one committing loop, an unbuffered channel and a shutdown gate. Every
// interleaving of callers, the loop and Close is a run of this machine. The store underneath is the one
// of the protocol: committing a batch is the work of one protocol client, among any others.

module Committer {
  import opened Types
  import P = Protocol
  import PI = ProtocolInvariant
  import PS = ProtocolSteps
  import PR = ProtocolReads
  import Safety = ProtocolSafety

  // A commit either lands the merged batch in one log segment, or fails for everyone in it.
  datatype Outcome = Landed(segment: nat) | Failed

  // A caller holds the gate's read lock from Entered until it leaves Sent, Rejected or Cancelled.
  datatype Caller = Entered | Sending | Sent | Waiting | Rejected | Cancelled

  datatype Loop =
    | Receiving
    | Draining(batch: seq<nat>)
    | Committing(batch: seq<nat>)
    | Appending(batch: seq<nat>)
    | Answering(batch: seq<nat>, outcome: Outcome, next: nat)
    | Exited

  datatype Flush = Flush(batch: seq<nat>, outcome: Outcome)

  datatype Answer = Answer(write: nat, outcome: Outcome)

  // docs(w) is the payload of write w; maxDocs the batch cap; client the committer's own client.
  datatype Config = Config(docs: nat -> seq<Document>, maxDocs: nat, ns: string, client: nat)

  datatype State = State(
    accepting: bool,
    closed: bool,
    locked: bool,
    shut: bool,
    callers: map<nat, Caller>,
    loop: Loop,
    // History: writes received, flushes committed, results sent.
    arrivals: seq<nat>,
    flushes: seq<Flush>,
    answers: seq<Answer>,
    store: P.State)

  ghost predicate Init(k: Config, s: State) {
    && Safety.Reachable(s.store)
    && s.accepting && !s.closed && !s.locked && !s.shut
    && s.callers == map[] && s.loop == Receiving
    && s.arrivals == [] && s.flushes == [] && s.answers == []
  }

  // Who holds the read lock.
  predicate Reading(c: Caller) { c.Entered? || c.Sending? || c.Sent? }

  ghost predicate NoReaders(s: State) {
    forall w | w in s.callers :: !Reading(s.callers[w])
  }

  // The merged operations of a batch, in arrival order.
  function MergedOps(k: Config, batch: seq<nat>): seq<Document>
    decreases |batch|
  {
    if batch == [] then [] else MergedOps(k, batch[..|batch| - 1]) + k.docs(batch[|batch| - 1])
  }

  // ---------------------------------------------------------------- steps

  datatype Step =
    | Enter(w: nat)
    | Check(w: nat)
    | Hand(w: nat)
    | Cancel(w: nat)
    | Leave(w: nat)
    | StopDraining
    | Load
    | Work
    | Break
    | Commit(outcome: Outcome)
    | SendResult
    | Exit
    | Lock
    | Shut
    | Unlock
    | Others(a: P.Action)

  function Actor(a: P.Action): Option<nat> {
    match a
    case Create(_, _, _) => None
    case BeginUpsert(c, _, _) => Some(c)
    case BeginBuild(c, _) => Some(c)
    case BeginBranch(c, _, _) => Some(c)
    case BeginQuery(c, _) => Some(c)
    case ReadPart(c, _) => Some(c)
    case WritePart(c, _) => Some(c)
    case Go(c) => Some(c)
    case Stop(c) => Some(c)
  }

  // A write that passes validation against the manifest.
  predicate Valid(k: Config, s: State, w: nat) {
    k.docs(w) != [] && k.ns in s.store.mans.objs && P.DocsFit(k.docs(w), s.store.mans.objs[k.ns].body.dimension)
  }

  // flush: load the manifest for a hint, then probe for a log position from there.
  function Loaded(k: Config, store: P.State, ops: seq<Document>): P.State {
    P.Enter(store, k.client,
            if k.ns in store.mans.objs then P.Probing(k.ns, ops, store.mans.objs[k.ns].body.walSeq, 0) else P.Failed)
  }

  // What the committer's client has come to.
  function OutcomeOf(ph: P.Phase): Option<Outcome> {
    match ph
    case Acked(ack) => Some(Landed(ack.seqNo))
    case Failed => Some(Outcome.Failed)
    case _ => None
  }

  // The loop takes a write: as the first of a flush, or while draining below the cap.
  predicate CanReceive(k: Config, s: State) {
    s.loop.Receiving? || (s.loop.Draining? && |MergedOps(k, s.loop.batch)| < k.maxDocs)
  }

  function Batch(l: Loop): seq<nat> {
    if l.Draining? || l.Committing? || l.Appending? then l.batch else []
  }

  ghost predicate Next(k: Config, s: State, step: Step, t: State) {
    match step
    case Enter(w) =>
      // RLock is free unless Close holds the lock.
      w !in s.callers && Valid(k, s, w) && !s.locked && t == s.(callers := s.callers[w := Entered])
    case Check(w) =>
      && w in s.callers && s.callers[w].Entered?
      && t == s.(callers := s.callers[w := if s.accepting then Sending else Rejected])
    case Hand(w) =>
      // The send and the receive are one step: the channel is unbuffered.
      && w in s.callers && s.callers[w].Sending? && CanReceive(k, s)
      && t == s.(callers := s.callers[w := Sent], loop := Draining(Batch(s.loop) + [w]), arrivals := s.arrivals + [w])
    case Cancel(w) =>
      w in s.callers && s.callers[w].Sending? && t == s.(callers := s.callers[w := Cancelled])
    case Leave(w) =>
      w in s.callers && s.callers[w].Sent? && t == s.(callers := s.callers[w := Waiting])
    case StopDraining =>
      s.loop.Draining? && t == s.(loop := Committing(s.loop.batch))
    case Load =>
      s.loop.Committing?
      && t == s.(loop := Appending(s.loop.batch), store := Loaded(k, s.store, MergedOps(k, s.loop.batch)))
    case Work =>
      s.loop.Appending? && OutcomeOf(P.PhaseOf(s.store, k.client)).None?
      && t == s.(store := P.Step(s.store, P.Go(k.client)))
    case Break =>
      // A store call returns an error, at any point of the commit: nothing tells whether it took effect.
      s.loop.Appending? && t == s.(store := P.Enter(s.store, k.client, P.Failed))
    case Commit(outcome) =>
      && s.loop.Appending? && OutcomeOf(P.PhaseOf(s.store, k.client)) == Some(outcome)
      && t == s.(loop := Answering(s.loop.batch, outcome, 0), flushes := s.flushes + [Flush(s.loop.batch, outcome)])
    case SendResult =>
      && s.loop.Answering?
      && if s.loop.next < |s.loop.batch|
         then t == s.(loop := s.loop.(next := s.loop.next + 1),
                      answers := s.answers + [Answer(s.loop.batch[s.loop.next], s.loop.outcome)])
         else t == s.(loop := Receiving)
    case Exit =>
      // The range over the inbox ends once it is closed.
      s.loop.Receiving? && s.closed && t == s.(loop := Exited)
    case Lock =>
      // The write lock waits for every reader; once.Do runs it once.
      !s.shut && !s.locked && NoReaders(s) && t == s.(locked := true, shut := true)
    case Shut =>
      s.locked && t == s.(accepting := false, closed := true)
    case Unlock =>
      s.locked && s.closed && t == s.(locked := false)
    case Others(a) =>
      // Any step of any other client of the store.
      Actor(a) != Some(k.client) && t == s.(store := P.Step(s.store, a))
  }

  ghost predicate IsRun(k: Config, run: seq<State>, steps: seq<Step>) {
    && |run| == |steps| + 1 && Init(k, run[0])
    && forall i | 0 <= i < |steps| :: Next(k, run[i], steps[i], run[i + 1])
  }

  // ---------------------------------------------------------------- what every step keeps

  function Flushed(fs: seq<Flush>): seq<nat>
    decreases |fs|
  {
    if fs == [] then [] else Flushed(fs[..|fs| - 1]) + fs[|fs| - 1].batch
  }

  // The results a list of flushes owes, in order.
  function Owed(fs: seq<Flush>): seq<Answer>
    decreases |fs|
  {
    if fs == [] then [] else Owed(fs[..|fs| - 1]) + Results(fs[|fs| - 1])
  }

  function Results(f: Flush): (r: seq<Answer>)
    ensures |r| == |f.batch| && forall i | 0 <= i < |r| :: r[i] == Answer(f.batch[i], f.outcome)
  {
    seq(|f.batch|, (i: int) requires 0 <= i < |f.batch| => Answer(f.batch[i], f.outcome))
  }

  ghost predicate Distinct(xs: seq<nat>) {
    forall i, j | 0 <= i < j < |xs| :: xs[i] != xs[j]
  }

  ghost predicate GateOk(s: State) {
    && (s.accepting <==> !s.closed)
    && (s.locked ==> NoReaders(s) && s.shut)
    && (s.closed ==> s.shut)
    && (forall w | w in s.callers && s.callers[w].Sending? :: !s.closed)
  }

  // The loop took exactly the writes whose callers were handed over, each once.
  ghost predicate TakenOk(s: State) {
    && Distinct(s.arrivals)
    && (forall w | w in s.arrivals :: w in s.callers && (s.callers[w].Sent? || s.callers[w].Waiting?))
    && (forall w | w in s.callers && (s.callers[w].Sent? || s.callers[w].Waiting?) :: w in s.arrivals)
  }

  // Flushes and the batch in hand are the arrivals, in order.
  ghost predicate ArrivalsOk(s: State) {
    s.arrivals == Flushed(s.flushes) + Batch(s.loop)
  }

  ghost predicate AnswersOk(s: State) {
    if s.loop.Answering? then
      && s.flushes != [] && s.flushes[|s.flushes| - 1] == Flush(s.loop.batch, s.loop.outcome)
      && s.loop.next <= |s.loop.batch|
      && s.answers == Owed(s.flushes[..|s.flushes| - 1]) + Results(s.flushes[|s.flushes| - 1])[..s.loop.next]
    else
      s.answers == Owed(s.flushes)
  }

  // All but the last write of a batch stay below the cap.
  ghost predicate Capped(k: Config, batch: seq<nat>) {
    batch != [] && (|batch| >= 2 ==> |MergedOps(k, batch[..|batch| - 1])| < k.maxDocs)
  }

  ghost predicate FlushOk(k: Config, s: State, f: Flush) {
    && Capped(k, f.batch)
    && (f.outcome.Landed? ==> P.Ack(k.ns, f.outcome.segment, MergedOps(k, f.batch)) in s.store.acked)
  }

  ghost predicate FlushesOk(k: Config, s: State) {
    && (forall i | 0 <= i < |s.flushes| :: FlushOk(k, s, s.flushes[i]))
    && (s.loop.Draining? || s.loop.Committing? || s.loop.Appending? ==> Capped(k, s.loop.batch))
    && (s.loop.Exited? ==> s.closed)
  }

  // The client is at work on these operations.
  predicate Carries(ph: P.Phase, ns: string, ops: seq<Document>) {
    match ph
    case Probing(n, docs, _, _) => n == ns && docs == ops
    case Saving(n, edit, _, _) => n == ns && edit.Advance? && edit.docs == ops
    case Acked(ack) => ack.ns == ns && ack.docs == ops
    case Failed => true
    case _ => false
  }

  ghost predicate StoreOk(k: Config, s: State) {
    && PI.Inv(s.store)
    && (s.loop.Appending? ==> Carries(P.PhaseOf(s.store, k.client), k.ns, MergedOps(k, s.loop.batch)))
  }

  ghost predicate Inv(k: Config, s: State) {
    GateOk(s) && TakenOk(s) && ArrivalsOk(s) && AnswersOk(s) && FlushesOk(k, s) && StoreOk(k, s)
  }

  lemma {:induction false} InitInv(k: Config, s: State)
    requires Init(k, s)
    ensures Inv(k, s)
  {
    hide Safety.Reachable, PI.Inv;
    Safety.ReachableInv(s.store);
  }

  lemma {:induction false} StepGate(k: Config, s: State, step: Step, t: State)
    requires Inv(k, s) && Next(k, s, step, t)
    ensures GateOk(t)
  {
    hide TakenOk, ArrivalsOk, AnswersOk, FlushesOk, StoreOk, MergedOps, P.Step, P.PhaseOf;
  }

  lemma {:induction false} StepTaken(k: Config, s: State, step: Step, t: State)
    requires TakenOk(s) && Next(k, s, step, t)
    ensures TakenOk(t)
  {
    hide TakenOk, Next;
    if step.Hand? { HandTaken(k, s, step.w, t); } else { OtherTaken(k, s, step, t); }
  }

  lemma {:induction false} HandTaken(k: Config, s: State, w: nat, t: State)
    requires TakenOk(s) && Next(k, s, Hand(w), t)
    ensures TakenOk(t)
  {
    hide MergedOps, CanReceive, Batch, Distinct;
    assert w !in s.arrivals;
    DistinctPush(s.arrivals, w);
  }

  lemma {:induction false} OtherTaken(k: Config, s: State, step: Step, t: State)
    requires TakenOk(s) && Next(k, s, step, t) && !step.Hand?
    ensures TakenOk(t)
  {
    hide MergedOps, CanReceive, Batch, NoReaders, Distinct, P.Step, P.PhaseOf, P.Enter, Loaded, OutcomeOf, Valid;
  }

  lemma {:induction false} DistinctPush(xs: seq<nat>, x: nat)
    requires Distinct(xs) && x !in xs
    ensures Distinct(xs + [x])
  {
  }

  lemma {:induction false} FlushPush(fs: seq<Flush>, f: Flush)
    ensures Flushed(fs + [f]) == Flushed(fs) + f.batch && Owed(fs + [f]) == Owed(fs) + Results(f)
    ensures (fs + [f])[..|fs + [f]| - 1] == fs && (fs + [f])[|fs + [f]| - 1] == f
  {
    assert (fs + [f])[..|fs|] == fs;
  }

  lemma {:induction false} StepArrivals(k: Config, s: State, step: Step, t: State)
    requires ArrivalsOk(s) && Next(k, s, step, t)
    ensures ArrivalsOk(t)
  {
    hide MergedOps, CanReceive, Flushed, Owed, NoReaders, P.Step, P.PhaseOf;
    if step.Hand? {
      assert t.arrivals == Flushed(t.flushes) + Batch(t.loop);
    } else if step.Commit? {
      FlushPush(s.flushes, Flush(s.loop.batch, step.outcome));
    }
  }

  lemma {:induction false} StepAnswers(k: Config, s: State, step: Step, t: State)
    requires AnswersOk(s) && Next(k, s, step, t)
    ensures AnswersOk(t)
  {
    hide MergedOps, Flushed, Owed, NoReaders, Results, Loaded, OutcomeOf, Valid, Batch, P.Step, P.PhaseOf, P.Enter;
    if step.Commit? {
      FlushPush(s.flushes, Flush(s.loop.batch, step.outcome));
      assert Results(Flush(s.loop.batch, step.outcome))[..0] == [];
    } else if step.SendResult? {
      SendOne(s.flushes, s.loop.next);
    }
  }

  // Sending one more result of the last flush; after the last one nothing is owed.
  lemma {:induction false} SendOne(fs: seq<Flush>, next: nat)
    requires fs != [] && next <= |fs[|fs| - 1].batch|
    ensures var f := fs[|fs| - 1];
            && |Results(f)| == |f.batch|
            && var sent := Owed(fs[..|fs| - 1]) + Results(f)[..next];
            if next < |f.batch| then sent + [Answer(f.batch[next], f.outcome)] == Owed(fs[..|fs| - 1]) + Results(f)[..next + 1]
            else sent == Owed(fs)
  {
    var r := Results(fs[|fs| - 1]);
    if next < |r| {
      assert r[..next + 1] == r[..next] + [r[next]];
    } else {
      assert r[..next] == r;
    }
  }

  // Every step keeps the store's invariant and what the client carries, and loses no acknowledgement.
  lemma {:induction false} StepStore(k: Config, s: State, step: Step, t: State)
    requires StoreOk(k, s) && Next(k, s, step, t)
    ensures StoreOk(k, t) && s.store.acked <= t.store.acked
  {
    hide PI.Inv, MergedOps, NoReaders, P.Step, Carries, Loaded, OutcomeOf, P.PhaseOf;
    match step
    case Load => LoadKeeps(k, s.store, MergedOps(k, s.loop.batch));
    case Work => WorkKeeps(k, s.store, MergedOps(k, s.loop.batch));
    case Break => BreakKeeps(k, s.store, MergedOps(k, s.loop.batch));
    case Others(a) => OthersKeep(k, s.store, a);
    case _ =>
  }

  lemma {:induction false} LoadKeeps(k: Config, st: P.State, ops: seq<Document>)
    requires PI.Inv(st)
    ensures var t := Loaded(k, st, ops); PI.Inv(t) && t.acked == st.acked && Carries(P.PhaseOf(t, k.client), k.ns, ops)
  {
    hide PI.Inv, PI.Extends;
    if k.ns in st.mans.objs { PR.ProbeStarts(st, k.client, k.ns, ops); } else { PS.LeaveKeeps(st, k.client, P.Failed); }
  }

  lemma {:induction false} StepExtends(st: P.State, a: P.Action)
    requires PI.Inv(st)
    ensures PI.Inv(P.Step(st, a)) && st.acked <= P.Step(st, a).acked
  {
    hide PI.Inv, P.Step;
    PR.StepKeeps(st, a);
  }

  lemma {:induction false} WorkKeeps(k: Config, st: P.State, ops: seq<Document>)
    requires PI.Inv(st) && Carries(P.PhaseOf(st, k.client), k.ns, ops) && OutcomeOf(P.PhaseOf(st, k.client)).None?
    ensures var t := P.Step(st, P.Go(k.client)); PI.Inv(t) && st.acked <= t.acked && Carries(P.PhaseOf(t, k.client), k.ns, ops)
  {
    hide PI.Inv;
    StepExtends(st, P.Go(k.client));
  }

  lemma {:induction false} BreakKeeps(k: Config, st: P.State, ops: seq<Document>)
    requires PI.Inv(st)
    ensures var t := P.Enter(st, k.client, P.Failed); PI.Inv(t) && st.acked <= t.acked && Carries(P.PhaseOf(t, k.client), k.ns, ops)
  {
    hide PI.Inv, PI.Extends;
    PS.LeaveKeeps(st, k.client, P.Failed);
  }

  lemma {:induction false} OthersKeep(k: Config, st: P.State, a: P.Action)
    requires PI.Inv(st) && Actor(a) != Some(k.client)
    ensures var t := P.Step(st, a); PI.Inv(t) && st.acked <= t.acked && P.PhaseOf(t, k.client) == P.PhaseOf(st, k.client)
  {
    hide PI.Inv;
    StepExtends(st, a);
    Untouched(k, st, a);
  }

  lemma {:induction false} Untouched(k: Config, st: P.State, a: P.Action)
    requires Actor(a) != Some(k.client)
    ensures P.PhaseOf(P.Step(st, a), k.client) == P.PhaseOf(st, k.client)
  {
    hide P.Mutate, P.DocsFit, P.MayBuild, P.Unfolded, P.BranchManifest, Fold;
  }

  lemma {:induction false} StepFlushes(k: Config, s: State, step: Step, t: State)
    requires Inv(k, s) && Next(k, s, step, t)
    ensures FlushesOk(k, t) && StoreOk(k, t)
  {
    hide GateOk, TakenOk, ArrivalsOk, AnswersOk, MergedOps, NoReaders, FlushOk, StoreOk, Capped, P.Step, P.PhaseOf, Loaded, OutcomeOf;
    StepStore(k, s, step, t);
    forall i | 0 <= i < |s.flushes| ensures FlushOk(k, t, s.flushes[i]) { FlushKept(k, s, t, s.flushes[i]); }
    if step.Commit? { NewFlush(k, s, step.outcome, t); }
    if step.Hand? { CappedHand(k, s, step.w); }
  }

  lemma {:induction false} FlushKept(k: Config, s: State, t: State, f: Flush)
    requires s.store.acked <= t.store.acked && FlushOk(k, s, f)
    ensures FlushOk(k, t, f)
  {
    hide MergedOps, Capped;
  }

  // A batch has landed when its client was acknowledged.
  lemma {:induction false} NewFlush(k: Config, s: State, outcome: Outcome, t: State)
    requires FlushesOk(k, s) && StoreOk(k, s) && Next(k, s, Commit(outcome), t)
    ensures FlushOk(k, t, Flush(s.loop.batch, outcome))
  {
    hide MergedOps, Capped, PI.Inv, FlushOk, PI.BuildOk, PI.StoreOk, P.Step;
    assert s.store == t.store;
    if outcome.Landed? {
      PS.KnownPhase(s.store, k.client);
      assert P.PhaseOf(s.store, k.client).Acked?;
    }
    assert FlushOk(k, t, Flush(s.loop.batch, outcome)) by {
      LandedOk(k, t, Flush(s.loop.batch, outcome));
    }
  }

  lemma {:induction false} LandedOk(k: Config, s: State, f: Flush)
    requires Capped(k, f.batch) && (f.outcome.Landed? ==> P.Ack(k.ns, f.outcome.segment, MergedOps(k, f.batch)) in s.store.acked)
    ensures FlushOk(k, s, f)
  {
  }

  lemma {:induction false} CappedHand(k: Config, s: State, w: nat)
    requires CanReceive(k, s)
    ensures Capped(k, Batch(s.loop) + [w])
  {
    var b := Batch(s.loop);
    assert (b + [w])[..|b|] == b;
  }

  lemma {:induction false} StepKeepsInv(k: Config, s: State, step: Step, t: State)
    requires Inv(k, s) && Next(k, s, step, t)
    ensures Inv(k, t)
  {
    hide GateOk, TakenOk, ArrivalsOk, AnswersOk, FlushesOk, StoreOk, Next;
    StepGate(k, s, step, t);
    StepTaken(k, s, step, t);
    StepArrivals(k, s, step, t);
    StepAnswers(k, s, step, t);
    StepFlushes(k, s, step, t);
  }

  lemma {:induction false} RunInv(k: Config, run: seq<State>, steps: seq<Step>, n: nat)
    requires IsRun(k, run, steps) && n < |run|
    ensures Inv(k, run[n])
    decreases n
  {
    if n == 0 {
      InitInv(k, run[0]);
    } else {
      RunInv(k, run, steps, n - 1);
      StepKeepsInv(k, run[n - 1], steps[n - 1], run[n]);
    }
  }

  // ---------------------------------------------------------------- the results

  // In arrivals as batches: write w is the p-th of flush i.
  ghost predicate InFlush(s: State, w: nat, i: nat, p: nat) {
    i < |s.flushes| && p < |s.flushes[i].batch| && s.flushes[i].batch[p] == w
  }

  lemma {:induction false} FlushedAt(fs: seq<Flush>, w: nat)
    requires w in Flushed(fs)
    ensures exists i, p :: 0 <= i < |fs| && 0 <= p < |fs[i].batch| && fs[i].batch[p] == w
    decreases |fs|
  {
    var n := |fs| - 1;
    if w in fs[n].batch {
      var p :| 0 <= p < |fs[n].batch| && fs[n].batch[p] == w;
    } else {
      FlushedAt(fs[..n], w);
      var i, p :| 0 <= i < n && 0 <= p < |fs[..n][i].batch| && fs[..n][i].batch[p] == w;
      assert fs[i] == fs[..n][i];
    }
  }

  lemma {:induction false} FlushedHas(fs: seq<Flush>, i: nat, p: nat)
    requires i < |fs| && p < |fs[i].batch|
    ensures fs[i].batch[p] in Flushed(fs) && fs[i].batch[p] in Flushed(fs[..i + 1])
    decreases |fs|
  {
    var n := |fs| - 1;
    if i < n {
      FlushedHas(fs[..n], i, p);
      assert fs[..n][..i + 1] == fs[..i + 1];
    } else {
      assert fs[..i + 1] == fs;
    }
  }

  // With distinct arrivals a write sits in one flush, at one position.
  lemma {:induction false} FlushedOnce(fs: seq<Flush>, i: nat, p: nat, j: nat, q: nat)
    requires Distinct(Flushed(fs)) && i < |fs| && j < |fs| && p < |fs[i].batch| && q < |fs[j].batch|
    requires fs[i].batch[p] == fs[j].batch[q]
    ensures i == j && p == q
    decreases |fs|
  {
    hide Distinct;
    var n := |fs| - 1;
    var a, b := Flushed(fs[..n]), fs[n].batch;
    assert Flushed(fs) == a + b;
    if i < n && j < n {
      DistinctPrefix(a, b);
      FlushedOnce(fs[..n], i, p, j, q);
    } else if i < n {
      FlushedHas(fs[..n], i, p);
      ApartParts(a, b, fs[i].batch[p], q);
    } else if j < n {
      FlushedHas(fs[..n], j, q);
      ApartParts(a, b, fs[j].batch[q], p);
    } else {
      DistinctSuffix(a, b, p, q);
    }
  }

  lemma {:induction false} DistinctSuffix(a: seq<nat>, b: seq<nat>, p: nat, q: nat)
    requires Distinct(a + b) && p < |b| && q < |b| && b[p] == b[q]
    ensures p == q
  {
    assert (a + b)[|a| + p] == b[p] && (a + b)[|a| + q] == b[q];
  }

  lemma {:induction false} DistinctPrefix(a: seq<nat>, b: seq<nat>)
    requires Distinct(a + b)
    ensures Distinct(a)
  {
    assert forall i | 0 <= i < |a| :: (a + b)[i] == a[i];
  }

  lemma {:induction false} ApartParts(a: seq<nat>, b: seq<nat>, x: nat, q: nat)
    requires Distinct(a + b) && x in a && q < |b|
    ensures b[q] != x
  {
    var i :| 0 <= i < |a| && a[i] == x;
    assert (a + b)[i] == x && (a + b)[|a| + q] == b[q];
  }

  // Every write the loop took is in exactly one flush or still in the batch being put together.
  lemma {:induction false} JoinsOneFlush(k: Config, run: seq<State>, steps: seq<Step>, n: nat, w: nat)
    requires IsRun(k, run, steps) && n < |run| && w in run[n].arrivals
    ensures w in Batch(run[n].loop) || exists i, p :: InFlush(run[n], w, i, p)
    ensures forall i, p, j, q :: InFlush(run[n], w, i, p) && InFlush(run[n], w, j, q) ==> i == j && p == q
    ensures forall i, p :: InFlush(run[n], w, i, p) ==> w !in Batch(run[n].loop)
  {
    RunInv(k, run, steps, n);
    var s := run[n];
    var a, b := Flushed(s.flushes), Batch(s.loop);
    DistinctPrefix(a, b);
    if w !in b {
      FlushedAt(s.flushes, w);
      var i, p :| 0 <= i < |s.flushes| && 0 <= p < |s.flushes[i].batch| && s.flushes[i].batch[p] == w;
      assert InFlush(s, w, i, p);
    }
    forall i, p, j, q | InFlush(s, w, i, p) && InFlush(s, w, j, q) ensures i == j && p == q {
      FlushedOnce(s.flushes, i, p, j, q);
    }
    forall i, p | InFlush(s, w, i, p) ensures w !in b {
      FlushedHas(s.flushes, i, p);
      if w in b {
        var q :| 0 <= q < |b| && b[q] == w;
        ApartParts(a, b, w, q);
      }
    }
  }

  lemma {:induction false} OwedAre(fs: seq<Flush>)
    ensures |Owed(fs)| == |Flushed(fs)| && forall m | 0 <= m < |Owed(fs)| :: Owed(fs)[m].write == Flushed(fs)[m]
    decreases |fs|
  {
    if fs != [] { OwedAre(fs[..|fs| - 1]); }
  }

  lemma {:induction false} OwedFrom(fs: seq<Flush>, m: nat)
    requires m < |Owed(fs)|
    ensures exists i, p :: 0 <= i < |fs| && 0 <= p < |fs[i].batch| && Owed(fs)[m] == Answer(fs[i].batch[p], fs[i].outcome)
    decreases |fs|
  {
    var n := |fs| - 1;
    if m < |Owed(fs[..n])| {
      OwedFrom(fs[..n], m);
      var i, p :| 0 <= i < n && 0 <= p < |fs[..n][i].batch| && Owed(fs[..n])[m] == Answer(fs[..n][i].batch[p], fs[..n][i].outcome);
      assert fs[i] == fs[..n][i];
    } else {
      var p := m - |Owed(fs[..n])|;
      assert Owed(fs)[m] == Answer(fs[n].batch[p], fs[n].outcome);
    }
  }

  lemma {:induction false} AnswersPrefix(s: State)
    requires AnswersOk(s)
    ensures s.answers <= Owed(s.flushes)
  {
    if s.loop.Answering? {
      var r := Results(s.flushes[|s.flushes| - 1]);
      assert r == r[..s.loop.next] + r[s.loop.next..];
    }
  }

  // No write is answered twice, and every answer is the outcome of its own flush.
  lemma {:induction false} OneResultEach(k: Config, run: seq<State>, steps: seq<Step>, n: nat)
    requires IsRun(k, run, steps) && n < |run|
    ensures forall a, b | 0 <= a < b < |run[n].answers| :: run[n].answers[a].write != run[n].answers[b].write
    ensures forall a, i: nat, p: nat | 0 <= a < |run[n].answers| && InFlush(run[n], run[n].answers[a].write, i, p) ::
              run[n].answers[a].outcome == run[n].flushes[i].outcome
  {
    RunInv(k, run, steps, n);
    var s := run[n];
    AnswersPrefix(s);
    OwedAre(s.flushes);
    DistinctPrefix(Flushed(s.flushes), Batch(s.loop));
    forall a, b | 0 <= a < b < |s.answers| ensures s.answers[a].write != s.answers[b].write {
      assert s.answers[a] == Owed(s.flushes)[a] && s.answers[b] == Owed(s.flushes)[b];
    }
    forall a, i: nat, p: nat | 0 <= a < |s.answers| && InFlush(s, s.answers[a].write, i, p)
      ensures s.answers[a].outcome == s.flushes[i].outcome
    {
      assert s.answers[a] == Owed(s.flushes)[a];
      OwedFrom(s.flushes, a);
      var j, q :| 0 <= j < |s.flushes| && 0 <= q < |s.flushes[j].batch| && Owed(s.flushes)[a] == Answer(s.flushes[j].batch[q], s.flushes[j].outcome);
      FlushedOnce(s.flushes, i, p, j, q);
    }
  }

  // Once the loop has exited, which is what Close waits for, every write it took has been answered
  // and no write is ever taken again.
  lemma {:induction false} ClosedMeansAnswered(k: Config, run: seq<State>, steps: seq<Step>, n: nat, m: nat, w: nat)
    requires IsRun(k, run, steps) && n <= m < |run| && run[n].loop.Exited? && w in run[m].arrivals
    ensures run[m].loop.Exited? && run[m].arrivals == run[n].arrivals
    ensures exists a :: 0 <= a < |run[m].answers| && run[m].answers[a].write == w
  {
    ExitedStays(k, run, steps, n, m);
    RunInv(k, run, steps, m);
    var s := run[m];
    OwedAre(s.flushes);
    assert w in Flushed(s.flushes);
    var a :| 0 <= a < |Flushed(s.flushes)| && Flushed(s.flushes)[a] == w;
    assert s.answers[a].write == w;
  }

  lemma {:induction false} ExitedStays(k: Config, run: seq<State>, steps: seq<Step>, n: nat, m: nat)
    requires IsRun(k, run, steps) && n <= m < |run| && run[n].loop.Exited?
    ensures run[m].loop.Exited? && run[m].arrivals == run[n].arrivals
    decreases m
  {
    if n < m {
      ExitedStays(k, run, steps, n, m - 1);
      ExitedStep(k, run[m - 1], steps[m - 1], run[m]);
    }
  }

  lemma {:induction false} ExitedStep(k: Config, s: State, step: Step, t: State)
    requires s.loop.Exited? && Next(k, s, step, t)
    ensures t.loop.Exited? && t.arrivals == s.arrivals
  {
    hide P.Step, P.PhaseOf, MergedOps, NoReaders, Loaded;
  }

  // A caller never sends on a closed channel: while one is sending, Close cannot have shut the inbox.
  lemma {:induction false} NeverSendsOnClosed(k: Config, run: seq<State>, steps: seq<Step>, n: nat, w: nat)
    requires IsRun(k, run, steps) && n < |run| && w in run[n].callers && run[n].callers[w].Sending?
    ensures !run[n].closed && !run[n].locked
  {
    RunInv(k, run, steps, n);
  }

  // Where write p of a batch starts in the merged operations.
  function StartOf(k: Config, batch: seq<nat>, p: nat): nat
    requires p <= |batch|
  {
    |MergedOps(k, batch[..p])|
  }

  lemma {:induction false} MergedAt(k: Config, batch: seq<nat>, p: nat)
    requires p < |batch|
    ensures var i := StartOf(k, batch, p);
            i + |k.docs(batch[p])| == StartOf(k, batch, p + 1) <= |MergedOps(k, batch)|
            && MergedOps(k, batch)[i..i + |k.docs(batch[p])|] == k.docs(batch[p])
    decreases |batch|
  {
    var n := |batch| - 1;
    assert batch[..p + 1][..p] == batch[..p];
    if p == n {
      assert batch[..p + 1] == batch;
    } else {
      assert batch[..n][..p] == batch[..p] && batch[..n][..p + 1] == batch[..p + 1];
      MergedAt(k, batch[..n], p);
    }
  }

  // Success means durable: from then on, whatever others do, the write's documents sit together, in
  // arrival order within the batch, inside one segment below WALSeq that holds the batch and nothing
  // else, and the namespace's log runs through that segment.
  lemma {:induction false} SuccessIsDurable(k: Config, run: seq<State>, steps: seq<Step>, n: nat, w: nat, i: nat, p: nat)
    requires IsRun(k, run, steps) && n < |run| && InFlush(run[n], w, i, p) && run[n].flushes[i].outcome.Landed?
    ensures var st := run[n].store;
            var f := run[n].flushes[i];
            var seg, ops := f.outcome.segment, MergedOps(k, f.batch);
            && k.ns in st.mans.objs && seg < st.mans.objs[k.ns].body.walSeq
            && (k.ns, seg) in st.segs.objs && st.segs.objs[(k.ns, seg)].body == ops
            && P.Log(st, k.ns, 0, st.mans.objs[k.ns].body.walSeq)
               == P.Log(st, k.ns, 0, seg) + ops + P.Log(st, k.ns, seg + 1, st.mans.objs[k.ns].body.walSeq)
            && StartOf(k, f.batch, p) + |k.docs(w)| == StartOf(k, f.batch, p + 1) <= |ops|
            && ops[StartOf(k, f.batch, p)..StartOf(k, f.batch, p + 1)] == k.docs(w)
  {
    hide IsRun, Inv, P.Log, MergedOps, PI.Inv, FlushOk;
    RunInv(k, run, steps, n);
    var f := run[n].flushes[i];
    FlushAcked(k, run[n], i);
    AckedSegment(run[n].store, P.Ack(k.ns, f.outcome.segment, MergedOps(k, f.batch)));
    MergedAt(k, f.batch, p);
  }

  lemma {:induction false} AckedSegment(st: P.State, a: P.Ack)
    requires PI.Inv(st) && a in st.acked
    ensures a.ns in st.mans.objs && a.seqNo < st.mans.objs[a.ns].body.walSeq
    ensures (a.ns, a.seqNo) in st.segs.objs && st.segs.objs[(a.ns, a.seqNo)].body == a.docs
    ensures var n := st.mans.objs[a.ns].body.walSeq;
            P.Log(st, a.ns, 0, n) == P.Log(st, a.ns, 0, a.seqNo) + a.docs + P.Log(st, a.ns, a.seqNo + 1, n)
  {
    hide PI.Inv, P.Log;
    Safety.KnownAck(st, a);
    Safety.AckInLog(st, a, st.mans.objs[a.ns].body.walSeq);
  }

  lemma {:induction false} FlushAcked(k: Config, s: State, i: nat)
    requires Inv(k, s) && i < |s.flushes| && s.flushes[i].outcome.Landed?
    ensures PI.Inv(s.store) && P.Ack(k.ns, s.flushes[i].outcome.segment, MergedOps(k, s.flushes[i].batch)) in s.store.acked
  {
    hide PI.Inv, MergedOps, Capped;
    assert FlushOk(k, s, s.flushes[i]);
  }

  // Dropping its last write, every batch is below the cap.
  lemma {:induction false} BatchesAreCapped(k: Config, run: seq<State>, steps: seq<Step>, n: nat, i: nat)
    requires IsRun(k, run, steps) && n < |run| && i < |run[n].flushes|
    ensures run[n].flushes[i].batch != []
    ensures |run[n].flushes[i].batch| >= 2 ==>
              |MergedOps(k, run[n].flushes[i].batch[..|run[n].flushes[i].batch| - 1])| < k.maxDocs
  {
    RunInv(k, run, steps, n);
    assert FlushOk(k, run[n], run[n].flushes[i]);
  }

  // ---------------------------------------------------------------- the drain loop

  // What flush coalesces when `queued` is what is waiting: the first write, then as many as come
  // before the cap is reached, stopping early only when nothing is left.
  method Drain(k: Config, first: nat, queued: seq<nat>) returns (batch: seq<nat>, ops: seq<Document>)
    ensures exists n :: 0 <= n <= |queued| && batch == [first] + queued[..n] && (n == |queued| || |ops| >= k.maxDocs)
    ensures ops == MergedOps(k, batch) && Capped(k, batch)
  {
    batch, ops := [first], k.docs(first);
    assert batch[..0] == [] && MergedOps(k, batch) == ops;
    var n := 0;
    while |ops| < k.maxDocs && n < |queued|
      invariant n <= |queued| && batch == [first] + queued[..n]
      invariant ops == MergedOps(k, batch) && Capped(k, batch)
    {
      var w := queued[n];
      assert (batch + [w])[..|batch|] == batch;
      assert [first] + queued[..n + 1] == batch + [w];
      batch := batch + [w];
      ops := ops + k.docs(w);
      n := n + 1;
    }
  }

  // ---------------------------------------------------------------- nothing is stuck

  // The steps that callers, the loop and Close owe once they have begun; they need nobody's leave but
  // each other's.
  predicate Owing(step: Step) {
    !step.Enter? && !step.Cancel? && !step.Break? && !step.Lock? && !step.Others?
  }

  ghost predicate Enabled(k: Config, s: State, step: Step) {
    exists t :: Next(k, s, step, t)
  }

  ghost predicate Stuck(k: Config, s: State) {
    forall step | Owing(step) :: !Enabled(k, s, step)
  }

  // A loop with work in hand can always go on.
  lemma {:induction false} LoopGoesOn(k: Config, s: State)
    requires Stuck(k, s)
    ensures s.loop.Receiving? || s.loop.Exited?
    ensures s.loop.Receiving? ==> !s.closed
  {
    hide MergedOps, P.Step, P.PhaseOf, Stuck, Enabled;
    match s.loop
    case Draining(b) => CanStep(k, s, StopDraining, s.(loop := Committing(b)));
    case Committing(b) => CanStep(k, s, Load, s.(loop := Appending(b), store := Loaded(k, s.store, MergedOps(k, b))));
    case Appending(b) =>
      var outcome := OutcomeOf(P.PhaseOf(s.store, k.client));
      if outcome.None? {
        CanStep(k, s, Work, s.(store := P.Step(s.store, P.Go(k.client))));
      } else {
        CanStep(k, s, Commit(outcome.value), s.(loop := Answering(b, outcome.value, 0), flushes := s.flushes + [Flush(b, outcome.value)]));
      }
    case Answering(b, outcome, next) =>
      CanStep(k, s, SendResult,
              if next < |b| then s.(loop := s.loop.(next := next + 1), answers := s.answers + [Answer(b[next], outcome)]) else s.(loop := Receiving));
    case Receiving => if s.closed { CanStep(k, s, Exit, s.(loop := Exited)); }
    case Exited =>
  }

  lemma {:induction false} CanStep(k: Config, s: State, step: Step, t: State)
    requires Next(k, s, step, t) && Owing(step)
    ensures !Stuck(k, s)
  {
    hide Next;
    assert Enabled(k, s, step);
  }

  // So does a caller that holds the lock, and Close once it has it.
  lemma {:induction false} CallerGoesOn(k: Config, s: State, w: nat)
    requires Stuck(k, s) && w in s.callers && (s.callers[w].Sending? ==> s.loop.Receiving?)
    ensures !Reading(s.callers[w])
  {
    hide MergedOps, P.Step, P.PhaseOf, Stuck, Enabled;
    match s.callers[w]
    case Entered => CanStep(k, s, Check(w), s.(callers := s.callers[w := if s.accepting then Sending else Rejected]));
    case Sending =>
      CanStep(k, s, Hand(w), s.(callers := s.callers[w := Sent], loop := Draining(Batch(s.loop) + [w]), arrivals := s.arrivals + [w]));
    case Sent => CanStep(k, s, Leave(w), s.(callers := s.callers[w := Waiting]));
    case _ =>
  }

  lemma {:induction false} CloseGoesOn(k: Config, s: State)
    requires Stuck(k, s)
    ensures !s.locked
  {
    hide MergedOps, P.Step, P.PhaseOf, Stuck, Enabled;
    if s.locked {
      if s.closed { CanStep(k, s, Unlock, s.(locked := false)); } else { CanStep(k, s, Shut, s.(accepting := false, closed := true)); }
    }
  }

  // There is no deadlock. When no caller, loop or Close has a step left to take, every write the loop
  // took has been answered, every caller is through, the lock is free, and the loop is waiting for
  // more or, if the inbox is closed, has exited.
  lemma {:induction false} NeverStuck(k: Config, run: seq<State>, steps: seq<Step>, n: nat)
    requires IsRun(k, run, steps) && n < |run| && Stuck(k, run[n])
    ensures var s := run[n];
            && !s.locked && (if s.closed then s.loop.Exited? else s.loop.Receiving?)
            && (forall w | w in s.callers :: s.callers[w].Waiting? || s.callers[w].Rejected? || s.callers[w].Cancelled?)
            && (forall w | w in s.callers && s.callers[w].Waiting? :: exists a :: 0 <= a < |s.answers| && s.answers[a].write == w)
  {
    RunInv(k, run, steps, n);
    var s := run[n];
    hide IsRun, Stuck, StoreOk, NoReaders, Flushed, Owed;
    LoopGoesOn(k, s);
    CloseGoesOn(k, s);
    forall w | w in s.callers ensures !Reading(s.callers[w]) {
      CallerGoesOn(k, s, w);
    }
    OwedAre(s.flushes);
    forall w | w in s.callers && s.callers[w].Waiting? ensures exists a :: 0 <= a < |s.answers| && s.answers[a].write == w {
      assert w in s.arrivals;
      var a :| 0 <= a < |Flushed(s.flushes)| && Flushed(s.flushes)[a] == w;
      assert s.answers[a].write == w;
    }
  }
}

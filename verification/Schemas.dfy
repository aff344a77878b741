// The schema of a namespace over whole runs: every vector anywhere in its log, inherited or its own,
// has the dimension its manifest names, also under group commit.

module Schemas {
  import opened Types
  import opened Storage
  import opened Protocol
  import opened ProtocolInvariant
  import opened ProtocolSteps
  import opened ProtocolReads
  import opened ProtocolSafety
  import C = Committer

  ghost predicate Fits(docs: seq<Document>, dimension: nat) {
    forall i | 0 <= i < |docs| && docs[i].vector.Some? :: |docs[i].vector.value| == dimension
  }

  // What is about to be written fits the namespace it is for.
  ghost predicate PhaseFits(st: State, ph: Phase) {
    ph.Probing? ==> ph.ns in st.mans.objs && Fits(ph.docs, st.mans.objs[ph.ns].body.dimension)
  }

  // A branch has its parent's schema.
  ghost predicate Inherits(st: State, ns: string)
    requires ns in st.mans.objs
  {
    var m := st.mans.objs[ns].body;
    m.IsBranch() ==> m.parent in st.mans.objs && m.dimension == st.mans.objs[m.parent].body.dimension
                     && m.textField == st.mans.objs[m.parent].body.textField
  }

  ghost predicate SegmentFits(st: State, k: (string, nat)) {
    k in st.segs.objs ==> k.0 in st.mans.objs && Fits(st.segs.objs[k].body, st.mans.objs[k.0].body.dimension)
  }

  ghost predicate SchemaOk(st: State) {
    && (forall k | k in st.segs.objs :: SegmentFits(st, k))
    && (forall c | c in st.clients :: PhaseFits(st, st.clients[c]))
    && (forall ns | ns in st.mans.objs :: Inherits(st, ns))
  }

  // ---------------------------------------------------------------- every step keeps it

  // What one step adds, at client c: at most one segment and one namespace.
  ghost predicate Adds(st: State, st': State, c: nat) {
    && (forall k | k in st'.segs.objs :: (k in st.segs.objs && st'.segs.objs[k].body == st.segs.objs[k].body) || SegmentFits(st', k))
    && (forall ns | ns in st'.mans.objs :: ns in st.mans.objs || Inherits(st', ns))
    && (forall d | d in st'.clients :: (d in st.clients && st'.clients[d] == st.clients[d]) || (d == c && PhaseFits(st', st'.clients[c])))
  }

  lemma {:induction false} AddsKeep(st: State, st': State, c: nat)
    requires SchemaOk(st) && Extends(st, st') && Adds(st, st', c)
    ensures SchemaOk(st')
  {
    assert forall ns | ns in st.mans.objs :: ns in st'.mans.objs && SameShape(st.mans.objs[ns].body, st'.mans.objs[ns].body);
    hide Extends, Fits;
    forall ns | ns in st'.mans.objs ensures Inherits(st', ns) {
      if ns in st.mans.objs { assert Inherits(st, ns); }
    }
    forall k | k in st'.segs.objs ensures SegmentFits(st', k) {
      if k in st.segs.objs { assert SegmentFits(st, k); }
    }
    forall d | d in st'.clients ensures PhaseFits(st', st'.clients[d]) {
      if d in st.clients { assert PhaseFits(st, st.clients[d]); }
    }
  }

  lemma {:induction false} ProbeAdds(st: State, c: nat, ph: Phase)
    requires ph.Probing? && PhaseFits(st, ph)
    ensures Adds(st, StepProbe(st, c, ph), c)
  {
    hide Fits, Inherits;
  }

  lemma {:induction false} ForkAdds(st: State, c: nat, ph: Phase)
    requires ph.Forking? && PhaseOk(st, ph)
    ensures Adds(st, StepFork(st, c, ph), c)
  {
    hide Fits, SegmentFits, Covered;
  }

  lemma {:induction false} SaveAdds(st: State, c: nat, ph: Phase)
    requires ph.Saving?
    ensures Adds(st, StepSave(st, c, ph), c)
  {
    hide Fits, SegmentFits, Inherits, Mutate;
  }

  lemma {:induction false} WalkAdds(st: State, c: nat, ph: Phase)
    ensures ph.Walking? ==> Adds(st, StepWalk(st, c, ph), c)
    ensures ph.Targeting? ==> Adds(st, StepTarget(st, c, ph), c)
  {
    hide Fits, SegmentFits, Inherits;
  }

  lemma {:induction false} FoldAdds(st: State, c: nat, ph: Phase)
    ensures ph.Folding? ==> Adds(st, StepFold(st, c, ph), c)
    ensures ph.Gathering? ==> Adds(st, Enter(st, c, Unfolded(ph.job, ph.sources, ph.basis, ph.gathered)), c)
    ensures Adds(st, st, c)
  {
    hide Fits, SegmentFits, Inherits, Fold;
  }

  lemma {:induction false} GoAdds(st: State, c: nat)
    requires Inv(st) && SchemaOk(st)
    ensures Adds(st, StepGo(st, c), c)
  {
    var ph := PhaseOf(st, c);
    if c in st.clients { KnownPhase(st, c); }
    assert PhaseFits(st, ph);
    hide Inv, SchemaOk, PhaseOk, BuildOk, StepProbe, StepFork, StepSave, StepWalk, StepTarget, StepFold, Fits, SegmentFits, Inherits;
    match ph
    case Probing(_, _, _, _) => ProbeAdds(st, c, ph);
    case Saving(_, _, _, _) => SaveAdds(st, c, ph);
    case Forking(_, _, _) => ForkAdds(st, c, ph);
    case Walking(_, _, _, _, _) => WalkAdds(st, c, ph);
    case Targeting(_, _, _, _, _, _) => WalkAdds(st, c, ph);
    case Gathering(_, _, _, _, _) => FoldAdds(st, c, ph);
    case Folding(_, _, _, _, _, _, _) => FoldAdds(st, c, ph);
    case _ =>
  }

  lemma {:induction false} BeginAdds(st: State, c: nat, a: Action)
    requires a.BeginUpsert? || a.BeginBuild? || a.BeginBranch? || a.BeginQuery?
    ensures Adds(st, StepBegin(st, c, a), c)
  {
    hide SegmentFits, Inherits, MayBuild;
  }

  lemma {:induction false} OtherAdds(st: State, c: nat, part: nat, ns: string, dimension: nat, textField: string)
    ensures Adds(st, StepReadPart(st, c, part), c) && Adds(st, StepWritePart(st, c, part), c) && Adds(st, Enter(st, c, Idle), c)
    ensures Adds(st, StepCreate(st, ns, dimension, textField), c)
  {
    hide Fits, SegmentFits;
  }

  lemma {:induction false} StepFits(st: State, a: Action)
    requires Inv(st) && SchemaOk(st)
    ensures SchemaOk(Step(st, a))
  {
    StepKeeps(st, a);
    hide Inv, SchemaOk, Extends, Adds, StepGo, StepBegin, StepCreate, StepReadPart, StepWritePart;
    match a
    case Create(ns, dimension, textField) =>
      OtherAdds(st, 0, 0, ns, dimension, textField);
      AddsKeep(st, Step(st, a), 0);
    case ReadPart(c, part) =>
      OtherAdds(st, c, part, "", 0, "");
      AddsKeep(st, Step(st, a), c);
    case WritePart(c, part) =>
      OtherAdds(st, c, part, "", 0, "");
      AddsKeep(st, Step(st, a), c);
    case Stop(c) =>
      OtherAdds(st, c, 0, "", 0, "");
      AddsKeep(st, Step(st, a), c);
    case Go(c) =>
      GoAdds(st, c);
      AddsKeep(st, Step(st, a), c);
    case BeginUpsert(c, _, _) =>
      BeginAdds(st, c, a);
      AddsKeep(st, Step(st, a), c);
    case BeginBuild(c, _) =>
      BeginAdds(st, c, a);
      AddsKeep(st, Step(st, a), c);
    case BeginBranch(c, _, _) =>
      BeginAdds(st, c, a);
      AddsKeep(st, Step(st, a), c);
    case BeginQuery(c, _) =>
      BeginAdds(st, c, a);
      AddsKeep(st, Step(st, a), c);
  }

  lemma {:induction false} RunFits(st: State, actions: seq<Action>)
    requires Inv(st) && SchemaOk(st)
    ensures SchemaOk(Run(st, actions))
    decreases |actions|
  {
    hide Inv, SchemaOk, Step;
    if actions != [] {
      StepFits(st, actions[0]);
      StepKeeps(st, actions[0]);
      RunFits(Step(st, actions[0]), actions[1..]);
    }
  }

  lemma {:induction false} ReachableFits(st: State)
    requires Reachable(st)
    ensures SchemaOk(st)
  {
    var actions :| st == Run(Init, actions);
    InitInv();
    hide Inv;
    RunFits(Init, actions);
  }

  // ---------------------------------------------------------------- the logical log

  lemma {:induction false} OpsFit(st: State, ns: string, s: nat)
    requires StoreOk(st) && SchemaOk(st) && ns in st.mans.objs
    ensures Fits(OpsAt(st, ns, s), st.mans.objs[ns].body.dimension)
    decreases if ns in st.rank then st.rank[ns] else 0
  {
    var m := st.mans.objs[ns].body;
    assert NamespaceOk(st, ns) && Inherits(st, ns);
    if s < m.Fork() {
      OpsFit(st, m.parent, s);
    } else {
      assert SegmentFits(st, (ns, s));
    }
  }

  lemma {:induction false} WholeLogFits(st: State, ns: string, n: nat)
    requires StoreOk(st) && SchemaOk(st) && ns in st.mans.objs
    ensures Fits(Log(st, ns, 0, n), st.mans.objs[ns].body.dimension)
    decreases n
  {
    if n > 0 {
      WholeLogFits(st, ns, n - 1);
      OpsFit(st, ns, n - 1);
    }
  }

  ghost predicate AllFit(live: Live, dimension: nat) {
    forall id | id in live && live[id].vector.Some? :: |live[id].vector.value| == dimension
  }

  lemma {:induction false} FoldFits(v: View, ops: seq<Document>, dimension: nat)
    requires Fits(ops, dimension) && AllFit(v.live, dimension)
    ensures AllFit(Fold(v, ops).live, dimension)
    decreases |ops|
  {
    if ops != [] {
      assert ops[0] in ops && forall i | 0 <= i < |ops[1..]| :: ops[1..][i] == ops[i + 1];
      FoldFits(ApplyOp(v, ops[0]), ops[1..], dimension);
    }
  }

  // Whatever has run, every vector in the log of a namespace, and so every vector alive in it, has the
  // dimension of its manifest: a query of that dimension compares nothing else.
  lemma {:induction false} LiveVectorsFit(st: State, ns: string, n: nat)
    requires Reachable(st) && ns in st.mans.objs
    ensures var ops, dim := Log(st, ns, 0, n), st.mans.objs[ns].body.dimension;
            forall i | 0 <= i < |ops| && ops[i].vector.Some? :: |ops[i].vector.value| == dim
    ensures var live, dim := LiveAt(st, ns, n), st.mans.objs[ns].body.dimension;
            forall id | id in live && live[id].vector.Some? :: |live[id].vector.value| == dim
  {
    ReachableInv(st);
    ReachableFits(st);
    assert StoreOk(st);
    hide Reachable, Inv, SchemaOk, StoreOk, Log, Fold;
    WholeLogFits(st, ns, n);
    FoldFits(EmptyView, Log(st, ns, 0, n), st.mans.objs[ns].body.dimension);
  }

  // ---------------------------------------------------------------- under group commit

  // Every write that got past validation fits.
  ghost predicate CallersFit(k: C.Config, s: C.State) {
    forall w | w in s.callers :: k.ns in s.store.mans.objs && Fits(k.docs(w), s.store.mans.objs[k.ns].body.dimension)
  }

  lemma {:induction false} MergedFit(k: C.Config, batch: seq<nat>, dimension: nat)
    requires forall w | w in batch :: Fits(k.docs(w), dimension)
    ensures Fits(C.MergedOps(k, batch), dimension)
    decreases |batch|
  {
    if batch != [] {
      assert batch[|batch| - 1] in batch;
      MergedFit(k, batch[..|batch| - 1], dimension);
    }
  }

  // The committer's client sets out with a batch of such writes.
  lemma {:induction false} LoadFits(k: C.Config, s: C.State)
    requires C.TakenOk(s) && C.ArrivalsOk(s) && CallersFit(k, s) && SchemaOk(s.store) && s.loop.Committing?
    ensures SchemaOk(C.Loaded(k, s.store, C.MergedOps(k, s.loop.batch)))
  {
    hide C.MergedOps, Fits;
    var st, st' := s.store, C.Loaded(k, s.store, C.MergedOps(k, s.loop.batch));
    if k.ns in st.mans.objs {
      forall w | w in s.loop.batch ensures Fits(k.docs(w), st.mans.objs[k.ns].body.dimension) {
        assert w in s.arrivals;
      }
      MergedFit(k, s.loop.batch, st.mans.objs[k.ns].body.dimension);
    }
    Entered(st, k.client, PhaseOf(st', k.client));
  }

  lemma {:induction false} Entered(st: State, c: nat, ph: Phase)
    requires SchemaOk(st) && PhaseFits(st, ph)
    ensures SchemaOk(Enter(st, c, ph))
  {
    var st' := Enter(st, c, ph);
    hide Fits;
    forall ns | ns in st'.mans.objs ensures Inherits(st', ns) { assert Inherits(st, ns); }
    forall k | k in st'.segs.objs ensures SegmentFits(st', k) { assert SegmentFits(st, k); }
    forall d | d in st'.clients ensures PhaseFits(st', st'.clients[d]) { if d != c { assert PhaseFits(st, st.clients[d]); } }
  }

  // No namespace has gone or changed its schema.
  ghost predicate SameSchemas(st: State, st': State) {
    forall ns | ns in st.mans.objs :: ns in st'.mans.objs && st'.mans.objs[ns].body.dimension == st.mans.objs[ns].body.dimension
  }

  lemma {:induction false} Extended(st: State, st': State)
    requires Extends(st, st')
    ensures SameSchemas(st, st')
  {
  }

  lemma {:induction false} SameAsItWas(st: State)
    ensures forall st': State | st'.mans == st.mans :: SameSchemas(st, st')
  {
  }

  lemma {:induction false} CommitterStepFits(k: C.Config, s: C.State, step: C.Step, t: C.State)
    requires C.Inv(k, s) && SchemaOk(s.store) && CallersFit(k, s) && C.Next(k, s, step, t)
    ensures SchemaOk(t.store) && SameSchemas(s.store, t.store)
  {
    SameAsItWas(s.store);
    hide Inv, SchemaOk, Extends, C.MergedOps, C.NoReaders, C.CanReceive, C.Valid, Step, CallersFit, PhaseOf, C.OutcomeOf;
    match step
    case Load => LoadFits(k, s);
    case Work =>
      StepFits(s.store, Go(k.client));
      StepKeeps(s.store, Go(k.client));
      Extended(s.store, t.store);
    case Break => Entered(s.store, k.client, Failed);
    case Others(a) =>
      StepFits(s.store, a);
      StepKeeps(s.store, a);
      Extended(s.store, t.store);
    case _ =>
  }

  lemma {:induction false} CallersStay(k: C.Config, s: C.State, step: C.Step, t: C.State)
    requires CallersFit(k, s) && C.Next(k, s, step, t) && SameSchemas(s.store, t.store)
    ensures CallersFit(k, t)
  {
    hide SameSchemas, Fits, CallersFit, C.MergedOps, C.NoReaders, C.CanReceive, C.Loaded, C.OutcomeOf, Step, PhaseOf, Enter;
    if step.Enter? {
      NewcomerFits(k, s, step.w, t);
    } else {
      assert t.callers.Keys == s.callers.Keys;
      StillFit(k, s, t);
    }
  }

  lemma {:induction false} StillFit(k: C.Config, s: C.State, t: C.State)
    requires CallersFit(k, s) && SameSchemas(s.store, t.store) && t.callers.Keys == s.callers.Keys
    ensures CallersFit(k, t)
  {
    hide Fits;
  }

  lemma {:induction false} NewcomerFits(k: C.Config, s: C.State, w: nat, t: C.State)
    requires CallersFit(k, s) && C.Next(k, s, C.Enter(w), t)
    ensures CallersFit(k, t)
  {
  }

  lemma {:induction false} RunParts(k: C.Config, run: seq<C.State>, steps: seq<C.Step>, n: nat)
    requires C.IsRun(k, run, steps) && n < |run|
    ensures |run| == |steps| + 1 && if n == 0 then C.Init(k, run[0]) else C.Next(k, run[n - 1], steps[n - 1], run[n])
  {
    hide C.Init, C.Next;
  }

  lemma {:induction false} StartFits(k: C.Config, s: C.State)
    requires C.Init(k, s)
    ensures SchemaOk(s.store) && CallersFit(k, s)
  {
    hide Reachable, SchemaOk;
    ReachableFits(s.store);
  }

  lemma {:induction false} CommitterFits(k: C.Config, run: seq<C.State>, steps: seq<C.Step>, n: nat)
    requires C.IsRun(k, run, steps) && n < |run|
    ensures SchemaOk(run[n].store) && CallersFit(k, run[n])
    decreases n
  {
    hide *;
    RunParts(k, run, steps, n);
    if n == 0 {
      StartFits(k, run[0]);
    } else {
      CommitterFits(k, run, steps, n - 1);
      C.RunInv(k, run, steps, n - 1);
      CommitterStepFits(k, run[n - 1], steps[n - 1], run[n]);
      CallersStay(k, run[n - 1], steps[n - 1], run[n]);
    }
  }

  // The same holds of a store that a group committer writes to, among any others.
  lemma {:induction false} CommittedVectorsFit(k: C.Config, run: seq<C.State>, steps: seq<C.Step>, i: nat, ns: string, n: nat)
    requires C.IsRun(k, run, steps) && i < |run| && ns in run[i].store.mans.objs
    ensures var st := run[i].store; var live, dim := LiveAt(st, ns, n), st.mans.objs[ns].body.dimension;
            forall id | id in live && live[id].vector.Some? :: |live[id].vector.value| == dim
  {
    C.RunInv(k, run, steps, i);
    CommitterFits(k, run, steps, i);
    InvParts(run[i].store);
    hide C.IsRun, C.Inv, SchemaOk, StoreOk, CallersFit, Log, Fold;
    WholeLogFits(run[i].store, ns, n);
    FoldFits(EmptyView, Log(run[i].store, ns, 0, n), run[i].store.mans.objs[ns].body.dimension);
  }
}

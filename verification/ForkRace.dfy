// Indexed reads of a branch whose fork captured no epoch need not be point-in-time: a concrete run.
//
// Namespace "p" holds document a; "q" branches from it while no epoch exists; then b is written to
// "p" and "p" is indexed. A query of "q" climbs to the current epoch of "p" and returns b.

module ForkRace {
  import opened Types
  import opened Storage
  import opened Protocol
  import opened ProtocolSafety

  const A := Document("a", None, map[], false)
  const B := Document("b", None, map[], false)

  const P := "p"
  const Q := "q"

  lemma {:induction false} RunAppend(st: State, a: seq<Action>, b: seq<Action>)
    ensures Run(st, a + b) == Run(Run(st, a), b)
    decreases |a|
  {
    hide Step;
    if a == [] {
      assert a + b == b;
    } else {
      assert (a + b)[1..] == a[1..] + b;
      RunAppend(Step(st, a[0]), a[1..], b);
    }
  }

  lemma {:induction false} Next(st: State, x: Action) returns (st': State)
    requires Reachable(st)
    ensures st' == Step(st, x) && Reachable(st')
  {
    hide Step;
    st' := Step(st, x);
    var actions :| st == Run(Init, actions);
    RunAppend(Init, actions, [x]);
    assert Run(st, [x]) == Run(st', []);
    assert st' == Run(Init, actions + [x]);
  }

  function ManP(walSeq: nat, docs: nat, version: nat): Manifest {
    Manifest(version, 0, "", walSeq, 0, 0, docs, "", 0, 0)
  }

  const ManQ := Manifest(1, 0, "", 1, 0, 0, 1, P, 1, 0)
  const IndexedP := Manifest(4, 0, "", 2, 2, 1, 2, "", 0, 0)
  const Both: Live := map["a" := A, "b" := B]

  lemma {:induction false} Shapes()
    ensures LiveDelta([A]) == 1 && LiveDelta([B]) == 1
    ensures Fold(EmptyView, [A]) == View(map["a" := A], {})
    ensures Fold(View(map["a" := A], {}), [B]) == View(Both, {})
    ensures P != Q && P != "" && Q != "" && |Both| == 2
  {
    assert LiveDelta([]) == 0;
    assert Fold(ApplyOp(EmptyView, A), []) == View(map["a" := A], {});
    assert Fold(ApplyOp(View(map["a" := A], {}), B), []) == View(Both, {});
    assert P[0] != Q[0];
    assert "a"[0] != "b"[0];
  }

  lemma {:induction false} Started()
    ensures Reachable(Init)
  {
    assert Init == Run(Init, []);
  }

  lemma {:induction false} FirstWrite() returns (st: State)
    ensures Reachable(st)
    ensures st.mans == Store(map[P := Obj(ManP(1, 1, 2), 2)], 2)
    ensures st.segs == Store(map[(P, 0) := Obj([A], 1)], 1) && st.index.objs == map[]
    ensures st.rank == map[P := 0] && st.builds == [] && st.clients.Keys == {1} && st.clients[1].Acked?
  {
    hide Reachable, Fold, LiveDelta, StepFork, StepWalk, StepTarget, StepReadPart, StepFold, StepWritePart;
    Shapes();
    Started();
    st := Next(Init, Create(P, 0, ""));
    assert st.mans == Store(map[P := Obj(ManP(0, 0, 1), 1)], 1);
    st := Next(st, BeginUpsert(1, P, [A]));
    assert PhaseOf(st, 1) == Probing(P, [A], 0, 0);
    st := Next(st, Go(1));
    assert PhaseOf(st, 1) == Saving(P, Advance(0, [A]), 0, None);
    st := Next(st, Go(1));
    assert PhaseOf(st, 1) == Saving(P, Advance(0, [A]), 0, Some(Obj(ManP(0, 0, 1), 1)));
    st := Next(st, Go(1));
  }

  lemma {:induction false} Forked() returns (st: State)
    ensures Reachable(st)
    ensures st.mans.objs == map[P := Obj(ManP(1, 1, 2), 2), Q := Obj(ManQ, 3)]
    ensures st.segs.objs == map[(P, 0) := Obj([A], 1)] && st.index.objs == map[]
    ensures st.rank == map[P := 0, Q := 2] && st.mans.counter == 3 && st.builds == []
    ensures forall c | c in st.clients :: st.clients[c].Acked? || st.clients[c].Forked?
  {
    hide Reachable, Fold, LiveDelta, StepCreate, StepProbe, StepSave, StepWalk, StepTarget, StepReadPart, StepFold, StepWritePart;
    Shapes();
    st := FirstWrite();
    st := Next(st, BeginBranch(2, P, Q));
    assert PhaseOf(st, 2) == Forking(P, ManP(1, 1, 2), Q);
    st := Next(st, Go(2));
  }

  lemma {:induction false} Probed() returns (st: State)
    ensures Reachable(st)
    ensures st.mans.objs == map[P := Obj(ManP(1, 1, 2), 2), Q := Obj(ManQ, 3)] && st.mans.counter == 3
    ensures (P, 0) in st.segs.objs && st.segs.objs[(P, 0)].body == [A] && (P, 1) in st.segs.objs && st.segs.objs[(P, 1)].body == [B]
    ensures st.index.objs == map[] && st.rank == map[P := 0, Q := 2] && st.builds == []
    ensures PhaseOf(st, 1) == Saving(P, Advance(1, [B]), 0, None)
    ensures forall c | c in st.clients && c != 1 :: st.clients[c].Acked? || st.clients[c].Forked?
  {
    hide Reachable, Fold, LiveDelta, StepCreate, StepSave, StepFork, StepWalk, StepTarget, StepReadPart, StepFold, StepWritePart;
    Shapes();
    st := Forked();
    st := Next(st, BeginUpsert(1, P, [B]));
    assert PhaseOf(st, 1) == Probing(P, [B], 1, 0);
    st := Next(st, Go(1));
  }

  lemma {:induction false} Written() returns (st: State)
    ensures Reachable(st)
    ensures st.mans.objs == map[P := Obj(ManP(2, 2, 3), 4), Q := Obj(ManQ, 3)]
    ensures (P, 0) in st.segs.objs && st.segs.objs[(P, 0)].body == [A] && (P, 1) in st.segs.objs && st.segs.objs[(P, 1)].body == [B]
    ensures st.index.objs == map[] && st.rank == map[P := 0, Q := 2] && st.builds == []
    ensures forall c | c in st.clients :: st.clients[c].Acked? || st.clients[c].Forked?
  {
    hide Reachable, Fold, LiveDelta, StepCreate, StepBegin, StepProbe, StepFork, StepWalk, StepTarget, StepReadPart, StepFold, StepWritePart;
    Shapes();
    st := Probed();
    st := Next(st, Go(1));
    assert PhaseOf(st, 1) == Saving(P, Advance(1, [B]), 0, Some(Obj(ManP(1, 1, 2), 2)));
    st := Next(st, Go(1));
  }

  const BuildJob := Job(true, P, ManP(2, 2, 3), {})

  lemma {:induction false} Begun() returns (st: State)
    ensures Reachable(st)
    ensures st.mans.objs == map[P := Obj(ManP(2, 2, 3), 4), Q := Obj(ManQ, 3)]
    ensures (P, 0) in st.segs.objs && st.segs.objs[(P, 0)].body == [A] && (P, 1) in st.segs.objs && st.segs.objs[(P, 1)].body == [B]
    ensures st.index.objs == map[] && st.rank == map[P := 0, Q := 2] && st.builds == []
    ensures PhaseOf(st, 3) == Walking(BuildJob, P, ManP(2, 2, 3), 0, [])
  {
    hide Reachable, Fold, LiveDelta, StepCreate, StepProbe, StepSave, StepFork, StepWalk, StepTarget, StepReadPart, StepFold, StepWritePart;
    st := Written();
    assert MayBuild(st, 3, P, 1);
    st := Next(st, BeginBuild(3, P));
  }

  lemma {:induction false} Building() returns (st: State)
    ensures Reachable(st)
    ensures st.mans.objs == map[P := Obj(ManP(2, 2, 3), 4), Q := Obj(ManQ, 3)]
    ensures (P, 0) in st.segs.objs && st.segs.objs[(P, 0)].body == [A] && (P, 1) in st.segs.objs && st.segs.objs[(P, 1)].body == [B]
    ensures st.index.objs == map[] && st.rank == map[P := 0, Q := 2] && st.builds == []
    ensures PhaseOf(st, 3) == Folding(BuildJob, [Source(P, 0, 2)], Own, None, 0, 0, EmptyView)
  {
    hide Reachable, Fold, LiveDelta, StepCreate, StepBegin, StepProbe, StepSave, StepFork, StepTarget, StepReadPart, StepFold, StepWritePart;
    st := Begun();
    st := Next(st, Go(3));
  }

  lemma {:induction false} Folded() returns (st: State)
    ensures Reachable(st)
    ensures st.mans.objs == map[P := Obj(ManP(2, 2, 3), 4), Q := Obj(ManQ, 3)]
    ensures (P, 0) in st.segs.objs && st.segs.objs[(P, 0)].body == [A]
    ensures st.index.objs == map[] && st.rank == map[P := 0, Q := 2]
    ensures PhaseOf(st, 3) == Writing(P, 1, 2, Both, 0)
  {
    hide Reachable, Fold, LiveDelta, StepCreate, StepBegin, StepProbe, StepSave, StepFork, StepWalk, StepReadPart, StepWritePart;
    Shapes();
    var src := [Source(P, 0, 2)];
    st := Building();
    st := Next(st, Go(3));
    assert PhaseOf(st, 3) == Folding(BuildJob, src, Own, None, 0, 1, View(map["a" := A], {}));
    st := Next(st, Go(3));
    assert PhaseOf(st, 3) == Folding(BuildJob, src, Own, None, 0, 2, View(Both, {}));
    st := Next(st, Go(3));
    st := Next(st, Go(3));
  }

  ghost predicate PIsIndexed(st: State) {
    && P in st.mans.objs && Q in st.mans.objs && st.mans.objs[P].body == IndexedP && st.mans.objs[Q].body == ManQ
    && (P, 0) in st.segs.objs && st.segs.objs[(P, 0)].body == [A]
    && IndexKey(P, 1, 0) in st.index.objs && st.index.objs[IndexKey(P, 1, 0)].body == Built(Both, 0)
    && st.rank == map[P := 0, Q := 2]
  }

  lemma {:induction false} Indexed() returns (st: State)
    ensures Reachable(st) && PIsIndexed(st)
  {
    hide Reachable, Fold, LiveDelta, StepCreate, StepBegin, StepProbe, StepFork, StepWalk, StepTarget, StepReadPart, StepFold;
    Shapes();
    st := Folded();
    st := Next(st, WritePart(3, 0));
    st := Next(st, Go(3));
    assert PhaseOf(st, 3) == Saving(P, Publish(1, 2, 2), 0, None);
    st := Next(st, Go(3));
    assert PhaseOf(st, 3) == Saving(P, Publish(1, 2, 2), 0, Some(Obj(ManP(2, 2, 3), 4)));
    st := Next(st, Go(3));
  }

  const Inherited := [Source(P, 0, 1)]
  const Climbed := Ancestor([Q, P], IndexedP)

  lemma {:induction false} Asked() returns (st: State, job: Job)
    ensures Reachable(st) && PIsIndexed(st) && job.ns == Q && job.m == ManQ && !job.build
    ensures PhaseOf(st, 4) == Targeting(job, Q, ManQ, 0, Inherited, [Q])
  {
    hide Reachable, Fold, LiveDelta, StepCreate, StepProbe, StepSave, StepFork, StepTarget, StepReadPart, StepFold, StepWritePart;
    Shapes();
    st := Indexed();
    st := Next(st, BeginQuery(4, Q));
    job := Job(false, Q, ManQ, st.acked);
    assert PhaseOf(st, 4) == Walking(job, Q, ManQ, 0, []);
    st := Next(st, Go(4));
    assert PhaseOf(st, 4) == Walking(job, P, IndexedP.(walSeq := 1), 1, []);
    st := Next(st, Go(4));
  }

  lemma {:induction false} Resolved() returns (st: State, job: Job)
    ensures Reachable(st) && PIsIndexed(st) && job.ns == Q && job.m == ManQ && !job.build
    ensures PhaseOf(st, 4) == Gathering(job, Inherited, Target(P, 1), Climbed, None)
  {
    hide Reachable, Fold, LiveDelta, StepCreate, StepBegin, StepProbe, StepSave, StepFork, StepWalk, StepReadPart, StepFold, StepWritePart;
    Shapes();
    st, job := Asked();
    st := Next(st, Go(4));
    assert [Q] + [P] == [Q, P];
    assert PhaseOf(st, 4) == Targeting(job, P, IndexedP, 1, Inherited, [Q, P]);
    st := Next(st, Go(4));
  }

  const ViewA := View(map["a" := A], {})

  lemma {:induction false} Gathered() returns (st: State, job: Job)
    ensures Reachable(st) && PIsIndexed(st) && job.ns == Q && job.m == ManQ && !job.build
    ensures PhaseOf(st, 4) == Folding(job, Inherited, Climbed, Some(Built(Both, 0)), 0, 0, EmptyView)
  {
    hide Reachable, Fold, LiveDelta, StepCreate, StepBegin, StepProbe, StepSave, StepFork, StepWalk, StepTarget, StepFold, StepWritePart;
    Shapes();
    st, job := Resolved();
    st := Next(st, ReadPart(4, 0));
    assert PhaseOf(st, 4) == Gathering(job, Inherited, Target(P, 1), Climbed, Some(Built(Both, 0)));
    st := Next(st, Go(4));
  }

  lemma {:induction false} Answered() returns (st: State, job: Job)
    ensures Reachable(st) && PIsIndexed(st) && job.ns == Q && job.m == ManQ
    ensures 4 in st.clients && st.clients[4] == Answer(job, Climbed, Some(Built(Both, 0)), ViewA)
  {
    hide Reachable, Fold, LiveDelta, StepBegin, StepSave, StepTarget, StepWalk, StepFork, StepProbe;
    Shapes();
    st, job := Gathered();
    st := Next(st, Go(4));
    assert PhaseOf(st, 4) == Folding(job, Inherited, Climbed, Some(Built(Both, 0)), 0, 1, ViewA);
    st := Next(st, Go(4));
    assert PhaseOf(st, 4) == Folding(job, Inherited, Climbed, Some(Built(Both, 0)), 1, 0, ViewA);
    st := Next(st, Go(4));
  }

  // The query of "q" returns document b, which was never in its log.
  lemma {:induction false} BranchReadLeaks() returns (st: State)
    ensures Reachable(st) && 4 in st.clients && st.clients[4].Answer?
    ensures st.clients[4].job.ns == Q && st.clients[4].job.m.IsBranch() && st.clients[4].job.m.forkIndexEpoch == 0
    ensures "b" in AnswerLive(st.clients[4])
    ensures "b" !in LiveAt(st, Q, st.clients[4].job.m.walSeq)
  {
    hide Reachable, LiveAt;
    var job;
    st, job := Answered();
    LogOfQ(st);
  }

  lemma {:induction false} LogOfQ(st: State)
    requires P in st.mans.objs && Q in st.mans.objs && st.mans.objs[P].body == IndexedP && st.mans.objs[Q].body == ManQ
    requires (P, 0) in st.segs.objs && st.segs.objs[(P, 0)].body == [A] && st.rank == map[P := 0, Q := 2]
    ensures LiveAt(st, Q, 1) == map["a" := A] && "b" !in LiveAt(st, Q, 1)
  {
    Shapes();
    assert Owner(st, Q, 0) == Owner(st, P, 0) == P;
    assert OpsAt(st, Q, 0) == [A];
    assert Log(st, Q, 0, 1) == Log(st, Q, 0, 0) + [A] == [A];
    assert "a"[0] != "b"[0];
  }
}

// The steps of upsert probing, of resolving and folding a read view, and of writing an epoch.

module ProtocolReads {
  import opened Types
  import opened Storage
  import opened Protocol
  import opened ProtocolInvariant
  import opened ProtocolSteps

  // ---------------------------------------------------------------- entry points

  lemma {:induction false} KnownManifest(st: State, ns: string)
    requires Inv(st) && ns in st.mans.objs
    ensures ManifestOk(st, ns, st.mans.objs[ns].body) && ns != ""
    ensures Dense(st, ns, st.mans.objs[ns].body.walSeq) && Rooted(st, ns)
    ensures st.mans.objs[ns].body.Fork() <= st.mans.objs[ns].body.walSeq
  {
    assert NamespaceOk(st, ns);
    assert ManifestOk(st, ns, st.mans.objs[ns].body);
    hide ClientsOk, AckOk, NamespaceOk, Covered, Dense, Rooted;
  }

  // A read that has just loaded the manifest knows it, and knows what was acknowledged before.
  lemma {:induction false} JobStarts(st: State, ns: string, build: bool)
    requires Inv(st) && ns in st.mans.objs
    ensures JobOk(st, Job(build, ns, st.mans.objs[ns].body, if build then {} else st.acked))
    ensures WalkOk(st, Job(build, ns, st.mans.objs[ns].body, if build then {} else st.acked), ns, st.mans.objs[ns].body, [])
  {
    KnownManifest(st, ns);
    hide StoreOk, ManifestsOk, ClientsOk, Covered, Dense, Rooted;
    forall a | a in st.acked && a.ns == ns ensures a.seqNo < st.mans.objs[ns].body.walSeq {
      assert AckOk(st, a);
    }
  }

  lemma {:induction false} BeginKeeps(st: State, c: nat, a: Action)
    requires Inv(st) && (a.BeginUpsert? || a.BeginBuild? || a.BeginBranch? || a.BeginQuery?)
    ensures Inv(StepBegin(st, c, a)) && Extends(st, StepBegin(st, c, a))
  {
    hide Inv, Extends, PhaseOk, BuildOk, StoreOk, ManifestOk, WalkOk, JobOk;
    Unchanged(st);
    match a
    case BeginUpsert(_, ns, docs) =>
      if docs == [] {
      } else if ns !in st.mans.objs || !DocsFit(docs, st.mans.objs[ns].body.dimension) {
        LeaveKeeps(st, c, Failed);
      } else {
        ProbeStarts(st, c, ns, docs);
      }
    case BeginBuild(_, ns) =>
      if ns !in st.mans.objs {
        LeaveKeeps(st, c, Failed);
      } else if MayBuild(st, c, ns, st.mans.objs[ns].body.indexEpoch + 1) {
        BuildStarts(st, c, ns);
      }
    case BeginBranch(_, parent, child) =>
      if parent == child || child == "" || parent !in st.mans.objs {
        LeaveKeeps(st, c, Failed);
      } else {
        ForkStarts(st, c, parent, child);
      }
    case BeginQuery(_, ns) =>
      if ns !in st.mans.objs {
        LeaveKeeps(st, c, Failed);
      } else {
        QueryStarts(st, c, ns);
      }
  }

  lemma {:induction false} Unchanged(st: State)
    requires Inv(st)
    ensures Extends(st, st)
  {
    assert StoreOk(st);
    hide Extends, StoreOk;
    SameStoreExtends(st, st);
  }

  lemma {:induction false} NotBuilding(st: State, c: nat, ph: Phase)
    requires !ph.Walking? && !ph.Folding? && !ph.Writing? && (ph.Saving? ==> ph.edit.Advance?)
    ensures BuildOk(st, ph) && Alone(st, c, ph)
  {
  }

  lemma {:induction false} ProbeStarts(st: State, c: nat, ns: string, docs: seq<Document>)
    requires Inv(st) && ns in st.mans.objs
    ensures Inv(Enter(st, c, Probing(ns, docs, st.mans.objs[ns].body.walSeq, 0)))
    ensures Extends(st, Enter(st, c, Probing(ns, docs, st.mans.objs[ns].body.walSeq, 0)))
  {
    hide Inv, Extends, BuildOk, StoreOk, Dense, ManifestOk, Rooted;
    var ph := Probing(ns, docs, st.mans.objs[ns].body.walSeq, 0);
    KnownManifest(st, ns);
    NotBuilding(st, c, ph);
    EnterKeeps(st, c, ph);
  }

  lemma {:induction false} ForkStarts(st: State, c: nat, parent: string, child: string)
    requires Inv(st) && parent in st.mans.objs && child != ""
    ensures Inv(Enter(st, c, Forking(parent, st.mans.objs[parent].body, child)))
    ensures Extends(st, Enter(st, c, Forking(parent, st.mans.objs[parent].body, child)))
  {
    hide Inv, Extends, BuildOk, StoreOk, Dense, ManifestOk, Rooted;
    var ph := Forking(parent, st.mans.objs[parent].body, child);
    KnownManifest(st, parent);
    NotBuilding(st, c, ph);
    EnterKeeps(st, c, ph);
  }

  lemma {:induction false} QueryStarts(st: State, c: nat, ns: string)
    requires Inv(st) && ns in st.mans.objs
    ensures var m := st.mans.objs[ns].body; var ph := Walking(Job(false, ns, m, st.acked), ns, m, 0, []);
            Inv(Enter(st, c, ph)) && Extends(st, Enter(st, c, ph))
  {
    hide Inv, Extends, StoreOk, JobOk, WalkOk;
    var m := st.mans.objs[ns].body;
    JobStarts(st, ns, false);
    EnterKeeps(st, c, Walking(Job(false, ns, m, st.acked), ns, m, 0, []));
  }

  lemma {:induction false} BuildStarts(st: State, c: nat, ns: string)
    requires Inv(st) && ns in st.mans.objs && MayBuild(st, c, ns, st.mans.objs[ns].body.indexEpoch + 1)
    ensures var m := st.mans.objs[ns].body; var ph := Walking(Job(true, ns, m, {}), ns, m, 0, []);
            Inv(Enter(st, c, ph)) && Extends(st, Enter(st, c, ph))
  {
    hide Inv, Extends, StoreOk, JobOk, WalkOk;
    var m := st.mans.objs[ns].body;
    JobStarts(st, ns, true);
    EnterKeeps(st, c, Walking(Job(true, ns, m, {}), ns, m, 0, []));
  }

  // ---------------------------------------------------------------- probing for a log position

  lemma {:induction false} SegmentExtends(st: State, st': State, ns: string, seqNo: nat, docs: seq<Document>)
    requires StoreOk(st) && (ns, seqNo) !in st.segs.objs && st'.segs == Write(st.segs, (ns, seqNo), docs)
    requires st'.mans == st.mans && st'.index == st.index && st'.rank == st.rank && st'.acked == st.acked && st'.builds == st.builds
    ensures Extends(st, st') && StoreOk(st')
  {
    assert forall n | n in st.mans.objs :: NamespaceOk(st, n);
    hide Dense, Rooted;
    assert Extends(st, st');
    StoreGrowsSame(st, st');
  }

  lemma {:induction false} ProbeKeeps(st: State, c: nat, ph: Phase)
    requires Inv(st) && c in st.clients && st.clients[c] == ph && ph.Probing?
    ensures Inv(StepProbe(st, c, ph)) && Extends(st, StepProbe(st, c, ph))
  {
    hide Inv, Extends, BuildOk, StoreOk;
    KnownPhase(st, c);
    var st' := StepProbe(st, c, ph);
    if ph.attempt >= MAX_UPSERT_ATTEMPTS {
      LeaveKeeps(st, c, Failed);
    } else if (ph.ns, ph.seqNo) in st.segs.objs {
      var ph' := Probing(ph.ns, ph.docs, ph.seqNo + 1, ph.attempt + 1);
      NotBuilding(st, c, ph');
      EnterKeeps(st, c, ph');
    } else {
      var ph' := Saving(ph.ns, Advance(ph.seqNo, ph.docs), 0, None);
      SegmentExtends(st, st', ph.ns, ph.seqNo, ph.docs);
      NotBuilding(st', c, ph');
      assert PhaseOk(st', ph');
      hide PhaseOk;
      SegmentKeeps(st, st', c, ph');
    }
  }

  lemma {:induction false} SegmentKeeps(st: State, st': State, c: nat, ph': Phase)
    requires Inv(st) && StoreOk(st') && Extends(st, st') && PhaseOk(st', ph') && BuildOk(st', ph')
    requires forall n :: !Builds(ph', n)
    requires st'.mans == st.mans && st'.index == st.index && st'.acked == st.acked && st'.builds == st.builds && st'.clients == st.clients[c := ph']
    ensures Inv(st')
  {
    hide StoreOk, ManifestOk, PhaseOk, BuildOk, Extends, ClientsOk, AckOk, Builds;
    ManifestsGrow(st, st');
    UntouchedAll(st, st');
    BuildsStand(st, st');
    hide BuildUntouched, ManifestsOk, BuildsOk;
    Preserves(st, st', c, ph');
  }

  // ---------------------------------------------------------------- resolving the view

  // Adding the run of the namespace in hand extends the tiling downwards to its fork point.
  lemma {:induction false} WalkAddsRun(st: State, job: Job, cur: string, curM: Manifest, sources: seq<Source>)
    requires WalkOk(st, job, cur, curM, sources)
    ensures var more := if curM.walSeq > curM.Fork() then [Source(cur, curM.Fork(), curM.walSeq)] + sources else sources;
            Tiles(st, job.ns, more, curM.Fork(), job.m.walSeq)
  {
    if curM.walSeq > curM.Fork() {
      var more := [Source(cur, curM.Fork(), curM.walSeq)] + sources;
      assert more[1..] == sources;
      forall s | curM.Fork() <= s < curM.walSeq ensures Owner(st, job.ns, s) == cur {
        assert Owner(st, cur, s) == cur;
      }
    }
  }

  // Descending to the parent, clamped to the fork point, keeps the walk's knowledge.
  lemma {:induction false} WalkDescends(st: State, job: Job, cur: string, curM: Manifest, sources: seq<Source>, more: seq<Source>)
    requires WalkOk(st, job, cur, curM, sources) && curM.IsBranch() && Rooted(st, cur)
    requires Tiles(st, job.ns, more, curM.Fork(), job.m.walSeq)
    requires curM.parent in st.mans.objs && Rooted(st, curM.parent)
    ensures var pm := st.mans.objs[curM.parent].body;
            WalkOk(st, job, curM.parent, pm.(walSeq := Min(pm.walSeq, curM.forkWalSeq)), more)
  {
    forall s | 0 <= s < curM.forkWalSeq ensures Owner(st, job.ns, s) == Owner(st, curM.parent, s) {
      assert Owner(st, cur, s) == Owner(st, curM.parent, s);
    }
    hide Tiles;
  }

  lemma {:induction false} WalkKeeps(st: State, c: nat, ph: Phase)
    requires Inv(st) && c in st.clients && st.clients[c] == ph && ph.Walking?
    ensures Inv(StepWalk(st, c, ph)) && Extends(st, StepWalk(st, c, ph))
  {
    hide Inv, Extends, StoreOk, JobOk, WalkOk, Tiles, ClimbOk, FoldOk, NoParts, Dense, ManifestOk, LiveAt;
    KnownPhase(st, c);
    var job, m := ph.job, ph.curM;
    var more := if m.walSeq > m.Fork() then [Source(ph.cur, m.Fork(), m.walSeq)] + ph.sources else ph.sources;
    if ph.depth > MAX_BRANCH_DEPTH {
      LeaveKeeps(st, c, Failed);
    } else {
      WalkAddsRun(st, job, ph.cur, m, ph.sources);
      if !m.IsBranch() {
        var ph' := if job.build then Unfolded(job, more, Own, None) else Targeting(job, job.ns, job.m, 0, more, [job.ns]);
        if job.build { BuildUnfolds(st, job, more); } else { ClimbStarts(st, job); }
        assert PhaseOk(st, ph') && BuildOk(st, ph');
        assert forall n :: Builds(ph', n) ==> Builds(ph, n);
        hide PhaseOk, BuildOk;
        StillAlone(st, c, ph');
        EnterKeeps(st, c, ph');
      } else if m.parent !in st.mans.objs {
        LeaveKeeps(st, c, Failed);
      } else {
        WalkNamespace(st, job, ph.cur, m, ph.sources);
        KnownManifest(st, ph.cur);
        KnownManifest(st, m.parent);
        WalkDescends(st, job, ph.cur, m, ph.sources, more);
        var pm := st.mans.objs[m.parent].body;
        var ph' := Walking(job, m.parent, pm.(walSeq := Min(pm.walSeq, m.forkWalSeq)), ph.depth + 1, more);
        assert PhaseOk(st, ph') && BuildOk(st, ph');
        assert forall n :: Builds(ph', n) ==> Builds(ph, n);
        hide PhaseOk, BuildOk;
        StillAlone(st, c, ph');
        EnterKeeps(st, c, ph');
      }
    }
  }

  lemma {:induction false} WalkNamespace(st: State, job: Job, cur: string, curM: Manifest, sources: seq<Source>)
    requires WalkOk(st, job, cur, curM, sources)
    ensures cur in st.mans.objs
  {
    hide Tiles;
  }

  lemma {:induction false} ClimbStarts(st: State, job: Job)
    requires JobOk(st, job)
    ensures ClimbOk(st, job, job.ns, job.m, 0, [job.ns])
  {
    hide ManifestOk;
  }

  lemma {:induction false} BuildUnfolds(st: State, job: Job, sources: seq<Source>)
    requires job.build && Tiles(st, job.ns, sources, 0, job.m.walSeq)
    ensures Unfolded(job, sources, Own, None).Folding? && FoldOk(st, Unfolded(job, sources, Own, None))
  {
    assert LiveAt(st, job.ns, 0) == map[];
    UnfoldedOk(st, job, sources, Own, None);
  }

  lemma {:induction false} UnfoldedOk(st: State, job: Job, sources: seq<Source>, basis: Basis, base: Option<Built>)
    requires Tiles(st, job.ns, sources, 0, job.m.walSeq) && job.From() <= job.m.walSeq
    requires BaseOk(st, job, basis, base)
    ensures FoldOk(st, Unfolded(job, sources, basis, base))
  {
    hide BaseOk;
    assert Log(st, job.ns, job.From(), job.From()) == [];
    assert Fold(EmptyView, []) == EmptyView;
  }

  // ---------------------------------------------------------------- resolving the index

  lemma {:induction false} TargetKeeps(st: State, c: nat, ph: Phase)
    requires Inv(st) && c in st.clients && st.clients[c] == ph && ph.Targeting?
    ensures Inv(StepTarget(st, c, ph)) && Extends(st, StepTarget(st, c, ph))
  {
    hide Inv, Extends, StoreOk, JobOk, Tiles, ClimbOk, FoldOk, TargetOk, BaseOk, BuildOk, Dense, ManifestOk, LiveAt;
    KnownPhase(st, c);
    var job, m := ph.job, ph.curM;
    if ph.depth > MAX_BRANCH_DEPTH {
      LeaveKeeps(st, c, Failed);
    } else {
      ClimbNamespace(st, job, ph.cur, m, ph.depth, ph.path);
      KnownManifest(st, ph.cur);
      JobFits(st, job);
      if m.indexEpoch > 0 {
        var t, basis := Target(ph.cur, m.indexEpoch), if ph.depth == 0 then Own else Ancestor(ph.path, m);
        OwnTarget(st, job, ph.cur, m, ph.depth, ph.path);
        QueryOn(st, c, Gathering(job, ph.sources, t, basis, None));
      } else if !m.IsBranch() {
        NoTarget(st, job, ph.cur, m, ph.depth, ph.path);
        UnfoldedOk(st, job, ph.sources, Own, None);
        QueryOn(st, c, Unfolded(job, ph.sources, Own, None));
      } else if m.forkIndexEpoch > 0 {
        ForkTarget(st, job, ph.cur, m, ph.depth, ph.path);
        QueryOn(st, c, Gathering(job, ph.sources, Target(m.parent, m.forkIndexEpoch), Own, None));
      } else if m.parent !in st.mans.objs {
        LeaveKeeps(st, c, Failed);
      } else {
        KnownManifest(st, m.parent);
        ClimbGoesOn(st, job, ph.cur, m, ph.depth, ph.path);
        QueryOn(st, c, Targeting(job, m.parent, st.mans.objs[m.parent].body, ph.depth + 1, ph.sources, ph.path + [m.parent]));
      }
    }
  }

  // A query client moves on to a phase it is entitled to.
  lemma {:induction false} QueryOn(st: State, c: nat, ph: Phase)
    requires Inv(st) && PhaseOk(st, ph)
    requires ph.Targeting? || ph.Gathering? || ph.Answer? || (ph.Folding? && !ph.job.build)
    ensures Inv(Enter(st, c, ph)) && Extends(st, Enter(st, c, ph))
  {
    hide Inv, Extends, PhaseOk;
    assert forall n :: !Builds(ph, n);
    assert BuildOk(st, ph);
    hide BuildOk, Builds;
    EnterKeeps(st, c, ph);
  }

  lemma {:induction false} ClimbNamespace(st: State, job: Job, cur: string, m: Manifest, depth: nat, path: seq<string>)
    requires ClimbOk(st, job, cur, m, depth, path)
    ensures cur in st.mans.objs && SameShape(m, st.mans.objs[cur].body)
  {
    hide Covered;
  }

  lemma {:induction false} JobFits(st: State, job: Job)
    requires JobOk(st, job)
    ensures job.From() <= job.m.walSeq && job.ns in st.mans.objs
    ensures st.mans.objs[job.ns].body.Fork() <= job.m.walSeq <= st.mans.objs[job.ns].body.walSeq
  {
    hide Covered;
  }

  lemma {:induction false} OwnTarget(st: State, job: Job, cur: string, m: Manifest, depth: nat, path: seq<string>)
    requires JobOk(st, job) && ClimbOk(st, job, cur, m, depth, path) && m.indexEpoch > 0 && !job.build
    ensures TargetOk(st, job, Target(cur, m.indexEpoch), if depth == 0 then Own else Ancestor(path, m), None)
  {
    hide LiveAt, PartsAre, PathOk;
  }

  lemma {:induction false} SameOwnersSameLog(st: State, a: string, b: string, n: nat)
    requires forall s | 0 <= s < n :: Owner(st, a, s) == Owner(st, b, s)
    ensures Log(st, a, 0, n) == Log(st, b, 0, n)
    decreases n
  {
    if n > 0 { SameOwnersSameLog(st, a, b, n - 1); }
  }

  lemma {:induction false} NoTarget(st: State, job: Job, cur: string, m: Manifest, depth: nat, path: seq<string>)
    requires ClimbOk(st, job, cur, m, depth, path) && m.indexEpoch == 0 && !m.IsBranch() && !job.build
    ensures BaseOk(st, job, Own, None)
  {
    hide PathOk;
    assert job.m.indexedUpTo == 0;
    assert LiveAt(st, job.ns, 0) == map[];
  }

  lemma {:induction false} ForkTarget(st: State, job: Job, cur: string, m: Manifest, depth: nat, path: seq<string>)
    requires ClimbOk(st, job, cur, m, depth, path) && m.indexEpoch == 0 && m.IsBranch() && m.forkIndexEpoch > 0 && !job.build
    ensures TargetOk(st, job, Target(m.parent, m.forkIndexEpoch), Own, None)
  {
    hide PathOk;
    SameOwnersSameLog(st, job.ns, cur, job.m.indexedUpTo);
    hide Log, Owner, PartsAre;
  }

  lemma {:induction false} ClimbGoesOn(st: State, job: Job, cur: string, m: Manifest, depth: nat, path: seq<string>)
    requires ClimbOk(st, job, cur, m, depth, path) && m.indexEpoch == 0 && m.IsBranch() && m.forkIndexEpoch == 0
    requires Rooted(st, cur) && m.parent in st.mans.objs && ManifestOk(st, m.parent, st.mans.objs[m.parent].body)
    ensures ClimbOk(st, job, m.parent, st.mans.objs[m.parent].body, depth + 1, path + [m.parent])
  {
    var pm := st.mans.objs[m.parent].body;
    PathGrows(st, job, path, m);
    hide PathOk;
    if pm.indexEpoch == 0 {
      forall s | 0 <= s < job.m.indexedUpTo ensures Owner(st, job.ns, s) == Owner(st, m.parent, s) {
        assert s < m.forkWalSeq;
        assert Owner(st, cur, s) == Owner(st, m.parent, s);
      }
    }
    hide PartsAre, LiveAt;
  }

  lemma {:induction false} PathGrows(st: State, job: Job, path: seq<string>, m: Manifest)
    requires PathOk(st, job, path) && ManifestOk(st, path[|path| - 1], m)
    requires m.indexEpoch == 0 && m.IsBranch() && m.forkIndexEpoch == 0 && job.m.indexedUpTo == m.indexedUpTo
    ensures PathOk(st, job, path + [m.parent])
  {
    hide PartsAre, LiveAt;
  }

  lemma {:induction false} ReadPartKeeps(st: State, c: nat, part: nat)
    requires Inv(st)
    ensures Inv(StepReadPart(st, c, part)) && Extends(st, StepReadPart(st, c, part))
  {
    hide Inv, Extends, StoreOk, JobOk, Tiles, BuildOk, LiveAt, FoldOk, TargetOk, BuildsOk;
    Unchanged(st);
    var ph := PhaseOf(st, c);
    if ph.Gathering? {
      KnownPhase(st, c);
      KnownBuilds(st);
      var key := IndexKey(ph.target.ns, ph.target.epoch, part);
      if key in st.index.objs {
        PartRead(st, ph, part);
        QueryOn(st, c, Gathering(ph.job, ph.sources, ph.target, ph.basis, Some(st.index.objs[key].body)));
      }
    }
  }

  lemma {:induction false} KnownBuilds(st: State)
    requires Inv(st)
    ensures BuildsOk(st)
  {
    hide ClientsOk, ManifestsOk, StoreOk, BuildsOk, AckOk;
  }

  // Any object read is one of the build whose objects have been read before.
  lemma {:induction false} PartRead(st: State, ph: Phase, part: nat)
    requires ph.Gathering? && TargetOk(st, ph.job, ph.target, ph.basis, ph.gathered) && BuildsOk(st)
    requires IndexKey(ph.target.ns, ph.target.epoch, part) in st.index.objs
    ensures var b := st.index.objs[IndexKey(ph.target.ns, ph.target.epoch, part)].body;
            TargetOk(st, ph.job, ph.target, ph.basis, Some(b)) && (ph.gathered.Some? ==> b == ph.gathered.value)
  {
    hide BasisLive, BasisOk;
  }

  lemma {:induction false} GatherKeeps(st: State, c: nat, ph: Phase)
    requires Inv(st) && c in st.clients && st.clients[c] == ph && ph.Gathering? && ph.gathered.Some?
    ensures var ph' := Unfolded(ph.job, ph.sources, ph.basis, ph.gathered);
            Inv(Enter(st, c, ph')) && Extends(st, Enter(st, c, ph'))
  {
    hide Inv, Extends, StoreOk, JobOk, Tiles, BuildOk, LiveAt, FoldOk, PartsAre;
    KnownPhase(st, c);
    JobFits(st, ph.job);
    UnfoldedOk(st, ph.job, ph.sources, ph.basis, ph.gathered);
    QueryOn(st, c, Unfolded(ph.job, ph.sources, ph.basis, ph.gathered));
  }

  // ---------------------------------------------------------------- folding the window

  lemma {:induction false} TilesAt(st: State, ns: string, sources: seq<Source>, lo: nat, hi: nat, i: nat)
    requires Tiles(st, ns, sources, lo, hi) && i < |sources|
    ensures lo <= sources[i].from < sources[i].to <= hi
    ensures forall s | sources[i].from <= s < sources[i].to :: Owner(st, ns, s) == sources[i].ns
    ensures sources[i].to == if i + 1 < |sources| then sources[i + 1].from else hi
    decreases |sources|
  {
    TilesOrdered(st, ns, sources[1..], sources[0].to, hi);
    if i > 0 {
      assert sources[i] == sources[1..][i - 1];
      assert i + 1 < |sources| ==> sources[i + 1] == sources[1..][i];
      TilesAt(st, ns, sources[1..], sources[0].to, hi, i - 1);
    }
  }

  lemma {:induction false} TilesOrdered(st: State, ns: string, sources: seq<Source>, lo: nat, hi: nat)
    requires Tiles(st, ns, sources, lo, hi)
    ensures lo <= hi
    decreases |sources|
  {
    if sources != [] { TilesOrdered(st, ns, sources[1..], sources[0].to, hi); }
  }

  lemma {:induction false} FoldReads(st: State, ph: Phase)
    requires ph.Folding? && FoldOk(st, ph) && ph.i < |ph.sources| && ph.job.From() <= ph.job.m.walSeq
    requires ph.next < Min(ph.job.m.walSeq, ph.sources[ph.i].to) && (ph.sources[ph.i].ns, ph.next) in st.segs.objs
    ensures FoldOk(st, ph.(next := ph.next + 1, view := Fold(ph.view, st.segs.objs[(ph.sources[ph.i].ns, ph.next)].body)))
  {
    var job := ph.job;
    TilesAt(st, job.ns, ph.sources, 0, job.m.walSeq, ph.i);
    var lo := job.From();
    assert Clamp(lo, ph.next, job.m.walSeq) == ph.next && Clamp(lo, ph.next + 1, job.m.walSeq) == ph.next + 1;
    FoldAppend(EmptyView, Log(st, job.ns, lo, ph.next), OpsAt(st, job.ns, ph.next));
    hide Tiles, LiveAt;
  }

  lemma {:induction false} FoldSkips(st: State, ph: Phase)
    requires ph.Folding? && FoldOk(st, ph) && ph.i < |ph.sources| && ph.job.From() <= ph.job.m.walSeq
    requires !(ph.next < Min(ph.job.m.walSeq, ph.sources[ph.i].to))
    ensures FoldOk(st, ph.(i := ph.i + 1,
                           next := if ph.i + 1 < |ph.sources| then Max(ph.job.From(), ph.sources[ph.i + 1].from) else 0))
  {
    var job := ph.job;
    TilesAt(st, job.ns, ph.sources, 0, job.m.walSeq, ph.i);
    if ph.i + 1 < |ph.sources| { TilesAt(st, job.ns, ph.sources, 0, job.m.walSeq, ph.i + 1); }
    hide Tiles, LiveAt, Log;
  }

  // A finished fold is an answer.
  lemma {:induction false} FoldAnswers(st: State, ph: Phase)
    requires ph.Folding? && FoldOk(st, ph) && ph.i == |ph.sources| && JobOk(st, ph.job) && !ph.job.build
    ensures PhaseOk(st, Answer(ph.job, ph.basis, ph.base, ph.view))
  {
    hide JobOk, Tiles, BaseOk;
  }

  lemma {:induction false} LogSplit(st: State, ns: string, u: nat, n: nat)
    requires u <= n
    ensures Log(st, ns, 0, n) == Log(st, ns, 0, u) + Log(st, ns, u, n)
    decreases n
  {
    if u < n {
      LogSplit(st, ns, u, n - 1);
      assert Log(st, ns, 0, u) + (Log(st, ns, u, n - 1) + OpsAt(st, ns, n - 1))
          == (Log(st, ns, 0, u) + Log(st, ns, u, n - 1)) + OpsAt(st, ns, n - 1);
    }
  }

  lemma {:induction false} FoldKeeps(st: State, c: nat, ph: Phase)
    requires Inv(st) && c in st.clients && st.clients[c] == ph && ph.Folding?
    ensures Inv(StepFold(st, c, ph)) && Extends(st, StepFold(st, c, ph))
  {
    hide Inv, Extends, StoreOk, JobOk, FoldOk, NoParts, LiveAt;
    KnownPhase(st, c);
    var job := ph.job;
    JobFits(st, job);
    if ph.i >= |ph.sources| {
      FoldBound(st, ph);
      if job.build {
        FoldedBuild(st, c, ph);
      } else {
        FoldAnswers(st, ph);
        hide PhaseOk, BuildOk;
        QueryOn(st, c, Answer(job, ph.basis, ph.base, ph.view));
      }
    } else {
      var src := ph.sources[ph.i];
      if ph.next < Min(job.m.walSeq, src.to) {
        if (src.ns, ph.next) !in st.segs.objs {
          LeaveKeeps(st, c, Failed);
        } else {
          FoldReads(st, ph);
          FoldOn(st, c, ph, ph.(next := ph.next + 1, view := Fold(ph.view, st.segs.objs[(src.ns, ph.next)].body)));
        }
      } else {
        FoldSkips(st, ph);
        FoldOn(st, c, ph, ph.(i := ph.i + 1,
                              next := if ph.i + 1 < |ph.sources| then Max(job.From(), ph.sources[ph.i + 1].from) else 0));
      }
    }
  }

  lemma {:induction false} FoldBound(st: State, ph: Phase)
    requires ph.Folding? && FoldOk(st, ph)
    ensures ph.i <= |ph.sources|
  {
    hide Tiles, Log, LiveAt;
  }

  lemma {:induction false} FoldOn(st: State, c: nat, ph: Phase, ph': Phase)
    requires Inv(st) && c in st.clients && st.clients[c] == ph && ph.Folding? && ph'.Folding?
    requires ph'.job == ph.job && PhaseOk(st, ph) && BuildOk(st, ph) && FoldOk(st, ph')
    ensures Inv(Enter(st, c, ph')) && Extends(st, Enter(st, c, ph'))
  {
    hide Inv, Extends, JobOk, FoldOk, NoParts, StoreOk;
    assert PhaseOk(st, ph') && BuildOk(st, ph');
    assert forall n :: Builds(ph', n) ==> Builds(ph, n);
    hide PhaseOk, BuildOk, Builds;
    StillAlone(st, c, ph');
    EnterKeeps(st, c, ph');
  }

  lemma {:induction false} FoldedBuild(st: State, c: nat, ph: Phase)
    requires Inv(st) && c in st.clients && st.clients[c] == ph && ph.Folding? && ph.job.build
    requires FoldOk(st, ph) && BuildOk(st, ph) && ph.i == |ph.sources| && JobOk(st, ph.job)
    ensures var ph' := Writing(ph.job.ns, ph.job.m.indexEpoch + 1, ph.job.m.walSeq, ph.view.live, |st.builds|);
            var st1 := st.(builds := st.builds + [ph.view.live]);
            Inv(Enter(st1, c, ph')) && Extends(st, Enter(st1, c, ph'))
  {
    hide Inv, Extends, StoreOk, Tiles;
    JobFits(st, ph.job);
    var ph' := Writing(ph.job.ns, ph.job.m.indexEpoch + 1, ph.job.m.walSeq, ph.view.live, |st.builds|);
    var st1 := st.(builds := st.builds + [ph.view.live]);
    hide JobOk, BaseOk;
    NewBuild(st, ph.view.live);
    BuildBegun(st, st1, ph, ph');
    assert forall n :: Builds(ph', n) ==> Builds(ph, n);
    assert PhaseOk(st1, ph');
    hide PhaseOk, BuildOk, Builds, FoldOk;
    StillAlone(st1, c, ph');
    EnterKeeps(st1, c, ph');
    ExtendsTransitive(st, st1, Enter(st1, c, ph'));
  }

  lemma {:induction false} BuildBegun(st: State, st1: State, ph: Phase, ph': Phase)
    requires StoreOk(st) && Extends(st, st1) && ph.Folding? && ph.job.build && FoldOk(st, ph) && BuildOk(st, ph) && ph.i == |ph.sources|
    requires ph.job.ns in st.mans.objs
    requires st.mans.objs[ph.job.ns].body.Fork() <= ph.job.m.walSeq <= st.mans.objs[ph.job.ns].body.walSeq
    requires st1 == st.(builds := st.builds + [ph.view.live])
    requires ph' == Writing(ph.job.ns, ph.job.m.indexEpoch + 1, ph.job.m.walSeq, ph.view.live, |st.builds|)
    ensures BuildOk(st1, ph')
  {
    hide Tiles, BaseOk;
    LogStable(st, st1, ph.job.ns, 0, ph.job.m.walSeq);
    hide StoreOk, Extends, Log;
  }

  // Recording a new build changes nothing else.
  lemma {:induction false} NewBuild(st: State, live: Live)
    requires Inv(st)
    ensures var st1 := st.(builds := st.builds + [live]); Inv(st1) && Extends(st, st1) && StoreOk(st)
  {
    hide StoreOk, ManifestOk, PhaseOk, BuildOk, Extends;
    var st1 := st.(builds := st.builds + [live]);
    Unchanged(st);
    BuildsExtend(st, st1);
    StoreGrowsSame(st, st1);
    ManifestsGrow(st, st1);
    UntouchedAll(st, st1);
    BuildsStand(st, st1);
    hide ManifestsOk, BuildUntouched, BuildsOk;
    Unacted(st, st1);
  }

  lemma {:induction false} BuildsExtend(st: State, st1: State)
    requires Extends(st, st) && st.builds <= st1.builds && st1 == st.(builds := st1.builds)
    ensures Extends(st, st1)
  {
  }

  // ---------------------------------------------------------------- writing an epoch

  lemma {:induction false} WritePartKeeps(st: State, c: nat, part: nat)
    requires Inv(st)
    ensures Inv(StepWritePart(st, c, part)) && Extends(st, StepWritePart(st, c, part))
  {
    hide Inv, Extends, StoreOk, LiveAt;
    Unchanged(st);
    var ph := PhaseOf(st, c);
    if ph.Writing? {
      KnownPhase(st, c);
      var st' := StepWritePart(st, c, part);
      WriteExtends(st, st', ph.ns, ph.epoch, part, Built(ph.live, ph.build));
      WrittenPart(st, st', ph, part);
      hide PhaseOk, BuildOk;
      IndexKeeps(st, st', c, ph, part);
    }
  }

  lemma {:induction false} WriteExtends(st: State, st': State, ns: string, epoch: nat, part: nat, b: Built)
    requires StoreOk(st) && ns in st.mans.objs && epoch == st.mans.objs[ns].body.indexEpoch + 1
    requires st' == st.(index := Write(st.index, IndexKey(ns, epoch, part), b))
    ensures Extends(st, st') && StoreOk(st')
  {
    assert forall n | n in st.mans.objs :: NamespaceOk(st, n);
    hide Dense, Rooted;
    assert Extends(st, st');
    StoreGrowsSame(st, st');
  }

  lemma {:induction false} WrittenPart(st: State, st': State, ph: Phase, part: nat)
    requires StoreOk(st) && ph.Writing? && BuildOk(st, ph) && Extends(st, st')
    requires st' == st.(index := Write(st.index, IndexKey(ph.ns, ph.epoch, part), Built(ph.live, ph.build)))
    ensures PhaseOk(st', ph) && BuildOk(st', ph)
  {
    LogStable(st, st', ph.ns, 0, ph.walUpTo);
    hide StoreOk, Extends, Log;
  }

  lemma {:induction false} IndexKeeps(st: State, st': State, c: nat, ph: Phase, part: nat)
    requires Inv(st) && c in st.clients && st.clients[c] == ph && ph.Writing?
    requires st' == st.(index := Write(st.index, IndexKey(ph.ns, ph.epoch, part), Built(ph.live, ph.build)))
    requires Extends(st, st') && StoreOk(st') && PhaseOk(st', ph) && BuildOk(st', ph) && KnownBuild(st, Built(ph.live, ph.build))
    ensures Inv(st')
  {
    hide StoreOk, ManifestOk, PhaseOk, BuildOk, Extends, AckOk;
    ManifestsGrow(st, st');
    hide ClientsOk;
    OthersUntouched(st, st', c, ph.ns);
    OthersBuildElsewhere(st, c, ph);
    WrittenBuild(st, st', ph, part);
    hide BuildUntouched, ManifestsOk, BuildsOk;
    assert st'.clients == st.clients[c := ph];
    Preserves(st, st', c, ph);
  }

  lemma {:induction false} WrittenBuild(st: State, st': State, ph: Phase, part: nat)
    requires BuildsOk(st) && ph.Writing? && KnownBuild(st, Built(ph.live, ph.build))
    requires st' == st.(index := Write(st.index, IndexKey(ph.ns, ph.epoch, part), Built(ph.live, ph.build)))
    ensures BuildsOk(st')
  {
  }

  lemma {:induction false} OthersBuildElsewhere(st: State, c: nat, ph: Phase)
    requires ClientsOk(st) && c in st.clients && st.clients[c] == ph
    ensures forall d, n | d in st.clients && d != c && Builds(st.clients[d], n) :: !Builds(ph, n)
  {
    hide PhaseOk, BuildOk, Builds;
  }

  lemma {:induction false} PartsOfBuild(st: State, ns: string, epoch: nat, b: Built)
    requires PartsBy(st, ns, epoch, b)
    ensures PartsAre(st, ns, epoch, b.live)
  {
  }

  lemma {:induction false} WrittenKeeps(st: State, c: nat, ph: Phase)
    requires Inv(st) && c in st.clients && st.clients[c] == ph && ph.Writing?
    ensures var ph' := Saving(ph.ns, Publish(ph.epoch, ph.walUpTo, |ph.live|), 0, None);
            Inv(Enter(st, c, ph')) && Extends(st, Enter(st, c, ph'))
  {
    hide Inv, Extends, StoreOk, LiveAt, PartsAre;
    KnownPhase(st, c);
    var ph' := Saving(ph.ns, Publish(ph.epoch, ph.walUpTo, |ph.live|), 0, None);
    PartsOfBuild(st, ph.ns, ph.epoch, Built(ph.live, ph.build));
    assert PhaseOk(st, ph') && BuildOk(st, ph');
    assert forall n :: Builds(ph', n) ==> Builds(ph, n);
    hide PhaseOk, BuildOk, Builds;
    StillAlone(st, c, ph');
    EnterKeeps(st, c, ph');
  }

  // ---------------------------------------------------------------- every step

  lemma {:induction false} GoKeeps(st: State, c: nat)
    requires Inv(st)
    ensures Inv(StepGo(st, c)) && Extends(st, StepGo(st, c))
  {
    hide Inv, Extends, StepProbe, StepSave, StepFork, StepWalk, StepTarget, StepFold;
    Unchanged(st);
    var ph := PhaseOf(st, c);
    match ph
    case Probing(_, _, _, _) => ProbeKeeps(st, c, ph);
    case Saving(_, _, _, _) => SaveKeeps(st, c, ph);
    case Forking(_, _, _) =>
      hide PhaseOk;
      KnownPhase(st, c);
      ForkKeeps(st, c, ph);
    case Walking(_, _, _, _, _) => WalkKeeps(st, c, ph);
    case Targeting(_, _, _, _, _, _) => TargetKeeps(st, c, ph);
    case Gathering(_, _, _, _, gathered) => if gathered.Some? { GatherKeeps(st, c, ph); }
    case Folding(_, _, _, _, _, _, _) => FoldKeeps(st, c, ph);
    case Writing(ns, epoch, _, _, _) => if IndexKey(ns, epoch, DOCS) in st.index.objs { WrittenKeeps(st, c, ph); }
    case _ =>
  }

  lemma {:induction false} StepKeeps(st: State, a: Action)
    requires Inv(st)
    ensures Inv(Step(st, a)) && Extends(st, Step(st, a))
  {
    hide Inv, Extends, StepGo, StepBegin, StepCreate, StepReadPart, StepWritePart;
    match a
    case Create(ns, dimension, textField) => CreateKeeps(st, ns, dimension, textField);
    case ReadPart(c, part) => ReadPartKeeps(st, c, part);
    case WritePart(c, part) => WritePartKeeps(st, c, part);
    case Go(c) => GoKeeps(st, c);
    case Stop(c) => LeaveKeeps(st, c, Idle);
    case BeginUpsert(c, _, _) => BeginKeeps(st, c, a);
    case BeginBuild(c, _) => BeginKeeps(st, c, a);
    case BeginBranch(c, _, _) => BeginKeeps(st, c, a);
    case BeginQuery(c, _) => BeginKeeps(st, c, a);
  }
}

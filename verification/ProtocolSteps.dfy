// Every step keeps the invariant and undoes nothing.

module ProtocolSteps {
  import opened Types
  import opened Storage
  import opened Protocol
  import opened ProtocolInvariant

  // No other client builds what phase ph builds.
  ghost predicate Alone(st: State, c: nat, ph: Phase) {
    forall d, ns | d in st.clients && d != c && Builds(st.clients[d], ns) :: !Builds(ph, ns)
  }

  lemma {:induction false} StillAlone(st: State, c: nat, ph: Phase)
    requires Inv(st)
    requires forall ns :: Builds(ph, ns) ==> Builds(PhaseOf(st, c), ns)
    ensures Alone(st, c, ph)
  {
    hide StoreOk, ManifestsOk, PhaseOk, BuildOk;
  }

  lemma {:induction false} ManifestsGrow(st: State, st': State)
    requires StoreOk(st) && ManifestsOk(st) && Extends(st, st')
    requires forall ns | ns in st'.mans.objs :: (ns in st.mans.objs && st'.mans.objs[ns].body == st.mans.objs[ns].body)
                                                || ManifestOk(st', ns, st'.mans.objs[ns].body)
    ensures ManifestsOk(st')
  {
    hide ManifestOk, StoreOk;
    forall ns | ns in st'.mans.objs ensures ManifestOk(st', ns, st'.mans.objs[ns].body) {
      if ns in st.mans.objs && st'.mans.objs[ns].body == st.mans.objs[ns].body {
        ManifestStable(st, st', ns, st.mans.objs[ns].body);
      }
    }
  }

  lemma {:induction false} StoreGrows(st: State, st': State)
    requires StoreOk(st) && Extends(st, st') && "" !in st'.mans.objs && st'.rank.Keys == st'.mans.objs.Keys
    requires forall ns | ns in st'.mans.objs :: st'.mans.objs[ns].etag <= st'.mans.counter
    requires forall ns | ns in st'.mans.objs :: (ns in st.mans.objs && st'.mans.objs[ns].body == st.mans.objs[ns].body)
                                                || NamespaceOk(st', ns)
    ensures StoreOk(st')
  {
    forall ns | ns in st'.mans.objs ensures NamespaceOk(st', ns) {
      if ns in st.mans.objs && st'.mans.objs[ns].body == st.mans.objs[ns].body {
        assert NamespaceOk(st, ns);
        DenseStable(st, st', ns, st.mans.objs[ns].body.walSeq);
      }
    }
  }

  lemma {:induction false} SameStoreExtends(st: State, st': State)
    requires StoreOk(st)
    requires st'.mans == st.mans && st'.segs == st.segs && st'.index == st.index && st'.rank == st.rank && st'.acked == st.acked && st'.builds == st.builds
    ensures Extends(st, st') && StoreOk(st')
  {
    hide Dense, Rooted;
    assert forall ns | ns in st.mans.objs :: NamespaceOk(st, ns);
    assert Extends(st, st');
    StoreGrowsSame(st, st');
  }

  lemma {:induction false} StoreGrowsSame(st: State, st': State)
    requires StoreOk(st) && Extends(st, st') && st'.mans == st.mans && st'.rank == st.rank
    ensures StoreOk(st')
  {
    assert forall ns | ns in st.mans.objs :: NamespaceOk(st, ns);
    hide Dense, Rooted, Extends;
    StoreGrows(st, st');
  }

  // A step that only moves its client on.
  lemma {:induction false} EnterKeeps(st: State, c: nat, ph: Phase)
    requires Inv(st) && PhaseOk(st, ph) && BuildOk(st, ph) && Alone(st, c, ph)
    ensures Inv(Enter(st, c, ph)) && Extends(st, Enter(st, c, ph))
  {
    hide StoreOk, ManifestOk, PhaseOk, BuildOk, Extends;
    var st' := Enter(st, c, ph);
    SameStoreExtends(st, st');
    ManifestsGrow(st, st');
    forall ns | ns in st.mans.objs ensures BuildUntouched(st, st', ns) {}
    UntouchedAll(st, st');
    OtherBuildStable(st, st', ph);
    PhaseStable(st, st', ph);
    BuildsStand(st, st');
    hide ManifestsOk, BuildUntouched, BuildsOk;
    Preserves(st, st', c, ph);
  }

  lemma {:induction false} BuildsStand(st: State, st': State)
    requires BuildsOk(st) && st'.index == st.index && st.builds <= st'.builds
    ensures BuildsOk(st')
  {
  }

  lemma {:induction false} UntouchedAll(st: State, st': State)
    requires st'.index == st.index
    requires forall ns | ns in st.mans.objs :: ns in st'.mans.objs && st'.mans.objs[ns].body.indexEpoch == st.mans.objs[ns].body.indexEpoch
    ensures forall ns :: BuildUntouched(st, st', ns)
  {
  }

  // ---------------------------------------------------------------- manifests

  lemma {:induction false} NewNamespaceExtends(st: State, st': State, ns: string, m: Manifest)
    requires StoreOk(st) && ns !in st.mans.objs
    requires st'.mans == Write(st.mans, ns, m) && st'.rank == st.rank[ns := st.mans.counter]
    requires st'.segs == st.segs && st'.index == st.index && st'.acked == st.acked && st'.builds == st.builds
    ensures Extends(st, st')
  {
    assert forall n | n in st.mans.objs :: NamespaceOk(st, n);
    hide Dense, Rooted;
  }

  predicate ForksWithin(st: State, m: Manifest) {
    && m.walSeq == m.Fork()
    && (m.IsBranch() ==>
          && m.parent in st.mans.objs
          && st.mans.objs[m.parent].body.Fork() <= m.forkWalSeq <= st.mans.objs[m.parent].body.walSeq)
  }

  lemma {:induction false} NewNamespaceOk(st: State, st': State, ns: string, m: Manifest)
    requires StoreOk(st) && ns !in st.mans.objs && ForksWithin(st, m)
    requires st'.mans == Write(st.mans, ns, m) && st'.rank == st.rank[ns := st.mans.counter]
    ensures NamespaceOk(st', ns)
  {
    if m.IsBranch() {
      assert NamespaceOk(st, m.parent);
    }
    hide StoreOk, Dense;
    assert Dense(st', ns, m.walSeq) by { EmptyDense(st', ns); }
  }

  lemma {:induction false} EmptyDense(st: State, ns: string)
    requires ns in st.mans.objs
    ensures Dense(st, ns, st.mans.objs[ns].body.Fork())
  {
  }

  // Creating a namespace, whichever way, keeps the store's invariant.
  lemma {:induction false} NewNamespaceStore(st: State, st': State, ns: string, m: Manifest)
    requires StoreOk(st) && ns !in st.mans.objs && ns != "" && ForksWithin(st, m)
    requires st'.mans == Write(st.mans, ns, m) && st'.rank == st.rank[ns := st.mans.counter]
    requires st'.segs == st.segs && st'.index == st.index && st'.acked == st.acked && st'.builds == st.builds
    ensures Extends(st, st') && StoreOk(st') && NamespaceOk(st', ns)
  {
    NewNamespaceExtends(st, st', ns, m);
    NewNamespaceOk(st, st', ns, m);
    assert forall n | n in st.mans.objs :: NamespaceOk(st, n);
    hide Dense, Rooted, Extends;
    StoreGrows(st, st');
  }

  lemma {:induction false} CreateKeeps(st: State, ns: string, dimension: nat, textField: string)
    requires Inv(st)
    ensures Inv(StepCreate(st, ns, dimension, textField)) && Extends(st, StepCreate(st, ns, dimension, textField))
  {
    var st' := StepCreate(st, ns, dimension, textField);
    hide StoreOk, PhaseOk, BuildOk, Extends, NamespaceOk;
    BuildsStand(st, st');
    hide BuildsOk;
    if ns == "" || ns in st.mans.objs {
      SameStoreExtends(st, st);
    } else {
      var m := Manifest(1, dimension, textField, 0, 0, 0, 0, "", 0, 0);
      NewNamespaceStore(st, st', ns, m);
      assert ManifestOk(st', ns, m);
      hide ManifestOk;
      ManifestsGrow(st, st');
      UntouchedAll(st, st');
      hide ManifestsOk, BuildUntouched;
      Unacted(st, st');
    }
  }

  // A step of no client.
  lemma {:induction false} Unacted(st: State, st': State)
    requires Inv(st) && StoreOk(st') && ManifestsOk(st') && BuildsOk(st') && Extends(st, st')
    requires st'.clients == st.clients && st'.acked == st.acked
    requires forall ns :: BuildUntouched(st, st', ns)
    ensures Inv(st')
  {
    hide StoreOk, ManifestsOk, PhaseOk, BuildOk, BuildUntouched;
    forall d | d in st'.clients ensures PhaseOk(st', st'.clients[d]) && BuildOk(st', st'.clients[d]) {
      PhaseStable(st, st', st.clients[d]);
      OtherBuildStable(st, st', st.clients[d]);
    }
    forall a | a in st'.acked ensures AckOk(st', a) { assert AckOk(st, a); }
  }

  lemma {:induction false} ForkWithin(st: State, parent: string, pm: Manifest)
    requires StoreOk(st) && ManifestOk(st, parent, pm)
    ensures ForksWithin(st, BranchManifest(parent, pm)) && parent in st.mans.objs && parent != ""
  {
    hide Covered, NamespaceOk;
  }

  // A phase that carries no knowledge.
  lemma {:induction false} IdlePhase(st: State, ph: Phase)
    requires ph.Idle? || ph.Failed? || ph.Published? || ph.Forked?
    ensures PhaseOk(st, ph) && BuildOk(st, ph) && forall ns :: !Builds(ph, ns)
  {
  }

  lemma {:induction false} LeaveKeeps(st: State, c: nat, ph: Phase)
    requires Inv(st) && (ph.Idle? || ph.Failed? || ph.Published? || ph.Forked?)
    ensures Inv(Enter(st, c, ph)) && Extends(st, Enter(st, c, ph))
  {
    hide Inv, Extends, PhaseOk, BuildOk;
    IdlePhase(st, ph);
    EnterKeeps(st, c, ph);
  }

  lemma {:induction false} ForkKeeps(st: State, c: nat, ph: Phase)
    requires Inv(st) && ph.Forking? && PhaseOk(st, ph)
    ensures Inv(StepFork(st, c, ph)) && Extends(st, StepFork(st, c, ph))
  {
    hide StoreOk, ManifestOk, ManifestsOk, ClientsOk, BuildsOk, AckOk, Extends;
    if ph.child in st.mans.objs {
      LeaveKeeps(st, c, Failed);
    } else {
      var st' := StepFork(st, c, ph);
      Branched(st, st', ph.parent, ph.pm, ph.child);
      hide PhaseOk;
      BranchKeeps(st, st', c, ph.child);
    }
  }

  // The store after a fork.
  lemma {:induction false} Branched(st: State, st': State, parent: string, pm: Manifest, child: string)
    requires StoreOk(st) && ManifestsOk(st) && ManifestOk(st, parent, pm) && child !in st.mans.objs && child != ""
    requires st'.mans == Write(st.mans, child, BranchManifest(parent, pm)) && st'.rank == st.rank[child := st.mans.counter]
    requires st'.segs == st.segs && st'.index == st.index && st'.acked == st.acked && st'.builds == st.builds
    ensures Extends(st, st') && StoreOk(st') && ManifestsOk(st')
  {
    hide StoreOk, Extends, NamespaceOk, ManifestOk, ManifestsOk;
    ForkWithin(st, parent, pm);
    NewNamespaceStore(st, st', child, BranchManifest(parent, pm));
    BranchCovered(st, st', parent, child, pm);
    ManifestsGrow(st, st');
  }

  lemma {:induction false} BranchKeeps(st: State, st': State, c: nat, child: string)
    requires Inv(st) && StoreOk(st') && ManifestsOk(st') && Extends(st, st')
    requires st'.index == st.index && st'.acked == st.acked && st'.builds == st.builds
    requires forall n | n in st.mans.objs :: n in st'.mans.objs && st'.mans.objs[n] == st.mans.objs[n]
    requires st'.clients == st.clients[c := Forked(child)]
    ensures Inv(st')
  {
    hide StoreOk, ManifestsOk, PhaseOk, BuildOk, Extends, AckOk;
    UntouchedAll(st, st');
    IdlePhase(st', Forked(child));
    BuildsStand(st, st');
    hide BuildsOk, BuildUntouched;
    Preserves(st, st', c, Forked(child));
  }

  // Below its fork point a branch has its parent's log.
  lemma {:induction false} SharedLog(st: State, parent: string, child: string, lo: nat, n: nat)
    requires parent in st.mans.objs && child in st.mans.objs && Rooted(st, child)
    requires st.mans.objs[child].body.parent == parent && st.mans.objs[child].body.IsBranch()
    requires n <= st.mans.objs[child].body.forkWalSeq
    ensures Log(st, child, lo, n) == Log(st, parent, lo, n)
    decreases n
  {
    if lo < n {
      SharedLog(st, parent, child, lo, n - 1);
      assert Owner(st, child, n - 1) == Owner(st, parent, n - 1);
    }
  }

  // The manifest BranchFrom writes, made from a possibly outdated parent manifest pm, is sound.
  lemma {:induction false} BranchCovered(st: State, st': State, parent: string, child: string, pm: Manifest)
    requires StoreOk(st) && Extends(st, st') && ManifestOk(st, parent, pm) && parent != ""
    requires child in st'.mans.objs && st'.mans.objs[child].body == BranchManifest(parent, pm) && NamespaceOk(st', child)
    requires parent in st'.mans.objs && st'.mans.objs[parent] == st.mans.objs[parent]
    ensures ManifestOk(st', child, BranchManifest(parent, pm))
  {
    ManifestStable(st, st', parent, pm);
    SharedLog(st', parent, child, 0, pm.indexedUpTo);
    hide StoreOk, Log, Owner, Dense;
    assert LiveAt(st', child, pm.indexedUpTo) == LiveAt(st', parent, pm.indexedUpTo);
  }

  // ---------------------------------------------------------------- compare-and-swap

  lemma {:induction false} SwapExtends(st: State, st': State, ns: string, m': Manifest)
    requires StoreOk(st) && ns in st.mans.objs && Grows(st.mans.objs[ns].body, m')
    requires st'.mans == Write(st.mans, ns, m') && st'.rank == st.rank
    requires st'.segs == st.segs && st'.index == st.index && st.acked <= st'.acked && st'.builds == st.builds
    ensures Extends(st, st')
  {
    assert forall n | n in st.mans.objs :: NamespaceOk(st, n);
    hide Dense, Rooted;
  }

  lemma {:induction false} SwapStore(st: State, st': State, ns: string, m': Manifest)
    requires StoreOk(st) && ns in st.mans.objs && Grows(st.mans.objs[ns].body, m')
    requires st'.mans == Write(st.mans, ns, m') && st'.rank == st.rank
    requires st'.segs == st.segs && st'.index == st.index && st.acked <= st'.acked && st'.builds == st.builds
    requires Dense(st, ns, m'.walSeq)
    ensures Extends(st, st') && StoreOk(st')
  {
    SwapExtends(st, st', ns, m');
    SwappedOk(st, st', ns, m');
    assert forall n | n in st.mans.objs :: NamespaceOk(st, n);
    hide Dense, Rooted, Extends;
    StoreGrows(st, st');
  }

  lemma {:induction false} SwappedOk(st: State, st': State, ns: string, m': Manifest)
    requires StoreOk(st) && ns in st.mans.objs && Grows(st.mans.objs[ns].body, m') && Extends(st, st')
    requires st'.mans == Write(st.mans, ns, m') && st'.rank == st.rank
    requires Dense(st, ns, m'.walSeq)
    ensures NamespaceOk(st', ns)
  {
    assert NamespaceOk(st, ns);
    DenseStable(st, st', ns, m'.walSeq);
    hide StoreOk, Dense, Extends;
  }

  // A committed write of one manifest, with what the writer has established about it.
  lemma {:induction false} CommitKeeps(st: State, st': State, c: nat, ns: string, m': Manifest, ph': Phase)
    requires Inv(st) && ns in st.mans.objs
    requires st'.mans == Write(st.mans, ns, m') && st'.clients == st.clients[c := ph']
    requires st'.index == st.index && st'.builds == st.builds
    requires StoreOk(st') && Extends(st, st') && ManifestOk(st', ns, m') && PhaseOk(st', ph') && BuildOk(st', ph')
    requires forall a | a in st'.acked && a !in st.acked :: AckOk(st', a)
    requires forall d, n | d in st.clients && d != c && Builds(st.clients[d], n) :: !Builds(ph', n) && BuildUntouched(st, st', n)
    ensures Inv(st')
  {
    hide StoreOk, ManifestOk, PhaseOk, BuildOk, BuildUntouched, Extends, ClientsOk, AckOk, Builds;
    ManifestsGrow(st, st');
    BuildsStand(st, st');
    hide ManifestsOk, BuildsOk;
    Preserves(st, st', c, ph');
  }

  lemma {:induction false} AdvanceKeeps(st: State, st': State, c: nat, ns: string, e: Edit)
    requires Inv(st) && e.Advance? && Dense(st, ns, e.committed + 1) && st.mans.objs[ns].body.Fork() <= e.committed
    requires st.segs.objs[(ns, e.committed)].body == e.docs
    requires st'.mans == Write(st.mans, ns, Mutate(e, st.mans.objs[ns].body)) && st'.rank == st.rank
    requires st'.segs == st.segs && st'.index == st.index && st'.acked == st.acked + {Ack(ns, e.committed, e.docs)} && st'.builds == st.builds
    requires st'.clients == st.clients[c := Acked(Ack(ns, e.committed, e.docs))]
    ensures Inv(st') && Extends(st, st')
  {
    hide Inv, StoreOk, PhaseOk, BuildOk, ManifestOk, BuildUntouched, Extends, AckOk, Builds, Mutate;
    var ack := Ack(ns, e.committed, e.docs);
    AdvancedStore(st, st', ns, e);
    AckedOk(st', ack);
    CommitKeeps(st, st', c, ns, Mutate(e, st.mans.objs[ns].body), Acked(ack));
  }

  // What the write of an upsert's manifest does to the store.
  lemma {:induction false} AdvancedStore(st: State, st': State, ns: string, e: Edit)
    requires Inv(st) && e.Advance? && Dense(st, ns, e.committed + 1) && st.mans.objs[ns].body.Fork() <= e.committed
    requires st.segs.objs[(ns, e.committed)].body == e.docs
    requires st'.mans == Write(st.mans, ns, Mutate(e, st.mans.objs[ns].body)) && st'.rank == st.rank
    requires st'.segs == st.segs && st'.index == st.index && st.acked <= st'.acked && st'.builds == st.builds
    ensures StoreOk(st') && Extends(st, st') && ManifestOk(st', ns, Mutate(e, st.mans.objs[ns].body))
    ensures AckOk(st', Ack(ns, e.committed, e.docs)) && forall n :: BuildUntouched(st, st', n)
  {
    var m := st.mans.objs[ns].body;
    hide StoreOk, ManifestOk, BuildUntouched, Extends, ClientsOk, BuildsOk;
    AdvanceDense(st, ns, e.committed);
    SwapStore(st, st', ns, Mutate(e, m));
    AdvanceManifest(st, st', ns, m, Mutate(e, m));
    UntouchedAll(st, st');
    AdvanceAck(st, st', ns, e);
    hide Inv, ManifestsOk, AckOk;
  }

  lemma {:induction false} AckedOk(st: State, ack: Ack)
    requires ack in st.acked
    ensures PhaseOk(st, Acked(ack)) && BuildOk(st, Acked(ack)) && forall n :: !Builds(Acked(ack), n)
  {
  }

  lemma {:induction false} AdvanceDense(st: State, ns: string, committed: nat)
    requires StoreOk(st) && ns in st.mans.objs && Dense(st, ns, committed + 1)
    ensures Dense(st, ns, Max(st.mans.objs[ns].body.walSeq, committed + 1))
  {
    assert NamespaceOk(st, ns);
  }

  lemma {:induction false} AdvanceManifest(st: State, st': State, ns: string, m: Manifest, m': Manifest)
    requires StoreOk(st) && ManifestsOk(st) && Extends(st, st') && ns in st.mans.objs && m == st.mans.objs[ns].body
    requires ns in st'.mans.objs && st'.mans.objs[ns].body == m'
    requires SameShape(m, m') && m.walSeq <= m'.walSeq && m.indexEpoch == m'.indexEpoch && m.indexedUpTo == m'.indexedUpTo
    ensures ManifestOk(st', ns, m')
  {
    ManifestStable(st, st', ns, m);
    hide StoreOk, ManifestsOk, PartsAre, LiveAt;
  }

  // The acknowledged documents are one segment below the new WALSeq.
  lemma {:induction false} AdvanceAck(st: State, st': State, ns: string, e: Edit)
    requires e.Advance? && Dense(st, ns, e.committed + 1) && st.mans.objs[ns].body.Fork() <= e.committed
    requires st.segs.objs[(ns, e.committed)].body == e.docs && st'.segs == st.segs
    requires ns in st'.mans.objs && st'.mans.objs[ns].body == Mutate(e, st.mans.objs[ns].body)
    ensures AckOk(st', Ack(ns, e.committed, e.docs))
  {
  }

  // A build of ns leaves the builds of other namespaces alone.
  lemma {:induction false} OthersUntouched(st: State, st': State, c: nat, ns: string)
    requires ClientsOk(st) && c in st.clients && Builds(st.clients[c], ns)
    requires forall n | n in st.mans.objs && n != ns :: n in st'.mans.objs && st'.mans.objs[n] == st.mans.objs[n]
    requires forall k: IndexKey | k.ns != ns :: (k in st'.index.objs <==> k in st.index.objs)
               && (k in st.index.objs ==> st'.index.objs[k].body == st.index.objs[k].body)
    ensures forall d, n | d in st.clients && d != c && Builds(st.clients[d], n) :: BuildUntouched(st, st', n)
  {
    hide PhaseOk, BuildOk, Builds;
  }

  lemma {:induction false} PublishKeeps(st: State, st': State, c: nat, ns: string, e: Edit)
    requires Inv(st) && e.Publish? && ns in st.mans.objs && e.epoch == st.mans.objs[ns].body.indexEpoch + 1
    requires st.mans.objs[ns].body.Fork() <= e.walUpTo <= st.mans.objs[ns].body.walSeq && PartsAre(st, ns, e.epoch, LiveAt(st, ns, e.walUpTo))
    requires c in st.clients && Builds(st.clients[c], ns)
    requires st'.mans == Write(st.mans, ns, Mutate(e, st.mans.objs[ns].body)) && st'.rank == st.rank
    requires st'.segs == st.segs && st'.index == st.index && st'.acked == st.acked && st'.builds == st.builds
    requires st'.clients == st.clients[c := Published(ns, e.epoch)]
    ensures Inv(st') && Extends(st, st')
  {
    hide Inv, StoreOk, PhaseOk, BuildOk, ManifestOk, ManifestsOk, Extends, AckOk, Builds, PartsAre, LiveAt, BuildUntouched, ClientsOk, Mutate;
    var m := st.mans.objs[ns].body;
    InvParts(st);
    PublishedStore(st, st', ns, m, e);
    IdlePhase(st', Published(ns, e.epoch));
    OthersUntouched(st, st', c, ns);
    CommitKeeps(st, st', c, ns, Mutate(e, m), Published(ns, e.epoch));
  }

  lemma {:induction false} InvParts(st: State)
    requires Inv(st)
    ensures StoreOk(st) && ManifestsOk(st) && ClientsOk(st)
  {
    hide StoreOk, ManifestsOk, ClientsOk;
  }

  lemma {:induction false} PublishedStore(st: State, st': State, ns: string, m: Manifest, e: Edit)
    requires StoreOk(st) && ManifestsOk(st) && ns in st.mans.objs && m == st.mans.objs[ns].body
    requires e.Publish? && e.epoch == m.indexEpoch + 1 && m.Fork() <= e.walUpTo <= m.walSeq
    requires PartsAre(st, ns, e.epoch, LiveAt(st, ns, e.walUpTo))
    requires st'.mans == Write(st.mans, ns, Mutate(e, m)) && st'.rank == st.rank
    requires st'.segs == st.segs && st'.index == st.index && st'.acked == st.acked && st'.builds == st.builds
    ensures Extends(st, st') && StoreOk(st') && ManifestOk(st', ns, Mutate(e, m))
  {
    hide StoreOk, ManifestOk, ManifestsOk, Extends, PartsAre, LiveAt, Dense;
    WalDense(st, ns);
    SwapStore(st, st', ns, Mutate(e, m));
    PublishManifest(st, st', ns, m, e);
  }

  lemma {:induction false} WalDense(st: State, ns: string)
    requires StoreOk(st) && ns in st.mans.objs
    ensures Dense(st, ns, st.mans.objs[ns].body.walSeq)
  {
    assert NamespaceOk(st, ns);
  }

  lemma {:induction false} PublishManifest(st: State, st': State, ns: string, m: Manifest, e: Edit)
    requires StoreOk(st) && ManifestsOk(st) && Extends(st, st') && ns in st.mans.objs && m == st.mans.objs[ns].body
    requires e.Publish? && e.epoch == m.indexEpoch + 1 && m.Fork() <= e.walUpTo <= m.walSeq
    requires PartsAre(st, ns, e.epoch, LiveAt(st, ns, e.walUpTo)) && st'.index == st.index
    requires ns in st'.mans.objs && st'.mans.objs[ns].body == Mutate(e, m)
    ensures ManifestOk(st', ns, Mutate(e, m))
  {
    assert ManifestOk(st, ns, m);
    hide Covered, PartsAre;
    LogStable(st, st', ns, 0, e.walUpTo);
    hide StoreOk, ManifestsOk, Extends, LiveAt, Log;
    PublishCovers(st, st', ns, Mutate(e, m));
  }

  lemma {:induction false} PublishCovers(st: State, st': State, ns: string, m: Manifest)
    requires m.indexEpoch > 0 && PartsAre(st, ns, m.indexEpoch, LiveAt(st, ns, m.indexedUpTo))
    requires st'.index == st.index && LiveAt(st', ns, m.indexedUpTo) == LiveAt(st, ns, m.indexedUpTo)
    ensures Covered(st', ns, m)
  {
    hide LiveAt;
  }

  // The knowledge of a client in the compare-and-swap loop does not depend on its attempt.
  lemma {:induction false} SavingOk(st: State, ph: Phase, ph': Phase)
    requires StoreOk(st) && ph.Saving? && PhaseOk(st, ph) && BuildOk(st, ph)
    requires ph'.Saving? && ph'.ns == ph.ns && ph'.edit == ph.edit
    requires ph'.loaded.None? || (ph.ns in st.mans.objs && ph'.loaded.value == st.mans.objs[ph.ns])
    ensures PhaseOk(st, ph') && BuildOk(st, ph')
  {
    if ph'.loaded.Some? { assert NamespaceOk(st, ph.ns); }
    hide StoreOk, PartsAre, LiveAt, Dense, Rooted;
  }

  lemma {:induction false} KnownPhase(st: State, c: nat)
    requires Inv(st) && c in st.clients
    ensures PhaseOk(st, st.clients[c]) && BuildOk(st, st.clients[c]) && StoreOk(st)
  {
    hide PhaseOk, BuildOk, StoreOk, ManifestsOk, AckOk, Builds;
  }

  lemma {:induction false} RetryKeeps(st: State, c: nat, ph: Phase, ph': Phase)
    requires Inv(st) && c in st.clients && st.clients[c] == ph && ph.Saving?
    requires ph'.Saving? && ph'.ns == ph.ns && ph'.edit == ph.edit
    requires ph'.loaded.None? || (ph.ns in st.mans.objs && ph'.loaded.value == st.mans.objs[ph.ns])
    ensures Inv(Enter(st, c, ph')) && Extends(st, Enter(st, c, ph'))
  {
    hide Inv, PhaseOk, BuildOk, StoreOk, Extends;
    KnownPhase(st, c);
    SavingOk(st, ph, ph');
    StillAlone(st, c, ph');
    EnterKeeps(st, c, ph');
  }

  lemma {:induction false} SaveKeeps(st: State, c: nat, ph: Phase)
    requires Inv(st) && ph.Saving? && c in st.clients && st.clients[c] == ph
    ensures Inv(StepSave(st, c, ph)) && Extends(st, StepSave(st, c, ph))
  {
    hide Inv, StoreOk, Extends, PartsAre, LiveAt;
    KnownPhase(st, c);
    if ph.loaded.None? {
      hide PhaseOk, BuildOk;
      if ph.attempt >= MAX_CAS_ATTEMPTS || ph.ns !in st.mans.objs {
        LeaveKeeps(st, c, Failed);
      } else {
        RetryKeeps(st, c, ph, Saving(ph.ns, ph.edit, ph.attempt, Some(st.mans.objs[ph.ns])));
      }
    } else if ph.ns !in st.mans.objs || st.mans.objs[ph.ns].etag != ph.loaded.value.etag {
      hide PhaseOk, BuildOk;
      RetryKeeps(st, c, ph, Saving(ph.ns, ph.edit, ph.attempt + 1, None));
    } else if ph.edit.Advance? {
      AdvanceKeeps(st, StepSave(st, c, ph), c, ph.ns, ph.edit);
    } else {
      PublishKeeps(st, StepSave(st, c, ph), c, ph.ns, ph.edit);
    }
  }
}

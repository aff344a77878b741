// The invariant of the protocol and its preservation by every step.

module ProtocolInvariant {
  import opened Types
  import opened Protocol

  // ---------------------------------------------------------------- the invariant

  // A manifest's immutable part: its schema, and where it was forked.
  ghost predicate SameShape(a: Manifest, b: Manifest) {
    && a.dimension == b.dimension && a.textField == b.textField
    && a.parent == b.parent && a.forkWalSeq == b.forkWalSeq && a.forkIndexEpoch == b.forkIndexEpoch
  }

  ghost predicate Grows(a: Manifest, b: Manifest) {
    && SameShape(a, b)
    && a.walSeq <= b.walSeq
    && a.indexEpoch <= b.indexEpoch
    && (a.indexEpoch == b.indexEpoch ==> a.indexedUpTo == b.indexedUpTo)
  }

  // Every object present under the epoch's prefix was derived from the given snapshot, by one build.
  ghost predicate PartsAre(st: State, ns: string, epoch: nat, live: Live) {
    && (forall p :: IndexKey(ns, epoch, p) in st.index.objs ==> st.index.objs[IndexKey(ns, epoch, p)].body.live == live)
    && (forall p, q :: IndexKey(ns, epoch, p) in st.index.objs && IndexKey(ns, epoch, q) in st.index.objs ==>
          st.index.objs[IndexKey(ns, epoch, p)].body == st.index.objs[IndexKey(ns, epoch, q)].body)
  }

  // Every object present under the epoch's prefix is this build's.
  ghost predicate PartsBy(st: State, ns: string, epoch: nat, b: Built) {
    forall p :: IndexKey(ns, epoch, p) in st.index.objs ==> st.index.objs[IndexKey(ns, epoch, p)].body == b
  }

  ghost predicate KnownBuild(st: State, b: Built) {
    b.build < |st.builds| && st.builds[b.build] == b.live
  }

  ghost predicate NoParts(st: State, ns: string, epoch: nat) {
    forall p :: IndexKey(ns, epoch, p) !in st.index.objs
  }

  // What the index named by manifest m covers.
  ghost predicate Covered(st: State, ns: string, m: Manifest) {
    if m.indexEpoch > 0 then PartsAre(st, ns, m.indexEpoch, LiveAt(st, ns, m.indexedUpTo))
    else if !m.IsBranch() then m.indexedUpTo == 0
    else
      && m.parent in st.mans.objs
      && m.indexedUpTo <= m.forkWalSeq
      && var pm := st.mans.objs[m.parent].body;
      if m.forkIndexEpoch > 0 then
        m.forkIndexEpoch <= pm.indexEpoch && PartsAre(st, m.parent, m.forkIndexEpoch, LiveAt(st, ns, m.indexedUpTo))
      else
        m.indexedUpTo <= pm.Fork() && (pm.indexEpoch == 0 ==> pm.indexedUpTo == m.indexedUpTo)
  }

  // m is, or once was, the manifest of ns.
  ghost predicate ManifestOk(st: State, ns: string, m: Manifest) {
    && ns in st.mans.objs
    && Grows(m, st.mans.objs[ns].body)
    && m.Fork() <= m.walSeq
    && m.indexedUpTo <= m.walSeq
    && (m.indexEpoch > 0 ==> m.Fork() <= m.indexedUpTo)
    && Covered(st, ns, m)
  }

  ghost predicate Dense(st: State, ns: string, upTo: nat) {
    && ns in st.mans.objs
    && forall s | st.mans.objs[ns].body.Fork() <= s < upTo :: (ns, s) in st.segs.objs
  }

  ghost predicate Rooted(st: State, ns: string) {
    && ns in st.mans.objs
    && var m := st.mans.objs[ns].body;
    m.IsBranch() ==>
      && m.parent in st.mans.objs
      && m.parent in st.rank && ns in st.rank && st.rank[m.parent] < st.rank[ns]
      && st.mans.objs[m.parent].body.Fork() <= m.forkWalSeq <= st.mans.objs[m.parent].body.walSeq
  }

  ghost predicate NamespaceOk(st: State, ns: string)
    requires ns in st.mans.objs
  {
    && Dense(st, ns, st.mans.objs[ns].body.walSeq)
    && Rooted(st, ns)
    && st.mans.objs[ns].etag <= st.mans.counter
    && ns in st.rank && st.rank[ns] < st.mans.counter
  }

  ghost predicate StoreOk(st: State) {
    && "" !in st.mans.objs
    && st.rank.Keys == st.mans.objs.Keys
    && (forall ns | ns in st.mans.objs :: NamespaceOk(st, ns))
  }

  ghost predicate ManifestsOk(st: State) {
    forall ns | ns in st.mans.objs :: ManifestOk(st, ns, st.mans.objs[ns].body)
  }

  // An acknowledged upsert sits, whole, in its own segment below WALSeq.
  ghost predicate AckOk(st: State, a: Ack) {
    && a.ns in st.mans.objs
    && st.mans.objs[a.ns].body.Fork() <= a.seqNo < st.mans.objs[a.ns].body.walSeq
    && (a.ns, a.seqNo) in st.segs.objs
    && st.segs.objs[(a.ns, a.seqNo)].body == a.docs
  }

  ghost predicate JobOk(st: State, job: Job) {
    && ManifestOk(st, job.ns, job.m)
    && job.acked <= st.acked
    && (forall a | a in job.acked && a.ns == job.ns :: a.seqNo < job.m.walSeq)
  }

  // The runs tile [lo, hi) in order, and each position is read from its owner.
  ghost predicate Tiles(st: State, ns: string, sources: seq<Source>, lo: nat, hi: nat)
    decreases |sources|
  {
    if sources == [] then lo == hi
    else
      && sources[0].from == lo < sources[0].to
      && (forall s | lo <= s < sources[0].to :: Owner(st, ns, s) == sources[0].ns)
      && Tiles(st, ns, sources[1..], sources[0].to, hi)
  }

  ghost predicate WalkOk(st: State, job: Job, cur: string, curM: Manifest, sources: seq<Source>) {
    && cur in st.mans.objs
    && SameShape(curM, st.mans.objs[cur].body)
    && curM.Fork() <= curM.walSeq <= job.m.walSeq
    && curM.walSeq <= st.mans.objs[cur].body.walSeq
    && (forall s | 0 <= s < curM.walSeq :: Owner(st, job.ns, s) == Owner(st, cur, s))
    && Tiles(st, job.ns, sources, curM.walSeq, job.m.walSeq)
  }

  // Each namespace of the chain is the parent of the one before.
  ghost predicate ParentChain(st: State, chain: seq<string>) {
    forall i | 0 <= i < |chain| - 1 ::
      chain[i] in st.mans.objs && st.mans.objs[chain[i]].body.IsBranch()
      && st.mans.objs[chain[i]].body.parent == chain[i + 1]
  }

  function ForkAt(st: State, ns: string): nat { if ns in st.mans.objs then st.mans.objs[ns].body.forkWalSeq else 0 }

  // A path of resolveIndex from the namespace read: no fork on it captured an epoch, and what the
  // namespace takes to be indexed lies below every fork point on it.
  ghost predicate PathOk(st: State, job: Job, path: seq<string>) {
    && path != [] && path[0] == job.ns && ParentChain(st, path)
    && forall i | 0 <= i < |path| - 1 ::
         path[i] in st.mans.objs && st.mans.objs[path[i]].body.forkIndexEpoch == 0 && job.m.indexedUpTo <= ForkAt(st, path[i])
  }

  // The index a manifest leads to was fixed before it was read: a root, a namespace with an epoch of
  // its own, or a fork that captured one.
  predicate Settled(m: Manifest) { !m.IsBranch() || m.indexEpoch > 0 || m.forkIndexEpoch > 0 }

  // While resolveIndex climbs past un-indexed namespaces, the coverage it looks for is the leaf's.
  ghost predicate ClimbOk(st: State, job: Job, cur: string, curM: Manifest, depth: nat, path: seq<string>) {
    && ManifestOk(st, cur, curM)
    && (depth == 0 ==> cur == job.ns && curM == job.m)
    && (depth > 0 ==> !Settled(job.m) && job.m.indexedUpTo <= curM.Fork())
    && PathOk(st, job, path) && |path| == depth + 1 && path[depth] == cur
    && (curM.indexEpoch == 0 ==>
          && job.m.indexedUpTo == curM.indexedUpTo
          && forall s | 0 <= s < job.m.indexedUpTo :: Owner(st, job.ns, s) == Owner(st, cur, s))
  }

  // An ancestor's epoch is read only by a branch whose own manifest leads to none.
  ghost predicate BasisOk(st: State, job: Job, basis: Basis) {
    basis.Ancestor? ==>
      && !Settled(job.m)
      && |basis.path| >= 2 && PathOk(st, job, basis.path)
      && ManifestOk(st, basis.path[|basis.path| - 1], basis.m)
      && basis.m.indexEpoch > 0 && job.m.indexedUpTo <= basis.m.Fork()
  }

  // The documents behind the objects a read uses.
  function BasisLive(st: State, job: Job, basis: Basis): Live {
    match basis
    case Own => LiveAt(st, job.ns, job.From())
    case Ancestor(path, m) => if path == [] then map[] else LiveAt(st, path[|path| - 1], m.indexedUpTo)
  }

  ghost predicate TargetOk(st: State, job: Job, t: Target, basis: Basis, gathered: Option<Built>) {
    && t.ns in st.mans.objs
    && t.epoch <= st.mans.objs[t.ns].body.indexEpoch
    && BasisOk(st, job, basis)
    && PartsAre(st, t.ns, t.epoch, BasisLive(st, job, basis))
    && (gathered.Some? ==>
          && KnownBuild(st, gathered.value) && gathered.value.live == BasisLive(st, job, basis)
          && PartsBy(st, t.ns, t.epoch, gathered.value))
  }

  ghost predicate BaseOk(st: State, job: Job, basis: Basis, base: Option<Built>) {
    && BasisOk(st, job, basis)
    && BaseLive(base) == BasisLive(st, job, basis)
    && (base.Some? ==> KnownBuild(st, base.value))
  }

  function Clamp(lo: nat, x: nat, hi: nat): nat { Max(lo, Min(hi, x)) }

  ghost predicate FoldOk(st: State, ph: Phase)
    requires ph.Folding?
  {
    var job := ph.job;
    && Tiles(st, job.ns, ph.sources, 0, job.m.walSeq)
    && BaseOk(st, job, ph.basis, ph.base)
    && ph.i <= |ph.sources|
    && (ph.i < |ph.sources| ==>
          && Max(job.From(), ph.sources[ph.i].from) <= ph.next
          && (ph.next <= Max(job.From(), ph.sources[ph.i].from) || ph.next <= Min(job.m.walSeq, ph.sources[ph.i].to))
          && ph.view == Fold(EmptyView, Log(st, job.ns, job.From(), Clamp(job.From(), ph.next, job.m.walSeq))))
    && (ph.i == |ph.sources| ==> ph.view == Fold(EmptyView, Log(st, job.ns, job.From(), job.m.walSeq)))
  }

  ghost predicate PhaseOk(st: State, ph: Phase) {
    match ph
    case Probing(ns, docs, seqNo, _) =>
      Dense(st, ns, seqNo) && st.mans.objs[ns].body.Fork() <= seqNo
    case Saving(ns, edit, _, loaded) =>
      && (loaded.Some? ==>
            && ns in st.mans.objs && loaded.value.etag <= st.mans.counter
            && (st.mans.objs[ns].etag == loaded.value.etag ==> st.mans.objs[ns].body == loaded.value.body))
      && (edit.Advance? ==>
            && Dense(st, ns, edit.committed + 1) && st.mans.objs[ns].body.Fork() <= edit.committed
            && st.segs.objs[(ns, edit.committed)].body == edit.docs)
    case Acked(a) => a in st.acked
    case Forking(parent, pm, child) => child != "" && ManifestOk(st, parent, pm)
    case Walking(job, cur, curM, _, sources) => JobOk(st, job) && WalkOk(st, job, cur, curM, sources)
    case Targeting(job, cur, curM, depth, sources, path) =>
      JobOk(st, job) && !job.build && Tiles(st, job.ns, sources, 0, job.m.walSeq) && ClimbOk(st, job, cur, curM, depth, path)
    case Gathering(job, sources, target, basis, gathered) =>
      JobOk(st, job) && !job.build && Tiles(st, job.ns, sources, 0, job.m.walSeq) && TargetOk(st, job, target, basis, gathered)
    case Folding(job, _, _, _, _, _, _) => JobOk(st, job) && FoldOk(st, ph)
    case Answer(job, basis, base, view) =>
      && JobOk(st, job) && !job.build && BaseOk(st, job, basis, base)
      && view == Fold(EmptyView, Log(st, job.ns, job.m.indexedUpTo, job.m.walSeq))
    case _ => true
  }

  // What a build under way knows about the epoch it is writing.
  ghost predicate BuildOk(st: State, ph: Phase) {
    match ph
    case Walking(job, _, _, _, _) =>
      job.build ==> job.ns in st.mans.objs && job.m.indexEpoch == st.mans.objs[job.ns].body.indexEpoch
                    && NoParts(st, job.ns, job.m.indexEpoch + 1)
    case Folding(job, _, _, _, _, _, _) =>
      job.build ==> job.ns in st.mans.objs && job.m.indexEpoch == st.mans.objs[job.ns].body.indexEpoch
                    && NoParts(st, job.ns, job.m.indexEpoch + 1)
    case Writing(ns, epoch, walUpTo, live, build) =>
      && ns in st.mans.objs && epoch == st.mans.objs[ns].body.indexEpoch + 1
      && st.mans.objs[ns].body.Fork() <= walUpTo <= st.mans.objs[ns].body.walSeq
      && live == LiveAt(st, ns, walUpTo)
      && PartsBy(st, ns, epoch, Built(live, build)) && KnownBuild(st, Built(live, build))
    case Saving(ns, edit, _, _) =>
      edit.Publish? ==>
        && ns in st.mans.objs && edit.epoch == st.mans.objs[ns].body.indexEpoch + 1
        && st.mans.objs[ns].body.Fork() <= edit.walUpTo <= st.mans.objs[ns].body.walSeq
        && PartsAre(st, ns, edit.epoch, LiveAt(st, ns, edit.walUpTo))
    case _ => true
  }

  ghost predicate ClientsOk(st: State) {
    && (forall c | c in st.clients :: PhaseOk(st, st.clients[c]))
    && (forall c | c in st.clients :: BuildOk(st, st.clients[c]))
    && (forall c, d, ns | c in st.clients && d in st.clients && Builds(st.clients[c], ns) && Builds(st.clients[d], ns) :: c == d)
  }

  // Every index object names the build that wrote it.
  ghost predicate BuildsOk(st: State) {
    forall k | k in st.index.objs :: KnownBuild(st, st.index.objs[k].body)
  }

  ghost predicate Inv(st: State) {
    && StoreOk(st)
    && ManifestsOk(st)
    && (forall a | a in st.acked :: AckOk(st, a))
    && BuildsOk(st)
    && ClientsOk(st)
  }

  // ---------------------------------------------------------------- what no step undoes

  ghost predicate Extends(st: State, st': State) {
    && st.mans.counter <= st'.mans.counter
    && (forall ns | ns in st.mans.objs ::
          && ns in st'.mans.objs
          && Grows(st.mans.objs[ns].body, st'.mans.objs[ns].body)
          && (st'.mans.objs[ns] == st.mans.objs[ns] || st.mans.counter < st'.mans.objs[ns].etag)
          && ns in st.rank && ns in st'.rank && st'.rank[ns] == st.rank[ns])
    && (forall k | k in st.segs.objs :: k in st'.segs.objs && st'.segs.objs[k].body == st.segs.objs[k].body)
    && (forall k: IndexKey | k.ns in st.mans.objs && k.epoch <= st.mans.objs[k.ns].body.indexEpoch ::
          (k in st'.index.objs <==> k in st.index.objs) && (k in st.index.objs ==> st'.index.objs[k].body == st.index.objs[k].body))
    && st.acked <= st'.acked && st.builds <= st'.builds
  }

  lemma {:induction false} ExtendsTransitive(a: State, b: State, c: State)
    requires Extends(a, b) && Extends(b, c)
    ensures Extends(a, c)
  {
  }

  lemma {:induction false} OwnerStable(st: State, st': State, ns: string, s: nat)
    requires StoreOk(st) && Extends(st, st') && ns in st.mans.objs
    ensures Owner(st', ns, s) == Owner(st, ns, s) && Owner(st, ns, s) in st.mans.objs
    decreases if ns in st.rank then st.rank[ns] else 0
  {
    var m := st.mans.objs[ns].body;
    assert NamespaceOk(st, ns);
    assert st'.mans.objs[ns].body.Fork() == m.Fork();
    if s < m.Fork() {
      OwnerStable(st, st', m.parent, s);
    }
  }

  // Every position below WALSeq has its segment under its owner's prefix.
  lemma {:induction false} SegmentPresent(st: State, ns: string, s: nat)
    requires StoreOk(st) && ns in st.mans.objs && s < st.mans.objs[ns].body.walSeq
    ensures (Owner(st, ns, s), s) in st.segs.objs
    decreases if ns in st.rank then st.rank[ns] else 0
  {
    var m := st.mans.objs[ns].body;
    assert NamespaceOk(st, ns);
    if s < m.Fork() {
      SegmentPresent(st, m.parent, s);
    }
  }

  lemma {:induction false} LogStable(st: State, st': State, ns: string, lo: nat, hi: nat)
    requires StoreOk(st) && Extends(st, st') && ns in st.mans.objs && hi <= st.mans.objs[ns].body.walSeq
    ensures Log(st', ns, lo, hi) == Log(st, ns, lo, hi)
    decreases hi
  {
    hide Dense;
    if lo < hi {
      LogStable(st, st', ns, lo, hi - 1);
      OwnerStable(st, st', ns, hi - 1);
      SegmentPresent(st, ns, hi - 1);
    }
  }

  lemma {:induction false} TilesStable(st: State, st': State, ns: string, sources: seq<Source>, lo: nat, hi: nat)
    requires StoreOk(st) && Extends(st, st') && ns in st.mans.objs
    requires Tiles(st, ns, sources, lo, hi)
    ensures Tiles(st', ns, sources, lo, hi)
    decreases |sources|
  {
    if sources != [] {
      forall s | lo <= s < sources[0].to ensures Owner(st', ns, s) == sources[0].ns {
        OwnerStable(st, st', ns, s);
      }
      TilesStable(st, st', ns, sources[1..], sources[0].to, hi);
    }
  }

  lemma {:induction false} PartsStable(st: State, st': State, ns: string, epoch: nat, live: Live)
    requires Extends(st, st') && ns in st.mans.objs && epoch <= st.mans.objs[ns].body.indexEpoch
    requires PartsAre(st, ns, epoch, live)
    ensures PartsAre(st', ns, epoch, live)
  {
    PartsKept(st, st', ns, epoch);
  }

  lemma {:induction false} PartsKept(st: State, st': State, ns: string, epoch: nat)
    requires Extends(st, st') && ns in st.mans.objs && epoch <= st.mans.objs[ns].body.indexEpoch
    ensures forall p :: IndexKey(ns, epoch, p) in st'.index.objs <==> IndexKey(ns, epoch, p) in st.index.objs
    ensures forall p :: IndexKey(ns, epoch, p) in st'.index.objs ==>
              st'.index.objs[IndexKey(ns, epoch, p)].body == st.index.objs[IndexKey(ns, epoch, p)].body
  {
    forall p
      ensures IndexKey(ns, epoch, p) in st'.index.objs <==> IndexKey(ns, epoch, p) in st.index.objs
      ensures IndexKey(ns, epoch, p) in st'.index.objs ==>
                st'.index.objs[IndexKey(ns, epoch, p)].body == st.index.objs[IndexKey(ns, epoch, p)].body
    {
      var k := IndexKey(ns, epoch, p);
      assert k.ns in st.mans.objs && k.epoch <= st.mans.objs[k.ns].body.indexEpoch;
    }
  }

  lemma {:induction false} ManifestStable(st: State, st': State, ns: string, m: Manifest)
    requires StoreOk(st) && Extends(st, st') && ManifestOk(st, ns, m)
    ensures ManifestOk(st', ns, m)
  {
    LogStable(st, st', ns, 0, m.indexedUpTo);
    if m.indexEpoch > 0 {
      PartsStable(st, st', ns, m.indexEpoch, LiveAt(st, ns, m.indexedUpTo));
    } else if m.IsBranch() && m.forkIndexEpoch > 0 {
      PartsStable(st, st', m.parent, m.forkIndexEpoch, LiveAt(st, ns, m.indexedUpTo));
    }
  }

  lemma {:induction false} OwnersStable(st: State, st': State, a: string, b: string, n: nat)
    requires StoreOk(st) && Extends(st, st') && a in st.mans.objs && b in st.mans.objs
    requires forall s | 0 <= s < n :: Owner(st, a, s) == Owner(st, b, s)
    ensures forall s | 0 <= s < n :: Owner(st', a, s) == Owner(st', b, s)
  {
    forall s | 0 <= s < n ensures Owner(st', a, s) == Owner(st', b, s) {
      OwnerStable(st, st', a, s);
      OwnerStable(st, st', b, s);
    }
  }

  lemma {:induction false} DenseStable(st: State, st': State, ns: string, upTo: nat)
    requires Extends(st, st') && Dense(st, ns, upTo)
    ensures Dense(st', ns, upTo)
  {
  }

  lemma {:induction false} JobStable(st: State, st': State, job: Job)
    requires StoreOk(st) && Extends(st, st') && JobOk(st, job)
    ensures JobOk(st', job)
  {
    ManifestStable(st, st', job.ns, job.m);
    hide ManifestOk, StoreOk;
  }

  lemma {:induction false} WalkStable(st: State, st': State, job: Job, cur: string, curM: Manifest, sources: seq<Source>)
    requires StoreOk(st) && Extends(st, st') && job.ns in st.mans.objs && WalkOk(st, job, cur, curM, sources)
    ensures WalkOk(st', job, cur, curM, sources)
  {
    OwnersStable(st, st', job.ns, cur, curM.walSeq);
    TilesStable(st, st', job.ns, sources, curM.walSeq, job.m.walSeq);
    hide Tiles, StoreOk, Owner;
  }

  lemma {:induction false} PathStable(st: State, st': State, job: Job, path: seq<string>)
    requires Extends(st, st') && PathOk(st, job, path)
    ensures PathOk(st', job, path)
  {
  }

  lemma {:induction false} ClimbStable(st: State, st': State, job: Job, cur: string, curM: Manifest, depth: nat, path: seq<string>)
    requires StoreOk(st) && Extends(st, st') && job.ns in st.mans.objs && ClimbOk(st, job, cur, curM, depth, path)
    ensures ClimbOk(st', job, cur, curM, depth, path)
  {
    ManifestStable(st, st', cur, curM);
    PathStable(st, st', job, path);
    assert cur in st.mans.objs;
    if curM.indexEpoch == 0 { OwnersStable(st, st', job.ns, cur, job.m.indexedUpTo); }
    hide ManifestOk, StoreOk, Owner, Extends, PathOk;
  }

  lemma {:induction false} BasisStable(st: State, st': State, job: Job, basis: Basis)
    requires StoreOk(st) && Extends(st, st') && ManifestOk(st, job.ns, job.m) && BasisOk(st, job, basis)
    ensures BasisOk(st', job, basis) && BasisLive(st', job, basis) == BasisLive(st, job, basis)
  {
    if basis.Own? {
      hide Covered;
      LogStable(st, st', job.ns, 0, job.From());
    } else {
      var a := basis.path[|basis.path| - 1];
      PathStable(st, st', job, basis.path);
      ManifestStable(st, st', a, basis.m);
      hide Covered;
      LogStable(st, st', a, 0, basis.m.indexedUpTo);
    }
    hide StoreOk, Extends, Log, PathOk;
  }

  lemma {:induction false} TargetStable(st: State, st': State, job: Job, t: Target, basis: Basis, gathered: Option<Built>)
    requires StoreOk(st) && Extends(st, st') && ManifestOk(st, job.ns, job.m) && TargetOk(st, job, t, basis, gathered)
    ensures TargetOk(st', job, t, basis, gathered)
  {
    hide Covered, BasisOk, BasisLive;
    BasisStable(st, st', job, basis);
    PartsStable(st, st', t.ns, t.epoch, BasisLive(st, job, basis));
    PartsKept(st, st', t.ns, t.epoch);
    hide PartsAre, StoreOk;
  }

  lemma {:induction false} BaseStable(st: State, st': State, job: Job, basis: Basis, base: Option<Built>)
    requires StoreOk(st) && Extends(st, st') && ManifestOk(st, job.ns, job.m) && BaseOk(st, job, basis, base)
    ensures BaseOk(st', job, basis, base)
  {
    hide Covered, BasisOk, BasisLive;
    BasisStable(st, st', job, basis);
    hide StoreOk, ManifestOk;
  }

  lemma {:induction false} FoldStable(st: State, st': State, ph: Phase)
    requires StoreOk(st) && Extends(st, st') && ph.Folding? && ManifestOk(st, ph.job.ns, ph.job.m) && FoldOk(st, ph)
    ensures FoldOk(st', ph)
  {
    hide Covered, BaseOk;
    var job := ph.job;
    TilesStable(st, st', job.ns, ph.sources, 0, job.m.walSeq);
    BaseStable(st, st', job, ph.basis, ph.base);
    LogStable(st, st', job.ns, job.From(), job.m.walSeq);
    LogStable(st, st', job.ns, job.From(), Clamp(job.From(), ph.next, job.m.walSeq));
    hide Tiles, Log, StoreOk, Extends;
  }

  lemma {:induction false} AnswerStable(st: State, st': State, ph: Phase)
    requires StoreOk(st) && Extends(st, st') && ph.Answer? && PhaseOk(st, ph)
    ensures PhaseOk(st', ph)
  {
    JobStable(st, st', ph.job);
    hide Covered, BaseOk;
    BaseStable(st, st', ph.job, ph.basis, ph.base);
    LogStable(st, st', ph.job.ns, ph.job.m.indexedUpTo, ph.job.m.walSeq);
    hide StoreOk, Extends, Log;
  }

  // A client that is not acting keeps what it knows.
  lemma {:induction false} PhaseStable(st: State, st': State, ph: Phase)
    requires StoreOk(st) && Extends(st, st') && PhaseOk(st, ph)
    ensures PhaseOk(st', ph)
  {
    hide StoreOk, ManifestOk, Tiles, WalkOk, ClimbOk, TargetOk, FoldOk, LiveAt, Log;
    match ph
    case Probing(ns, _, seqNo, _) => DenseStable(st, st', ns, seqNo);
    case Saving(ns, edit, _, _) =>
      if edit.Advance? { DenseStable(st, st', ns, edit.committed + 1); }
    case Forking(parent, pm, _) => ManifestStable(st, st', parent, pm);
    case Walking(job, cur, curM, _, sources) =>
      JobStable(st, st', job);
      assert job.ns in st.mans.objs by { KnownNamespace(st, job.ns, job.m); }
      WalkStable(st, st', job, cur, curM, sources);
    case Targeting(job, cur, curM, depth, sources, path) =>
      JobStable(st, st', job);
      assert job.ns in st.mans.objs by { KnownNamespace(st, job.ns, job.m); }
      TilesStable(st, st', job.ns, sources, 0, job.m.walSeq);
      ClimbStable(st, st', job, cur, curM, depth, path);
    case Gathering(job, sources, target, basis, gathered) =>
      JobStable(st, st', job);
      assert job.ns in st.mans.objs by { KnownNamespace(st, job.ns, job.m); }
      TilesStable(st, st', job.ns, sources, 0, job.m.walSeq);
      TargetStable(st, st', job, target, basis, gathered);
    case Folding(job, _, _, _, _, _, _) =>
      JobStable(st, st', job);
      FoldStable(st, st', ph);
    case Answer(_, _, _, _) => AnswerStable(st, st', ph);
    case _ =>
  }

  lemma {:induction false} KnownNamespace(st: State, ns: string, m: Manifest)
    requires ManifestOk(st, ns, m)
    ensures ns in st.mans.objs
  {
    hide Covered;
  }

  // The manifest epoch of ns and the objects of the epoch after it are untouched.
  ghost predicate BuildUntouched(st: State, st': State, ns: string) {
    ns in st.mans.objs ==>
      && ns in st'.mans.objs
      && st'.mans.objs[ns].body.indexEpoch == st.mans.objs[ns].body.indexEpoch
      && forall k: IndexKey | k.ns == ns && k.epoch == st.mans.objs[ns].body.indexEpoch + 1 ::
           (k in st'.index.objs <==> k in st.index.objs) && (k in st.index.objs ==> st'.index.objs[k].body == st.index.objs[k].body)
  }

  lemma {:induction false} BuildStable(st: State, st': State, ph: Phase, ns: string)
    requires StoreOk(st) && Extends(st, st') && Builds(ph, ns) && BuildOk(st, ph) && BuildUntouched(st, st', ns)
    ensures BuildOk(st', ph)
  {
    hide StoreOk, Extends, LiveAt, PartsBy, PartsAre;
    if ns in st.mans.objs { GrownTo(st, st', ns); }
    match ph
    case Writing(_, epoch, walUpTo, live, build) =>
      LiveStable(st, st', ns, walUpTo);
      NextPartsStable(st, st', ns, live, build);
    case Saving(_, edit, _, _) =>
      LiveStable(st, st', ns, edit.walUpTo);
      NextPartsStable(st, st', ns, LiveAt(st, ns, edit.walUpTo), 0);
    case _ =>
  }

  lemma {:induction false} LiveStable(st: State, st': State, ns: string, n: nat)
    requires StoreOk(st) && Extends(st, st') && ns in st.mans.objs && n <= st.mans.objs[ns].body.walSeq
    ensures LiveAt(st', ns, n) == LiveAt(st, ns, n)
  {
    LogStable(st, st', ns, 0, n);
    hide StoreOk, Extends, Log, Fold;
  }

  // What lies under the next epoch's prefix stays as it is.
  lemma {:induction false} NextPartsStable(st: State, st': State, ns: string, live: Live, build: nat)
    requires BuildUntouched(st, st', ns) && ns in st.mans.objs
    ensures var epoch := st.mans.objs[ns].body.indexEpoch + 1;
            && (PartsBy(st, ns, epoch, Built(live, build)) ==> PartsBy(st', ns, epoch, Built(live, build)))
            && (PartsAre(st, ns, epoch, live) ==> PartsAre(st', ns, epoch, live))
  {
    var epoch := st.mans.objs[ns].body.indexEpoch + 1;
    forall p ensures IndexKey(ns, epoch, p) in st'.index.objs <==> IndexKey(ns, epoch, p) in st.index.objs {}
  }

  lemma {:induction false} GrownTo(st: State, st': State, ns: string)
    requires Extends(st, st') && ns in st.mans.objs
    ensures ns in st'.mans.objs && Grows(st.mans.objs[ns].body, st'.mans.objs[ns].body) && st.builds <= st'.builds
  {
  }

  // A build that is not acting keeps what it knows.
  lemma {:induction false} OtherBuildStable(st: State, st': State, ph: Phase)
    requires StoreOk(st) && Extends(st, st') && BuildOk(st, ph)
    requires forall ns | Builds(ph, ns) :: BuildUntouched(st, st', ns)
    ensures BuildOk(st', ph)
  {
    match ph
    case Walking(job, _, _, _, _) => if job.build { BuildStable(st, st', ph, job.ns); }
    case Folding(job, _, _, _, _, _, _) => if job.build { BuildStable(st, st', ph, job.ns); }
    case Writing(ns, _, _, _, _) => BuildStable(st, st', ph, ns);
    case Saving(ns, edit, _, _) => if edit.Publish? { BuildStable(st, st', ph, ns); }
    case _ =>
  }

  // What one client's step has to establish.
  lemma {:induction false} Preserves(st: State, st': State, c: nat, ph: Phase)
    requires Inv(st) && StoreOk(st') && ManifestsOk(st') && BuildsOk(st') && Extends(st, st')
    requires st'.clients == st.clients[c := ph]
    requires PhaseOk(st', ph) && BuildOk(st', ph)
    requires forall a | a in st'.acked && a !in st.acked :: AckOk(st', a)
    requires forall d, ns | d in st.clients && d != c && Builds(st.clients[d], ns) ::
               !Builds(ph, ns) && BuildUntouched(st, st', ns)
    ensures Inv(st')
  {
    hide StoreOk, ManifestsOk, PhaseOk, BuildOk, BuildUntouched;
    forall d | d in st'.clients
      ensures PhaseOk(st', st'.clients[d]) && BuildOk(st', st'.clients[d])
    {
      if d != c {
        PhaseStable(st, st', st.clients[d]);
        OtherBuildStable(st, st', st.clients[d]);
      }
    }
    forall a | a in st'.acked ensures AckOk(st', a) {
      if a in st.acked { assert AckOk(st, a); }
    }
  }
}

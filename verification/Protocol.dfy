// The engine's concurrent protocol, one object-store operation at a time.
//
// A state is the object store (manifests, log segments, index objects: three key families with
// disjoint names) and one phase per client. An action makes one client perform its next store
// operation, so a sequence of actions is an interleaving of upserts, index builds, branchings and
// queries, in which any client may also stop for good at any point.

module Protocol {
  import opened Types
  import opened Storage

  const MAX_UPSERT_ATTEMPTS := 64
  const MAX_CAS_ATTEMPTS := 10
  const MAX_BRANCH_DEPTH := 64

  // Object `part` of index/v{epoch}/ (centroids, clusters, bm25, bitmaps, docs). Every build writes the
  // stored attributes, docs.
  const DOCS := 0

  datatype IndexKey = IndexKey(ns: string, epoch: nat, part: nat)

  // What an index object was derived from: the live documents, and which build wrote it. A build
  // computes all of its objects from that one snapshot.
  datatype Built = Built(live: Live, build: nat)

  // A contiguous run [from, to) of log positions, stored under the prefix of namespace `ns`.
  datatype Source = Source(ns: string, from: nat, to: nat)

  // An upsert whose caller has been told it succeeded.
  datatype Ack = Ack(ns: string, seqNo: nat, docs: seq<Document>)

  // The closures handed to SaveManifestCAS.
  datatype Edit =
    | Advance(committed: nat, docs: seq<Document>)
    | Publish(epoch: nat, walUpTo: nat, docCount: nat)

  // A read in progress: an index build or a query over the manifest `m` it loaded first.
  // `acked` is a history variable: the acknowledgements that preceded that load.
  datatype Job = Job(build: bool, ns: string, m: Manifest, acked: set<Ack>)
  {
    function From(): nat { if build then 0 else m.indexedUpTo }
  }

  // The epoch an indexed read uses.
  datatype Target = Target(ns: string, epoch: nat)

  // A history variable: where the climb for an epoch stopped. Own: at the namespace's own epoch, at
  // an epoch captured by a fork, or at a root without one. Ancestor: at an ancestor with an epoch of
  // its own, whose manifest then was m; path leads to it from the namespace read.
  datatype Basis = Own | Ancestor(path: seq<string>, m: Manifest)

  datatype Phase =
    | Idle
    | Failed
    | Probing(ns: string, docs: seq<Document>, seqNo: nat, attempt: nat)
    | Saving(ns: string, edit: Edit, attempt: nat, loaded: Option<Obj<Manifest>>)
    | Acked(ack: Ack)
    | Published(ns: string, epoch: nat)
    | Forking(parent: string, pm: Manifest, child: string)
    | Forked(child: string)
    | Walking(job: Job, cur: string, curM: Manifest, depth: nat, sources: seq<Source>)
    | Targeting(job: Job, cur: string, curM: Manifest, depth: nat, sources: seq<Source>, path: seq<string>)
    | Gathering(job: Job, sources: seq<Source>, target: Target, basis: Basis, gathered: Option<Built>)
    | Folding(job: Job, sources: seq<Source>, basis: Basis, base: Option<Built>, i: nat, next: nat, view: View)
    | Writing(ns: string, epoch: nat, walUpTo: nat, live: Live, build: nat)
    | Answer(job: Job, basis: Basis, base: Option<Built>, view: View)

  datatype State = State(
    mans: Store<string, Manifest>,
    segs: Store<(string, nat), seq<Document>>,
    index: Store<IndexKey, Built>,
    rank: map<string, nat>,       // history: creation order of namespaces
    acked: set<Ack>,              // history: acknowledged upserts
    builds: seq<Live>,            // history: what each build so far was derived from
    clients: map<nat, Phase>)

  const Init := State(Store(map[], 0), Store(map[], 0), Store(map[], 0), map[], {}, [], map[])

  datatype Action =
    | Create(ns: string, dimension: nat, textField: string)
    | BeginUpsert(c: nat, ns: string, docs: seq<Document>)
    | BeginBuild(c: nat, ns: string)
    | BeginBranch(c: nat, parent: string, child: string)
    | BeginQuery(c: nat, ns: string)
    | ReadPart(c: nat, part: nat)
    | WritePart(c: nat, part: nat)
    | Go(c: nat)
    | Stop(c: nat)

  // ---------------------------------------------------------------- steps

  function PhaseOf(st: State, c: nat): Phase { if c in st.clients then st.clients[c] else Idle }

  function Enter(st: State, c: nat, ph: Phase): State { st.(clients := st.clients[c := ph]) }

  function Max(a: nat, b: nat): nat { if a < b then b else a }

  function Min(a: nat, b: nat): nat { if a < b then a else b }

  function LiveDelta(docs: seq<Document>): int
    decreases |docs|
  {
    if docs == [] then 0 else (if docs[0].deleted then -1 else 1) + LiveDelta(docs[1..])
  }

  function Mutate(e: Edit, m: Manifest): Manifest {
    var m' := match e
      case Advance(committed, docs) =>
        var count := m.docCount + LiveDelta(docs);
        m.(walSeq := Max(m.walSeq, committed + 1), docCount := if count < 0 then 0 else count)
      case Publish(epoch, walUpTo, docCount) =>
        m.(indexEpoch := epoch, indexedUpTo := walUpTo, docCount := docCount);
    m'.(version := m'.version + 1)
  }

  function BranchManifest(parent: string, pm: Manifest): Manifest {
    Manifest(1, pm.dimension, pm.textField, pm.walSeq, pm.indexedUpTo, 0, pm.docCount,
             parent, pm.walSeq, pm.indexEpoch)
  }

  predicate DocsFit(docs: seq<Document>, dimension: nat) {
    forall i | 0 <= i < |docs| :: docs[i].vector.Some? ==> |docs[i].vector.value| == dimension
  }

  predicate Builds(ph: Phase, ns: string) {
    match ph
    case Walking(job, _, _, _, _) => job.build && job.ns == ns
    case Folding(job, _, _, _, _, _, _) => job.build && job.ns == ns
    case Writing(n, _, _, _, _) => n == ns
    case Saving(n, e, _, _) => n == ns && e.Publish?
    case _ => false
  }

  // The two hypotheses on index builds: no other build of the namespace is under way, and the new
  // epoch's prefix is empty.
  predicate MayBuild(st: State, c: nat, ns: string, epoch: nat) {
    && (forall d | d in st.clients && d != c :: !Builds(st.clients[d], ns))
    && (forall k | k in st.index.objs :: !(k.ns == ns && k.epoch == epoch))
  }

  function StepCreate(st: State, ns: string, dimension: nat, textField: string): State {
    if ns == "" then st else
    match PutIfAbsent(st.mans, ns, Manifest(1, dimension, textField, 0, 0, 0, 0, "", 0, 0))
    case None => st
    case Some(mans) => st.(mans := mans, rank := st.rank[ns := st.mans.counter])
  }

  function StepBegin(st: State, c: nat, a: Action): State
    requires a.BeginUpsert? || a.BeginBuild? || a.BeginBranch? || a.BeginQuery?
  {
    match a
    case BeginUpsert(_, ns, docs) =>
      if docs == [] then st
      else if ns !in st.mans.objs || !DocsFit(docs, st.mans.objs[ns].body.dimension) then Enter(st, c, Failed)
      else Enter(st, c, Probing(ns, docs, st.mans.objs[ns].body.walSeq, 0))
    case BeginBuild(_, ns) =>
      if ns !in st.mans.objs then Enter(st, c, Failed) else
      var m := st.mans.objs[ns].body;
      if !MayBuild(st, c, ns, m.indexEpoch + 1) then st
      else Enter(st, c, Walking(Job(true, ns, m, {}), ns, m, 0, []))
    case BeginBranch(_, parent, child) =>
      if parent == child || child == "" || parent !in st.mans.objs then Enter(st, c, Failed)
      else Enter(st, c, Forking(parent, st.mans.objs[parent].body, child))
    case BeginQuery(_, ns) =>
      if ns !in st.mans.objs then Enter(st, c, Failed) else
      var m := st.mans.objs[ns].body;
      Enter(st, c, Walking(Job(false, ns, m, st.acked), ns, m, 0, []))
  }

  function StepProbe(st: State, c: nat, ph: Phase): State
    requires ph.Probing?
  {
    if ph.attempt >= MAX_UPSERT_ATTEMPTS then Enter(st, c, Failed) else
    match PutIfAbsent(st.segs, (ph.ns, ph.seqNo), ph.docs)
    case None => Enter(st, c, Probing(ph.ns, ph.docs, ph.seqNo + 1, ph.attempt + 1))
    case Some(segs) => Enter(st.(segs := segs), c, Saving(ph.ns, Advance(ph.seqNo, ph.docs), 0, None))
  }

  function StepSave(st: State, c: nat, ph: Phase): State
    requires ph.Saving?
  {
    match ph.loaded
    case None =>
      if ph.attempt >= MAX_CAS_ATTEMPTS || ph.ns !in st.mans.objs then Enter(st, c, Failed)
      else Enter(st, c, Saving(ph.ns, ph.edit, ph.attempt, Some(st.mans.objs[ph.ns])))
    case Some(seen) =>
      match PutCas(st.mans, ph.ns, Mutate(ph.edit, seen.body), seen.etag)
      case None => Enter(st, c, Saving(ph.ns, ph.edit, ph.attempt + 1, None))
      case Some(mans) =>
        match ph.edit
        case Advance(seqNo, docs) =>
          var ack := Ack(ph.ns, seqNo, docs);
          Enter(st.(mans := mans, acked := st.acked + {ack}), c, Acked(ack))
        case Publish(epoch, _, _) => Enter(st.(mans := mans), c, Published(ph.ns, epoch))
  }

  function StepFork(st: State, c: nat, ph: Phase): State
    requires ph.Forking?
  {
    match PutIfAbsent(st.mans, ph.child, BranchManifest(ph.parent, ph.pm))
    case None => Enter(st, c, Failed)
    case Some(mans) =>
      Enter(st.(mans := mans, rank := st.rank[ph.child := st.mans.counter]), c, Forked(ph.child))
  }

  // One turn of the loop of resolveReadView. The source appends runs and reverses them at the end;
  // here they are kept oldest first throughout.
  function StepWalk(st: State, c: nat, ph: Phase): State
    requires ph.Walking?
  {
    var m := ph.curM;
    if ph.depth > MAX_BRANCH_DEPTH then Enter(st, c, Failed) else
    var sources := if m.walSeq > m.Fork() then [Source(ph.cur, m.Fork(), m.walSeq)] + ph.sources else ph.sources;
    if !m.IsBranch() then
      Enter(st, c, if ph.job.build then Unfolded(ph.job, sources, Own, None)
                   else Targeting(ph.job, ph.job.ns, ph.job.m, 0, sources, [ph.job.ns]))
    else if m.parent !in st.mans.objs then Enter(st, c, Failed)
    else
      var pm := st.mans.objs[m.parent].body;
      Enter(st, c, Walking(ph.job, m.parent, pm.(walSeq := Min(pm.walSeq, m.forkWalSeq)), ph.depth + 1, sources))
  }

  // One turn of the loop of resolveIndex.
  function StepTarget(st: State, c: nat, ph: Phase): State
    requires ph.Targeting?
  {
    var m := ph.curM;
    if ph.depth > MAX_BRANCH_DEPTH then Enter(st, c, Failed)
    else if m.indexEpoch > 0 then
      Enter(st, c, Gathering(ph.job, ph.sources, Target(ph.cur, m.indexEpoch), if ph.depth == 0 then Own else Ancestor(ph.path, m), None))
    else if !m.IsBranch() then Enter(st, c, Unfolded(ph.job, ph.sources, Own, None))
    else if m.forkIndexEpoch > 0 then Enter(st, c, Gathering(ph.job, ph.sources, Target(m.parent, m.forkIndexEpoch), Own, None))
    else if m.parent !in st.mans.objs then Enter(st, c, Failed)
    else Enter(st, c, Targeting(ph.job, m.parent, st.mans.objs[m.parent].body, ph.depth + 1, ph.sources, ph.path + [m.parent]))
  }

  function StepReadPart(st: State, c: nat, part: nat): State {
    var ph := PhaseOf(st, c);
    if !ph.Gathering? then st else
    var key := IndexKey(ph.target.ns, ph.target.epoch, part);
    if key !in st.index.objs then st
    else Enter(st, c, Gathering(ph.job, ph.sources, ph.target, ph.basis, Some(st.index.objs[key].body)))
  }

  // The start of MaterializeView over [job.From(), m.walSeq).
  function Unfolded(job: Job, sources: seq<Source>, basis: Basis, base: Option<Built>): Phase {
    Folding(job, sources, basis, base, 0, if sources == [] then 0 else Max(job.From(), sources[0].from), EmptyView)
  }

  // One turn of MaterializeView: read one segment, or go on to the next run.
  function StepFold(st: State, c: nat, ph: Phase): State
    requires ph.Folding?
  {
    if ph.i >= |ph.sources| then
      if ph.job.build then
        Enter(st.(builds := st.builds + [ph.view.live]), c,
              Writing(ph.job.ns, ph.job.m.indexEpoch + 1, ph.job.m.walSeq, ph.view.live, |st.builds|))
      else Enter(st, c, Answer(ph.job, ph.basis, ph.base, ph.view))
    else
      var src := ph.sources[ph.i];
      if ph.next < Min(ph.job.m.walSeq, src.to) then
        if (src.ns, ph.next) !in st.segs.objs then Enter(st, c, Failed)
        else Enter(st, c, Folding(ph.job, ph.sources, ph.basis, ph.base, ph.i, ph.next + 1,
                                  Fold(ph.view, st.segs.objs[(src.ns, ph.next)].body)))
      else
        var lo := if ph.i + 1 < |ph.sources| then Max(ph.job.From(), ph.sources[ph.i + 1].from) else 0;
        Enter(st, c, Folding(ph.job, ph.sources, ph.basis, ph.base, ph.i + 1, lo, ph.view))
  }

  function StepWritePart(st: State, c: nat, part: nat): State {
    var ph := PhaseOf(st, c);
    if !ph.Writing? then st
    else st.(index := Write(st.index, IndexKey(ph.ns, ph.epoch, part), Built(ph.live, ph.build)))
  }

  function StepGo(st: State, c: nat): State {
    var ph := PhaseOf(st, c);
    match ph
    case Probing(_, _, _, _) => StepProbe(st, c, ph)
    case Saving(_, _, _, _) => StepSave(st, c, ph)
    case Forking(_, _, _) => StepFork(st, c, ph)
    case Walking(_, _, _, _, _) => StepWalk(st, c, ph)
    case Targeting(_, _, _, _, _, _) => StepTarget(st, c, ph)
    case Gathering(job, sources, _, basis, gathered) =>
      // A query reads at least one object of its epoch.
      if gathered.None? then st else Enter(st, c, Unfolded(job, sources, basis, gathered))
    case Folding(_, _, _, _, _, _, _) => StepFold(st, c, ph)
    case Writing(ns, epoch, walUpTo, live, _) =>
      // All objects are written before the epoch is published.
      if IndexKey(ns, epoch, DOCS) !in st.index.objs then st
      else Enter(st, c, Saving(ns, Publish(epoch, walUpTo, |live|), 0, None))
    case _ => st
  }

  function Step(st: State, a: Action): State {
    match a
    case Create(ns, dimension, textField) => StepCreate(st, ns, dimension, textField)
    case BeginUpsert(c, _, _) => StepBegin(st, c, a)
    case BeginBuild(c, _) => StepBegin(st, c, a)
    case BeginBranch(c, _, _) => StepBegin(st, c, a)
    case BeginQuery(c, _) => StepBegin(st, c, a)
    case ReadPart(c, part) => StepReadPart(st, c, part)
    case WritePart(c, part) => StepWritePart(st, c, part)
    case Go(c) => StepGo(st, c)
    case Stop(c) => Enter(st, c, Idle)
  }

  function Run(st: State, actions: seq<Action>): State
    decreases |actions|
  {
    if actions == [] then st else Run(Step(st, actions[0]), actions[1..])
  }

  // The documents a read starts from: those its index objects were derived from, if it uses any.
  function BaseLive(base: Option<Built>): Live {
    match base
    case Some(b) => b.live
    case None => map[]
  }

  // ---------------------------------------------------------------- the logical log

  // The namespace whose prefix holds log position s of ns.
  function Owner(st: State, ns: string, s: nat): string
    decreases if ns in st.rank then st.rank[ns] else 0
  {
    if ns in st.mans.objs && s < st.mans.objs[ns].body.Fork() && ns in st.rank
       && st.mans.objs[ns].body.parent in st.rank && st.rank[st.mans.objs[ns].body.parent] < st.rank[ns]
    then Owner(st, st.mans.objs[ns].body.parent, s)
    else ns
  }

  function OpsAt(st: State, ns: string, s: nat): seq<Document> {
    var k := (Owner(st, ns, s), s);
    if k in st.segs.objs then st.segs.objs[k].body else []
  }

  // All operations of the logical log of ns in [lo, hi), oldest first.
  function Log(st: State, ns: string, lo: nat, hi: nat): seq<Document>
    decreases hi
  {
    if hi <= lo then [] else Log(st, ns, lo, hi - 1) + OpsAt(st, ns, hi - 1)
  }

  // The documents alive after the first n log positions: the simple thing every read must agree with.
  function LiveAt(st: State, ns: string, n: nat): Live {
    Fold(EmptyView, Log(st, ns, 0, n)).live
  }
}

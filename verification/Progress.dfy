// Progress: what one client brings about when it is left to itself, in any reachable state, however
// many others have stopped half way. Upserts, queries, builds and forks all end, and end well, except
// for two bounds of the code: 64 taken log positions and 64 forks above a namespace.

module Progress {
  import opened Types
  import opened Storage
  import opened Protocol
  import opened ProtocolInvariant
  import opened ProtocolSteps
  import opened ProtocolReads
  import opened ProtocolSafety

  // ---------------------------------------------------------------- runs of one client

  // The client's own next step of something already begun.
  predicate Works(a: Action, c: nat) {
    a == Go(c) || (a.ReadPart? && a.c == c) || (a.WritePart? && a.c == c)
  }

  ghost predicate AllWork(actions: seq<Action>, c: nat) {
    forall i | 0 <= i < |actions| :: Works(actions[i], c)
  }

  function Goes(c: nat, n: nat): (r: seq<Action>)
    ensures |r| == n && forall i | 0 <= i < n :: r[i] == Go(c)
  {
    seq(n, (i: int) => Go(c))
  }

  lemma {:induction false} RunAppend(st: State, a: seq<Action>, b: seq<Action>)
    ensures Run(st, a + b) == Run(Run(st, a), b)
    decreases |a|
  {
    hide Step;
    if a == [] {
      assert a + b == b;
    } else {
      assert (a + b)[0] == a[0] && (a + b)[1..] == a[1..] + b;
      RunAppend(Step(st, a[0]), a[1..], b);
    }
  }

  lemma {:induction false} RunNone(st: State)
    ensures Run(st, []) == st
  {
  }

  lemma {:induction false} RunFirst(st: State, a: Action, rest: seq<Action>)
    ensures Run(st, [a] + rest) == Run(Step(st, a), rest)
  {
    assert ([a] + rest)[0] == a && ([a] + rest)[1..] == rest;
    hide Step;
  }

  lemma {:induction false} WorkFirst(a: Action, rest: seq<Action>, c: nat)
    requires Works(a, c) && AllWork(rest, c)
    ensures AllWork([a] + rest, c)
  {
  }

  lemma {:induction false} WorkJoin(a: seq<Action>, b: seq<Action>, c: nat)
    requires AllWork(a, c) && AllWork(b, c)
    ensures AllWork(a + b, c)
  {
  }

  lemma {:induction false} GoesWork(c: nat, n: nat)
    ensures AllWork(Goes(c, n), c)
  {
  }

  lemma {:induction false} OtherWork(c: nat)
    ensures AllWork([ReadPart(c, DOCS), Go(c)], c) && AllWork([WritePart(c, DOCS), Go(c)] + [Go(c), Go(c)], c)
  {
  }

  lemma {:induction false} EnterTwice(st: State, c: nat, a: Phase, b: Phase)
    ensures Enter(Enter(st, c, a), c, b) == Enter(st, c, b) && PhaseOf(Enter(st, c, a), c) == a
  {
  }

  lemma {:induction false} EnterSame(st: State, c: nat)
    requires PhaseOf(st, c) != Idle
    ensures Enter(st, c, PhaseOf(st, c)) == st && c in st.clients
  {
  }

  // ---------------------------------------------------------------- upserts

  // k is the first position from the end of the log on that no segment has been written at.
  ghost predicate FirstFree(st: State, ns: string, k: nat) {
    && ns in st.mans.objs && st.mans.objs[ns].body.walSeq <= k && (ns, k) !in st.segs.objs
    && forall j | st.mans.objs[ns].body.walSeq <= j < k :: (ns, j) in st.segs.objs
  }

  lemma {:induction false} SomeFree(st: State, ns: string) returns (k: nat)
    requires ns in st.mans.objs
    ensures FirstFree(st, ns, k)
  {
    k := FreeFrom(st.segs.objs.Keys, ns, st.mans.objs[ns].body.walSeq);
  }

  lemma {:induction false} FreeFrom(keys: set<(string, nat)>, ns: string, lo: nat) returns (k: nat)
    ensures lo <= k && (ns, k) !in keys && forall j | lo <= j < k :: (ns, j) in keys
    decreases |keys|
  {
    if (ns, lo) !in keys {
      k := lo;
    } else {
      k := FreeFrom(keys - {(ns, lo)}, ns, lo + 1);
    }
  }

  lemma {:induction false} ProbeStep(st: State, c: nat, ns: string, docs: seq<Document>, seqNo: nat, attempt: nat)
    ensures Step(Enter(st, c, Probing(ns, docs, seqNo, attempt)), Go(c))
            == if attempt >= MAX_UPSERT_ATTEMPTS then Enter(st, c, Failed)
               else if (ns, seqNo) in st.segs.objs then Enter(st, c, Probing(ns, docs, seqNo + 1, attempt + 1))
               else Enter(st.(segs := Write(st.segs, (ns, seqNo), docs)), c, Saving(ns, Advance(seqNo, docs), 0, None))
  {
  }

  // One probe at a time up to the free position, or to the last attempt.
  lemma {:induction false} Probes(st: State, c: nat, ns: string, docs: seq<Document>, seqNo: nat, attempt: nat, k: nat)
    requires seqNo <= k && (ns, k) !in st.segs.objs && forall j | seqNo <= j < k :: (ns, j) in st.segs.objs
    requires attempt <= MAX_UPSERT_ATTEMPTS
    ensures attempt + (k - seqNo) < MAX_UPSERT_ATTEMPTS ==>
              Run(Enter(st, c, Probing(ns, docs, seqNo, attempt)), Goes(c, k - seqNo + 1))
              == Enter(st.(segs := Write(st.segs, (ns, k), docs)), c, Saving(ns, Advance(k, docs), 0, None))
    ensures attempt + (k - seqNo) >= MAX_UPSERT_ATTEMPTS ==>
              Run(Enter(st, c, Probing(ns, docs, seqNo, attempt)), Goes(c, MAX_UPSERT_ATTEMPTS - attempt + 1))
              == Enter(st, c, Failed)
    decreases k - seqNo
  {
    hide Step, Enter;
    ProbeStep(st, c, ns, docs, seqNo, attempt);
    var now := Enter(st, c, Probing(ns, docs, seqNo, attempt));
    var n := if attempt + (k - seqNo) < MAX_UPSERT_ATTEMPTS then k - seqNo else MAX_UPSERT_ATTEMPTS - attempt;
    assert Goes(c, n + 1) == [Go(c)] + Goes(c, n);
    RunFirst(now, Go(c), Goes(c, n));
    if attempt >= MAX_UPSERT_ATTEMPTS || seqNo == k {
      assert Goes(c, 0) == [];
      RunNone(Step(now, Go(c)));
    } else {
      Probes(st, c, ns, docs, seqNo + 1, attempt + 1, k);
    }
  }

  // Loading the manifest and swapping it, with nobody in between.
  lemma {:induction false} Saves(st: State, c: nat, ns: string, edit: Edit)
    requires ns in st.mans.objs
    ensures var st' := Run(Enter(st, c, Saving(ns, edit, 0, None)), [Go(c), Go(c)]);
            var mans := Write(st.mans, ns, Mutate(edit, st.mans.objs[ns].body));
            match edit
            case Advance(k, docs) => st' == Enter(st.(mans := mans, acked := st.acked + {Ack(ns, k, docs)}), c, Acked(Ack(ns, k, docs)))
            case Publish(epoch, _, _) => st' == Enter(st.(mans := mans), c, Published(ns, epoch))
  {
    hide Mutate;
    var s0 := Enter(st, c, Saving(ns, edit, 0, None));
    var s1 := Enter(st, c, Saving(ns, edit, 0, Some(st.mans.objs[ns])));
    assert [Go(c), Go(c)] == [Go(c)] + ([Go(c)] + []);
    RunFirst(s0, Go(c), [Go(c)] + []);
    assert Step(s0, Go(c)) == s1;
    RunFirst(s1, Go(c), []);
  }

  lemma {:induction false} UpsertBegins(st: State, c: nat, ns: string, docs: seq<Document>)
    requires ns in st.mans.objs && docs != []
    requires forall i | 0 <= i < |docs| && docs[i].vector.Some? :: |docs[i].vector.value| == st.mans.objs[ns].body.dimension
    ensures Step(st, BeginUpsert(c, ns, docs)) == Enter(st, c, Probing(ns, docs, st.mans.objs[ns].body.walSeq, 0))
  {
  }

  // Where the tombstones of a batch are, or its documents.
  ghost function Places(docs: seq<Document>, deleted: bool): set<int> {
    set i | 0 <= i < |docs| && docs[i].deleted == deleted
  }

  lemma {:induction false} PlacesPush(docs: seq<Document>, x: Document, deleted: bool)
    ensures |Places(docs + [x], deleted)| == |Places(docs, deleted)| + if x.deleted == deleted then 1 else 0
  {
    assert Places(docs + [x], deleted) == if x.deleted == deleted then Places(docs, deleted) + {|docs|} else Places(docs, deleted);
  }

  // The document count moves by the batch's documents less its tombstones.
  lemma {:induction false} DeltaIs(docs: seq<Document>)
    ensures LiveDelta(docs) == |Places(docs, false)| - |Places(docs, true)|
    decreases |docs|
  {
    if docs == [] {
      assert Places(docs, true) == {} && Places(docs, false) == {};
    } else {
      hide Places;
      var n := |docs| - 1;
      DeltaIs(docs[..n]);
      DeltaPush(docs[..n], docs[n]);
      PlacesPush(docs[..n], docs[n], true);
      PlacesPush(docs[..n], docs[n], false);
      assert docs == docs[..n] + [docs[n]];
    }
  }

  lemma {:induction false} DeltaPush(docs: seq<Document>, x: Document)
    ensures LiveDelta(docs + [x]) == LiveDelta(docs) + if x.deleted then -1 else 1
    decreases |docs|
  {
    if docs == [] {
      assert docs + [x] == [x] && [x][1..] == [];
    } else {
      assert (docs + [x])[1..] == docs[1..] + [x];
      DeltaPush(docs[1..], x);
    }
  }

  // The batch is at position k, the log ends behind it, the caller knows, and nothing else has changed.
  ghost predicate Landed(st: State, st': State, c: nat, ns: string, docs: seq<Document>, k: nat) {
    && ns in st.mans.objs && st'.mans.objs.Keys == st.mans.objs.Keys
    && PhaseOf(st', c) == Acked(Ack(ns, k, docs)) && st'.acked == st.acked + {Ack(ns, k, docs)}
    && st'.segs.objs.Keys == st.segs.objs.Keys + {(ns, k)} && st'.segs.objs[(ns, k)].body == docs
    && (forall p | p in st.segs.objs :: p != (ns, k) && st'.segs.objs[p] == st.segs.objs[p])
    && (forall n | n in st.mans.objs && n != ns :: st'.mans.objs[n] == st.mans.objs[n])
    && (var m, m' := st.mans.objs[ns].body, st'.mans.objs[ns].body;
        var count := m.docCount + |Places(docs, false)| - |Places(docs, true)|;
        m' == m.(version := m.version + 1, walSeq := k + 1, docCount := if count < 0 then 0 else count))
    && st'.index == st.index
  }

  lemma {:induction false} Lands(st: State, c: nat, ns: string, docs: seq<Document>, k: nat)
    requires ns in st.mans.objs && st.mans.objs[ns].body.walSeq <= k && (ns, k) !in st.segs.objs
    ensures var mans := Write(st.mans, ns, Mutate(Advance(k, docs), st.mans.objs[ns].body));
            var s1 := st.(segs := Write(st.segs, (ns, k), docs));
            Landed(st, Enter(s1.(mans := mans, acked := st.acked + {Ack(ns, k, docs)}), c, Acked(Ack(ns, k, docs))), c, ns, docs, k)
  {
    DeltaIs(docs);
    hide LiveDelta, Places;
  }

  // An upsert left alone. If one of the 64 positions from the end of the log is free, it writes its
  // batch at the first that is, moves the end of the log behind it, and is acknowledged; nothing else
  // changes. Otherwise, when 64 writers have stopped between their two steps, it fails and leaves the
  // store as it was.
  lemma {:induction false} UpsertAlone(st: State, c: nat, ns: string, docs: seq<Document>, k: nat)
    requires FirstFree(st, ns, k) && docs != []
    requires forall i | 0 <= i < |docs| && docs[i].vector.Some? :: |docs[i].vector.value| == st.mans.objs[ns].body.dimension
    ensures var m := st.mans.objs[ns].body;
            if k < m.walSeq + 64 then Landed(st, Run(Step(st, BeginUpsert(c, ns, docs)), Goes(c, k - m.walSeq + 3)), c, ns, docs, k)
            else
              var st' := Run(Step(st, BeginUpsert(c, ns, docs)), Goes(c, 65));
              && PhaseOf(st', c) == Failed
              && st'.mans == st.mans && st'.segs == st.segs && st'.index == st.index && st'.acked == st.acked
  {
    UpsertBegins(st, c, ns, docs);
    var m := st.mans.objs[ns].body;
    var s0 := Enter(st, c, Probing(ns, docs, m.walSeq, 0));
    Probes(st, c, ns, docs, m.walSeq, 0, k);
    hide Step, Run, FirstFree, Landed, Write, Mutate;
    if k < m.walSeq + 64 {
      var s1 := st.(segs := Write(st.segs, (ns, k), docs));
      assert Goes(c, k - m.walSeq + 3) == Goes(c, k - m.walSeq + 1) + [Go(c), Go(c)];
      RunAppend(s0, Goes(c, k - m.walSeq + 1), [Go(c), Go(c)]);
      Saves(s1, c, ns, Advance(k, docs));
      Lands(st, c, ns, docs, k);
    }
  }

  // Creating a namespace gives an empty root of the schema asked for, exactly if there is none by that
  // name. An existing one is left as it is.
  lemma {:induction false} CreateAlone(st: State, ns: string, dimension: nat, textField: string)
    requires ns != ""
    ensures var st' := Step(st, Create(ns, dimension, textField));
            if ns in st.mans.objs then st' == st
            else
              && st'.mans.objs.Keys == st.mans.objs.Keys + {ns} && (forall n | n in st.mans.objs :: st'.mans.objs[n] == st.mans.objs[n])
              && st'.segs == st.segs && st'.index == st.index && st'.acked == st.acked && st'.clients == st.clients
              && var m := st'.mans.objs[ns].body;
                 && m.dimension == dimension && m.textField == textField && !m.IsBranch()
                 && m.walSeq == 0 && m.indexEpoch == 0 && m.indexedUpTo == 0 && m.docCount == 0
  {
  }

  // ---------------------------------------------------------------- epochs have their objects

  // Every epoch a manifest has named, and every epoch about to be published, holds its docs object.
  ghost predicate Filled(st: State) {
    && (forall ns, e: nat | ns in st.mans.objs && 0 < e <= st.mans.objs[ns].body.indexEpoch :: IndexKey(ns, e, DOCS) in st.index.objs)
    && (forall c | c in st.clients :: Stocked(st, st.clients[c]))
  }

  ghost predicate Stocked(st: State, ph: Phase) {
    ph.Saving? && ph.edit.Publish? ==> IndexKey(ph.ns, ph.edit.epoch, DOCS) in st.index.objs
  }

  // A step that takes nothing from the index and publishes nothing unstocked.
  lemma {:induction false} StaysFilled(st: State, st': State, c: nat)
    requires Filled(st) && st.index.objs.Keys <= st'.index.objs.Keys
    requires forall ns, e: nat | ns in st'.mans.objs && 0 < e <= st'.mans.objs[ns].body.indexEpoch ::
               (ns in st.mans.objs && e <= st.mans.objs[ns].body.indexEpoch) || IndexKey(ns, e, DOCS) in st'.index.objs
    requires c in st'.clients ==> Stocked(st', st'.clients[c])
    requires forall d | d in st'.clients && d != c :: d in st.clients && st'.clients[d] == st.clients[d]
    ensures Filled(st')
  {
  }

  lemma {:induction false} SaveFills(st: State, c: nat, ph: Phase)
    requires Inv(st) && Filled(st) && c in st.clients && st.clients[c] == ph && ph.Saving?
    ensures Filled(StepSave(st, c, ph))
  {
    KnownPhase(st, c);
    SaveRaises(st, c, ph);
    hide Inv, PhaseOk, BuildOk, StepSave;
    StaysFilled(st, StepSave(st, c, ph), c);
  }

  // A save leaves every epoch but the one it publishes, which is the next.
  lemma {:induction false} SaveRaises(st: State, c: nat, ph: Phase)
    requires ph.Saving? && PhaseOk(st, ph) && BuildOk(st, ph) && Stocked(st, ph)
    ensures var st' := StepSave(st, c, ph);
            && st'.index == st.index && st'.clients == st.clients[c := PhaseOf(st', c)] && Stocked(st', PhaseOf(st', c))
            && forall ns, e: nat | ns in st'.mans.objs && 0 < e <= st'.mans.objs[ns].body.indexEpoch ::
                 (ns in st.mans.objs && e <= st.mans.objs[ns].body.indexEpoch) || IndexKey(ns, e, DOCS) in st.index.objs
  {
    hide LiveDelta, PartsAre, LiveAt, Dense;
  }

  lemma {:induction false} GoFills(st: State, c: nat)
    requires Inv(st) && Filled(st)
    ensures Filled(StepGo(st, c))
  {
    var ph := PhaseOf(st, c);
    if ph.Saving? {
      SaveFills(st, c, ph);
    } else {
      hide Inv;
      assert c in st.clients ==> Stocked(st, st.clients[c]);
      GoStocks(st, c);
      hide StepGo;
      StaysFilled(st, StepGo(st, c), c);
    }
  }

  // No other turn of a client touches a manifest's epoch.
  lemma {:induction false} GoStocks(st: State, c: nat)
    requires !PhaseOf(st, c).Saving?
    ensures Harmless(st, StepGo(st, c), c)
  {
    hide StepProbe, StepWalk, StepTarget, StepFold, StepFork, Harmless;
    var ph := PhaseOf(st, c);
    match ph
    case Probing(_, _, _, _) => ProbeHarmless(st, c, ph);
    case Forking(_, _, _) => ForkHarmless(st, c, ph);
    case Walking(_, _, _, _, _) => ReadHarmless(st, c, ph);
    case Targeting(_, _, _, _, _, _) => ReadHarmless(st, c, ph);
    case Gathering(_, _, _, _, _) => ReadHarmless(st, c, ph);
    case Folding(_, _, _, _, _, _, _) => FoldHarmless(st, c, ph);
    case _ => RestHarmless(st, c);
  }

  lemma {:induction false} ProbeHarmless(st: State, c: nat, ph: Phase)
    requires ph.Probing?
    ensures Harmless(st, StepProbe(st, c, ph), c)
  {
  }

  lemma {:induction false} ForkHarmless(st: State, c: nat, ph: Phase)
    requires ph.Forking?
    ensures Harmless(st, StepFork(st, c, ph), c)
  {
  }

  lemma {:induction false} ReadHarmless(st: State, c: nat, ph: Phase)
    ensures ph.Walking? ==> Harmless(st, StepWalk(st, c, ph), c)
    ensures ph.Targeting? ==> Harmless(st, StepTarget(st, c, ph), c)
    ensures ph.Gathering? && PhaseOf(st, c) == ph ==> Harmless(st, st, c)
    ensures ph.Gathering? ==> Harmless(st, Enter(st, c, Unfolded(ph.job, ph.sources, ph.basis, ph.gathered)), c)
  {
  }

  lemma {:induction false} FoldHarmless(st: State, c: nat, ph: Phase)
    requires ph.Folding?
    ensures Harmless(st, StepFold(st, c, ph), c)
  {
    hide Fold;
  }

  lemma {:induction false} RestHarmless(st: State, c: nat)
    requires var ph := PhaseOf(st, c); !ph.Saving? && !ph.Probing? && !ph.Forking? && !ph.Walking? && !ph.Targeting? && !ph.Gathering? && !ph.Folding?
    ensures Harmless(st, StepGo(st, c), c)
  {
  }

  ghost predicate Harmless(st: State, st': State, c: nat) {
    && st'.index == st.index && (st' == st || st'.clients == st.clients[c := PhaseOf(st', c)]) && Stocked(st', PhaseOf(st', c))
    && forall ns | ns in st'.mans.objs && st'.mans.objs[ns].body.indexEpoch > 0 :: ns in st.mans.objs && st'.mans.objs[ns] == st.mans.objs[ns]
  }

  lemma {:induction false} StepFills(st: State, a: Action)
    requires Inv(st) && Filled(st)
    ensures Filled(Step(st, a))
  {
    hide Inv, StepGo, MayBuild, DocsFit;
    match a
    case Go(c) => GoFills(st, c);
    case Create(ns, _, _) => StillFilled(st, Step(st, a));
    case BeginUpsert(c, _, _) => StaysFilled(st, Step(st, a), c);
    case BeginBuild(c, _) => StaysFilled(st, Step(st, a), c);
    case BeginBranch(c, _, _) => StaysFilled(st, Step(st, a), c);
    case BeginQuery(c, _) => StaysFilled(st, Step(st, a), c);
    case ReadPart(c, _) => StaysFilled(st, Step(st, a), c);
    case WritePart(c, _) => StillFilled(st, Step(st, a));
    case Stop(c) => StaysFilled(st, Step(st, a), c);
  }

  // The same for a step that moves no client.
  lemma {:induction false} StillFilled(st: State, st': State)
    requires Filled(st) && st.index.objs.Keys <= st'.index.objs.Keys && st'.clients == st.clients
    requires forall ns | ns in st'.mans.objs && st'.mans.objs[ns].body.indexEpoch > 0 :: ns in st.mans.objs && st'.mans.objs[ns] == st.mans.objs[ns]
    ensures Filled(st')
  {
    forall c | c in st'.clients ensures Stocked(st', st'.clients[c]) { assert Stocked(st, st.clients[c]); }
  }

  lemma {:induction false} RunFills(st: State, actions: seq<Action>)
    requires Inv(st) && Filled(st)
    ensures Filled(Run(st, actions))
    decreases |actions|
  {
    hide Inv, Filled, Step;
    if actions != [] {
      StepFills(st, actions[0]);
      StepKeeps(st, actions[0]);
      RunFills(Step(st, actions[0]), actions[1..]);
    }
  }

  // No reachable manifest names an epoch without objects.
  lemma {:induction false} ReachableFilled(st: State)
    requires Reachable(st)
    ensures Filled(st)
  {
    var actions :| st == Run(Init, actions);
    InitInv();
    hide Inv;
    RunFills(Init, actions);
  }

  // ---------------------------------------------------------------- reads

  // How many forks lie between the namespace and its root.
  function Height(mans: map<string, Obj<Manifest>>, rank: map<string, nat>, ns: string): nat
    decreases if ns in rank then rank[ns] else 0
  {
    if ns in mans && mans[ns].body.IsBranch() && ns in rank && mans[ns].body.parent in rank && rank[mans[ns].body.parent] < rank[ns]
    then 1 + Height(mans, rank, mans[ns].body.parent)
    else 0
  }

  function HeightOf(st: State, ns: string): nat { Height(st.mans.objs, st.rank, ns) }

  lemma {:induction false} HeightIs(st: State, ns: string)
    requires StoreOk(st) && ns in st.mans.objs
    ensures var m := st.mans.objs[ns].body;
            if m.IsBranch() then m.parent in st.mans.objs && HeightOf(st, ns) == 1 + HeightOf(st, m.parent) else HeightOf(st, ns) == 0
  {
    assert NamespaceOk(st, ns);
  }

  // The walk is over: a build folds, a query looks for its index from the namespace itself.
  ghost predicate Walked(job: Job, ph: Phase) {
    if job.build then ph.Folding? && ph.job == job && ph.i == 0
    else ph.Targeting? && ph.job == job && ph.cur == job.ns && ph.curM == job.m && ph.depth == 0
  }

  lemma {:induction false} WalkStep(st: State, c: nat, job: Job, cur: string, curM: Manifest, depth: nat, sources: seq<Source>)
    requires curM.IsBranch() ==> curM.parent in st.mans.objs
    ensures var next := Step(Enter(st, c, Walking(job, cur, curM, depth, sources)), Go(c));
            var more := if curM.walSeq > curM.Fork() then [Source(cur, curM.Fork(), curM.walSeq)] + sources else sources;
            if depth > MAX_BRANCH_DEPTH then next == Enter(st, c, Failed)
            else if !curM.IsBranch() then Walked(job, PhaseOf(next, c)) && next == Enter(st, c, PhaseOf(next, c))
            else var pm := st.mans.objs[curM.parent].body;
                 next == Enter(st, c, Walking(job, curM.parent, pm.(walSeq := Min(pm.walSeq, curM.forkWalSeq)), depth + 1, more))
  {
  }

  // The walk up the parents ends at the root, unless there are more than 64 forks on the way.
  lemma {:induction false} WalkRuns(st: State, c: nat, job: Job, cur: string, curM: Manifest, depth: nat, sources: seq<Source>) returns (n: nat)
    requires StoreOk(st) && cur in st.mans.objs && SameShape(curM, st.mans.objs[cur].body)
    ensures var st' := Run(Enter(st, c, Walking(job, cur, curM, depth, sources)), Goes(c, n));
            var ph := PhaseOf(st', c);
            st' == Enter(st, c, ph) && if depth + HeightOf(st, cur) <= MAX_BRANCH_DEPTH then Walked(job, ph) else ph == Failed
    decreases HeightOf(st, cur)
  {
    hide Step, Walked, StoreOk, HeightOf, Run;
    HeightIs(st, cur);
    WalkStep(st, c, job, cur, curM, depth, sources);
    var now := Enter(st, c, Walking(job, cur, curM, depth, sources));
    var rest := 0;
    if depth <= MAX_BRANCH_DEPTH && curM.IsBranch() {
      var pm := st.mans.objs[curM.parent].body;
      var more := if curM.walSeq > curM.Fork() then [Source(cur, curM.Fork(), curM.walSeq)] + sources else sources;
      rest := WalkRuns(st, c, job, curM.parent, pm.(walSeq := Min(pm.walSeq, curM.forkWalSeq)), depth + 1, more);
    } else {
      RunNone(Step(now, Go(c)));
      assert Goes(c, 0) == [];
    }
    n := rest + 1;
    assert Goes(c, n) == [Go(c)] + Goes(c, rest);
    RunFirst(now, Go(c), Goes(c, rest));
  }

  // The climb for an epoch is over: there is one to read, or there is none and the fold starts.
  ghost predicate Targeted(job: Job, ph: Phase) {
    if ph.Gathering? then ph.job == job && ph.target.epoch > 0 && ph.gathered.None? else ph.Folding? && ph.job == job && ph.i == 0
  }

  lemma {:induction false} TargetStep(st: State, c: nat, job: Job, cur: string, curM: Manifest, depth: nat, sources: seq<Source>, path: seq<string>)
    requires (curM.IsBranch() ==> curM.parent in st.mans.objs) && depth <= MAX_BRANCH_DEPTH
    ensures var next := Step(Enter(st, c, Targeting(job, cur, curM, depth, sources, path)), Go(c));
            if curM.indexEpoch == 0 && curM.IsBranch() && curM.forkIndexEpoch == 0 then
              next == Enter(st, c, Targeting(job, curM.parent, st.mans.objs[curM.parent].body, depth + 1, sources, path + [curM.parent]))
            else Targeted(job, PhaseOf(next, c)) && next == Enter(st, c, PhaseOf(next, c))
  {
  }

  lemma {:induction false} TargetRuns(st: State, c: nat, job: Job, cur: string, curM: Manifest, depth: nat, sources: seq<Source>, path: seq<string>)
    returns (n: nat)
    requires StoreOk(st) && cur in st.mans.objs && SameShape(curM, st.mans.objs[cur].body) && depth + HeightOf(st, cur) <= MAX_BRANCH_DEPTH
    ensures var st' := Run(Enter(st, c, Targeting(job, cur, curM, depth, sources, path)), Goes(c, n));
            var ph := PhaseOf(st', c);
            st' == Enter(st, c, ph) && Targeted(job, ph)
    decreases HeightOf(st, cur)
  {
    hide Step, Targeted, StoreOk, HeightOf, Run;
    HeightIs(st, cur);
    TargetStep(st, c, job, cur, curM, depth, sources, path);
    var now := Enter(st, c, Targeting(job, cur, curM, depth, sources, path));
    var rest := 0;
    if curM.indexEpoch == 0 && curM.IsBranch() && curM.forkIndexEpoch == 0 {
      rest := TargetRuns(st, c, job, curM.parent, st.mans.objs[curM.parent].body, depth + 1, sources, path + [curM.parent]);
    } else {
      RunNone(Step(now, Go(c)));
      assert Goes(c, 0) == [];
    }
    n := rest + 1;
    assert Goes(c, n) == [Go(c)] + Goes(c, rest);
    RunFirst(now, Go(c), Goes(c, rest));
  }

  // Reading the docs object of the epoch found.
  lemma {:induction false} GatherRuns(st: State, c: nat, ph: Phase)
    requires ph.Gathering? && ph.gathered.None? && IndexKey(ph.target.ns, ph.target.epoch, DOCS) in st.index.objs
    ensures var st' := Run(Enter(st, c, ph), [ReadPart(c, DOCS), Go(c)]);
            st' == Enter(st, c, PhaseOf(st', c)) && PhaseOf(st', c).Folding? && PhaseOf(st', c).job == ph.job && PhaseOf(st', c).i == 0
  {
    var b := st.index.objs[IndexKey(ph.target.ns, ph.target.epoch, DOCS)].body;
    var s0 := Enter(st, c, ph);
    var s1 := Enter(st, c, ph.(gathered := Some(b)));
    assert [ReadPart(c, DOCS), Go(c)] == [ReadPart(c, DOCS)] + ([Go(c)] + []);
    RunFirst(s0, ReadPart(c, DOCS), [Go(c)] + []);
    assert Step(s0, ReadPart(c, DOCS)) == s1;
    RunFirst(s1, Go(c), []);
  }

  // ---------------------------------------------------------------- folding

  // What the fold of a job comes to, in a state where nothing else has moved.
  ghost predicate Folded(st: State, st': State, c: nat, job: Job) {
    var ph := PhaseOf(st', c);
    if job.build then ph.Writing? && ph.ns == job.ns && ph.epoch == job.m.indexEpoch + 1 && ph.walUpTo == job.m.walSeq
                      && st' == Enter(st.(builds := st.builds + [ph.live]), c, ph)
    else ph.Answer? && ph.job == job && st' == Enter(st, c, ph)
  }

  // How much is left of the run in hand.
  function Left(ph: Phase): nat
    requires ph.Folding?
  {
    if ph.i < |ph.sources| && ph.next < Min(ph.job.m.walSeq, ph.sources[ph.i].to) then Min(ph.job.m.walSeq, ph.sources[ph.i].to) - ph.next else 0
  }

  // One turn: over, or a segment further, or a run further.
  lemma {:induction false} FoldStep(st: State, c: nat, ph: Phase)
    requires ph.Folding? && ph.i <= |ph.sources|
    requires Left(ph) > 0 ==> (ph.sources[ph.i].ns, ph.next) in st.segs.objs
    ensures var next := Step(Enter(st, c, ph), Go(c));
            if ph.i == |ph.sources| then Folded(st, next, c, ph.job)
            else
              var ph' := PhaseOf(next, c);
              && next == Enter(st, c, ph') && ph'.Folding? && ph'.job == ph.job && ph'.sources == ph.sources
              && if Left(ph) > 0 then ph'.i == ph.i && ph'.next == ph.next + 1 && Left(ph') < Left(ph) else ph'.i == ph.i + 1
  {
    hide Fold;
  }

  // Every segment of the window is there, so the fold ends.
  lemma {:induction false} FoldRuns(st: State, c: nat, ph: Phase) returns (n: nat)
    requires StoreOk(st) && ph.Folding? && ph.i <= |ph.sources| && (ph.i < |ph.sources| ==> ph.sources[ph.i].from <= ph.next)
    requires ph.job.ns in st.mans.objs && ph.job.m.walSeq <= st.mans.objs[ph.job.ns].body.walSeq
    requires Tiles(st, ph.job.ns, ph.sources, 0, ph.job.m.walSeq)
    ensures Folded(st, Run(Enter(st, c, ph), Goes(c, n)), c, ph.job)
    decreases |ph.sources| - ph.i, Left(ph)
  {
    hide Step, StoreOk, Tiles, Folded, Run;
    if Left(ph) > 0 {
      TilesAt(st, ph.job.ns, ph.sources, 0, ph.job.m.walSeq, ph.i);
      SegmentPresent(st, ph.job.ns, ph.next);
    }
    FoldStep(st, c, ph);
    var now := Enter(st, c, ph);
    var next := Step(now, Go(c));
    var rest := 0;
    if ph.i < |ph.sources| {
      NextStarts(st, c, ph);
      rest := FoldRuns(st, c, PhaseOf(next, c));
    } else {
      RunNone(next);
      assert Goes(c, 0) == [];
    }
    n := rest + 1;
    assert Goes(c, n) == [Go(c)] + Goes(c, rest);
    RunFirst(now, Go(c), Goes(c, rest));
  }

  lemma {:induction false} NextStarts(st: State, c: nat, ph: Phase)
    requires ph.Folding? && ph.i < |ph.sources| && ph.sources[ph.i].from <= ph.next
    requires Left(ph) > 0 ==> (ph.sources[ph.i].ns, ph.next) in st.segs.objs
    ensures var ph' := PhaseOf(Step(Enter(st, c, ph), Go(c)), c);
            ph'.Folding? && (ph'.i < |ph'.sources| ==> ph'.sources[ph'.i].from <= ph'.next)
  {
    hide Fold;
  }

  // ---------------------------------------------------------------- whole reads

  lemma {:induction false} FoldEnds(st: State, c: nat) returns (actions: seq<Action>)
    requires Inv(st) && PhaseOf(st, c).Folding? && PhaseOf(st, c).i == 0
    ensures AllWork(actions, c) && Folded(st, Run(st, actions), c, PhaseOf(st, c).job)
  {
    var ph := PhaseOf(st, c);
    EnterSame(st, c);
    FoldStarts(st, c);
    hide *;
    var n := FoldRuns(st, c, ph);
    GoesWork(c, n);
    actions := Goes(c, n);
  }

  lemma {:induction false} FoldStarts(st: State, c: nat)
    requires Inv(st) && PhaseOf(st, c).Folding?
    ensures var ph := PhaseOf(st, c);
            && StoreOk(st) && Tiles(st, ph.job.ns, ph.sources, 0, ph.job.m.walSeq)
            && ph.i <= |ph.sources| && (ph.i < |ph.sources| ==> ph.sources[ph.i].from <= ph.next)
            && ph.job.ns in st.mans.objs && ph.job.m.walSeq <= st.mans.objs[ph.job.ns].body.walSeq
  {
    KnownPhase(st, c);
    JobFits(st, PhaseOf(st, c).job);
    hide StoreOk, JobOk, Tiles, BaseOk, Log, ManifestsOk, BuildsOk, ClientsOk, AckOk;
  }

  // A query with its sources in hand finds its epoch, if there is one, and is ready to fold.
  lemma {:induction false} TargetEnds(st: State, c: nat) returns (actions: seq<Action>)
    requires Inv(st) && Filled(st) && PhaseOf(st, c).Targeting? && Walked(PhaseOf(st, c).job, PhaseOf(st, c))
    requires !PhaseOf(st, c).job.build && HeightOf(st, PhaseOf(st, c).job.ns) <= MAX_BRANCH_DEPTH
    ensures AllWork(actions, c) && AtFold(st, Run(st, actions), c, PhaseOf(st, c).job)
  {
    var ph := PhaseOf(st, c);
    EnterSame(st, c);
    JobShape(st, c);
    assert ph.cur == ph.job.ns && ph.curM == ph.job.m && ph.depth == 0;
    hide *;
    var n := TargetRuns(st, c, ph.job, ph.cur, ph.curM, 0, ph.sources, ph.path);
    var found := Run(st, Goes(c, n));
    actions := Goes(c, n);
    GoesWork(c, n);
    FoundTarget(st, found, c, ph.job);
    if PhaseOf(found, c).Gathering? {
      RunKeeps(st, actions);
      RunFills(st, actions);
      EpochThere(found, c);
      GatherRuns(found, c, PhaseOf(found, c));
      EnterSame(found, c);
      RunAppend(st, actions, [ReadPart(c, DOCS), Go(c)]);
      OtherWork(c);
      WorkJoin(actions, [ReadPart(c, DOCS), Go(c)], c);
      actions := actions + [ReadPart(c, DOCS), Go(c)];
      GoesOn(st, found, Run(st, actions), c, ph.job);
    }
  }

  // The client is about to fold, and nothing else has moved.
  ghost predicate AtFold(st: State, st': State, c: nat, job: Job) {
    var ph := PhaseOf(st', c); st' == Enter(st, c, ph) && ph.Folding? && ph.job == job && ph.i == 0
  }

  lemma {:induction false} FoundTarget(st: State, found: State, c: nat, job: Job)
    requires found == Enter(st, c, PhaseOf(found, c)) && Targeted(job, PhaseOf(found, c))
    ensures var ph := PhaseOf(found, c);
            if ph.Gathering? then ph.job == job && ph.gathered.None? && ph.target.epoch > 0 else AtFold(st, found, c, job)
  {
  }

  lemma {:induction false} GoesOn(st: State, found: State, st': State, c: nat, job: Job)
    requires found == Enter(st, c, PhaseOf(found, c)) && st' == Enter(found, c, PhaseOf(st', c))
    requires PhaseOf(st', c).Folding? && PhaseOf(st', c).job == job && PhaseOf(st', c).i == 0
    ensures AtFold(st, st', c, job)
  {
  }

  lemma {:induction false} JobShape(st: State, c: nat)
    requires Inv(st) && (PhaseOf(st, c).Walking? || PhaseOf(st, c).Targeting?)
    ensures var job := PhaseOf(st, c).job; StoreOk(st) && job.ns in st.mans.objs && SameShape(job.m, st.mans.objs[job.ns].body)
  {
    KnownPhase(st, c);
    hide StoreOk, Covered, ManifestsOk, BuildsOk, ClientsOk, AckOk, Tiles, ClimbOk, WalkOk;
  }

  lemma {:induction false} EpochThere(st: State, c: nat)
    requires Inv(st) && Filled(st) && PhaseOf(st, c).Gathering? && PhaseOf(st, c).target.epoch > 0
    ensures var t := PhaseOf(st, c).target; IndexKey(t.ns, t.epoch, DOCS) in st.index.objs
  {
    KnownPhase(st, c);
    hide Inv, JobOk, Tiles, BasisOk, PartsAre, PartsBy, BasisLive, KnownBuild;
  }

  // A read that has just begun folds its whole window, unless its namespace lies under more than 64
  // forks: then it fails.
  lemma {:induction false} ReadEnds(st: State, c: nat, job: Job) returns (actions: seq<Action>)
    requires Inv(st) && Filled(st) && PhaseOf(st, c) == Walking(job, job.ns, job.m, 0, [])
    ensures AllWork(actions, c)
    ensures if HeightOf(st, job.ns) <= MAX_BRANCH_DEPTH then Folded(st, Run(st, actions), c, job)
            else Run(st, actions) == Enter(st, c, Failed)
  {
    JobShape(st, c);
    EnterSame(st, c);
    hide *;
    var n := WalkRuns(st, c, job, job.ns, job.m, 0, []);
    actions := Goes(c, n);
    GoesWork(c, n);
    if HeightOf(st, job.ns) <= MAX_BRANCH_DEPTH {
      var walked := Run(st, actions);
      RunKeeps(st, actions);
      RunFills(st, actions);
      SameHeight(st, walked, c, job.ns);
      AfterWalk(walked, c, job);
      var more := [];
      if job.build {
        RunNone(walked);
        NoWork(c);
        Stands(walked, c, job);
      } else {
        more := TargetEnds(walked, c);
      }
      var ready := Run(walked, more);
      RunKeeps(walked, more);
      Ready(walked, ready, c, job);
      var fold := FoldEnds(ready, c);
      RunAppend(st, actions, more);
      RunAppend(st, actions + more, fold);
      WorkJoin(actions, more, c);
      WorkJoin(actions + more, fold, c);
      FoldedFrom(walked, ready, Run(ready, fold), c, job);
      FoldedFrom(st, walked, Run(ready, fold), c, job);
      actions := actions + more + fold;
    }
  }

  lemma {:induction false} NoWork(c: nat)
    ensures AllWork([], c)
  {
  }

  lemma {:induction false} AfterWalk(walked: State, c: nat, job: Job)
    requires Walked(job, PhaseOf(walked, c))
    ensures var ph := PhaseOf(walked, c);
            if job.build then ph.Folding? && ph.job == job && ph.i == 0 else ph.Targeting? && ph.job == job && Walked(ph.job, ph)
  {
  }

  lemma {:induction false} Stands(st: State, c: nat, job: Job)
    requires PhaseOf(st, c).Folding? && PhaseOf(st, c).job == job && PhaseOf(st, c).i == 0
    ensures AtFold(st, st, c, job)
  {
    EnterSame(st, c);
  }

  lemma {:induction false} Ready(st: State, st': State, c: nat, job: Job)
    requires AtFold(st, st', c, job)
    ensures PhaseOf(st', c).Folding? && PhaseOf(st', c).job == job && PhaseOf(st', c).i == 0 && st' == Enter(st, c, PhaseOf(st', c))
  {
  }

  lemma {:induction false} SameHeight(st: State, st': State, c: nat, ns: string)
    requires st' == Enter(st, c, PhaseOf(st', c))
    ensures HeightOf(st', ns) == HeightOf(st, ns)
  {
  }

  lemma {:induction false} FoldedFrom(st: State, mid: State, st': State, c: nat, job: Job)
    requires mid == Enter(st, c, PhaseOf(mid, c)) && Folded(mid, st', c, job)
    ensures Folded(st, st', c, job)
  {
  }

  // A query left alone answers, and leaves the store as it was; the answer is the log as it stands,
  // whenever the namespace is a root or its index is settled. Under more than 64 forks it fails.
  lemma {:induction false} QueryAlone(st: State, c: nat, ns: string) returns (actions: seq<Action>)
    requires Reachable(st) && ns in st.mans.objs
    ensures AllWork(actions, c)
    ensures var st' := Run(Step(st, BeginQuery(c, ns)), actions); var ph := PhaseOf(st', c); var m := st.mans.objs[ns].body;
            && st' == Enter(st, c, ph)
            && if HeightOf(st, ns) <= 64 then
                 && ph.Answer? && ph.job == Job(false, ns, m, st.acked)
                 && (!m.IsBranch() || m.indexEpoch > 0 || m.forkIndexEpoch > 0 ==> AnswerLive(ph) == LiveAt(st, ns, m.walSeq))
               else ph == Failed
  {
    ReachableInv(st);
    ReachableFilled(st);
    QueryBegins(st, c, ns);
    hide *;
    var job := Job(false, ns, st.mans.objs[ns].body, st.acked);
    var begin := BeginQuery(c, ns);
    var s0 := Step(st, begin);
    StepKeeps(st, begin);
    StepFills(st, begin);
    SameHeight(st, s0, c, ns);
    actions := ReadEnds(s0, c, job);
    if HeightOf(st, ns) <= MAX_BRANCH_DEPTH {
      RunFirst(st, begin, actions);
      FoldedFrom(st, s0, Run(s0, actions), c, job);
      Answered(st, Run(s0, actions), c, job);
      QueryIsAtomic(st, [begin] + actions, c);
    } else {
      EnterTwice(st, c, PhaseOf(s0, c), Failed);
      EnterTwice(st, c, Failed, Failed);
    }
  }

  lemma {:induction false} QueryBegins(st: State, c: nat, ns: string)
    requires ns in st.mans.objs
    ensures var m := st.mans.objs[ns].body; var s0 := Step(st, BeginQuery(c, ns));
            PhaseOf(s0, c) == Walking(Job(false, ns, m, st.acked), ns, m, 0, []) && s0 == Enter(st, c, PhaseOf(s0, c))
  {
  }

  lemma {:induction false} Answered(st: State, st': State, c: nat, job: Job)
    requires Folded(st, st', c, job) && !job.build
    ensures PhaseOf(st', c).Answer? && PhaseOf(st', c).job == job && st' == Enter(st, c, PhaseOf(st', c))
    ensures c in st'.clients && st'.clients[c] == PhaseOf(st', c)
  {
  }

  // ---------------------------------------------------------------- whole builds

  // Nothing but the epoch is new: its objects come from the whole log, and the manifest names it.
  ghost predicate EpochLive(st: State, st': State, c: nat, ns: string) {
    && ns in st.mans.objs && ns in st'.mans.objs
    && var m, m' := st.mans.objs[ns].body, st'.mans.objs[ns].body;
    && PhaseOf(st', c) == Published(ns, m.indexEpoch + 1)
    && m' == m.(version := m.version + 1, indexEpoch := m.indexEpoch + 1, indexedUpTo := m.walSeq, docCount := |LiveAt(st, ns, m.walSeq)|)
    && IndexKey(ns, m'.indexEpoch, DOCS) in st'.index.objs
    && st'.index.objs[IndexKey(ns, m'.indexEpoch, DOCS)].body.live == LiveAt(st, ns, m.walSeq)
    && (forall k | k in st'.index.objs :: (k.ns == ns && k.epoch == m'.indexEpoch) || (k in st.index.objs && st'.index.objs[k] == st.index.objs[k]))
    && (forall n | n in st.mans.objs && n != ns :: n in st'.mans.objs && st'.mans.objs[n] == st.mans.objs[n])
    && st'.segs == st.segs && st'.acked == st.acked
  }

  // Writing the objects and publishing, with nobody in between.
  lemma {:induction false} WriteRuns(st: State, c: nat, ph: Phase)
    requires ph.Writing? && ph.ns in st.mans.objs
    ensures var st' := Run(Enter(st, c, ph), [WritePart(c, DOCS), Go(c)] + [Go(c), Go(c)]);
            st' == Enter(st.(index := Write(st.index, IndexKey(ph.ns, ph.epoch, DOCS), Built(ph.live, ph.build)),
                             mans := Write(st.mans, ph.ns, Mutate(Publish(ph.epoch, ph.walUpTo, |ph.live|), st.mans.objs[ph.ns].body))),
                         c, Published(ph.ns, ph.epoch))
  {
    var s0 := Enter(st, c, ph);
    var st1 := st.(index := Write(st.index, IndexKey(ph.ns, ph.epoch, DOCS), Built(ph.live, ph.build)));
    var edit := Publish(ph.epoch, ph.walUpTo, |ph.live|);
    assert [WritePart(c, DOCS), Go(c)] == [WritePart(c, DOCS)] + ([Go(c)] + []);
    RunFirst(s0, WritePart(c, DOCS), [Go(c)] + []);
    assert Step(s0, WritePart(c, DOCS)) == Enter(st1, c, ph);
    RunFirst(Enter(st1, c, ph), Go(c), []);
    assert Step(Enter(st1, c, ph), Go(c)) == Enter(st1, c, Saving(ph.ns, edit, 0, None));
    RunNone(Enter(st1, c, Saving(ph.ns, edit, 0, None)));
    hide Step, Run, Mutate;
    RunAppend(s0, [WritePart(c, DOCS), Go(c)], [Go(c), Go(c)]);
    Saves(st1, c, ph.ns, edit);
  }

  lemma {:induction false} WrittenLive(st: State, mid: State, c: nat, ns: string)
    requires ns in st.mans.objs && PhaseOf(mid, c).Writing?
    requires var ph := PhaseOf(mid, c);
             && mid == Enter(st.(builds := mid.builds), c, ph) && ph.ns == ns && ph.epoch == st.mans.objs[ns].body.indexEpoch + 1
             && ph.walUpTo == st.mans.objs[ns].body.walSeq && ph.live == LiveAt(st, ns, ph.walUpTo)
    requires forall k | k in st.index.objs :: !(k.ns == ns && k.epoch == st.mans.objs[ns].body.indexEpoch + 1)
    ensures var ph := PhaseOf(mid, c);
            EpochLive(st, Enter(mid.(index := Write(mid.index, IndexKey(ph.ns, ph.epoch, DOCS), Built(ph.live, ph.build)),
                                     mans := Write(mid.mans, ph.ns, Mutate(Publish(ph.epoch, ph.walUpTo, |ph.live|), mid.mans.objs[ph.ns].body))),
                                c, Published(ph.ns, ph.epoch)), c, ns)
  {
    hide LiveAt;
  }

  // A build left alone, with no other build of the namespace under way and the next epoch's prefix
  // empty, folds the whole log and makes the next epoch live. Under more than 64 forks it fails.
  lemma {:induction false} BuildAlone(st: State, c: nat, ns: string) returns (actions: seq<Action>)
    requires Reachable(st) && ns in st.mans.objs
    requires MayBuild(st, c, ns, st.mans.objs[ns].body.indexEpoch + 1)
    ensures AllWork(actions, c)
    ensures var st' := Run(Step(st, BeginBuild(c, ns)), actions);
            if HeightOf(st, ns) <= 64 then EpochLive(st, st', c, ns) else st' == Enter(st, c, Failed)
  {
    ReachableInv(st);
    ReachableFilled(st);
    BuildBegins(st, c, ns);
    hide *;
    var job := Job(true, ns, st.mans.objs[ns].body, {});
    var begin := BeginBuild(c, ns);
    var s0 := Step(st, begin);
    StepKeeps(st, begin);
    StepFills(st, begin);
    SameHeight(st, s0, c, ns);
    actions := ReadEnds(s0, c, job);
    if HeightOf(st, ns) <= MAX_BRANCH_DEPTH {
      var mid, last := Run(s0, actions), [WritePart(c, DOCS), Go(c)] + [Go(c), Go(c)];
      RunKeeps(s0, actions);
      FoldedFrom(st, s0, mid, c, job);
      BuiltFrom(st, mid, c, job);
      EnterSame(mid, c);
      WriteRuns(mid, c, PhaseOf(mid, c));
      WrittenLive(st, mid, c, ns);
      RunAppend(s0, actions, last);
      OtherWork(c);
      WorkJoin(actions, last, c);
      actions := actions + last;
    } else {
      EnterTwice(st, c, PhaseOf(s0, c), Failed);
    }
  }

  lemma {:induction false} BuildBegins(st: State, c: nat, ns: string)
    requires ns in st.mans.objs && MayBuild(st, c, ns, st.mans.objs[ns].body.indexEpoch + 1)
    ensures var m := st.mans.objs[ns].body; var s0 := Step(st, BeginBuild(c, ns));
            PhaseOf(s0, c) == Walking(Job(true, ns, m, {}), ns, m, 0, []) && s0 == Enter(st, c, PhaseOf(s0, c))
    ensures forall k | k in st.index.objs :: !(k.ns == ns && k.epoch == st.mans.objs[ns].body.indexEpoch + 1)
  {
  }

  lemma {:induction false} BuiltFrom(st: State, mid: State, c: nat, job: Job)
    requires Inv(mid) && Folded(st, mid, c, job) && job.build && job.ns in st.mans.objs
    ensures var ph := PhaseOf(mid, c);
            && ph.Writing? && ph.ns == job.ns && ph.epoch == job.m.indexEpoch + 1 && ph.walUpTo == job.m.walSeq
            && mid == Enter(st.(builds := mid.builds), c, ph) && ph.live == LiveAt(st, ph.ns, ph.walUpTo)
            && ph.ns in mid.mans.objs
  {
    var ph := PhaseOf(mid, c);
    FoldedLive(mid, c);
    SameLive(st, mid, ph.ns, ph.walUpTo);
  }

  lemma {:induction false} FoldedLive(st: State, c: nat)
    requires Inv(st) && PhaseOf(st, c).Writing?
    ensures PhaseOf(st, c).live == LiveAt(st, PhaseOf(st, c).ns, PhaseOf(st, c).walUpTo)
  {
    KnownPhase(st, c);
    hide Inv, LiveAt;
  }

  // The log is read off the manifests and the segments alone.
  lemma {:induction false} SameLive(st: State, st': State, ns: string, n: nat)
    requires st'.mans == st.mans && st'.segs == st.segs && st'.rank == st.rank
    ensures LiveAt(st', ns, n) == LiveAt(st, ns, n)
  {
    SameLog(st, st', ns, n);
  }

  lemma {:induction false} SameLog(st: State, st': State, ns: string, n: nat)
    requires st'.mans == st.mans && st'.segs == st.segs && st'.rank == st.rank
    ensures Log(st', ns, 0, n) == Log(st, ns, 0, n)
    decreases n
  {
    if n > 0 {
      SameLog(st, st', ns, n - 1);
      SameOwner(st, st', ns, n - 1);
    }
  }

  lemma {:induction false} SameOwner(st: State, st': State, ns: string, s: nat)
    requires st'.mans == st.mans && st'.rank == st.rank
    ensures Owner(st', ns, s) == Owner(st, ns, s)
    decreases if ns in st.rank then st.rank[ns] else 0
  {
    if Owner(st, ns, s) != ns || Owner(st', ns, s) != ns { SameOwner(st, st', st.mans.objs[ns].body.parent, s); }
  }
}

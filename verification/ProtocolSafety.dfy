// What holds of every run: the main results about the protocol.

module ProtocolSafety {
  import opened Types
  import opened Protocol
  import opened ProtocolInvariant
  import opened ProtocolSteps
  import opened ProtocolReads

  lemma {:induction false} InitInv()
    ensures Inv(Init)
  {
  }

  lemma {:induction false} RunKeeps(st: State, actions: seq<Action>)
    requires Inv(st)
    ensures Inv(Run(st, actions)) && Extends(st, Run(st, actions))
    decreases |actions|
  {
    hide Inv, Extends, Step;
    Unchanged(st);
    if actions != [] {
      StepKeeps(st, actions[0]);
      RunKeeps(Step(st, actions[0]), actions[1..]);
      Chain(st, Step(st, actions[0]), Run(Step(st, actions[0]), actions[1..]));
    }
  }

  lemma {:induction false} Chain(a: State, b: State, c: State)
    requires Extends(a, b) && Extends(b, c)
    ensures Extends(a, c)
  {
    ExtendsTransitive(a, b, c);
  }

  ghost predicate Reachable(st: State) {
    exists actions :: st == Run(Init, actions)
  }

  lemma {:induction false} ReachableInv(st: State)
    requires Reachable(st)
    ensures Inv(st)
  {
    var actions :| st == Run(Init, actions);
    InitInv();
    hide Inv;
    RunKeeps(Init, actions);
  }

  // In every reachable store each namespace has all of its segments, and its index coverage lies
  // within its log.
  lemma {:induction false} LogIsWhole(st: State, ns: string)
    requires Reachable(st) && ns in st.mans.objs
    ensures st.mans.objs[ns].body.indexedUpTo <= st.mans.objs[ns].body.walSeq
    ensures forall s | st.mans.objs[ns].body.Fork() <= s < st.mans.objs[ns].body.walSeq :: (ns, s) in st.segs.objs
    ensures forall s | 0 <= s < st.mans.objs[ns].body.walSeq :: (Owner(st, ns, s), s) in st.segs.objs
  {
    ReachableInv(st);
    KnownManifest(st, ns);
    forall s | 0 <= s < st.mans.objs[ns].body.walSeq ensures (Owner(st, ns, s), s) in st.segs.objs {
      SegmentPresent(st, ns, s);
    }
    hide Inv, Covered;
  }

  // WALSeq never falls, whatever is interleaved, and no later step of any client in any namespace
  // changes the documents of a log prefix that was once advertised. For a branch this is its
  // isolation: the prefix includes what it inherits.
  lemma {:induction false} PrefixIsFrozen(st: State, actions: seq<Action>, ns: string, n: nat)
    requires Reachable(st) && ns in st.mans.objs && n <= st.mans.objs[ns].body.walSeq
    ensures var st' := Run(st, actions);
            && ns in st'.mans.objs
            && st.mans.objs[ns].body.walSeq <= st'.mans.objs[ns].body.walSeq
            && SameShape(st.mans.objs[ns].body, st'.mans.objs[ns].body)
            && LiveAt(st', ns, n) == LiveAt(st, ns, n)
            && forall lo :: Log(st', ns, lo, n) == Log(st, ns, lo, n)
  {
    ReachableInv(st);
    RunKeeps(st, actions);
    FrozenBetween(st, Run(st, actions), ns, n);
    hide Inv, Run, Reachable, Extends, Log, LiveAt;
  }

  lemma {:induction false} FrozenBetween(st: State, st': State, ns: string, n: nat)
    requires Inv(st) && Extends(st, st') && ns in st.mans.objs && n <= st.mans.objs[ns].body.walSeq
    ensures ns in st'.mans.objs && st.mans.objs[ns].body.walSeq <= st'.mans.objs[ns].body.walSeq
    ensures SameShape(st.mans.objs[ns].body, st'.mans.objs[ns].body)
    ensures LiveAt(st', ns, n) == LiveAt(st, ns, n) && forall lo :: Log(st', ns, lo, n) == Log(st, ns, lo, n)
  {
    assert StoreOk(st);
    GrownTo(st, st', ns);
    forall lo ensures Log(st', ns, lo, n) == Log(st, ns, lo, n) {
      LogStable(st, st', ns, lo, n);
    }
    hide Inv, StoreOk, Extends, Log, Fold;
  }

  // An acknowledged upsert is never lost: from then on its documents are one contiguous run of the
  // namespace's log, below WALSeq.
  lemma {:induction false} AcknowledgedIsKept(st: State, actions: seq<Action>, a: Ack)
    requires Reachable(st) && a in st.acked
    ensures var st' := Run(st, actions);
            && a.ns in st'.mans.objs && a.seqNo < st'.mans.objs[a.ns].body.walSeq
            && Log(st', a.ns, 0, st'.mans.objs[a.ns].body.walSeq)
               == Log(st', a.ns, 0, a.seqNo) + a.docs + Log(st', a.ns, a.seqNo + 1, st'.mans.objs[a.ns].body.walSeq)
  {
    ReachableInv(st);
    RunKeeps(st, actions);
    var st' := Run(st, actions);
    KnownAck(st', a) by { assert a in st'.acked; }
    AckInLog(st', a, st'.mans.objs[a.ns].body.walSeq);
  }

  lemma {:induction false} KnownAck(st: State, a: Ack)
    requires Inv(st) && a in st.acked
    ensures AckOk(st, a)
  {
    hide StoreOk, ManifestsOk, ClientsOk, AckOk;
  }

  lemma {:induction false} AckInLog(st: State, a: Ack, n: nat)
    requires AckOk(st, a) && a.seqNo < n
    ensures Log(st, a.ns, 0, n) == Log(st, a.ns, 0, a.seqNo) + a.docs + Log(st, a.ns, a.seqNo + 1, n)
  {
    LogSplit(st, a.ns, a.seqNo + 1, n);
    assert Owner(st, a.ns, a.seqNo) == a.ns;
    assert OpsAt(st, a.ns, a.seqNo) == a.docs;
    assert Log(st, a.ns, 0, a.seqNo + 1) == Log(st, a.ns, 0, a.seqNo) + a.docs;
  }

  // The answer of a finished read: its index snapshot under the tail.
  function AnswerLive(ph: Phase): Live
    requires ph.Answer?
  {
    Overlay(BaseLive(ph.base), ph.view)
  }

  // A query takes effect at its manifest read. Whatever ran in between, its tail is the log as it
  // stood when the manifest was loaded, and that log holds every upsert to the namespace
  // acknowledged before the load. For a root, for a namespace with an epoch of its own and for a
  // branch that captured one, so is the whole answer.
  lemma {:induction false} QueryIsAtomic(st: State, actions: seq<Action>, c: nat)
    requires Reachable(st)
    requires var st' := Run(st, actions); c in st'.clients && st'.clients[c].Answer?
    requires var job := Run(st, actions).clients[c].job;
             job.ns in st.mans.objs && job.m == st.mans.objs[job.ns].body && job.acked == st.acked
    ensures var ph := Run(st, actions).clients[c];
            var m := ph.job.m;
            && (!m.IsBranch() || m.indexEpoch > 0 || m.forkIndexEpoch > 0 ==> AnswerLive(ph) == LiveAt(st, ph.job.ns, m.walSeq))
            && ph.view == Fold(EmptyView, Log(st, ph.job.ns, m.indexedUpTo, m.walSeq))
            && forall a | a in st.acked && a.ns == ph.job.ns ::
                 Log(st, a.ns, 0, m.walSeq) == Log(st, a.ns, 0, a.seqNo) + a.docs + Log(st, a.ns, a.seqNo + 1, m.walSeq)
  {
    var st' := Run(st, actions);
    ReachableInv(st);
    RunKeeps(st, actions);
    var ph := st'.clients[c];
    var n := ph.job.m.walSeq;
    KnownPhase(st', c);
    hide Inv;
    AnswerIsLog(st', ph);
    PrefixIsFrozen(st, actions, ph.job.ns, n);
    hide Run, Reachable, Extends, PhaseOk, BuildOk, StoreOk, AnswerLive, Log, LiveAt;
    AcksBelow(st, ph.job.ns, n, ph.job.acked);
  }

  lemma {:induction false} AcksBelow(st: State, ns: string, n: nat, acks: set<Ack>)
    requires Inv(st) && acks <= st.acked && forall a | a in acks && a.ns == ns :: a.seqNo < n
    ensures forall a | a in acks && a.ns == ns ::
              Log(st, a.ns, 0, n) == Log(st, a.ns, 0, a.seqNo) + a.docs + Log(st, a.ns, a.seqNo + 1, n)
  {
    hide Inv, Log;
    forall a | a in acks && a.ns == ns
      ensures Log(st, a.ns, 0, n) == Log(st, a.ns, 0, a.seqNo) + a.docs + Log(st, a.ns, a.seqNo + 1, n)
    {
      KnownAck(st, a);
      AckInLog(st, a, n);
    }
  }

  lemma {:induction false} AnswerIsLog(st: State, ph: Phase)
    requires ph.Answer? && PhaseOk(st, ph)
    ensures var m := ph.job.m;
            && (!m.IsBranch() || m.indexEpoch > 0 || m.forkIndexEpoch > 0 ==> AnswerLive(ph) == LiveAt(st, ph.job.ns, m.walSeq))
            && ph.view == Fold(EmptyView, Log(st, ph.job.ns, m.indexedUpTo, m.walSeq))
            && (forall a | a in ph.job.acked && a.ns == ph.job.ns :: a.seqNo < m.walSeq)
  {
    if Settled(ph.job.m) { OwnBaseIsRight(st, ph); }
    hide ManifestOk, BaseOk, Log, LiveAt, AnswerLive;
  }

  // An answer from the namespace's own snapshot is its log.
  lemma {:induction false} OwnBaseIsRight(st: State, ph: Phase)
    requires ph.Answer? && PhaseOk(st, ph) && (Settled(ph.job.m) || ph.basis.Own?)
    ensures AnswerLive(ph) == LiveAt(st, ph.job.ns, ph.job.m.walSeq)
  {
    JobFits(st, ph.job);
    hide JobOk, PathOk, ManifestOk, LiveAt, Log, Fold, Overlay, KnownBuild;
    assert ph.basis.Own?;
    LiveIsOverlay(st, ph.job.ns, ph.job.m.indexedUpTo, ph.job.m.walSeq);
  }

  lemma {:induction false} LiveIsOverlay(st: State, ns: string, i: nat, n: nat)
    requires i <= n
    ensures LiveAt(st, ns, n) == Overlay(LiveAt(st, ns, i), Fold(EmptyView, Log(st, ns, i, n)))
  {
    hide Fold, Log;
    var head := Fold(EmptyView, Log(st, ns, 0, i));
    FoldKeepsViewOk(EmptyView, Log(st, ns, 0, i));
    OverlayIsFold(head.live, head, EmptyView, Log(st, ns, i, n));
    LogSplit(st, ns, i, n);
    FoldAppend(EmptyView, Log(st, ns, 0, i), Log(st, ns, i, n));
  }

  // Every object under the live epoch of a namespace was derived from exactly the log prefix the
  // manifest says is indexed.
  lemma {:induction false} LiveEpochIsPrefix(st: State, ns: string, part: nat)
    requires Reachable(st) && ns in st.mans.objs && st.mans.objs[ns].body.indexEpoch > 0
    requires IndexKey(ns, st.mans.objs[ns].body.indexEpoch, part) in st.index.objs
    ensures st.index.objs[IndexKey(ns, st.mans.objs[ns].body.indexEpoch, part)].body.live
            == LiveAt(st, ns, st.mans.objs[ns].body.indexedUpTo)
  {
    ReachableInv(st);
    KnownManifest(st, ns);
    hide Inv, LiveAt;
  }

  // And all of them were written by one build, which folded exactly that prefix.
  lemma {:induction false} LiveEpochIsOneBuild(st: State, ns: string, part: nat, other: nat)
    requires Reachable(st) && ns in st.mans.objs && st.mans.objs[ns].body.indexEpoch > 0
    requires IndexKey(ns, st.mans.objs[ns].body.indexEpoch, part) in st.index.objs
    requires IndexKey(ns, st.mans.objs[ns].body.indexEpoch, other) in st.index.objs
    ensures var b := st.index.objs[IndexKey(ns, st.mans.objs[ns].body.indexEpoch, part)].body;
            && st.index.objs[IndexKey(ns, st.mans.objs[ns].body.indexEpoch, other)].body == b
            && b.build < |st.builds| && st.builds[b.build] == b.live
  {
    ReachableInv(st);
    KnownManifest(st, ns);
    KnownBuilds(st);
    hide Inv, LiveAt;
  }

  // The runs any client resolved tile its whole log, oldest first, each under its owner.
  lemma {:induction false} ViewsTile(st: State, c: nat)
    requires Reachable(st) && c in st.clients
    requires st.clients[c].Folding? || st.clients[c].Gathering?
    ensures Tiles(st, st.clients[c].job.ns, st.clients[c].sources, 0, st.clients[c].job.m.walSeq)
  {
    ReachableInv(st);
    KnownPhase(st, c);
    hide Inv, JobOk, Tiles, LiveAt;
  }

  // ---------------------------------------------------------------- branch chains

  lemma {:induction false} RanksFall(st: State, chain: seq<string>, i: nat, j: nat)
    requires StoreOk(st) && ParentChain(st, chain) && i < j < |chain|
    ensures chain[i] in st.rank && chain[j] in st.rank && st.rank[chain[j]] < st.rank[chain[i]]
    decreases j - i
  {
    assert NamespaceOk(st, chain[i]);
    if i + 1 < j {
      RanksFall(st, chain, i + 1, j);
    } else {
      assert chain[j] == st.mans.objs[chain[i]].body.parent;
    }
  }

  // Parent pointers have no cycle in any reachable store, so every walk up ends, within as many
  // steps as there are namespaces.
  lemma {:induction false} ChainsAreFinite(st: State, chain: seq<string>)
    requires Reachable(st) && ParentChain(st, chain) && |chain| > 1
    ensures forall i, j | 0 <= i < j < |chain| :: chain[i] != chain[j]
    ensures |chain| <= |st.mans.objs|
  {
    ReachableInv(st);
    assert StoreOk(st);
    forall i, j | 0 <= i < j < |chain| ensures chain[i] != chain[j] {
      RanksFall(st, chain, i, j);
    }
    forall i | 0 <= i < |chain| ensures chain[i] in st.mans.objs.Keys {
      if i + 1 == |chain| { RanksFall(st, chain, i - 1, i); }
    }
    hide Inv, StoreOk, ParentChain;
    DistinctWithin(chain, st.mans.objs.Keys);
  }

  lemma {:induction false} DistinctWithin(s: seq<string>, keys: set<string>)
    requires forall i, j | 0 <= i < j < |s| :: s[i] != s[j]
    requires forall i | 0 <= i < |s| :: s[i] in keys
    ensures |s| <= |keys|
    decreases |s|
  {
    if s != [] {
      DistinctWithin(s[1..], keys - {s[0]});
    }
  }
}

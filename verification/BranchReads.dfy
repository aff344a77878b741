// Indexed reads of a branch whose fork captured no epoch. The climb for an index may then stop at an
// epoch an ancestor published later. Exactly when is the answer still the branch's log?

module BranchReads {
  import opened Types
  import opened Protocol
  import opened ProtocolInvariant
  import opened ProtocolSteps
  import opened ProtocolReads
  import opened ProtocolSafety

  // ---------------------------------------------------------------- what a window of the log writes

  function Written(ops: seq<Document>): set<string> {
    set i | 0 <= i < |ops| :: ops[i].id
  }

  ghost predicate SameAt(a: Live, b: Live, id: string) {
    (id in a <==> id in b) && (id in a ==> a[id] == b[id])
  }

  lemma {:induction false} FoldWrites(v: View, ops: seq<Document>)
    ensures var w := Fold(v, ops); w.live.Keys + w.deleted == v.live.Keys + v.deleted + Written(ops)
    decreases |ops|
  {
    if ops != [] {
      FoldWrites(ApplyOp(v, ops[0]), ops[1..]);
      assert ops == [ops[0]] + ops[1..];
      WrittenAppend([ops[0]], ops[1..]);
      assert Written([ops[0]]) == {ops[0].id};
    }
  }

  lemma {:induction false} WrittenAppend(a: seq<Document>, b: seq<Document>)
    ensures Written(a + b) == Written(a) + Written(b)
  {
    forall x ensures x in Written(a + b) <==> x in Written(a) || x in Written(b) {
      if x in Written(a + b) {
        var i :| 0 <= i < |a + b| && (a + b)[i].id == x;
        if i >= |a| { assert b[i - |a|].id == x; }
      }
      if x in Written(a) {
        var i :| 0 <= i < |a| && a[i].id == x;
        assert (a + b)[i].id == x;
      }
      if x in Written(b) {
        var i :| 0 <= i < |b| && b[i].id == x;
        assert (a + b)[|a| + i].id == x;
      }
    }
  }

  // A document not written in a window is the same on both ends of it.
  lemma {:induction false} Unwritten(st: State, ns: string, i: nat, n: nat, id: string)
    requires i <= n && id !in Written(Log(st, ns, i, n))
    ensures SameAt(LiveAt(st, ns, i), LiveAt(st, ns, n), id)
  {
    LogSplit(st, ns, i, n);
    var head, tail := Log(st, ns, 0, i), Log(st, ns, i, n);
    FoldAppend(EmptyView, head, tail);
    forall j | 0 <= j < |tail| ensures tail[j].id != id {}
    FoldUntouched(Fold(EmptyView, head), tail, id);
    hide Fold, Log;
  }

  lemma {:induction false} LogPart(st: State, ns: string, i: nat, j: nat, n: nat)
    requires i <= j <= n
    ensures Written(Log(st, ns, i, j)) <= Written(Log(st, ns, i, n)) && Written(Log(st, ns, j, n)) <= Written(Log(st, ns, i, n))
    decreases n
  {
    if j < n {
      LogPart(st, ns, i, j, n - 1);
      WrittenAppend(Log(st, ns, i, n - 1), OpsAt(st, ns, n - 1));
      WrittenAppend(Log(st, ns, j, n - 1), OpsAt(st, ns, n - 1));
    }
  }

  lemma {:induction false} MapsAgree(a: Live, b: Live)
    requires forall id :: SameAt(a, b, id)
    ensures a == b
  {
    forall id ensures (id in a <==> id in b) && (id in a ==> a[id] == b[id]) { assert SameAt(a, b, id); }
  }

  // Two snapshots give one answer under a tail exactly when they agree on what it does not write.
  lemma {:induction false} OverlaysAgree(a: Live, b: Live, v: View, written: set<string>)
    requires v.live.Keys + v.deleted == written
    ensures Overlay(a, v) == Overlay(b, v) <==> forall id :: id !in written ==> SameAt(a, b, id)
  {
    var oa, ob := Overlay(a, v), Overlay(b, v);
    forall id | id !in written
      ensures (id in oa <==> id in a) && (id in ob <==> id in b) && (id in a ==> oa[id] == a[id]) && (id in b ==> ob[id] == b[id])
    {
      assert id !in v.live && id !in v.deleted;
    }
    forall id | id in written ensures SameAt(oa, ob, id) {
      assert id in v.live.Keys + v.deleted;
    }
    if forall id :: id !in written ==> SameAt(a, b, id) {
      forall id ensures SameAt(oa, ob, id) {
        if id !in written { assert SameAt(a, b, id); }
      }
      MapsAgree(oa, ob);
    }
    if oa == ob {
      forall id | id !in written ensures SameAt(a, b, id) {}
    }
  }

  // ---------------------------------------------------------------- the fork points of a path

  function LowestFork(st: State, path: seq<string>): nat
    requires |path| >= 2
    decreases |path|
  {
    if |path| == 2 then ForkAt(st, path[0]) else Min(ForkAt(st, path[0]), LowestFork(st, path[1..]))
  }

  // Below every fork point on a path, both ends have one log.
  lemma {:induction false} OwnersBelow(st: State, path: seq<string>, s: nat)
    requires StoreOk(st) && |path| >= 2 && ParentChain(st, path) && s < LowestFork(st, path)
    ensures Owner(st, path[0], s) == Owner(st, path[|path| - 1], s)
    decreases |path|
  {
    assert NamespaceOk(st, path[0]);
    assert Owner(st, path[0], s) == Owner(st, path[1], s);
    if |path| > 2 {
      ChainTail(st, path);
      assert path[1..][|path| - 2] == path[|path| - 1];
      OwnersBelow(st, path[1..], s);
    }
  }

  lemma {:induction false} ChainTail(st: State, path: seq<string>)
    requires ParentChain(st, path) && |path| >= 2
    ensures ParentChain(st, path[1..])
  {
    var t := path[1..];
    forall i | 0 <= i < |t| - 1
      ensures t[i] in st.mans.objs && st.mans.objs[t[i]].body.IsBranch() && st.mans.objs[t[i]].body.parent == t[i + 1]
    {
      assert t[i] == path[i + 1] && t[i + 1] == path[i + 2];
    }
  }

  lemma {:induction false} LogsBelow(st: State, path: seq<string>, lo: nat, hi: nat)
    requires StoreOk(st) && |path| >= 2 && ParentChain(st, path) && hi <= LowestFork(st, path)
    ensures Log(st, path[0], lo, hi) == Log(st, path[|path| - 1], lo, hi)
    decreases hi
  {
    if lo < hi {
      LogsBelow(st, path, lo, hi - 1);
      OwnersBelow(st, path, hi - 1);
    }
  }

  lemma {:induction false} ForksAbove(st: State, job: Job, path: seq<string>, u: nat)
    requires |path| >= 2 && forall i | 0 <= i < |path| - 1 :: u <= ForkAt(st, path[i])
    ensures u <= LowestFork(st, path) <= ForkAt(st, path[0])
    decreases |path|
  {
    if |path| > 2 {
      var t := path[1..];
      forall i | 0 <= i < |t| - 1 ensures u <= ForkAt(st, t[i]) { assert t[i] == path[i + 1]; }
      ForksAbove(st, job, t, u);
    }
  }

  // ---------------------------------------------------------------- the exact condition

  // Nothing that a wrote in [f, e) and the window [u, n) of ns leaves alone was different at f.
  ghost predicate Unspoilt(st: State, ns: string, u: nat, n: nat, a: string, f: nat, e: nat) {
    forall id :: id in Written(Log(st, a, f, e)) && id !in Written(Log(st, ns, u, n)) ==> SameAt(LiveAt(st, a, f), LiveAt(st, a, e), id)
  }

  // A read whose climb stopped at an ancestor. Let f be the lowest fork point on the way there. If the
  // epoch indexes no more than [0, f), the answer is the branch's log. Otherwise it is exactly when the
  // ancestor's writes in [f, e) changed no document the branch's tail leaves alone.
  ghost predicate FromAncestor(st: State, ph: Phase, path: seq<string>, am: Manifest)
    requires ph.Answer?
  {
    var ns, m := ph.job.ns, ph.job.m;
    var right := AnswerLive(ph) == LiveAt(st, ns, m.walSeq);
    && m.IsBranch() && m.indexEpoch == 0 && m.forkIndexEpoch == 0
    && |path| >= 2 && path[0] == ns && ParentChain(st, path) && am.indexEpoch > 0
    && var a, f, e := path[|path| - 1], LowestFork(st, path), am.indexedUpTo;
       if e <= f then right else right <==> Unspoilt(st, ns, m.indexedUpTo, m.walSeq, a, f, e)
  }

  // What a finished read answers, in terms of manifests and logs alone: its log, unless the climb
  // stopped at an ancestor; and then as FromAncestor says.
  lemma {:induction false} BranchReadIff(st: State, c: nat)
    requires Reachable(st) && c in st.clients && st.clients[c].Answer?
    ensures var ph := st.clients[c];
            match ph.basis
            case Own => AnswerLive(ph) == LiveAt(st, ph.job.ns, ph.job.m.walSeq)
            case Ancestor(path, am) => FromAncestor(st, ph, path, am)
  {
    ReachableInv(st);
    KnownPhase(st, c);
    hide Inv, Reachable, PhaseOk, BuildOk, StoreOk, FromAncestor, AnswerLive, LiveAt;
    var ph := st.clients[c];
    match ph.basis
    case Own => OwnBaseIsRight(st, ph);
    case Ancestor(path, am) => AncestorRead(st, ph);
  }

  lemma {:induction false} AncestorRead(st: State, ph: Phase)
    requires StoreOk(st) && ph.Answer? && PhaseOk(st, ph) && ph.basis.Ancestor?
    ensures FromAncestor(st, ph, ph.basis.path, ph.basis.m)
  {
    hide StoreOk, PhaseOk, ParentChain, Log, LiveAt, LowestFork, Unspoilt, AgreeBut, AnswerLive, Fold;
    var path, am := ph.basis.path, ph.basis.m;
    var ns, u, n := ph.job.ns, ph.job.m.indexedUpTo, ph.job.m.walSeq;
    AncestorFacts(st, ph);
    AnswerAgrees(st, ph, ns, u, n, path[|path| - 1], am.indexedUpTo);
    AncestorVerdict(st, path, u, am.indexedUpTo, n, AnswerLive(ph) == LiveAt(st, ns, n));
  }

  lemma {:induction false} AncestorVerdict(st: State, path: seq<string>, u: nat, e: nat, n: nat, right: bool)
    requires StoreOk(st) && |path| >= 2 && ParentChain(st, path) && u <= LowestFork(st, path) <= n && u <= e
    requires right <==> AgreeBut(st, path[|path| - 1], e, path[0], u, n)
    ensures var a, f := path[|path| - 1], LowestFork(st, path);
            if e <= f then right else right <==> Unspoilt(st, path[0], u, n, a, f, e)
  {
    hide StoreOk, ParentChain, Log, LiveAt, LowestFork, Unspoilt, AgreeBut;
    var f := LowestFork(st, path);
    if e <= f {
      AgreeBelow(st, path, u, e, n);
    } else {
      AgreeBelow(st, path, u, f, n);
      SpoiltOrNot(st, path[0], u, n, path[|path| - 1], f, e);
    }
  }

  // a's snapshot at e is ns's at u, except for what the window [u, n) of ns writes.
  ghost predicate AgreeBut(st: State, a: string, e: nat, ns: string, u: nat, n: nat) {
    forall id :: id !in Written(Log(st, ns, u, n)) ==> SameAt(LiveAt(st, a, e), LiveAt(st, ns, u), id)
  }

  lemma {:induction false} AgreeBelow(st: State, path: seq<string>, u: nat, e: nat, n: nat)
    requires StoreOk(st) && |path| >= 2 && ParentChain(st, path) && u <= e <= n && e <= LowestFork(st, path)
    ensures AgreeBut(st, path[|path| - 1], e, path[0], u, n)
  {
    hide StoreOk, ParentChain, Log, LiveAt, LowestFork, Written, SameAt;
    forall id | id !in Written(Log(st, path[0], u, n)) ensures SameAt(LiveAt(st, path[|path| - 1], e), LiveAt(st, path[0], u), id) {
      CoveredBelow(st, path, u, e, n, id);
    }
  }

  // The answer is the log exactly when the snapshot behind it agrees with the branch's own on what the
  // tail does not write.
  lemma {:induction false} AnswerAgrees(st: State, ph: Phase, ns: string, u: nat, n: nat, a: string, e: nat)
    requires ph.Answer? && u <= n && BaseLive(ph.base) == LiveAt(st, a, e) && ph.view == Fold(EmptyView, Log(st, ns, u, n))
    ensures AnswerLive(ph) == LiveAt(st, ns, n)
            <==> AgreeBut(st, a, e, ns, u, n)
  {
    hide Log, LiveAt, Fold, Overlay, Written, SameAt;
    LiveIsOverlay(st, ns, u, n);
    FoldWrites(EmptyView, Log(st, ns, u, n));
    assert ph.view.live.Keys + ph.view.deleted == Written(Log(st, ns, u, n));
    OverlaysAgree(LiveAt(st, a, e), LiveAt(st, ns, u), ph.view, Written(Log(st, ns, u, n)));
  }

  lemma {:induction false} AncestorFacts(st: State, ph: Phase)
    requires StoreOk(st) && ph.Answer? && PhaseOk(st, ph) && ph.basis.Ancestor?
    ensures var job, path, am := ph.job, ph.basis.path, ph.basis.m;
            var u, n := job.m.indexedUpTo, job.m.walSeq;
            && job.m.IsBranch() && job.m.indexEpoch == 0 && job.m.forkIndexEpoch == 0
            && |path| >= 2 && path[0] == job.ns && ParentChain(st, path) && am.indexEpoch > 0
            && u <= LowestFork(st, path) <= n && u <= am.indexedUpTo
            && BaseLive(ph.base) == LiveAt(st, path[|path| - 1], am.indexedUpTo)
            && ph.view == Fold(EmptyView, Log(st, job.ns, u, n))
  {
    hide LiveAt, Log, Covered, StoreOk, KnownBuild;
    ForksAbove(st, ph.job, ph.basis.path, ph.job.m.indexedUpTo);
  }

  // Up to the lowest fork, what the tail does not write is as the branch's own snapshot has it.
  lemma {:induction false} CoveredBelow(st: State, path: seq<string>, u: nat, e: nat, n: nat, id: string)
    requires StoreOk(st) && |path| >= 2 && ParentChain(st, path) && u <= e <= n && e <= LowestFork(st, path)
    requires id !in Written(Log(st, path[0], u, n))
    ensures SameAt(LiveAt(st, path[|path| - 1], e), LiveAt(st, path[0], u), id)
  {
    hide StoreOk, ParentChain, Log, Fold;
    LogsBelow(st, path, 0, e);
    LogPart(st, path[0], u, e, n);
    Unwritten(st, path[0], u, e, id);
  }

  lemma {:induction false} SpoiltOrNot(st: State, ns: string, u: nat, n: nat, a: string, f: nat, e: nat)
    requires f <= e && AgreeBut(st, a, f, ns, u, n)
    ensures Unspoilt(st, ns, u, n, a, f, e) <==> AgreeBut(st, a, e, ns, u, n)
  {
    hide Log, LiveAt, Written;
    forall id | id !in Written(Log(st, a, f, e)) ensures SameAt(LiveAt(st, a, f), LiveAt(st, a, e), id) {
      Unwritten(st, a, f, e, id);
    }
    var w := Written(Log(st, ns, u, n));
    if Unspoilt(st, ns, u, n, a, f, e) {
      forall id | id !in w ensures SameAt(LiveAt(st, a, e), LiveAt(st, ns, u), id) {
        assert SameAt(LiveAt(st, a, f), LiveAt(st, a, e), id);
      }
    }
    if AgreeBut(st, a, e, ns, u, n) {
      forall id | id in Written(Log(st, a, f, e)) && id !in w ensures SameAt(LiveAt(st, a, f), LiveAt(st, a, e), id) {
        assert SameAt(LiveAt(st, a, f), LiveAt(st, ns, u), id);
      }
    }
  }
}

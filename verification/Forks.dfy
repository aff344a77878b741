// What a fork captures: everything its parent held when the fork began.

module Forks {
  import opened Types
  import opened Protocol
  import opened ProtocolInvariant
  import opened ProtocolSteps
  import opened ProtocolReads
  import opened ProtocolSafety

  // The action starts something new for client c.
  predicate Begins(a: Action, c: nat) {
    match a
    case BeginUpsert(d, _, _) => d == c
    case BeginBuild(d, _) => d == c
    case BeginBranch(d, _, _) => d == c
    case BeginQuery(d, _) => d == c
    case _ => false
  }

  // The child has the parent's schema, forks where the parent's log ended and captures its epoch.
  ghost predicate ForkedAt(st: State, parent: string, pm: Manifest, child: string) {
    && child in st.mans.objs && parent in st.mans.objs
    && var m := st.mans.objs[child].body;
       && m.parent == parent && m.forkWalSeq == pm.walSeq && m.forkIndexEpoch == pm.indexEpoch
       && m.dimension == pm.dimension && m.textField == pm.textField
  }

  // Where a client that set out to fork can be until it begins something else.
  ghost predicate Underway(st: State, c: nat, parent: string, pm: Manifest, child: string) {
    match PhaseOf(st, c)
    case Forking(p, m, ch) => p == parent && m == pm && ch == child
    case Forked(ch) => ch == child && ForkedAt(st, parent, pm, child)
    case Idle => true
    case Failed => true
    case _ => false
  }

  lemma {:induction false} ForkedStays(st: State, st': State, parent: string, pm: Manifest, child: string)
    requires Extends(st, st') && ForkedAt(st, parent, pm, child)
    ensures ForkedAt(st', parent, pm, child)
  {
    GrownTo(st, st', child);
    GrownTo(st, st', parent);
    hide Extends;
  }

  lemma {:induction false} StepUnderway(st: State, a: Action, c: nat, parent: string, pm: Manifest, child: string)
    requires Inv(st) && Extends(st, Step(st, a)) && parent in st.mans.objs
    requires Underway(st, c, parent, pm, child) && !Begins(a, c)
    ensures Underway(Step(st, a), c, parent, pm, child)
  {
    hide Inv, Extends, ForkedAt, Step, StepFork;
    var st' := Step(st, a);
    if ForkedAt(st, parent, pm, child) { ForkedStays(st, st', parent, pm, child); }
    if a == Go(c) && PhaseOf(st, c).Forking? {
      ForkStep(st, c);
    } else {
      PhaseKept(st, a, c);
    }
  }

  // The step that writes the child's manifest, and writes nothing if there is one.
  lemma {:induction false} ForkStep(st: State, c: nat)
    requires PhaseOf(st, c).Forking?
    ensures var ph, st' := PhaseOf(st, c), Step(st, Go(c));
            if ph.child in st.mans.objs then PhaseOf(st', c) == Failed
            else
              && PhaseOf(st', c) == Forked(ph.child) && (ph.parent in st.mans.objs ==> ForkedAt(st', ph.parent, ph.pm, ph.child))
              && ph.child in st'.mans.objs
              && var m := st'.mans.objs[ph.child].body;
                 && m.walSeq == ph.pm.walSeq && m.indexedUpTo == ph.pm.indexedUpTo && m.docCount == ph.pm.docCount
                 && m.indexEpoch == 0 && m.version == 1
  {
  }

  // Nobody else moves a client that is forking or through.
  lemma {:induction false} PhaseKept(st: State, a: Action, c: nat)
    requires !Begins(a, c) && !(a == Go(c) && PhaseOf(st, c).Forking?)
    requires PhaseOf(st, c).Forking? || PhaseOf(st, c).Forked? || PhaseOf(st, c).Idle? || PhaseOf(st, c).Failed?
    ensures PhaseOf(Step(st, a), c) == PhaseOf(st, c) || PhaseOf(Step(st, a), c).Idle?
  {
    hide Mutate, DocsFit, MayBuild, Unfolded, BranchManifest, Fold;
  }

  lemma {:induction false} RunUnderway(st: State, actions: seq<Action>, c: nat, parent: string, pm: Manifest, child: string)
    requires Inv(st) && parent in st.mans.objs && Underway(st, c, parent, pm, child)
    requires forall i | 0 <= i < |actions| :: !Begins(actions[i], c)
    ensures Underway(Run(st, actions), c, parent, pm, child)
    decreases |actions|
  {
    hide Inv, Extends, Step, Underway, Begins;
    if actions != [] {
      StepKeeps(st, actions[0]);
      GrownTo(st, Step(st, actions[0]), parent);
      StepUnderway(st, actions[0], c, parent, pm, child);
      RunUnderway(Step(st, actions[0]), actions[1..], c, parent, pm, child);
    }
  }

  lemma {:induction false} BeginUnderway(st: State, c: nat, parent: string, child: string)
    requires parent in st.mans.objs
    ensures var st1 := Step(st, BeginBranch(c, parent, child));
            Underway(st1, c, parent, st.mans.objs[parent].body, child) && parent in st1.mans.objs
  {
  }

  // A fork captures all of its parent. st is the state in which the fork began, and in the meantime
  // anybody may have done anything: the child forks at the end of the parent's log as it stood in st,
  // with the parent's schema and the parent's epoch captured; its first n documents are, for ever, those the parent had; and every
  // upsert to the parent acknowledged before the fork began lies whole in the child's log.
  lemma {:induction false} ForkCaptures(st: State, actions: seq<Action>, c: nat, parent: string, child: string)
    requires Reachable(st) && parent in st.mans.objs
    requires forall i | 0 <= i < |actions| :: !Begins(actions[i], c)
    requires PhaseOf(Run(Step(st, BeginBranch(c, parent, child)), actions), c) == Forked(child)
    ensures var st' := Run(Step(st, BeginBranch(c, parent, child)), actions);
            var n := st.mans.objs[parent].body.walSeq;
            && child in st'.mans.objs
            && var m := st'.mans.objs[child].body;
            && m.parent == parent && m.forkWalSeq == n && n <= m.walSeq
            && m.forkIndexEpoch == st.mans.objs[parent].body.indexEpoch
            && m.dimension == st.mans.objs[parent].body.dimension && m.textField == st.mans.objs[parent].body.textField
            && LiveAt(st', child, n) == LiveAt(st, parent, n)
            && Log(st', child, 0, n) == Log(st, parent, 0, n)
            && forall a | a in st.acked && a.ns == parent ::
                 a.seqNo < n && Log(st', child, 0, n) == Log(st', child, 0, a.seqNo) + a.docs + Log(st', child, a.seqNo + 1, n)
  {
    var pm := st.mans.objs[parent].body;
    var begin := BeginBranch(c, parent, child);
    ReachableInv(st);
    BeginUnderway(st, c, parent, child);
    StepKeeps(st, begin);
    RunUnderway(Step(st, begin), actions, c, parent, pm, child);
    RunKeeps(Step(st, begin), actions);
    var st' := Run(Step(st, begin), actions);
    assert ForkedAt(st', parent, pm, child);
    hide Inv, Extends, Step, Run, Underway, Begins, Reachable;
    Chain(st, Step(st, begin), st');
    ForkShares(st, st', parent, child);
  }

  lemma {:induction false} ForkShares(st: State, st': State, parent: string, child: string)
    requires Inv(st) && Inv(st') && Extends(st, st') && parent in st.mans.objs && ForkedAt(st', parent, st.mans.objs[parent].body, child)
    ensures var n := st.mans.objs[parent].body.walSeq;
            && n <= st'.mans.objs[child].body.walSeq
            && LiveAt(st', child, n) == LiveAt(st, parent, n)
            && Log(st', child, 0, n) == Log(st, parent, 0, n)
            && forall a | a in st.acked && a.ns == parent ::
                 a.seqNo < n && Log(st', child, 0, n) == Log(st', child, 0, a.seqNo) + a.docs + Log(st', child, a.seqNo + 1, n)
  {
    var n := st.mans.objs[parent].body.walSeq;
    BranchFacts(st', parent, child);
    SharedLog(st', parent, child, 0, n);
    FrozenBetween(st, st', parent, n);
    hide Inv, Extends, ForkedAt, Log;
    forall a | a in st.acked && a.ns == parent
      ensures a.seqNo < n && Log(st', child, 0, n) == Log(st', child, 0, a.seqNo) + a.docs + Log(st', child, a.seqNo + 1, n)
    {
      AckShared(st, st', parent, child, a);
    }
  }

  lemma {:induction false} AckShared(st: State, st': State, parent: string, child: string, a: Ack)
    requires Inv(st) && Inv(st') && Extends(st, st') && parent in st.mans.objs && ForkedAt(st', parent, st.mans.objs[parent].body, child)
    requires a in st.acked && a.ns == parent
    ensures var n := st.mans.objs[parent].body.walSeq;
            a.seqNo < n && Log(st', child, 0, n) == Log(st', child, 0, a.seqNo) + a.docs + Log(st', child, a.seqNo + 1, n)
  {
    var n := st.mans.objs[parent].body.walSeq;
    KnownAck(st, a);
    assert a in st'.acked;
    KnownAck(st', a);
    BranchFacts(st', parent, child);
    hide Inv, Extends, Log;
    AckInLog(st', a, n);
    SharedLog(st', parent, child, 0, n);
    SharedLog(st', parent, child, 0, a.seqNo);
    SharedLog(st', parent, child, a.seqNo + 1, n);
  }

  lemma {:induction false} BranchFacts(st: State, parent: string, child: string)
    requires Inv(st) && parent in st.mans.objs && child in st.mans.objs && st.mans.objs[child].body.parent == parent
    ensures Rooted(st, child) && st.mans.objs[child].body.IsBranch() && st.mans.objs[child].body.forkWalSeq <= st.mans.objs[child].body.walSeq
  {
    assert NamespaceOk(st, child);
    KnownManifest(st, child);
    hide ManifestsOk, ClientsOk, Covered, NamespaceOk;
  }
}

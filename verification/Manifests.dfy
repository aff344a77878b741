// The manifest of one namespace under any number of concurrent writers: SaveManifestCAS as an
// instance of the retry loop, with the closures of upserts and index builds.

module Manifests {
  import opened Types
  import opened Cas
  import Protocol

  // The manifest closures always ask for a write.
  function Save(e: Protocol.Edit, input: (), m: Manifest): Option<Manifest> { Some(Protocol.Mutate(e, m)) }

  type Writers = Machine<Protocol.Edit, (), Manifest>

  function RunWriters(m0: Manifest, moves: seq<Move<Protocol.Edit, ()>>): Writers {
    RunCas(Save, Protocol.MAX_CAS_ATTEMPTS, Start(m0), moves)
  }

  // The manifest after the first i commits.
  function After(m0: Manifest, s: Writers, i: nat): Manifest
    requires i <= |s.history|
  {
    if i == 0 then m0 else s.history[i - 1].after
  }

  lemma {:induction false} LinkIsMutate(m0: Manifest, moves: seq<Move<Protocol.Edit, ()>>, i: nat)
    requires i < |RunWriters(m0, moves).history|
    ensures var s := RunWriters(m0, moves); After(m0, s, i + 1) == Protocol.Mutate(s.history[i].edit, After(m0, s, i))
  {
    CommitsAreSerial(Save, Protocol.MAX_CAS_ATTEMPTS, m0, moves);
    hide RunCas, Protocol.Mutate;
    assert LinkOk(Save, m0, RunWriters(m0, moves).history, i);
  }

  // Link j of the first n is the last of its kind.
  ghost predicate LastPublish(s: Writers, n: nat, j: nat)
    requires n <= |s.history|
  {
    j < n && s.history[j].edit.Publish? && forall k | j < k < n :: s.history[k].edit.Advance?
  }

  // Whatever the interleaving, after n commits the version has risen by n, WALSeq is one past the
  // highest position any of them committed (or still the first), the index pointer is the one of the
  // last publication among them, and nothing else a reader relies on has moved.
  ghost predicate Chained(m0: Manifest, s: Writers, n: nat)
    requires n <= |s.history|
  {
    var m := After(m0, s, n);
    && m.version == m0.version + n
    && m0.walSeq <= m.walSeq
    && (forall j | 0 <= j < n && s.history[j].edit.Advance? :: s.history[j].edit.committed < m.walSeq)
    && (m.walSeq == m0.walSeq || exists j :: 0 <= j < n && s.history[j].edit.Advance? && s.history[j].edit.committed + 1 == m.walSeq)
    && (forall j: nat | LastPublish(s, n, j) :: m.indexEpoch == s.history[j].edit.epoch && m.indexedUpTo == s.history[j].edit.walUpTo)
    && ((forall j | 0 <= j < n :: s.history[j].edit.Advance?) ==> m.indexEpoch == m0.indexEpoch && m.indexedUpTo == m0.indexedUpTo)
    && m.dimension == m0.dimension && m.textField == m0.textField
    && m.parent == m0.parent && m.forkWalSeq == m0.forkWalSeq && m.forkIndexEpoch == m0.forkIndexEpoch
  }

  lemma {:induction false} CommitsChain(m0: Manifest, moves: seq<Move<Protocol.Edit, ()>>, n: nat)
    requires n <= |RunWriters(m0, moves).history|
    ensures Chained(m0, RunWriters(m0, moves), n)
    decreases n
  {
    hide RunWriters;
    if n > 0 {
      CommitsChain(m0, moves, n - 1);
      LinkIsMutate(m0, moves, n - 1);
      ChainGrows(m0, RunWriters(m0, moves), n - 1);
    }
  }

  lemma {:induction false} ChainGrows(m0: Manifest, s: Writers, n: nat)
    requires n < |s.history| && Chained(m0, s, n)
    requires After(m0, s, n + 1) == Protocol.Mutate(s.history[n].edit, After(m0, s, n))
    ensures Chained(m0, s, n + 1)
  {
    hide Protocol.LiveDelta;
    var e := s.history[n].edit;
    var m := After(m0, s, n + 1);
    forall j: nat | LastPublish(s, n + 1, j) ensures m.indexEpoch == s.history[j].edit.epoch && m.indexedUpTo == s.history[j].edit.walUpTo {
      if j < n {
        assert s.history[n].edit.Advance?;
        assert LastPublish(s, n, j);
      }
    }
    if e.Advance? && m.walSeq != m0.walSeq && m.walSeq != e.committed + 1 {
      assert m.walSeq == After(m0, s, n).walSeq;
    }
  }
}

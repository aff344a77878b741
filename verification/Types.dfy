// The data shapes shared by every part of the engine: documents, write-ahead-log operations,
// namespace manifests, and the fold that turns a log into a set of live documents.

module Types {

  datatype Option<+T> = None | Some(value: T)

  // Vectors hold reals: float rounding is outside the model.
  type Vector = seq<real>

  // An attribute value. Every numeric kind is coerced to one number, as the engine coerces to float64.
  // `Other` stands for the structured JSON values (null, arrays, objects), told apart by an opaque tag.
  datatype Value = Num(n: real) | Str(s: string) | Bool(b: bool) | Other(tag: nat)

  type Attrs = map<string, Value>

  // One write-ahead-log operation. A tombstone (`deleted`) carries only its id.
  datatype Document = Document(id: string, vector: Option<Vector>, attrs: Attrs, deleted: bool)

  // A namespace manifest. `parent == ""` marks a root namespace.
  datatype Manifest = Manifest(
    version: nat,
    dimension: nat,
    textField: string,
    walSeq: nat,
    indexedUpTo: nat,
    indexEpoch: nat,
    docCount: nat,
    parent: string,
    forkWalSeq: nat,
    forkIndexEpoch: nat)
  {
    predicate IsBranch() { parent != "" }

    // The first log position this namespace writes itself.
    function Fork(): nat { if IsBranch() then forkWalSeq else 0 }
  }

  type Live = map<string, Document>

  // What a fold of a log window yields: the surviving documents, and the ids whose last operation
  // in the window was a tombstone.
  datatype View = View(live: Live, deleted: set<string>)

  const EmptyView := View(map[], {})

  function ApplyOp(v: View, op: Document): View {
    if op.deleted then View(v.live - {op.id}, v.deleted + {op.id})
    else View(v.live[op.id := op], v.deleted - {op.id})
  }

  // The fold of MaterializeLiveAndDeleted, last writer wins.
  function Fold(v: View, ops: seq<Document>): View
    decreases |ops|
  {
    if ops == [] then v else Fold(ApplyOp(v, ops[0]), ops[1..])
  }

  // Reading an index snapshot under a log tail: the tail's documents win, its tombstones hide.
  function Overlay(base: Live, tail: View): Live {
    (base - tail.deleted) + tail.live
  }

  lemma {:induction false} FoldAppend(v: View, a: seq<Document>, b: seq<Document>)
    ensures Fold(v, a + b) == Fold(Fold(v, a), b)
    decreases |a|
  {
    if a == [] {
      assert a + b == b;
    } else {
      assert (a + b)[0] == a[0] && (a + b)[1..] == a[1..] + b;
      FoldAppend(ApplyOp(v, a[0]), a[1..], b);
    }
  }

  // Every id folded so far is live or deleted, never both, and live documents sit under their own id.
  predicate ViewOk(v: View) {
    v.live.Keys !! v.deleted && forall id | id in v.live :: v.live[id].id == id && !v.live[id].deleted
  }

  lemma {:induction false} FoldKeepsViewOk(v: View, ops: seq<Document>)
    requires ViewOk(v)
    ensures ViewOk(Fold(v, ops))
    decreases |ops|
  {
    if ops != [] {
      FoldKeepsViewOk(ApplyOp(v, ops[0]), ops[1..]);
    }
  }

  // An index snapshot overlaid with the fold of the tail is the fold of the whole log.
  lemma {:induction false} OverlayIsFold(base: Live, head: View, start: View, tail: seq<Document>)
    requires ViewOk(head) && ViewOk(start)
    requires Overlay(base, start) == head.live
    ensures Overlay(base, Fold(start, tail)) == Fold(head, tail).live
    decreases |tail|
  {
    if tail != [] {
      var op := tail[0];
      assert Overlay(base, ApplyOp(start, op)) == ApplyOp(head, op).live;
      OverlayIsFold(base, ApplyOp(head, op), ApplyOp(start, op), tail[1..]);
    }
  }

  // The last operation on an id decides: the id is live exactly when that operation is not a tombstone.
  ghost predicate LastOp(ops: seq<Document>, k: nat, id: string) {
    k < |ops| && ops[k].id == id && forall j | k < j < |ops| :: ops[j].id != id
  }

  lemma {:induction false} FoldUntouched(v: View, ops: seq<Document>, id: string)
    requires forall j | 0 <= j < |ops| :: ops[j].id != id
    ensures id in Fold(v, ops).live <==> id in v.live
    ensures id in Fold(v, ops).deleted <==> id in v.deleted
    ensures id in v.live ==> Fold(v, ops).live[id] == v.live[id]
    decreases |ops|
  {
    if ops != [] {
      assert ops[0].id != id;
      assert forall j | 0 <= j < |ops[1..]| :: ops[1..][j].id != id by {
        forall j | 0 <= j < |ops[1..]| ensures ops[1..][j].id != id { assert ops[1..][j] == ops[j + 1]; }
      }
      FoldUntouched(ApplyOp(v, ops[0]), ops[1..], id);
    }
  }

  // Last writer wins, stated on the log itself.
  lemma {:induction false} LastWriterWins(v: View, ops: seq<Document>, k: nat, id: string)
    requires LastOp(ops, k, id)
    ensures ops[k].deleted ==> id !in Fold(v, ops).live && id in Fold(v, ops).deleted
    ensures !ops[k].deleted ==> id in Fold(v, ops).live && Fold(v, ops).live[id] == ops[k] && id !in Fold(v, ops).deleted
  {
    var a, b := ops[..k], ops[k + 1..];
    assert ops == a + ([ops[k]] + b);
    FoldAppend(v, a, [ops[k]] + b);
    var mid := Fold(v, a);
    assert ([ops[k]] + b)[1..] == b;
    forall j | 0 <= j < |b| ensures b[j].id != id { assert b[j] == ops[k + 1 + j]; }
    FoldUntouched(ApplyOp(mid, ops[k]), b, id);
  }
}

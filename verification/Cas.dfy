// The read-mutate-write retry loop of SaveManifestCAS and SaveQueueCAS, and why it is one atomic
// update: the committed bodies of an object form a serial chain.

module Cas {
  import opened Types
  import opened Storage

  // ---------------------------------------------------------------- the loop itself

  datatype Outcome<+V> =
    | Committed(body: V)   // the write landed
    | Declined             // the closure asked for no write
    | Missing              // the object does not exist
    | Exhausted            // every attempt met a 412

  // All that rivals did to the store while the first n attempts were under way.
  ghost function Rivals<K, V>(rivals: seq<seq<StoreOp<K, V>>>, n: nat): seq<StoreOp<K, V>>
    requires n <= |rivals|
  {
    if n == 0 then [] else Rivals(rivals, n - 1) + rivals[n - 1]
  }

  lemma {:induction false} ApplyAllAppend<K(!new), V>(s: Store<K, V>, a: seq<StoreOp<K, V>>, b: seq<StoreOp<K, V>>)
    ensures ApplyAll(s, a + b) == ApplyAll(ApplyAll(s, a), b)
    decreases |a|
  {
    if a == [] {
      assert a + b == b;
    } else {
      assert (a + b)[1..] == a[1..] + b;
      ApplyAllAppend(Apply(s, a[0]), a[1..], b);
    }
  }

  method Interfere<K(!new, ==), V>(store: MemStore<K, V>, ops: seq<StoreOp<K, V>>)
    modifies store
    ensures store.Contents() == ApplyAll(old(store.Contents()), ops)
  {
    var i := 0;
    while i < |ops|
      invariant i <= |ops|
      invariant ApplyAll(store.Contents(), ops[i..]) == ApplyAll(old(store.Contents()), ops)
    {
      assert ops[i..][0] == ops[i] && ops[i..][1..] == ops[i + 1..];
      match ops[i] {
        case OpPut(k, b) => var _ := store.Put(k, b);
        case OpPutIfAbsent(k, b) => var _ := store.PutIfAbsent(k, b);
        case OpPutCas(k, b, e) => var _ := store.PutCAS(k, b, e);
      }
      i := i + 1;
    }
  }

  // What one attempt's interference leaves of the object read before it.
  lemma {:induction false} Interfered<K(!new), V>(start: Store<K, V>, read: Store<K, V>, rivals: seq<seq<StoreOp<K, V>>>, n: nat, key: K)
    requires n < |rivals| && read == ApplyAll(start, Rivals(rivals, n)) && EtagsIssued(read)
    ensures var met := ApplyAll(read, rivals[n]);
            && met == ApplyAll(start, Rivals(rivals, n + 1)) && EtagsIssued(met)
            && (key in met.objs && key in read.objs && met.objs[key].etag == read.objs[key].etag ==> met.objs[key] == read.objs[key])
  {
    EtagsStayIssued(read, rivals[n]);
    ApplyAllAppend(start, Rivals(rivals, n), rivals[n]);
    if key in ApplyAll(read, rivals[n]).objs { EtagIdentifiesBody(read, rivals[n], key); }
  }

  lemma {:induction false} OneStaysIssued<K(!new), V>(s: Store<K, V>, op: StoreOp<K, V>)
    requires EtagsIssued(s)
    ensures EtagsIssued(Apply(s, op))
  {
  }

  // The rivals of attempt i changed the object the attempt had read.
  ghost predicate Overtaken<K(!new), V>(start: Store<K, V>, rivals: seq<seq<StoreOp<K, V>>>, i: nat, key: K)
    requires i < |rivals|
  {
    var read, met := ApplyAll(start, Rivals(rivals, i)), ApplyAll(start, Rivals(rivals, i + 1));
    key in read.objs && (key !in met.objs || met.objs[key].etag != read.objs[key].etag)
  }

  // The retry loop, with arbitrary writes of others (`rivals[i]`) between the read and the
  // conditional write of attempt i. A commit is the closure applied, atomically, to the state the
  // rivals had produced; any other outcome leaves the store as the rivals made it. It is exhausted only
  // if rivals wrote the key during every attempt, and declines or finds nothing only on what it has read.
  method SaveCas<K(!new, ==), V>(store: MemStore<K, V>, key: K, mutate: V -> Option<V>, rivals: seq<seq<StoreOp<K, V>>>)
    returns (out: Outcome<V>, ghost used: nat)
    requires EtagsIssued(store.Contents())
    modifies store
    ensures EtagsIssued(store.Contents()) && used <= |rivals|
    ensures var before := ApplyAll(old(store.Contents()), Rivals(rivals, used));
            match out
            case Committed(v) => key in before.objs && mutate(before.objs[key].body) == Some(v)
                                 && store.Contents() == Write(before, key, v)
            case Declined => key in before.objs && mutate(before.objs[key].body) == None && store.Contents() == before
            case Missing => key !in before.objs && store.Contents() == before
            case Exhausted => used == |rivals| && store.Contents() == before
    ensures out.Exhausted? ==> forall i | 0 <= i < |rivals| :: Overtaken(old(store.Contents()), rivals, i, key)
  {
    hide EtagsIssued, ApplyAll;
    ghost var start := store.Contents();
    used := 0;
    assert ApplyAll(start, Rivals(rivals, 0)) == start by { NoRivals(start); }
    hide Rivals;
    var attempt := 0;
    while attempt < |rivals|
      invariant attempt <= |rivals| && used == attempt
      invariant store.Contents() == ApplyAll(start, Rivals(rivals, attempt))
      invariant EtagsIssued(store.Contents())
      invariant forall i | 0 <= i < attempt :: Overtaken(start, rivals, i, key)
    {
      ghost var read := store.Contents();
      var seen := store.Get(key);
      if seen.None? {
        return Missing, used;
      }
      var next := mutate(seen.value.body);
      if next.None? {
        return Declined, used;
      }
      Interfere(store, rivals[attempt]);
      Interfered(start, read, rivals, attempt, key);
      used := attempt + 1;
      OneStaysIssued(store.Contents(), OpPutCas(key, next.value, seen.value.etag));
      var put := store.PutCAS(key, next.value, seen.value.etag);
      if put.Some? {
        return Committed(next.value), used;
      }
      assert Overtaken(start, rivals, attempt, key);
      attempt := attempt + 1;
    }
    out := Exhausted;
  }

  lemma {:induction false} NoRivals<K, V>(s: Store<K, V>)
    ensures ApplyAll(s, []) == s
  {
  }

  // ---------------------------------------------------------------- many callers

  // One call of the loop. `input` is what its closure read from the outside (clocks) on that attempt.
  datatype Call<E, I, V> =
    | Loading(edit: E, attempt: nat)
    | Ready(edit: E, attempt: nat, seen: Obj<V>, input: I, body: V)
    | Won(edit: E, input: I, before: V, body: V)  // what its last attempt read, and what it wrote
    | Stood(edit: E)        // the closure declined
    | GaveUp(edit: E)       // attempts exhausted

  // One committed write.
  datatype Link<E, I, V> = Link(call: nat, edit: E, input: I, before: V, after: V)

  datatype Machine<E, I, V> = Machine(obj: Obj<V>, counter: nat, calls: map<nat, Call<E, I, V>>, history: seq<Link<E, I, V>>)

  datatype Move<E, I> =
    | Begin(call: nat, edit: E)
    | Load(call: nat, input: I)
    | Swap(call: nat)

  type Mutate<!E, !I, !V> = (E, I, V) -> Option<V>

  function Start<E, I, V>(v: V): Machine<E, I, V> {
    Machine(Obj(v, 1), 1, map[], [])
  }

  function StepCas<E, I, V>(mutate: Mutate<E, I, V>, max: nat, s: Machine<E, I, V>, a: Move<E, I>): Machine<E, I, V> {
    match a
    case Begin(c, e) => if c in s.calls then s else s.(calls := s.calls[c := Loading(e, 0)])
    case Load(c, i) =>
      if c !in s.calls || !s.calls[c].Loading? then s else
      var call := s.calls[c];
      if call.attempt >= max then s.(calls := s.calls[c := GaveUp(call.edit)]) else
      (match mutate(call.edit, i, s.obj.body)
       case None => s.(calls := s.calls[c := Stood(call.edit)])
       case Some(v) => s.(calls := s.calls[c := Ready(call.edit, call.attempt, s.obj, i, v)]))
    case Swap(c) =>
      if c !in s.calls || !s.calls[c].Ready? then s else
      var call := s.calls[c];
      if s.obj.etag != call.seen.etag then s.(calls := s.calls[c := Loading(call.edit, call.attempt + 1)]) else
      Machine(Obj(call.body, s.counter + 1), s.counter + 1, s.calls[c := Won(call.edit, call.input, call.seen.body, call.body)],
              s.history + [Link(c, call.edit, call.input, s.obj.body, call.body)])
  }

  function RunCas<E, I, V>(mutate: Mutate<E, I, V>, max: nat, s: Machine<E, I, V>, moves: seq<Move<E, I>>): Machine<E, I, V>
    decreases |moves|
  {
    if moves == [] then s else RunCas(mutate, max, StepCas(mutate, max, s, moves[0]), moves[1..])
  }

  // Link i is the closure's result on its predecessor's body.
  ghost predicate LinkOk<E, I, V>(mutate: Mutate<E, I, V>, v0: V, history: seq<Link<E, I, V>>, i: nat)
    requires i < |history|
  {
    && mutate(history[i].edit, history[i].input, history[i].before) == Some(history[i].after)
    && history[i].before == if i == 0 then v0 else history[i - 1].after
  }

  // What a committed call knows of its link: it read `before`, at `input`, and wrote `after`.
  ghost predicate Reports<E, I, V>(call: Call<E, I, V>, l: Link<E, I, V>)
    requires call.Won?
  {
    l.input == call.input && l.before == call.before && l.after == call.body
  }

  // The committed writes are a serial chain from v0 to the current body.
  ghost predicate Serial<E, I, V>(mutate: Mutate<E, I, V>, v0: V, history: seq<Link<E, I, V>>, now: V) {
    && (forall i | 0 <= i < |history| :: LinkOk(mutate, v0, history, i))
    && now == if history == [] then v0 else history[|history| - 1].after
  }

  ghost predicate CallOk<E, I, V>(mutate: Mutate<E, I, V>, s: Machine<E, I, V>, c: nat)
    requires c in s.calls
  {
    var call := s.calls[c];
    && (call.Ready? ==> && call.seen.etag <= s.counter
                        && mutate(call.edit, call.input, call.seen.body) == Some(call.body)
                        && (s.obj.etag == call.seen.etag ==> s.obj == call.seen))
    && (call.Won? <==> exists i :: 0 <= i < |s.history| && s.history[i].call == c)
    && (forall i | 0 <= i < |s.history| && s.history[i].call == c :: s.history[i].edit == call.edit
                                                                     && (call.Won? ==> Reports(call, s.history[i])))
  }

  ghost predicate CasInv<E(!new), I(!new), V(!new)>(mutate: Mutate<E, I, V>, v0: V, s: Machine<E, I, V>) {
    && s.obj.etag <= s.counter
    && Serial(mutate, v0, s.history, s.obj.body)
    && (forall c | c in s.calls :: CallOk(mutate, s, c))
    && (forall i | 0 <= i < |s.history| :: s.history[i].call in s.calls)
    && (forall i, j | 0 <= i < j < |s.history| :: s.history[i].call != s.history[j].call)
  }

  lemma {:induction false} SerialGrows<E(!new), I(!new), V(!new)>(mutate: Mutate<E, I, V>, v0: V, history: seq<Link<E, I, V>>, now: V, l: Link<E, I, V>)
    requires Serial(mutate, v0, history, now) && l.before == now && mutate(l.edit, l.input, l.before) == Some(l.after)
    ensures Serial(mutate, v0, history + [l], l.after)
  {
    forall i | 0 <= i < |history| + 1 ensures LinkOk(mutate, v0, history + [l], i) {
      if i < |history| { assert LinkOk(mutate, v0, history, i); }
    }
  }

  lemma {:induction false} SwapKeeps<E(!new), I(!new), V(!new)>(mutate: Mutate<E, I, V>, max: nat, v0: V, s: Machine<E, I, V>, c: nat)
    requires CasInv(mutate, v0, s)
    ensures CasInv(mutate, v0, StepCas(mutate, max, s, Swap(c)))
  {
    var s' := StepCas(mutate, max, s, Swap(c));
    if c in s.calls && s.calls[c].Ready? && s.obj.etag == s.calls[c].seen.etag {
      assert CallOk(mutate, s, c);
      var n := |s.history|;
      assert s'.history[n].call == c && Reports(s'.calls[c], s'.history[n]);
      SerialGrows(mutate, v0, s.history, s.obj.body, s'.history[n]);
      hide Reports, StepCas, Serial, LinkOk;
      forall d | d in s'.calls ensures CallOk(mutate, s', d) {
        assert CallOk(mutate, s, d);
        if s'.calls[d].Won? && d != c {
          var i :| 0 <= i < n && s.history[i].call == d;
          assert s'.history[i].call == d;
        }
      }
    } else {
      forall d | d in s'.calls ensures CallOk(mutate, s', d) { assert CallOk(mutate, s, d); }
    }
  }

  lemma {:induction false} StepKeeps<E(!new), I(!new), V(!new)>(mutate: Mutate<E, I, V>, max: nat, v0: V, s: Machine<E, I, V>, a: Move<E, I>)
    requires CasInv(mutate, v0, s)
    ensures CasInv(mutate, v0, StepCas(mutate, max, s, a))
  {
    hide Serial, LinkOk, Reports;
    if a.Swap? {
      SwapKeeps(mutate, max, v0, s, a.call);
    } else {
      var s' := StepCas(mutate, max, s, a);
      forall d | d in s'.calls ensures CallOk(mutate, s', d) {
        if d in s.calls { assert CallOk(mutate, s, d); }
      }
    }
  }

  lemma {:induction false} RunKeepsCas<E(!new), I(!new), V(!new)>(mutate: Mutate<E, I, V>, max: nat, v0: V, s: Machine<E, I, V>, moves: seq<Move<E, I>>)
    requires CasInv(mutate, v0, s)
    ensures CasInv(mutate, v0, RunCas(mutate, max, s, moves))
    decreases |moves|
  {
    if moves != [] {
      StepKeeps(mutate, max, v0, s, moves[0]);
      RunKeepsCas(mutate, max, v0, StepCas(mutate, max, s, moves[0]), moves[1..]);
    }
  }

  // Optimistic compare-and-swap refines an atomic update, for every interleaving of every number of
  // callers: the commits are a serial chain, a call that reports a commit contributed exactly one
  // link with the body it reports, and every other call contributed none.
  lemma {:induction false} CommitsAreSerial<E(!new), I(!new), V(!new)>(mutate: Mutate<E, I, V>, max: nat, v0: V, moves: seq<Move<E, I>>)
    ensures var s := RunCas(mutate, max, Start(v0), moves);
            && Serial(mutate, v0, s.history, s.obj.body)
            && (forall c | c in s.calls && s.calls[c].Won? ::
                  exists i :: 0 <= i < |s.history| && s.history[i].call == c
                              && s.history[i].edit == s.calls[c].edit && Reports(s.calls[c], s.history[i]))
            && (forall i, j | 0 <= i < |s.history| && 0 <= j < |s.history| && s.history[i].call == s.history[j].call :: i == j)
            && (forall c | c in s.calls && !s.calls[c].Won? :: forall i | 0 <= i < |s.history| :: s.history[i].call != c)
  {
    RunKeepsCas(mutate, max, v0, Start(v0), moves);
    var s := RunCas(mutate, max, Start(v0), moves);
    forall c | c in s.calls && s.calls[c].Won?
      ensures exists i :: 0 <= i < |s.history| && s.history[i].call == c
                          && s.history[i].edit == s.calls[c].edit && Reports(s.calls[c], s.history[i])
    {
      assert CallOk(mutate, s, c);
    }
    forall c | c in s.calls && !s.calls[c].Won?
      ensures forall i | 0 <= i < |s.history| :: s.history[i].call != c
    {
      assert CallOk(mutate, s, c);
    }
  }

  // ---------------------------------------------------------------- who gives up

  // Every ETag so far is one commit's, so the ETag counts the commits.
  ghost predicate Counted<E(!new), I(!new), V(!new)>(s: Machine<E, I, V>) {
    s.obj.etag == s.counter == |s.history| + 1
  }

  // Call c, begun when h commits had been made, has been overtaken by one commit in each attempt.
  ghost predicate OnlyBeaten<E(!new), I(!new), V(!new)>(s: Machine<E, I, V>, max: nat, c: nat, h: nat) {
    c in s.calls &&
    match s.calls[c]
    case Loading(_, attempt) => attempt <= max && |s.history| >= h + attempt
    case Ready(_, attempt, seen, _, _) => attempt < max && h + attempt < seen.etag <= s.obj.etag
    case GaveUp(_) => |s.history| >= h + max
    case _ => true
  }

  lemma {:induction false} StepBeaten<E(!new), I(!new), V(!new)>(mutate: Mutate<E, I, V>, max: nat, s: Machine<E, I, V>, a: Move<E, I>, c: nat, h: nat)
    requires Counted(s) && OnlyBeaten(s, max, c, h)
    ensures Counted(StepCas(mutate, max, s, a)) && OnlyBeaten(StepCas(mutate, max, s, a), max, c, h)
  {
  }

  lemma {:induction false} RunBeaten<E(!new), I(!new), V(!new)>(mutate: Mutate<E, I, V>, max: nat, s: Machine<E, I, V>, moves: seq<Move<E, I>>, c: nat, h: nat)
    requires Counted(s) && OnlyBeaten(s, max, c, h)
    ensures OnlyBeaten(RunCas(mutate, max, s, moves), max, c, h)
    decreases |moves|
  {
    if moves != [] {
      StepBeaten(mutate, max, s, moves[0], c, h);
      RunBeaten(mutate, max, StepCas(mutate, max, s, moves[0]), moves[1..], c, h);
    }
  }

  lemma {:induction false} RunCounted<E(!new), I(!new), V(!new)>(mutate: Mutate<E, I, V>, max: nat, s: Machine<E, I, V>, moves: seq<Move<E, I>>)
    requires Counted(s)
    ensures Counted(RunCas(mutate, max, s, moves))
    decreases |moves|
  {
    if moves != [] {
      assert Counted(StepCas(mutate, max, s, moves[0]));
      RunCounted(mutate, max, StepCas(mutate, max, s, moves[0]), moves[1..]);
    }
  }

  // The loop is lock-free: a call gives up only if, since it began, others have committed once for
  // each of its attempts.
  lemma {:induction false} GivesUpOnlyBeaten<E(!new), I(!new), V(!new)>(mutate: Mutate<E, I, V>, max: nat, v0: V, before: seq<Move<E, I>>, c: nat, edit: E,
      after: seq<Move<E, I>>)
    requires var s := RunCas(mutate, max, Start(v0), before); c !in s.calls
    requires var s := RunCas(mutate, max, StepCas(mutate, max, RunCas(mutate, max, Start(v0), before), Begin(c, edit)), after);
             c in s.calls && s.calls[c].GaveUp?
    ensures var s := RunCas(mutate, max, Start(v0), before);
            var s' := RunCas(mutate, max, StepCas(mutate, max, s, Begin(c, edit)), after);
            |s'.history| >= |s.history| + max
  {
    var s := RunCas(mutate, max, Start(v0), before);
    RunCounted(mutate, max, Start(v0), before);
    RunBeaten(mutate, max, StepCas(mutate, max, s, Begin(c, edit)), after, c, |s.history|);
  }

  lemma {:induction false} RunOne<E(!new), I(!new), V(!new)>(mutate: Mutate<E, I, V>, max: nat, s: Machine<E, I, V>, moves: seq<Move<E, I>>)
    requires moves != []
    ensures RunCas(mutate, max, s, moves) == RunCas(mutate, max, StepCas(mutate, max, s, moves[0]), moves[1..])
  {
  }

  // A call that nobody interferes with ends at once: it commits what its closure asks for, or declines
  // exactly when the closure does.
  lemma {:induction false} AloneIsDone<E(!new), I(!new), V(!new)>(mutate: Mutate<E, I, V>, max: nat, v0: V, before: seq<Move<E, I>>, c: nat, edit: E, input: I)
    requires c !in RunCas(mutate, max, Start(v0), before).calls && max > 0
    ensures var s := RunCas(mutate, max, Start(v0), before);
            var s' := RunCas(mutate, max, s, [Begin(c, edit), Load(c, input), Swap(c)]);
            match mutate(edit, input, s.obj.body)
            case None => s'.calls == s.calls[c := Stood(edit)] && s'.obj == s.obj && s'.history == s.history
            case Some(v) => s'.obj.body == v && s'.calls == s.calls[c := Won(edit, input, s.obj.body, v)]
                            && s'.history == s.history + [Link(c, edit, input, s.obj.body, v)]
  {
    var s := RunCas(mutate, max, Start(v0), before);
    var moves := [Begin(c, edit), Load(c, input), Swap(c)];
    var s1 := StepCas(mutate, max, s, moves[0]);
    var s2 := StepCas(mutate, max, s1, moves[1]);
    RunOne(mutate, max, s, moves);
    RunOne(mutate, max, s1, moves[1..]);
    RunOne(mutate, max, s2, moves[1..][1..]);
    assert s1.calls == s.calls[c := Loading(edit, 0)];
  }
}

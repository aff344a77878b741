// Concurrency and the index together: a vector or text query answered in the middle of any
// interleaving agrees with a plain scan of the log as it stood when the query loaded its manifest.

module Transparency {
  import opened Types
  import opened KMeans
  import opened Filters
  import opened Ranking
  import opened Query
  import Namespaces
  import Bm25
  import T = TextQueries
  import P = Protocol
  import PI = ProtocolInvariant
  import PS = ProtocolSteps
  import ProtocolSafety

  // ---------------------------------------------------------------- builds

  // The objects one build wrote, with the setting they are to be read in. The text index is there if
  // there is a text field.
  datatype Made = Made(s: Setting, ix: IndexEpoch, bm25: Option<Bm25.Bm25File>, docs: map<string, Attrs>)

  ghost predicate MadeOk(d: Dist, tok: Bm25.Analyzer, m: Made, live: Live) {
    && IndexOk(m.s, m.ix, live) && Complete(d, m.ix)
    && (m.s.textField != "" ==> m.bm25.Some? && T.TextIndexOf(tok, m.s.textField, m.bm25, m.docs, live))
  }

  // made[i] is what build i computed from its snapshot.
  ghost predicate BuildsDone(d: Dist, tok: Bm25.Analyzer, made: seq<Made>, builds: seq<Live>) {
    |made| == |builds| && forall i | 0 <= i < |made| :: MadeOk(d, tok, made[i], builds[i])
  }

  // One more build, from the clusters of any earlier one or from none.
  method Build(d: Dist, fmt: Format, textField: string, tok: Bm25.Analyzer, prev: Option<nat>, live: Live, made: seq<Made>, ghost builds: seq<Live>)
    returns (more: seq<Made>)
    requires NonNegative(d) && Injective(fmt) && BuildsDone(d, tok, made, builds) && (prev.Some? ==> prev.value < |made|)
    ensures made <= more && BuildsDone(d, tok, more, builds + [live])
  {
    hide IndexOk, Complete, Namespaces.ClustersFrom, NonNegative, Injective, Bm25.Indexes;
    var earlier := None;
    if prev.Some? {
      assert MadeOk(d, tok, made[prev.value], builds[prev.value]);
      Namespaces.PrevUnique(made[prev.value].s, made[prev.value].ix, builds[prev.value]);
      earlier := Some(made[prev.value].ix.clusters);
    }
    var ix, clusterOf := Namespaces.BuildEpoch(d, fmt, textField, earlier, live);
    var bm25 := None;
    if textField != "" {
      var idx := Bm25.BuildBM25(tok, Bm25.TextsOf(live, textField));
      bm25 := Some(idx);
    }
    more := made + [Made(Setting(fmt, textField, clusterOf), ix, bm25, T.AttrsOf(live))];
  }

  // ---------------------------------------------------------------- reads

  // Client c has finished reading: `base` is what its index objects were built from, if it read any,
  // and `view` the folded tail. `st` is the state in which it loaded its manifest, and `actions`
  // everything since. The namespace is a root, or has an epoch of its own or captured by its fork.
  ghost predicate HasRead(st: P.State, actions: seq<P.Action>, c: nat, base: Option<P.Built>, view: View) {
    var st' := P.Run(st, actions);
    && ProtocolSafety.Reachable(st) && c in st'.clients && st'.clients[c].Answer?
    && (var ph := st'.clients[c];
        && ph.job.ns in st.mans.objs && ph.job.m == st.mans.objs[ph.job.ns].body && ph.job.acked == st.acked
        && (!ph.job.m.IsBranch() || ph.job.m.indexEpoch > 0 || ph.job.m.forkIndexEpoch > 0)
        && ph.base == base && ph.view == view)
  }

  // What the query is about: the documents alive at its manifest read.
  ghost function AliveAtRead(st: P.State, actions: seq<P.Action>, c: nat, base: Option<P.Built>, view: View): Live
    requires HasRead(st, actions, c, base, view)
  {
    var job := P.Run(st, actions).clients[c].job;
    P.LiveAt(st, job.ns, job.m.walSeq)
  }

  lemma {:induction false} ReadIsLog(st: P.State, actions: seq<P.Action>, c: nat, base: Option<P.Built>, view: View)
    requires HasRead(st, actions, c, base, view)
    ensures Overlay(P.BaseLive(base), view) == AliveAtRead(st, actions, c, base, view) && ViewOk(view)
  {
    hide P.Run, P.Log, P.LiveAt, Fold;
    ProtocolSafety.QueryIsAtomic(st, actions, c);
    var job := P.Run(st, actions).clients[c].job;
    FoldKeepsViewOk(EmptyView, P.Log(st, job.ns, job.m.indexedUpTo, job.m.walSeq));
  }

  // The objects a read used are all of one build of this run.
  lemma {:induction false} ReadIsOneBuild(st: P.State, actions: seq<P.Action>, c: nat, base: Option<P.Built>, view: View)
    requires HasRead(st, actions, c, base, view)
    ensures base.Some? ==> base.value.build < |P.Run(st, actions).builds| && P.Run(st, actions).builds[base.value.build] == base.value.live
  {
    hide P.Run, PI.Inv;
    ProtocolSafety.ReachableInv(st);
    ProtocolSafety.RunKeeps(st, actions);
    PS.KnownPhase(P.Run(st, actions), c);
    hide PI.JobOk, PI.BasisOk, PI.StoreOk, PI.BuildOk, PI.BasisLive, P.Log, P.LiveAt, ProtocolSafety.Reachable;
  }

  // Ranks what a finished read gathered, with the index objects of the build it read them from. The
  // hits ranked are the matches alive at the manifest read that were last written in the tail or are
  // picked from those objects; when the answer must be exact they are all matches. Whatever other
  // clients did meanwhile makes no difference.
  method Serve(ghost st: P.State, ghost actions: seq<P.Action>, ghost c: nat, ghost made: seq<Made>, ghost tok: Bm25.Analyzer,
      d: Dist, q: Vector, dimension: nat, s: Setting, f: Filter, index: Option<IndexEpoch>, ghost base: Option<P.Built>, view: View,
      nProbe: int, topK: int, score: Prefilter)
    returns (ok: bool, results: seq<Hit>, ghost considered: set<Hit>, ghost picked: set<string>)
    requires HasRead(st, actions, c, base, view) && BuildsDone(d, tok, made, P.Run(st, actions).builds)
    requires nProbe < 0x8000_0000_0000_0000 && topK < 0x8000_0000_0000_0000
    requires if base.Some? then base.value.build < |made| && index == Some(made[base.value.build].ix) && s == made[base.value.build].s
             else index.None?
    ensures ok <==> |q| == dimension && !(index.Some? && Panics(s, f, EffectiveTopK(topK), index.value, P.BaseLive(base)))
    ensures ok ==> IsTopK(results, considered, EffectiveTopK(topK))
    ensures ok ==> considered <= Matching(d, q, f, AliveAtRead(st, actions, c, base, view))
    ensures ok ==> forall h | h in Matching(d, q, f, AliveAtRead(st, actions, c, base, view)) ::
              h in considered <==> h.id in view.live || h.id in picked
    ensures ok ==> if index.None? then picked == {}
                   else Picked(d, q, s, f, index.value, P.BaseLive(base), EffectiveNProbe(nProbe), EffectiveTopK(topK), score, picked)
    ensures ok && Exact(s, f, EffectiveNProbe(nProbe), EffectiveTopK(topK), index, P.BaseLive(base)) ==>
              considered == Matching(d, q, f, AliveAtRead(st, actions, c, base, view))
    ensures index.Some? && SelectiveFilter(s.textField, f, P.BaseLive(base)) ==>
              (ok <==> |q| == dimension) && (ok ==> considered == Matching(d, q, f, AliveAtRead(st, actions, c, base, view)))
  {
    hide Picked, SelectiveFilter, Complete, HasRead, AliveAtRead, IndexOk, Exact, Panics, Matching, IsTopK, P.Run;
    ReadIsLog(st, actions, c, base, view);
    ReadIsOneBuild(st, actions, c, base, view);
    if base.Some? { assert MadeOk(d, tok, made[base.value.build], P.BaseLive(base)); }
    ok, results, considered, picked := RunVectorQuery(d, q, dimension, s, f, index, P.BaseLive(base), view, nProbe, topK, score);
    if index.Some? && SelectiveFilter(s.textField, f, P.BaseLive(base)) {
      SelectiveIsExact(d, s, f, EffectiveNProbe(nProbe), EffectiveTopK(topK), index.value, P.BaseLive(base));
    }
  }

  // The same for a text query, with the text index and the stored attributes of the build it read
  // from: the answer is the top of all matches alive at the manifest read, by the scores that build's
  // statistics give their newest texts.
  method ServeText(ghost st: P.State, ghost actions: seq<P.Action>, ghost c: nat, ghost made: seq<Made>, ghost d: Dist,
      ln: Bm25.Log, tok: Bm25.Analyzer, field: string, index: Option<Bm25.Bm25File>, docs: map<string, Attrs>,
      ghost base: Option<P.Built>, view: View, text: string, f: Filter, topK: int)
    returns (ok: bool, results: seq<Hit>)
    requires HasRead(st, actions, c, base, view) && BuildsDone(d, tok, made, P.Run(st, actions).builds) && Bm25.PositiveAboveOne(ln)
    requires if base.Some? then base.value.build < |made| && var m := made[base.value.build]; m.s.textField == field && index == m.bm25 && docs == m.docs
             else index.None?
    ensures ok <==> field != ""
    ensures ok ==> IsTopK(results, T.TextMatching(T.Search(ln, tok, field, tok(text)), T.StatsOf(index), f, AliveAtRead(st, actions, c, base, view)),
                          EffectiveTopK(topK))
  {
    hide HasRead, AliveAtRead, IndexOk, Complete, T.TextIndexOf, T.TextMatching, IsTopK, P.Run, Bm25.PositiveAboveOne;
    ReadIsLog(st, actions, c, base, view);
    ReadIsOneBuild(st, actions, c, base, view);
    if base.Some? {
      assert MadeOk(d, tok, made[base.value.build], P.BaseLive(base));
    } else {
      NoTextIndex(tok, field, docs);
    }
    ok, results := T.RunBM25Query(ln, tok, field, index, docs, P.BaseLive(base), view, text, f, topK);
  }

  lemma {:induction false} NoTextIndex(tok: Bm25.Analyzer, field: string, docs: map<string, Attrs>)
    ensures T.TextIndexOf(tok, field, None, docs, map[])
  {
  }

  // So two exact answers to one question are equal when nothing was written in between, whatever was
  // indexed in between and however each was planned.
  lemma {:induction false} IndexingIsInvisible(d: Dist, q: Vector, f: Filter, k: nat, st: P.State, actions: seq<P.Action>, ns: string,
      r1: seq<Hit>, r2: seq<Hit>)
    requires ProtocolSafety.Reachable(st) && ns in st.mans.objs
    requires var st' := P.Run(st, actions); ns in st'.mans.objs && st'.mans.objs[ns].body.walSeq == st.mans.objs[ns].body.walSeq
    requires IsTopK(r1, Matching(d, q, f, P.LiveAt(st, ns, st.mans.objs[ns].body.walSeq)), k)
    requires IsTopK(r2, Matching(d, q, f, P.LiveAt(P.Run(st, actions), ns, st.mans.objs[ns].body.walSeq)), k)
    ensures r1 == r2
  {
    ProtocolSafety.PrefixIsFrozen(st, actions, ns, st.mans.objs[ns].body.walSeq);
    var live := P.LiveAt(st, ns, st.mans.objs[ns].body.walSeq);
    MatchingOnePerId(d, q, f, live);
    TopKUnique(r1, r2, Matching(d, q, f, live), k);
  }
}

// Text queries: indexed BM25 scores under the unindexed tail, filtered, ordered and cut.

module TextQueries {
  import opened Types
  import opened Filters
  import opened Ranking
  import opened Sorting
  import opened Bm25
  import Query

  // What a text query is evaluated with: the field searched, its analyzer, and the query's terms.
  datatype Search = Search(ln: Log, tok: Analyzer, field: string, terms: seq<string>)

  // The statistics every document is scored against: those of the index, or none.
  function StatsOf(index: Option<Bm25File>): Bm25File {
    if index.Some? then index.value else EmptyFile
  }

  function AttrsOf(live: Live): map<string, Attrs> {
    map id | id in live :: live[id].attrs
  }

  // The text index and the stored attributes both describe the base.
  ghost predicate TextIndexOf(tok: Analyzer, field: string, index: Option<Bm25File>, docs: map<string, Attrs>, base: Live) {
    if index.Some? then Indexes(tok, TextsOf(base, field), index.value) && docs == AttrsOf(base) else base == map[]
  }

  // The score of a document, if its text holds a query term.
  ghost function Rank(s: Search, idx: Bm25File, attrs: Attrs): Option<real> {
    var tokens := s.tok(TextOf(attrs, s.field));
    if Hits(tokens, s.terms) then Some(TextScore(s.ln, idx, tokens, s.terms)) else None
  }

  // Every live document that holds a query term and passes the filter, as a hit. Hits are ranked by
  // falling score, so a hit's distance is its score negated.
  ghost function TextMatching(s: Search, idx: Bm25File, f: Filter, live: Live): set<Hit> {
    set id | id in live && Rank(s, idx, live[id].attrs).Some? && Match(f, live[id].attrs) ::
      Hit(id, -Rank(s, idx, live[id].attrs).value, live[id].attrs)
  }

  // A live document whose field holds a text is a match exactly if the text holds a query term and its
  // attributes pass the filter.
  lemma {:induction false} TextFound(s: Search, idx: Bm25File, f: Filter, live: Live, id: string, text: string)
    requires id in live && s.field in live[id].attrs && live[id].attrs[s.field] == Str(text)
    ensures (exists h :: h in TextMatching(s, idx, f, live) && h.id == id)
            <==> Match(f, live[id].attrs) && exists t :: t in s.terms && t in s.tok(text)
  {
    hide Match, TextScore;
    var r := Rank(s, idx, live[id].attrs);
    if r.Some? && Match(f, live[id].attrs) {
      assert Hit(id, -r.value, live[id].attrs) in TextMatching(s, idx, f, live);
    }
  }

  // ---------------------------------------------------------------- candidates

  // The two maps a text query fills hold exactly the live documents with a query term in their text.
  ghost predicate Ranked(s: Search, idx: Bm25File, live: Live, scores: map<string, real>, attrs: map<string, Attrs>) {
    && scores.Keys == attrs.Keys
    && (forall id :: id in scores <==> id in live && Rank(s, idx, live[id].attrs).Some?)
    && (forall id | id in scores :: scores[id] == Rank(s, idx, live[id].attrs).value && attrs[id] == live[id].attrs)
  }

  // One newer version of a document, with its own score or none.
  lemma {:induction false} RankNewer(s: Search, idx: Bm25File, live: Live, scores: map<string, real>, attrs: map<string, Attrs>, id: string, doc: Document)
    requires Ranked(s, idx, live, scores, attrs)
    ensures var r := Rank(s, idx, doc.attrs);
            if r.None? then Ranked(s, idx, live[id := doc], scores - {id}, attrs - {id})
            else Ranked(s, idx, live[id := doc], scores[id := r.value], attrs[id := doc.attrs])
  {
    hide Rank;
  }

  lemma {:induction false} RankWithout(s: Search, idx: Bm25File, live: Live, scores: map<string, real>, attrs: map<string, Attrs>, gone: set<string>)
    requires Ranked(s, idx, live, scores, attrs)
    ensures Ranked(s, idx, live - gone, scores - gone, attrs - gone)
  {
    hide Rank;
  }

  // Scoring through the postings ranks the base.
  lemma {:induction false} IndexRanks(s: Search, idx: Bm25File, docs: map<string, Attrs>, base: Live, scores: map<string, real>)
    requires PositiveAboveOne(s.ln) && Indexes(s.tok, TextsOf(base, s.field), idx) && docs == AttrsOf(base)
    requires ScoresOk(s.ln, s.tok, TextsOf(base, s.field), idx, s.terms, scores)
    ensures FreqsOk(idx) && scores.Keys <= docs.Keys
    ensures Ranked(s, idx, base, scores, map id | id in scores :: docs[id])
  {
    hide Indexes, TextScore, Hits, FreqsOk, PositiveAboveOne, TextOf;
    IndexFreqs(s.tok, TextsOf(base, s.field), idx);
  }

  // The postings of the index, or nothing before the first build.
  method IndexCandidates(s: Search, index: Option<Bm25File>, docs: map<string, Attrs>, ghost base: Live)
    returns (scores: map<string, real>, attrs: map<string, Attrs>)
    requires PositiveAboveOne(s.ln) && TextIndexOf(s.tok, s.field, index, docs, base)
    ensures Ranked(s, StatsOf(index), base, scores, attrs) && FreqsOk(StatsOf(index))
  {
    hide Indexes, ScoresOk, FreqsOk, Rank, PositiveAboveOne;
    scores, attrs := map[], map[];
    if index.Some? {
      scores := Score(s.ln, s.tok, TextsOf(base, s.field), index.value, s.terms);
      IndexRanks(s, index.value, docs, base, scores);
      attrs := map id | id in scores :: docs[id];
    } else {
      EmptyFreqs();
    }
  }

  // The base under the tail's documents looked at so far.
  ghost function Seen(base: Live, tail: Live, todo: set<string>): Live {
    base + (tail - todo)
  }

  lemma {:induction false} SeenOne(base: Live, tail: Live, todo: set<string>, id: string)
    requires id in tail && id in todo
    ensures Seen(base, tail, todo - {id}) == Seen(base, tail, todo)[id := tail[id]]
  {
  }

  lemma {:induction false} NoneSeen(base: Live, tail: Live)
    ensures Seen(base, tail, tail.Keys) == base
  {
  }

  lemma {:induction false} AllSeen(base: Live, tail: View)
    requires ViewOk(tail)
    ensures Seen(base, tail.live, {}) - tail.deleted == Overlay(base, tail)
  {
    assert tail.live - {} == tail.live;
  }

  // Candidates before filter and cut. However much of the log has been indexed, they are the live
  // documents whose newest text holds a query term.
  method TextCandidates(s: Search, index: Option<Bm25File>, docs: map<string, Attrs>, ghost base: Live, tail: View)
    returns (scores: map<string, real>, attrs: map<string, Attrs>)
    requires PositiveAboveOne(s.ln) && ViewOk(tail) && TextIndexOf(s.tok, s.field, index, docs, base)
    ensures Ranked(s, StatsOf(index), Overlay(base, tail), scores, attrs)
  {
    hide TextIndexOf, Ranked, FreqsOk, PositiveAboveOne, TextScore, Hits, Seen;
    var idx := StatsOf(index);
    scores, attrs := IndexCandidates(s, index, docs, base);
    var todo := tail.live.Keys;
    NoneSeen(base, tail.live);
    while todo != {}
      invariant todo <= tail.live.Keys && Ranked(s, idx, Seen(base, tail.live, todo), scores, attrs)
    {
      var id :| id in todo;
      var doc := tail.live[id];
      var score := ScoreDoc(s.ln, s.tok, idx, TextOf(doc.attrs, s.field), s.terms);
      ScoreSign(s.ln, idx, s.tok(TextOf(doc.attrs, s.field)), s.terms);
      RankNewer(s, idx, Seen(base, tail.live, todo), scores, attrs, id, doc);
      SeenOne(base, tail.live, todo, id);
      if score <= 0.0 {
        scores, attrs := scores - {id}, attrs - {id};
      } else {
        scores, attrs := scores[id := score], attrs[id := doc.attrs];
      }
      todo := todo - {id};
    }
    RankWithout(s, idx, Seen(base, tail.live, {}), scores, attrs, tail.deleted);
    AllSeen(base, tail);
    scores, attrs := scores - tail.deleted, attrs - tail.deleted;
  }

  // ---------------------------------------------------------------- the query

  // The hits collected from the candidates are the matches.
  lemma {:induction false} HitsAreMatches(s: Search, idx: Bm25File, f: Filter, live: Live, scores: map<string, real>, attrs: map<string, Attrs>, h: Hit)
    requires Ranked(s, idx, live, scores, attrs)
    ensures h in TextMatching(s, idx, f, live) <==> h.id in scores && Match(f, attrs[h.id]) && h == Hit(h.id, -scores[h.id], attrs[h.id])
  {
    hide Rank, Match;
  }

  // The score of a hit: that of the text it carries.
  function ScoreOf(s: Search, idx: Bm25File, h: Hit): real {
    TextScore(s.ln, idx, s.tok(TextOf(h.attrs, s.field)), s.terms)
  }

  // The cut by distance is the cut by score: highest first, ties by rising id.
  lemma {:induction false} TopByScore(s: Search, idx: Bm25File, f: Filter, live: Live, r: seq<Hit>, k: nat)
    requires IsTopK(r, TextMatching(s, idx, f, live), k)
    ensures forall i, j | 0 <= i < j < |r| ::
              ScoreOf(s, idx, r[i]) > ScoreOf(s, idx, r[j]) || (ScoreOf(s, idx, r[i]) == ScoreOf(s, idx, r[j]) && StrLess(r[i].id, r[j].id))
    ensures forall h, g | h in TextMatching(s, idx, f, live) && h !in r && g in r ::
              |r| == k && (ScoreOf(s, idx, g) > ScoreOf(s, idx, h) || (ScoreOf(s, idx, g) == ScoreOf(s, idx, h) && StrLess(g.id, h.id)))
  {
    TopKMeans(r, TextMatching(s, idx, f, live), k);
    hide IsTopK, TextScore, Hits, Match;
    forall h | h in TextMatching(s, idx, f, live) ensures h.dist == -ScoreOf(s, idx, h) {}
    assert forall i | 0 <= i < |r| :: r[i] in r;
  }

  // The top matches by score. Without a text field the query fails.
  method RunBM25Query(ln: Log, tok: Analyzer, field: string, index: Option<Bm25File>, docs: map<string, Attrs>, ghost base: Live, tail: View,
                      text: string, f: Filter, topK: int)
    returns (ok: bool, results: seq<Hit>)
    requires PositiveAboveOne(ln) && ViewOk(tail) && (field != "" ==> TextIndexOf(tok, field, index, docs, base))
    ensures ok <==> field != ""
    ensures ok ==> IsTopK(results, TextMatching(Search(ln, tok, field, tok(text)), StatsOf(index), f, Overlay(base, tail)), Query.EffectiveTopK(topK))
    ensures ok ==> var s := Search(ln, tok, field, tok(text));
              forall i, j | 0 <= i < j < |results| ::
                ScoreOf(s, StatsOf(index), results[i]) > ScoreOf(s, StatsOf(index), results[j])
                || (ScoreOf(s, StatsOf(index), results[i]) == ScoreOf(s, StatsOf(index), results[j]) && StrLess(results[i].id, results[j].id))
    ensures ok ==> var s := Search(ln, tok, field, tok(text));
              forall h, g | h in TextMatching(s, StatsOf(index), f, Overlay(base, tail)) && h !in results && g in results ::
                |results| == Query.EffectiveTopK(topK)
                && (ScoreOf(s, StatsOf(index), g) > ScoreOf(s, StatsOf(index), h)
                    || (ScoreOf(s, StatsOf(index), g) == ScoreOf(s, StatsOf(index), h) && StrLess(g.id, h.id)))
  {
    hide Rank, TextIndexOf, PositiveAboveOne, Match, IsTopK, TextMatching, ScoreOf;
    ok, results := field != "", [];
    if !ok {
      return;
    }
    var s := Search(ln, tok, field, tok(text));
    var scores, attrs := TextCandidates(s, index, docs, base, tail);
    var hits := Query.CollectHits(f, Query.Cands(map id | id in scores :: -scores[id], attrs));
    forall h: Hit ensures h in hits <==> h in TextMatching(s, StatsOf(index), f, Overlay(base, tail)) {
      HitsAreMatches(s, StatsOf(index), f, Overlay(base, tail), scores, attrs, h);
    }
    assert (set h | h in hits) == TextMatching(s, StatsOf(index), f, Overlay(base, tail));
    results := RankAndCut(hits, Query.EffectiveTopK(topK));
    TopByScore(s, StatsOf(index), f, Overlay(base, tail), results, Query.EffectiveTopK(topK));
  }
}

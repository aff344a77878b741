// BM25: the inverted index, scoring through it, scoring one text directly, and text queries over the
// index and the log tail.

module Bm25 {
  import opened Types
  import opened Sorting

  const K1 := 1.2
  const B := 0.75

  // Text analysis and the natural logarithm, taken as given. Of the logarithm its sign matters, and for
  // how scores move with rarity that it increases.
  type Analyzer = string -> seq<string>
  type Log = real -> real

  ghost predicate PositiveAboveOne(ln: Log) {
    forall x | x > 1.0 :: ln(x) > 0.0
  }

  datatype Posting = Posting(id: string, tf: nat)

  datatype Bm25File = Bm25File(n: nat, avgDL: real, docLen: map<string, nat>, index: map<string, seq<Posting>>)

  const EmptyFile := Bm25File(0, 0.0, map[], map[])

  type Texts = map<string, string>

  // ---------------------------------------------------------------- formulas

  function Occurrences(terms: seq<string>, t: string): nat
    decreases |terms|
  {
    if terms == [] then 0 else Occurrences(terms[..|terms| - 1], t) + (if terms[|terms| - 1] == t then 1 else 0)
  }

  lemma {:induction false} OccursIn(terms: seq<string>, t: string)
    ensures Occurrences(terms, t) > 0 <==> t in terms
    decreases |terms|
  {
    if terms != [] {
      var n := |terms| - 1;
      OccursIn(terms[..n], t);
      assert terms == terms[..n] + [terms[n]];
    }
  }

  lemma {:induction false} OccurrencesCount(terms: seq<string>, t: string)
    ensures Occurrences(terms, t) == multiset(terms)[t]
    decreases |terms|
  {
    if terms != [] {
      var n := |terms| - 1;
      OccurrencesCount(terms[..n], t);
      assert terms == terms[..n] + [terms[n]];
    }
  }

  function DocFreq(idx: Bm25File, term: string): nat {
    if term in idx.index then |idx.index[term]| else 0
  }

  function Idf(ln: Log, n: nat, df: nat): real {
    ln(1.0 + (n as real - df as real + 0.5) / (df as real + 0.5))
  }

  function LenRatio(docLen: nat, avgDL: real): real {
    if avgDL > 0.0 then docLen as real / avgDL else 0.0
  }

  function TermScore(idf: real, tf: nat, docLen: nat, avgDL: real): real
    requires tf > 0
  {
    NormIsPositive(docLen, avgDL, tf);
    idf * (tf as real * (K1 + 1.0)) / (tf as real + K1 * (1.0 - B + B * LenRatio(docLen, avgDL)))
  }

  lemma {:induction false} NormIsPositive(docLen: nat, avgDL: real, tf: nat)
    requires tf > 0
    ensures LenRatio(docLen, avgDL) >= 0.0
    ensures tf as real + K1 * (1.0 - B + B * LenRatio(docLen, avgDL)) > 0.0
  {
    if avgDL > 0.0 { DivNonNegative(docLen as real, avgDL); }
  }

  lemma {:induction false} DivNonNegative(a: real, b: real)
    requires a >= 0.0 && b > 0.0
    ensures a / b >= 0.0
  {
  }

  lemma {:induction false} DivPositive(a: real, b: real)
    requires a > 0.0 && b > 0.0
    ensures a / b > 0.0
  {
  }

  lemma {:induction false} MulPositive(a: real, b: real)
    requires a > 0.0 && b > 0.0
    ensures a * b > 0.0
  {
  }

  // A term in at most every document weighs something.
  lemma {:induction false} IdfPositive(ln: Log, n: nat, df: nat)
    requires PositiveAboveOne(ln) && df <= n
    ensures Idf(ln, n, df) > 0.0
  {
    DivPositive(n as real - df as real + 0.5, df as real + 0.5);
  }

  lemma {:induction false} TermScorePositive(idf: real, tf: nat, docLen: nat, avgDL: real)
    requires idf > 0.0 && tf > 0
    ensures TermScore(idf, tf, docLen, avgDL) > 0.0
  {
    NormIsPositive(docLen, avgDL, tf);
    MulPositive(idf, tf as real * (K1 + 1.0));
    DivPositive(idf * (tf as real * (K1 + 1.0)), tf as real + K1 * (1.0 - B + B * LenRatio(docLen, avgDL)));
  }

  // ---------------------------------------------------------------- how a term's score moves

  lemma {:induction false} QuotientLess(a: real, b: real, c: real, d: real)
    requires b > 0.0 && d > 0.0 && a * d < c * b
    ensures a / b < c / d
  {
    var x, y, p := a / b, c / d, b * d;
    assert x * b == a && y * d == c;
    assert x * p == a * d && y * p == c * b;
    CancelLess(x, y, p);
  }

  lemma {:induction false} CancelLess(x: real, y: real, p: real)
    requires p > 0.0 && x * p < y * p
    ensures x < y
  {
  }

  function Norm(docLen: nat, avgDL: real): real { K1 * (1.0 - B + B * LenRatio(docLen, avgDL)) }

  lemma {:induction false} NormAtLeast(docLen: nat, avgDL: real)
    ensures Norm(docLen, avgDL) >= 0.3
  {
    NormIsPositive(docLen, avgDL, 1);
  }

  // Cleared of its fraction: the score times (tf + 0.3 + 0.9 times the length over the mean length) is
  // 2.2 times idf times tf.
  lemma {:induction false} TermScoreIs(idf: real, tf: nat, docLen: nat, avgDL: real)
    requires tf > 0 && avgDL > 0.0
    ensures TermScore(idf, tf, docLen, avgDL) * (tf as real + 0.3 + 0.9 * (docLen as real / avgDL)) == 2.2 * idf * tf as real
  {
    var ratio := docLen as real / avgDL;
    NormIsPositive(docLen, avgDL, tf);
    assert K1 * (1.0 - B + B * ratio) == 0.3 + 0.9 * ratio;
    Cleared(idf * (tf as real * 2.2), tf as real + (0.3 + 0.9 * ratio));
  }

  lemma {:induction false} Cleared(a: real, b: real)
    requires b > 0.0
    ensures a / b * b == a
  {
  }

  // A term in half of the documents weighs ln 2.
  lemma {:induction false} HalfWeighsLnTwo(ln: Log, df: nat)
    ensures Idf(ln, 2 * df, df) == ln(2.0)
  {
    var x := df as real + 0.5;
    assert (2 * df) as real - df as real + 0.5 == x && x / x == 1.0;
  }

  // More occurrences score higher, but never as much as idf times k1 + 1.
  lemma {:induction false} MoreOccurrences(idf: real, tf: nat, more: nat, docLen: nat, avgDL: real)
    requires idf > 0.0 && 0 < tf < more
    ensures TermScore(idf, tf, docLen, avgDL) < TermScore(idf, more, docLen, avgDL) < idf * 2.2
  {
    var n, a, b := Norm(docLen, avgDL), tf as real, more as real;
    NormAtLeast(docLen, avgDL);
    Saturates(idf, a, b, n);
    QuotientLess(idf * (a * 2.2), a + n, idf * (b * 2.2), b + n);
    QuotientLess(idf * (b * 2.2), b + n, idf * 2.2, 1.0);
  }

  lemma {:induction false} Saturates(idf: real, a: real, b: real, n: real)
    requires idf > 0.0 && 0.0 < a < b && n > 0.0
    ensures idf * (a * 2.2) * (b + n) < idf * (b * 2.2) * (a + n)
    ensures idf * (b * 2.2) * 1.0 < idf * 2.2 * (b + n)
  {
    var k := idf * 2.2;
    MulPositive(idf, 2.2);
    MulPositive(k * n, b - a);
    MulPositive(k, n);
    assert idf * (b * 2.2) * (a + n) - idf * (a * 2.2) * (b + n) == k * n * (b - a);
    assert idf * 2.2 * (b + n) - idf * (b * 2.2) == k * n;
  }

  // The same occurrences in a longer text score lower.
  lemma {:induction false} LongerText(idf: real, tf: nat, docLen: nat, longer: nat, avgDL: real)
    requires idf > 0.0 && tf > 0 && docLen < longer && avgDL > 0.0
    ensures TermScore(idf, tf, longer, avgDL) < TermScore(idf, tf, docLen, avgDL)
  {
    var m, n, a := Norm(docLen, avgDL), Norm(longer, avgDL), tf as real;
    NormAtLeast(docLen, avgDL);
    NormAtLeast(longer, avgDL);
    QuotientLess(docLen as real, avgDL, longer as real, avgDL) by {
      MulPositive(longer as real - docLen as real, avgDL);
    }
    assert m < n;
    MulPositive(idf, a * 2.2);
    MulPositive(idf * (a * 2.2), n - m);
    QuotientLess(idf * (a * 2.2), a + n, idf * (a * 2.2), a + m);
  }

  ghost predicate Increasing(ln: Log) {
    forall x, y | 0.0 < x < y :: ln(x) < ln(y)
  }

  // A term in fewer documents weighs more, and scores higher in the same text.
  lemma {:induction false} RarerTerm(ln: Log, n: nat, df: nat, more: nat, tf: nat, docLen: nat, avgDL: real)
    requires Increasing(ln) && df < more <= n && tf > 0
    ensures Idf(ln, n, df) > Idf(ln, n, more)
    ensures TermScore(Idf(ln, n, df), tf, docLen, avgDL) > TermScore(Idf(ln, n, more), tf, docLen, avgDL)
  {
    var a, b, m := df as real, more as real, n as real;
    MulPositive(b - a, m + 1.0);
    assert (m - a + 0.5) * (b + 0.5) - (m - b + 0.5) * (a + 0.5) == (b - a) * (m + 1.0);
    QuotientLess(m - b + 0.5, b + 0.5, m - a + 0.5, a + 0.5);
    DivPositive(m - b + 0.5, b + 0.5);
    HeavierTerm(Idf(ln, n, more), Idf(ln, n, df), tf, docLen, avgDL);
  }

  lemma {:induction false} HeavierTerm(idf: real, heavier: real, tf: nat, docLen: nat, avgDL: real)
    requires idf < heavier && tf > 0
    ensures TermScore(idf, tf, docLen, avgDL) < TermScore(heavier, tf, docLen, avgDL)
  {
    var n, a := Norm(docLen, avgDL), tf as real;
    NormAtLeast(docLen, avgDL);
    MulPositive(heavier - idf, a * 2.2);
    MulPositive((heavier - idf) * (a * 2.2), a + n);
    assert (heavier - idf) * (a * 2.2) * (a + n) == heavier * (a * 2.2) * (a + n) - idf * (a * 2.2) * (a + n);
    QuotientLess(idf * (a * 2.2), a + n, heavier * (a * 2.2), a + n);
  }

  // One occurrence in a text of mean length scores exactly the term's weight.
  lemma {:induction false} UnitScore(idf: real, docLen: nat)
    requires docLen > 0
    ensures TermScore(idf, 1, docLen, docLen as real) == idf
  {
    assert LenRatio(docLen, docLen as real) == 1.0;
    assert idf * (1.0 * 2.2) / 2.2 == idf;
  }

  // What one query term adds for a text.
  function Contribution(ln: Log, idx: Bm25File, tokens: seq<string>, term: string): real {
    var tf := Occurrences(tokens, term);
    if tf == 0 then 0.0 else TermScore(Idf(ln, idx.n, DocFreq(idx, term)), tf, |tokens|, idx.avgDL)
  }

  // The score of a text: its contributions, query term by query term.
  function TextScore(ln: Log, idx: Bm25File, tokens: seq<string>, query: seq<string>): real
    decreases |query|
  {
    if query == [] then 0.0
    else TextScore(ln, idx, tokens, query[..|query| - 1]) + Contribution(ln, idx, tokens, query[|query| - 1])
  }

  // The terms of a query add up, one by one, repeated terms again.
  lemma {:induction false} ScoreAdds(ln: Log, idx: Bm25File, tokens: seq<string>, a: seq<string>, b: seq<string>)
    ensures TextScore(ln, idx, tokens, a + b) == TextScore(ln, idx, tokens, a) + TextScore(ln, idx, tokens, b)
    decreases |b|
  {
    hide Contribution;
    if b == [] {
      assert a + b == a;
    } else {
      var n := |b| - 1;
      assert (a + b)[..|a| + n] == a + b[..n];
      ScoreAdds(ln, idx, tokens, a, b[..n]);
    }
  }

  ghost predicate Hits(tokens: seq<string>, query: seq<string>) {
    exists t :: t in query && t in tokens
  }

  // No term occurs in more documents than there are.
  ghost predicate FreqsOk(idx: Bm25File) {
    forall t :: DocFreq(idx, t) <= idx.n
  }

  // A text scores above zero exactly when it holds a query term, and never below.
  lemma {:induction false} ScoreSign(ln: Log, idx: Bm25File, tokens: seq<string>, query: seq<string>)
    requires PositiveAboveOne(ln) && FreqsOk(idx)
    ensures TextScore(ln, idx, tokens, query) >= 0.0
    ensures TextScore(ln, idx, tokens, query) > 0.0 <==> Hits(tokens, query)
    decreases |query|
  {
    hide Idf, TermScore, PositiveAboveOne, DocFreq;
    if query != [] {
      var n := |query| - 1;
      var t := query[n];
      ScoreSign(ln, idx, tokens, query[..n]);
      OccursIn(tokens, t);
      if Occurrences(tokens, t) > 0 {
        IdfPositive(ln, idx.n, DocFreq(idx, t));
        TermScorePositive(Idf(ln, idx.n, DocFreq(idx, t)), Occurrences(tokens, t), |tokens|, idx.avgDL);
      }
      assert query == query[..n] + [t];
      if Hits(tokens, query) {
        var u :| u in query && u in tokens;
        if u != t { assert u in query[..n]; }
      }
    }
  }

  // ---------------------------------------------------------------- building

  predicate PostingLess(a: Posting, b: Posting) { StrLess(a.id, b.id) }

  ghost predicate PostsOk(tok: Analyzer, docs: Texts, done: set<string>, term: string, posts: seq<Posting>) {
    && NoDup(posts)
    && forall p :: p in posts <==> p.id in docs && p.id in done && p.tf == Occurrences(tok(docs[p.id]), term) && p.tf > 0
  }

  // The index over the documents handled so far.
  ghost predicate IndexSoFar(tok: Analyzer, docs: Texts, done: set<string>, index: map<string, seq<Posting>>) {
    && (forall t | t in index :: index[t] != [] && PostsOk(tok, docs, done, t, index[t]))
    && (forall t, id | id in docs && id in done && t in tok(docs[id]) :: t in index)
  }

  function TotalLen(tok: Analyzer, docs: Texts, ids: seq<string>): nat
    decreases |ids|
  {
    if ids == [] then 0 else
    var id := ids[|ids| - 1];
    TotalLen(tok, docs, ids[..|ids| - 1]) + (if id in docs then |tok(docs[id])| else 0)
  }

  // idx indexes exactly these documents; avgDL is their mean length.
  ghost predicate Indexes(tok: Analyzer, docs: Texts, idx: Bm25File) {
    && idx.n == |docs|
    && idx.docLen.Keys == docs.Keys && (forall id | id in docs :: idx.docLen[id] == |tok(docs[id])|)
    && IndexSoFar(tok, docs, docs.Keys, idx.index)
    && (forall t | t in idx.index :: SortedPosts(idx.index[t]))
    && (exists ids: seq<string> :: NoDup(ids) && (forall id :: id in ids <==> id in docs)
          && idx.avgDL == AvgLen(TotalLen(tok, docs, ids), |docs|))
  }

  ghost predicate SortedPosts(posts: seq<Posting>) {
    Sorted(PostingLess, posts)
  }

  // Term frequencies of one text.
  method CountTerms(terms: seq<string>) returns (tf: map<string, nat>)
    ensures forall t :: t in tf <==> t in terms
    ensures forall t | t in tf :: tf[t] == Occurrences(terms, t) > 0
  {
    tf := map[];
    var i := 0;
    while i < |terms|
      invariant i <= |terms|
      invariant forall t :: t in tf <==> t in terms[..i]
      invariant forall t | t in tf :: tf[t] == Occurrences(terms[..i], t) > 0
    {
      var term := terms[i];
      assert terms[..i + 1] == terms[..i] + [term] && terms[..i + 1][..i] == terms[..i];
      OccursIn(terms[..i], term);
      tf := tf[term := (if term in tf then tf[term] else 0) + 1];
      i := i + 1;
    }
    assert terms[..|terms|] == terms;
  }

  // Adds one posting per term of the document, in any order of terms.
  method AddPostings(tok: Analyzer, ghost docs: Texts, ghost done: set<string>, id: string, tf: map<string, nat>, index0: map<string, seq<Posting>>)
    returns (index: map<string, seq<Posting>>)
    requires id in docs && id !in done && IndexSoFar(tok, docs, done, index0)
    requires forall t :: t in tf <==> t in tok(docs[id])
    requires forall t | t in tf :: tf[t] == Occurrences(tok(docs[id]), t) > 0
    ensures IndexSoFar(tok, docs, done + {id}, index)
  {
    hide PostsOk, Occurrences;
    index := index0;
    var todo := tf.Keys;
    while todo != {}
      invariant todo <= tf.Keys
      invariant forall t | t in index :: index[t] != [] &&
                  PostsOk(tok, docs, if t in tf && t !in todo then done + {id} else done, t, index[t])
      invariant forall t, d | d in docs && d in done && t in tok(docs[d]) :: t in index
      invariant forall t | t in tf && t !in todo :: t in index
    {
      var term :| term in todo;
      var posts := if term in index then index[term] else [];
      PushPosting(tok, docs, done, id, term, tf[term], posts, term in index);
      index := index[term := posts + [Posting(id, tf[term])]];
      todo := todo - {term};
    }
    forall t | t in index ensures PostsOk(tok, docs, done + {id}, t, index[t]) {
      if t !in tf { NotInText(tok, docs, done, id, t, index[t]); }
    }
  }

  lemma {:induction false} PushPosting(tok: Analyzer, docs: Texts, done: set<string>, id: string, term: string, tf: nat, posts: seq<Posting>, had: bool)
    requires id in docs && id !in done && tf == Occurrences(tok(docs[id]), term) > 0
    requires if had then PostsOk(tok, docs, done, term, posts) else posts == []
    requires !had ==> forall d | d in docs && d in done :: term !in tok(docs[d])
    ensures PostsOk(tok, docs, done + {id}, term, posts + [Posting(id, tf)])
  {
    hide Occurrences;
    var more := posts + [Posting(id, tf)];
    forall p ensures p in more <==> p.id in docs && p.id in done + {id} && p.tf == Occurrences(tok(docs[p.id]), term) && p.tf > 0 {
      if p.id in docs { OccursIn(tok(docs[p.id]), term); }
    }
  }

  lemma {:induction false} NotInText(tok: Analyzer, docs: Texts, done: set<string>, id: string, term: string, posts: seq<Posting>)
    requires id in docs && PostsOk(tok, docs, done, term, posts) && term !in tok(docs[id])
    ensures PostsOk(tok, docs, done + {id}, term, posts)
  {
    hide Occurrences;
    OccursIn(tok(docs[id]), term);
  }

  method SortPostings(tok: Analyzer, ghost docs: Texts, index0: map<string, seq<Posting>>) returns (index: map<string, seq<Posting>>)
    requires IndexSoFar(tok, docs, docs.Keys, index0)
    ensures IndexSoFar(tok, docs, docs.Keys, index) && forall t | t in index :: SortedPosts(index[t])
  {
    hide PostsOk, SortedPosts, IndexSoFar, Sort;
    index := index0;
    var todo := index0.Keys;
    while todo != {}
      invariant todo <= index0.Keys && index.Keys == index0.Keys
      invariant IndexSoFar(tok, docs, docs.Keys, index)
      invariant forall t | t in index && t !in todo :: SortedPosts(index[t])
    {
      var term :| term in todo;
      SortTerm(tok, docs, index, term);
      index := index[term := Sort(PostingLess, index[term])];
      todo := todo - {term};
    }
  }

  lemma {:induction false} SortTerm(tok: Analyzer, docs: Texts, index: map<string, seq<Posting>>, term: string)
    requires IndexSoFar(tok, docs, docs.Keys, index) && term in index
    ensures var s := Sort(PostingLess, index[term]);
            IndexSoFar(tok, docs, docs.Keys, index[term := s]) && SortedPosts(s)
  {
    hide PostsOk, SortedPosts, Sort;
    SortedSame(tok, docs, term, index[term]);
  }

  lemma {:induction false} SortedSame(tok: Analyzer, docs: Texts, term: string, posts: seq<Posting>)
    requires PostsOk(tok, docs, docs.Keys, term, posts) && posts != []
    ensures var s := Sort(PostingLess, posts);
            PostsOk(tok, docs, docs.Keys, term, s) && s != [] && SortedPosts(s)
  {
    hide Sort, Occurrences;
    var s := Sort(PostingLess, posts);
    StillDistinct(posts, s);
    forall p ensures p in s <==> p in posts { SameItems(s, posts, p); }
    PostOrder();
    forall i, j | 0 <= i < |posts| && 0 <= j < |posts|
      ensures posts[i] == posts[j] || PostingLess(posts[i], posts[j]) || PostingLess(posts[j], posts[i])
    {
      StrTotal(posts[i].id, posts[j].id);
      assert posts[i] in posts && posts[j] in posts;
    }
    SortSorts(PostingLess, posts);
  }

  lemma {:induction false} PostOrder()
    ensures TransitiveOrder(PostingLess) && AsymmetricOrder(PostingLess)
  {
    forall a, b, c | PostingLess(a, b) && PostingLess(b, c) ensures PostingLess(a, c) { StrTransitive(a.id, b.id, c.id); }
    forall a, b | PostingLess(a, b) ensures !PostingLess(b, a) { StrTotal(a.id, b.id); }
  }

  // Lengths and postings of every document, in any order of documents.
  method IndexAll(tok: Analyzer, docs: Texts) returns (docLen: map<string, nat>, index: map<string, seq<Posting>>, total: nat, ghost seen: seq<string>)
    ensures docLen.Keys == docs.Keys && forall id | id in docs :: docLen[id] == |tok(docs[id])|
    ensures IndexSoFar(tok, docs, docs.Keys, index)
    ensures NoDup(seen) && (forall id :: id in seen <==> id in docs) && total == TotalLen(tok, docs, seen)
  {
    hide IndexSoFar, TotalLen, Occurrences, NoDup;
    docLen, index, total, seen := map[], map[], 0, [];
    NothingIndexed(tok, docs);
    var todo := docs.Keys;
    while todo != {}
      invariant todo <= docs.Keys && docLen.Keys == docs.Keys - todo
      invariant forall id | id in docLen :: docLen[id] == |tok(docs[id])|
      invariant NoDup(seen) && (forall id :: id in seen <==> id in docs && id !in todo) && total == TotalLen(tok, docs, seen)
      invariant IndexSoFar(tok, docs, docs.Keys - todo, index)
    {
      var id :| id in todo;
      var terms := tok(docs[id]);
      docLen := docLen[id := |terms|];
      total := total + |terms|;
      TotalPush(tok, docs, seen, id);
      SeenPush(seen, id);
      seen := seen + [id];
      var tf := CountTerms(terms);
      index := AddPostings(tok, docs, docs.Keys - todo, id, tf, index);
      assert docs.Keys - todo + {id} == docs.Keys - (todo - {id});
      todo := todo - {id};
    }
    assert docs.Keys - todo == docs.Keys;
  }

  function AvgLen(total: nat, n: nat): real { if n > 0 then total as real / n as real else 0.0 }

  // The statistics, from the texts alone: a term's document frequency is the number of texts that hold
  // it, and the mean length times their number is the total length.
  lemma {:induction false} StatisticsAre(tok: Analyzer, docs: Texts, idx: Bm25File, term: string) returns (ids: seq<string>)
    requires Indexes(tok, docs, idx)
    ensures idx.n == |docs| && DocFreq(idx, term) == |set id | id in docs && term in tok(docs[id])|
    ensures NoDup(ids) && (forall id :: id in ids <==> id in docs) && idx.avgDL * |docs| as real == Lengths(tok, docs, ids) as real
  {
    hide DocFreq, AvgLen, TotalLen, Lengths, IndexSoFar, SortedPosts, NoDup;
    HoldersAre(tok, docs, idx, term);
    ids :| NoDup(ids) && (forall id :: id in ids <==> id in docs) && idx.avgDL == AvgLen(TotalLen(tok, docs, ids), |docs|);
    hide Indexes;
    LengthsTotal(tok, docs, ids);
    NoTexts(tok, docs, ids);
    MeanTimes(TotalLen(tok, docs, ids), |docs|);
  }

  lemma {:induction false} NoTexts(tok: Analyzer, docs: Texts, ids: seq<string>)
    requires forall id :: id in ids <==> id in docs
    ensures |docs| == 0 ==> TotalLen(tok, docs, ids) == 0
  {
    if ids != [] {
      assert ids[0] in ids;
      assert |docs.Keys| > 0;
    }
  }

  function Lengths(tok: Analyzer, docs: Texts, ids: seq<string>): nat
    requires forall id | id in ids :: id in docs
    decreases |ids|
  {
    if ids == [] then 0 else |tok(docs[ids[0]])| + Lengths(tok, docs, ids[1..])
  }

  lemma {:induction false} LengthsPush(tok: Analyzer, docs: Texts, ids: seq<string>, id: string)
    requires id in docs && forall x | x in ids :: x in docs
    ensures Lengths(tok, docs, ids + [id]) == Lengths(tok, docs, ids) + |tok(docs[id])|
    decreases |ids|
  {
    if ids == [] {
      assert ids + [id] == [id];
    } else {
      assert (ids + [id])[1..] == ids[1..] + [id];
      LengthsPush(tok, docs, ids[1..], id);
    }
  }

  lemma {:induction false} LengthsTotal(tok: Analyzer, docs: Texts, ids: seq<string>)
    requires forall id | id in ids :: id in docs
    ensures TotalLen(tok, docs, ids) == Lengths(tok, docs, ids)
    decreases |ids|
  {
    if ids != [] {
      var n := |ids| - 1;
      LengthsTotal(tok, docs, ids[..n]);
      LengthsPush(tok, docs, ids[..n], ids[n]);
      assert ids == ids[..n] + [ids[n]];
    }
  }

  lemma {:induction false} MeanTimes(total: nat, n: nat)
    requires n == 0 ==> total == 0
    ensures AvgLen(total, n) * n as real == total as real
  {
    if n > 0 { assert total as real / n as real * n as real == total as real; }
  }

  lemma {:induction false} HoldersAre(tok: Analyzer, docs: Texts, idx: Bm25File, term: string)
    requires Indexes(tok, docs, idx)
    ensures DocFreq(idx, term) == |set id | id in docs && term in tok(docs[id])|
  {
    var holders := set id | id in docs && term in tok(docs[id]);
    if term in idx.index {
      var posts := idx.index[term];
      assert PostsOk(tok, docs, docs.Keys, term, posts);
      hide Indexes;
      PostIds(tok, docs, term, posts);
    } else {
      assert holders == {};
    }
  }

  lemma {:induction false} PostIds(tok: Analyzer, docs: Texts, term: string, posts: seq<Posting>)
    requires PostsOk(tok, docs, docs.Keys, term, posts)
    ensures |posts| == |set id | id in docs && term in tok(docs[id])|
  {
    var ids := seq(|posts|, (i: int) requires 0 <= i < |posts| => posts[i].id);
    forall i, j | 0 <= i < j < |ids| ensures ids[i] != ids[j] {
      assert posts[i] in posts && posts[j] in posts;
    }
    NoDupSize(ids);
    var holders := set id | id in docs && term in tok(docs[id]);
    forall id ensures id in ids <==> id in holders {
      if id in docs { OccursIn(tok(docs[id]), term); }
      if id in ids {
        var i :| 0 <= i < |ids| && ids[i] == id;
        assert posts[i] in posts;
      }
      if id in holders {
        var p := Posting(id, Occurrences(tok(docs[id]), term));
        assert p in posts;
        var i :| 0 <= i < |posts| && posts[i] == p;
        assert ids[i] == id;
      }
    }
    assert (set id | id in ids) == holders;
  }

  method BuildBM25(tok: Analyzer, docs: Texts) returns (idx: Bm25File)
    ensures Indexes(tok, docs, idx)
  {
    hide IndexSoFar, SortedPosts, TotalLen, NoDup, Indexes, AvgLen;
    var docLen, index, total, seen := IndexAll(tok, docs);
    index := SortPostings(tok, docs, index);
    idx := Bm25File(|docs|, AvgLen(total, |docs|), docLen, index);
    BuiltIndexes(tok, docs, idx, seen);
  }

  lemma {:induction false} SeenPush(seen: seq<string>, id: string)
    requires NoDup(seen) && id !in seen
    ensures NoDup(seen + [id])
  {
  }

  lemma {:induction false} BuiltIndexes(tok: Analyzer, docs: Texts, idx: Bm25File, ids: seq<string>)
    requires idx.n == |docs| && idx.docLen.Keys == docs.Keys && forall id | id in docs :: idx.docLen[id] == |tok(docs[id])|
    requires IndexSoFar(tok, docs, docs.Keys, idx.index) && forall t | t in idx.index :: SortedPosts(idx.index[t])
    requires NoDup(ids) && forall id :: id in ids <==> id in docs
    requires idx.avgDL == AvgLen(TotalLen(tok, docs, ids), |docs|)
    ensures Indexes(tok, docs, idx)
  {
    hide IndexSoFar, SortedPosts, TotalLen, NoDup;
  }

  lemma {:induction false} NothingIndexed(tok: Analyzer, docs: Texts)
    ensures IndexSoFar(tok, docs, docs.Keys - docs.Keys, map[]) && TotalLen(tok, docs, []) == 0 && NoDup<string>([])
  {
  }

  lemma {:induction false} TotalPush(tok: Analyzer, docs: Texts, ids: seq<string>, id: string)
    requires id in docs
    ensures TotalLen(tok, docs, ids + [id]) == TotalLen(tok, docs, ids) + |tok(docs[id])|
  {
    assert (ids + [id])[..|ids|] == ids;
  }

  // No term occurs in more documents than there are.
  lemma {:induction false} IndexFreqs(tok: Analyzer, docs: Texts, idx: Bm25File)
    requires Indexes(tok, docs, idx)
    ensures FreqsOk(idx)
  {
    forall t ensures DocFreq(idx, t) <= idx.n {
      if t in idx.index { PostsBound(tok, docs, t, idx.index[t]); }
    }
  }

  lemma {:induction false} PostsApart(tok: Analyzer, docs: Texts, term: string, posts: seq<Posting>)
    requires PostsOk(tok, docs, docs.Keys, term, posts)
    ensures forall i, j | 0 <= i < j < |posts| :: posts[i].id != posts[j].id
    ensures forall i | 0 <= i < |posts| :: posts[i].id in docs
  {
    hide Occurrences;
    assert forall i | 0 <= i < |posts| :: posts[i] in posts;
  }

  // The distinct documents of a term's postings are at most all of them.
  lemma {:induction false} PostsBound(tok: Analyzer, docs: Texts, term: string, posts: seq<Posting>)
    requires PostsOk(tok, docs, docs.Keys, term, posts)
    ensures |posts| <= |docs|
  {
    hide PostsOk;
    PostsApart(tok, docs, term, posts);
    IdsFit(posts, docs.Keys);
  }

  lemma {:induction false} IdsFit(posts: seq<Posting>, keys: set<string>)
    requires forall i, j | 0 <= i < j < |posts| :: posts[i].id != posts[j].id
    requires forall i | 0 <= i < |posts| :: posts[i].id in keys
    ensures |posts| <= |keys|
    decreases |posts|
  {
    if posts != [] {
      IdsFit(posts[1..], keys - {posts[0].id});
    }
  }

  // ---------------------------------------------------------------- scoring

  // Scores after these query terms: exactly the documents holding one, with their text's score.
  ghost predicate ScoresOk(ln: Log, tok: Analyzer, docs: Texts, idx: Bm25File, query: seq<string>, scores: map<string, real>) {
    && (forall id :: id in scores <==> id in docs && Hits(tok(docs[id]), query))
    && (forall id | id in scores :: scores[id] == TextScore(ln, idx, tok(docs[id]), query))
  }

  // Scores every indexed document through the postings.
  method Score(ln: Log, tok: Analyzer, ghost docs: Texts, idx: Bm25File, query: seq<string>) returns (scores: map<string, real>)
    requires Indexes(tok, docs, idx)
    ensures ScoresOk(ln, tok, docs, idx, query, scores)
  {
    hide Indexes, ScoresOk;
    scores := map[];
    NoneScored(ln, tok, docs, idx);
    var i := 0;
    while i < |query|
      invariant i <= |query| && ScoresOk(ln, tok, docs, idx, query[..i], scores)
    {
      var term := query[i];
      assert query[..i + 1] == query[..i] + [term];
      if term in idx.index {
        scores := ScoreTerm(ln, tok, docs, idx, query[..i], term, scores);
      } else {
        AbsentTerm(ln, tok, docs, idx, query[..i], term, scores);
      }
      i := i + 1;
    }
    assert query[..|query|] == query;
  }

  lemma {:induction false} NoneScored(ln: Log, tok: Analyzer, docs: Texts, idx: Bm25File)
    ensures ScoresOk(ln, tok, docs, idx, [], map[])
  {
  }

  lemma {:induction false} HitsPush(tokens: seq<string>, query: seq<string>, term: string)
    ensures Hits(tokens, query + [term]) <==> Hits(tokens, query) || term in tokens
  {
    if Hits(tokens, query) {
      var t :| t in query && t in tokens;
      assert t in query + [term];
    }
    if term in tokens { assert term in query + [term]; }
  }

  lemma {:induction false} ScorePush(ln: Log, idx: Bm25File, tokens: seq<string>, query: seq<string>, term: string)
    ensures TextScore(ln, idx, tokens, query + [term]) == TextScore(ln, idx, tokens, query) + Contribution(ln, idx, tokens, term)
    ensures term !in tokens ==> Contribution(ln, idx, tokens, term) == 0.0
  {
    hide TermScore, Idf;
    assert (query + [term])[..|query|] == query;
    OccursIn(tokens, term);
  }

  lemma {:induction false} ZeroWithoutHits(ln: Log, idx: Bm25File, tokens: seq<string>, query: seq<string>)
    requires !Hits(tokens, query)
    ensures TextScore(ln, idx, tokens, query) == 0.0
    decreases |query|
  {
    hide TermScore, Idf;
    if query != [] {
      var n := |query| - 1;
      assert query == query[..n] + [query[n]];
      HitsPush(tokens, query[..n], query[n]);
      ZeroWithoutHits(ln, idx, tokens, query[..n]);
      OccursIn(tokens, query[n]);
    }
  }

  lemma {:induction false} AbsentTerm(ln: Log, tok: Analyzer, docs: Texts, idx: Bm25File, query: seq<string>, term: string, scores: map<string, real>)
    requires Indexes(tok, docs, idx) && term !in idx.index && ScoresOk(ln, tok, docs, idx, query, scores)
    ensures ScoresOk(ln, tok, docs, idx, query + [term], scores)
  {
    hide Hits, TextScore, Contribution;
    forall id | id in docs
      ensures Hits(tok(docs[id]), query + [term]) == Hits(tok(docs[id]), query)
      ensures TextScore(ln, idx, tok(docs[id]), query + [term]) == TextScore(ln, idx, tok(docs[id]), query)
    {
      HitsPush(tok(docs[id]), query, term);
      ScorePush(ln, idx, tok(docs[id]), query, term);
    }
  }

  // Adds one term's contribution to every document in its postings.
  method ScoreTerm(ln: Log, tok: Analyzer, ghost docs: Texts, idx: Bm25File, ghost query: seq<string>, term: string, scores0: map<string, real>)
    returns (scores: map<string, real>)
    requires Indexes(tok, docs, idx) && term in idx.index && ScoresOk(ln, tok, docs, idx, query, scores0)
    ensures ScoresOk(ln, tok, docs, idx, query + [term], scores)
  {
    hide Indexes, ScoresOk, TermScore, Idf;
    var postings := idx.index[term];
    var idf := Idf(ln, idx.n, |postings|);
    scores := scores0;
    var j := 0;
    while j < |postings|
      invariant j <= |postings| && Added(ln, tok, docs, idx, term, scores0, scores, postings[..j])
    {
      var p := postings[j];
      PostingFacts(ln, tok, docs, idx, term, j);
      AddOne(ln, tok, docs, idx, term, scores0, scores, j);
      var more := TermScore(idf, p.tf, idx.docLen[p.id], idx.avgDL);
      scores := scores[p.id := (if p.id in scores then scores[p.id] else 0.0) + more];
      j := j + 1;
    }
    assert postings[..|postings|] == postings;
    TermDone(ln, tok, docs, idx, query, term, scores0, scores);
  }

  // scores is scores0 with the term's contribution added for these postings.
  ghost predicate Added(ln: Log, tok: Analyzer, docs: Texts, idx: Bm25File, term: string, scores0: map<string, real>, scores: map<string, real>, posts: seq<Posting>) {
    && (forall id :: id in scores <==> id in scores0 || InPosts(posts, id))
    && (forall id | id in scores ::
          scores[id] == (if id in scores0 then scores0[id] else 0.0)
                        + (if InPosts(posts, id) && id in docs then Contribution(ln, idx, tok(docs[id]), term) else 0.0))
  }

  ghost predicate InPosts(posts: seq<Posting>, id: string) {
    exists p :: p in posts && p.id == id
  }

  lemma {:induction false} PostingFacts(ln: Log, tok: Analyzer, docs: Texts, idx: Bm25File, term: string, j: nat)
    requires Indexes(tok, docs, idx) && term in idx.index && j < |idx.index[term]|
    ensures var p := idx.index[term][j];
            && p.id in docs && p.id in idx.docLen && p.tf > 0
            && Contribution(ln, idx, tok(docs[p.id]), term) == TermScore(Idf(ln, idx.n, |idx.index[term]|), p.tf, idx.docLen[p.id], idx.avgDL)
            && !InPosts(idx.index[term][..j], p.id)
  {
    hide TermScore, Idf, Occurrences, SortedPosts;
    var posts := idx.index[term];
    var p := posts[j];
    assert p in posts;
    forall q | q in posts[..j] ensures q.id != p.id {
      var i :| 0 <= i < j && posts[..j][i] == q;
      assert posts[i] == q && q in posts;
    }
  }

  lemma {:induction false} InPostsPush(posts: seq<Posting>, p: Posting, id: string)
    ensures InPosts(posts + [p], id) <==> InPosts(posts, id) || p.id == id
  {
    if InPosts(posts, id) {
      var q :| q in posts && q.id == id;
      assert q in posts + [p];
    }
    assert p in posts + [p];
  }

  lemma {:induction false} AddOne(ln: Log, tok: Analyzer, docs: Texts, idx: Bm25File, term: string, scores0: map<string, real>, scores: map<string, real>, j: nat)
    requires term in idx.index && j < |idx.index[term]| && idx.index[term][j].id in docs && idx.index[term][j].tf > 0
    requires idx.index[term][j].id in idx.docLen
    requires Added(ln, tok, docs, idx, term, scores0, scores, idx.index[term][..j]) && !InPosts(idx.index[term][..j], idx.index[term][j].id)
    requires Contribution(ln, idx, tok(docs[idx.index[term][j].id]), term)
          == TermScore(Idf(ln, idx.n, |idx.index[term]|), idx.index[term][j].tf, idx.docLen[idx.index[term][j].id], idx.avgDL)
    ensures var p := idx.index[term][j];
            var more := TermScore(Idf(ln, idx.n, |idx.index[term]|), p.tf, idx.docLen[p.id], idx.avgDL);
            Added(ln, tok, docs, idx, term, scores0, scores[p.id := (if p.id in scores then scores[p.id] else 0.0) + more], idx.index[term][..j + 1])
  {
    hide TermScore, Idf, Contribution, InPosts;
    var posts := idx.index[term];
    assert posts[..j + 1] == posts[..j] + [posts[j]];
    forall id ensures InPosts(posts[..j + 1], id) <==> InPosts(posts[..j], id) || posts[j].id == id {
      InPostsPush(posts[..j], posts[j], id);
    }
  }

  lemma {:induction false} TermDone(ln: Log, tok: Analyzer, docs: Texts, idx: Bm25File, query: seq<string>, term: string, scores0: map<string, real>, scores: map<string, real>)
    requires Indexes(tok, docs, idx) && term in idx.index && ScoresOk(ln, tok, docs, idx, query, scores0)
    requires Added(ln, tok, docs, idx, term, scores0, scores, idx.index[term])
    ensures ScoresOk(ln, tok, docs, idx, query + [term], scores)
  {
    hide TermScore, Idf, Contribution, TextScore, Hits, InPosts;
    forall id
      ensures InPosts(idx.index[term], id) <==> id in docs && term in tok(docs[id])
      ensures id in docs ==> (Hits(tok(docs[id]), query + [term]) <==> Hits(tok(docs[id]), query) || term in tok(docs[id]))
      ensures id in docs ==> TextScore(ln, idx, tok(docs[id]), query + [term])
                             == TextScore(ln, idx, tok(docs[id]), query) + Contribution(ln, idx, tok(docs[id]), term)
      ensures id in docs && !Hits(tok(docs[id]), query) ==> TextScore(ln, idx, tok(docs[id]), query) == 0.0
      ensures id in docs && term !in tok(docs[id]) ==> Contribution(ln, idx, tok(docs[id]), term) == 0.0
    {
      WhoIsPosted(tok, docs, idx, term, id);
      if id in docs {
        HitsPush(tok(docs[id]), query, term);
        ScorePush(ln, idx, tok(docs[id]), query, term);
        if !Hits(tok(docs[id]), query) { ZeroWithoutHits(ln, idx, tok(docs[id]), query); }
      }
    }
  }

  lemma {:induction false} WhoIsPosted(tok: Analyzer, docs: Texts, idx: Bm25File, term: string, id: string)
    requires Indexes(tok, docs, idx) && term in idx.index
    ensures InPosts(idx.index[term], id) <==> id in docs && term in tok(docs[id])
  {
    hide Occurrences, SortedPosts;
    var posts := idx.index[term];
    if id in docs {
      OccursIn(tok(docs[id]), term);
      if term in tok(docs[id]) { assert Posting(id, Occurrences(tok(docs[id]), term)) in posts; }
    }
  }

  // Scores one text directly against the index's statistics.
  method ScoreDoc(ln: Log, tok: Analyzer, idx: Bm25File, text: string, query: seq<string>) returns (score: real)
    ensures score == TextScore(ln, idx, tok(text), query)
  {
    hide TermScore, Idf;
    var tokens := tok(text);
    var tf := CountTerms(tokens);
    score := 0.0;
    var i := 0;
    while i < |query|
      invariant i <= |query| && score == TextScore(ln, idx, tokens, query[..i])
    {
      var term := query[i];
      assert query[..i + 1] == query[..i] + [term];
      ScorePush(ln, idx, tokens, query[..i], term);
      OccursIn(tokens, term);
      if term in tf {
        score := score + TermScore(Idf(ln, idx.n, DocFreq(idx, term)), tf[term], |tokens|, idx.avgDL);
      }
      i := i + 1;
    }
    assert query[..|query|] == query;
  }

  // The fast form is the simple form: through the postings or directly, an indexed document scores
  // the same, and it is absent exactly when its direct score is zero.
  lemma {:induction false} FastIsSimple(ln: Log, tok: Analyzer, docs: Texts, idx: Bm25File, query: seq<string>, scores: map<string, real>, id: string)
    requires PositiveAboveOne(ln) && Indexes(tok, docs, idx) && ScoresOk(ln, tok, docs, idx, query, scores) && id in docs
    ensures id in scores ==> scores[id] == TextScore(ln, idx, tok(docs[id]), query) > 0.0
    ensures id !in scores ==> TextScore(ln, idx, tok(docs[id]), query) == 0.0
  {
    hide TextScore, Hits, Indexes, FreqsOk, PositiveAboveOne;
    IndexFreqs(tok, docs, idx);
    ScoreSign(ln, idx, tok(docs[id]), query);
  }

  // ---------------------------------------------------------------- text queries

  // The text a document is indexed under; none when the field is absent or not a string.
  function TextOf(attrs: Attrs, field: string): string {
    if field in attrs && attrs[field].Str? then attrs[field].s else ""
  }

  function TextsOf(live: Live, field: string): Texts {
    map id | id in live :: TextOf(live[id].attrs, field)
  }

  lemma {:induction false} EmptyFreqs()
    ensures FreqsOk(EmptyFile)
  {
  }
}

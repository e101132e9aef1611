/** Context retrieval for a question: the vector index's hits when the
    index answered, and otherwise the keyword search over the knowledge
    base, which scores each article, keeps those with a positive score,
    sorts them by score (stable, descending) and keeps the first `k`. */
module Retrieval {
  import opened Common
  import opened Text
  import opened StableSort

  /** One knowledge-base article. */
  datatype Article = Article(topic: string, content: string)

  datatype SourceType = VectorSource | KeywordSource

  /** One retrieved context chunk. */
  datatype Context = Context(content: string, topic: string, relevance: real, source: SourceType)

  /** What the vector index did for the question: there is no index (the
      embedding model failed to load), the search raised, or it returned
      its chunks. */
  datatype VectorOutcome = NoIndex | SearchFailed | Hits(chunks: seq<Context>)

  function Relevance(c: Context): real {
    c.relevance
  }

  /** `sum(1 for word in words if word in text)`. */
  function CountHits(words: seq<string>, text: string): (n: nat)
    ensures n <= |words|
  {
    if words == [] then 0
    else CountHits(words[..|words| - 1], text) + (if Contains(text, words[|words| - 1]) then 1 else 0)
  }

  /** The keyword score of an article: content hits plus twice the topic
      hits, per query word. */
  function Score(words: seq<string>, a: Article): real
    requires words != []
  {
    (CountHits(words, Lower(a.content)) + 2 * CountHits(words, Lower(a.topic))) as real / |words| as real
  }

  /** The chunk the keyword search makes of an article. */
  function Chunk(words: seq<string>, a: Article): Context
    requires words != []
  {
    Context(a.content, a.topic, Score(words, a), KeywordSource)
  }

  /** The chunks of the articles with a positive score, in corpus order. */
  function Scored(words: seq<string>, corpus: seq<Article>): (r: seq<Context>)
    requires words != []
  {
    if corpus == [] then []
    else
      var a := corpus[|corpus| - 1];
      Scored(words, corpus[..|corpus| - 1]) + (if Score(words, a) > 0.0 then [Chunk(words, a)] else [])
  }

  /** What the keyword search returns: the `k` best chunks, or the
      division by zero that a question without words causes as soon as
      one article is scored. */
  function KeywordResults(query: string, corpus: seq<Article>, k: nat): Outcome<seq<Context>> {
    var words := Split(Lower(query));
    if corpus == [] then Ok([])
    else if words == [] then Raised("ZeroDivisionError")
    else Ok(Take(SortDesc(Scored(words, corpus), Relevance), k))
  }

  /** The keyword branch as the service runs it: one pass over the corpus
      appending the chunks with a positive score, then the sort and the
      cut. The query's words are the same on every pass, so they are split
      once, before the loop. */
  method KeywordSearch(query: string, corpus: seq<Article>, k: nat) returns (r: Outcome<seq<Context>>)
    ensures r == KeywordResults(query, corpus, k)
  {
    var words := Split(Lower(query));
    if corpus == [] {
      return Ok([]);
    }
    if words == [] {
      return Raised("ZeroDivisionError");
    }
    var results: seq<Context> := [];
    var i := 0;
    while i < |corpus|
      invariant 0 <= i <= |corpus|
      invariant results == Scored(words, corpus[..i])
    {
      var a := corpus[i];
      var total := Score(words, a);
      if total > 0.0 {
        results := results + [Context(a.content, a.topic, total, KeywordSource)];
      }
      assert corpus[..i + 1][..i] == corpus[..i];
      i := i + 1;
    }
    assert corpus[..i] == corpus;
    results := SortDesc(results, Relevance);
    return Ok(Take(results, k));
  }

  /** `_retrieve_context`: the vector hits when the index answered, the
      keyword search otherwise. */
  function Retrieve(query: string, corpus: seq<Article>, vector: VectorOutcome, k: nat): Outcome<seq<Context>> {
    if vector.Hits? then Ok(vector.chunks) else KeywordResults(query, corpus, k)
  }

  /** An article scores at all exactly when one of the words occurs in its
      content or in its topic. */
  lemma {:induction false} CountHitsPositive(words: seq<string>, text: string)
    ensures CountHits(words, text) > 0 <==> exists i :: 0 <= i < |words| && Contains(text, words[i])
  {
    if words != [] {
      var init := words[..|words| - 1];
      CountHitsPositive(init, text);
      if exists i :: 0 <= i < |init| && Contains(text, init[i]) {
        var i :| 0 <= i < |init| && Contains(text, init[i]);
        assert words[i] == init[i];
      }
      if exists i :: 0 <= i < |words| && Contains(text, words[i]) {
        var i :| 0 <= i < |words| && Contains(text, words[i]);
        if i < |init| {
          assert init[i] == words[i];
        }
      }
    }
  }

  /** The score lies between 0 and 3, and is positive exactly when some
      query word occurs in the article's content or topic. */
  lemma ScoreRange(words: seq<string>, a: Article)
    requires words != []
    ensures 0.0 <= Score(words, a) <= 3.0
    ensures Score(words, a) > 0.0 <==>
      exists i :: 0 <= i < |words| && (Contains(Lower(a.content), words[i]) || Contains(Lower(a.topic), words[i]))
  {
    var c := CountHits(words, Lower(a.content));
    var t := CountHits(words, Lower(a.topic));
    var n := |words| as real;
    var x := (c + 2 * t) as real;
    assert x <= 3.0 * n;
    DivideBounds(x, n);
    CountHitsPositive(words, Lower(a.content));
    CountHitsPositive(words, Lower(a.topic));
  }

  lemma DivideBounds(x: real, n: real)
    requires n > 0.0 && 0.0 <= x <= 3.0 * n
    ensures 0.0 <= x / n <= 3.0
    ensures x / n > 0.0 <==> x > 0.0
  {
    assert x / n * n == x;
  }

  /** The chunks kept are exactly the positive-scoring articles' chunks. */
  lemma {:induction false} ScoredMembers(words: seq<string>, corpus: seq<Article>, c: Context)
    requires words != []
    ensures c in Scored(words, corpus) <==> exists a :: a in corpus && Score(words, a) > 0.0 && c == Chunk(words, a)
  {
    if corpus != [] {
      var init := corpus[..|corpus| - 1];
      var last := corpus[|corpus| - 1];
      ScoredMembers(words, init, c);
      assert corpus == init + [last];
      if exists a :: a in corpus && Score(words, a) > 0.0 && c == Chunk(words, a) {
        var a :| a in corpus && Score(words, a) > 0.0 && c == Chunk(words, a);
        if a != last {
          assert a in init;
        }
      }
    }
  }

  /** The first `n` elements of a list sorted by non-increasing key are
      themselves sorted. */
  lemma TakeSorted<T>(s: seq<T>, key: T -> real, n: nat)
    requires SortedDesc(s, key)
    ensures SortedDesc(Take(s, n), key)
  {
    var t := Take(s, n);
    forall i, j | 0 <= i < j < |t| ensures key(t[i]) >= key(t[j]) {
      assert t[i] == s[i] && t[j] == s[j];
    }
  }

  /** What the keyword search promises: at most `k` chunks, each from an
      article of the corpus and with a positive score, ordered by
      non-increasing relevance; and among chunks of equal relevance, the
      full ranking keeps the corpus order. */
  lemma KeywordSearchPromises(query: string, corpus: seq<Article>, k: nat)
    requires KeywordResults(query, corpus, k).Ok?
    ensures corpus != [] ==> Split(Lower(query)) != []
    ensures |KeywordResults(query, corpus, k).value| <= k
    ensures SortedDesc(KeywordResults(query, corpus, k).value, Relevance)
    ensures forall c :: c in KeywordResults(query, corpus, k).value ==>
      0.0 < c.relevance <= 3.0 && c.source == KeywordSource &&
      exists a :: a in corpus && c == Chunk(Split(Lower(query)), a)
  {
    var words := Split(Lower(query));
    if corpus != [] {
      var scored := Scored(words, corpus);
      var ranked := SortDesc(scored, Relevance);
      var r := Take(ranked, k);
      SortDescSorted(scored, Relevance);
      TakeSorted(ranked, Relevance, k);
      forall c | c in r
        ensures 0.0 < c.relevance <= 3.0 && c.source == KeywordSource && exists a :: a in corpus && c == Chunk(words, a)
      {
        assert c in ranked;
        assert c in multiset(scored);
        ScoredMembers(words, corpus, c);
        var a :| a in corpus && Score(words, a) > 0.0 && c == Chunk(words, a);
        ScoreRange(words, a);
      }
    }
  }

  /** The keyword search keeps the best chunks: it returns `k` of them, or
      all of them when fewer than `k` articles score; an article that
      scores but is left out scores no higher than any chunk returned. */
  lemma KeywordSearchKeepsBest(query: string, corpus: seq<Article>, k: nat)
    requires KeywordResults(query, corpus, k).Ok? && corpus != []
    ensures var words := Split(Lower(query));
      words != [] &&
      |KeywordResults(query, corpus, k).value| == (if k < |Scored(words, corpus)| then k else |Scored(words, corpus)|)
    ensures var words := Split(Lower(query));
      |Scored(words, corpus)| <= k ==>
        multiset(KeywordResults(query, corpus, k).value) == multiset(Scored(words, corpus))
    ensures var words := Split(Lower(query));
      forall a, d ::
        (a in corpus && Score(words, a) > 0.0 && Chunk(words, a) !in KeywordResults(query, corpus, k).value &&
         d in KeywordResults(query, corpus, k).value) ==> Score(words, a) <= d.relevance
  {
    var words := Split(Lower(query));
    var scored := Scored(words, corpus);
    var ranked := SortDesc(scored, Relevance);
    var r := Take(ranked, k);
    SortDescSorted(scored, Relevance);
    forall a, d | a in corpus && Score(words, a) > 0.0 && Chunk(words, a) !in r && d in r
      ensures Score(words, a) <= d.relevance
    {
      ScoredMembers(words, corpus, Chunk(words, a));
      assert Chunk(words, a) in multiset(ranked);
      TakeSortedBest(ranked, Relevance, k, Chunk(words, a), d);
    }
  }

  /** In a list sorted by non-increasing key, an element beyond the first
      `n` has a key no greater than any of the first `n`. */
  lemma TakeSortedBest<T>(s: seq<T>, key: T -> real, n: nat, x: T, d: T)
    requires SortedDesc(s, key) && x in s && x !in Take(s, n) && d in Take(s, n)
    ensures key(x) <= key(d)
  {
    var t := Take(s, n);
    var j :| 0 <= j < |s| && s[j] == x;
    var i :| 0 <= i < |t| && t[i] == d;
    assert forall m :: 0 <= m < |t| ==> t[m] == s[m];
    assert j >= |t|;
    assert s[i] == d;
  }

  lemma RankingKeepsTies(words: seq<string>, corpus: seq<Article>, v: real)
    requires words != []
    ensures WithKey(SortDesc(Scored(words, corpus), Relevance), Relevance, v) == WithKey(Scored(words, corpus), Relevance, v)
  {
    SortDescStable(Scored(words, corpus), Relevance, v);
  }

  /** The search raises exactly when there is an article to score and the
      question has no words at all. */
  lemma KeywordSearchRaises(query: string, corpus: seq<Article>, k: nat)
    ensures KeywordResults(query, corpus, k).Raised? <==>
      corpus != [] && forall i :: 0 <= i < |query| ==> IsSpace(query[i])
  {
    SplitEmpty(Lower(query));
    forall i | 0 <= i < |query| ensures IsSpace(Lower(query)[i]) <==> IsSpace(query[i]) {
      LowerCharSpace(query[i]);
    }
  }
}

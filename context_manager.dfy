/**
 * Domain context files: keyword extraction, creating and extending a context,
 * and ranking stored contexts by keyword overlap with a query. The directory
 * of context files is a map from domain to record, with the order in which
 * the directory lists its files given as an input. Tokenising is the NLP
 * library's and is an input function.
 */
module ContextManager {
  import opened Wrappers
  import opened Text
  import opened StableSort

  /** The tokenizer and the English stopword list. */
  datatype Nlp = Nlp(tokenize: string -> seq<string>, stopWords: set<string>)

  /** `string.punctuation`; a token is dropped when it occurs in this string. */
  const Punctuation: string := "!\"#$%&'()*+,-./:;<=>?@[\\]^_`{|}~"

  predicate Kept(nlp: Nlp, w: string) {
    w !in nlp.stopWords && !Contains(Punctuation, w)
  }

  /** The tokens that are neither stopwords nor punctuation, in order. */
  function KeptTokens(nlp: Nlp, tokens: seq<string>): (r: seq<string>)
    ensures forall w :: w in r <==> w in tokens && Kept(nlp, w)
  {
    if tokens == [] then []
    else (if Kept(nlp, tokens[0]) then [tokens[0]] else []) + KeptTokens(nlp, tokens[1..])
  }

  predicate Distinct(s: seq<string>) {
    forall i, j :: 0 <= i < j < |s| ==> s[i] != s[j]
  }

  /** The distinct tokens in order of first occurrence, as a frequency table keeps them. */
  function Dedup(s: seq<string>): (r: seq<string>)
    ensures forall w :: w in r <==> w in s
    ensures Distinct(r)
  {
    if s == [] then []
    else
      var d := Dedup(s[..|s| - 1]);
      assert forall w :: w in s <==> w in s[..|s| - 1] || w == s[|s| - 1] by {
        assert s == s[..|s| - 1] + [s[|s| - 1]];
      }
      if s[|s| - 1] in d then d else d + [s[|s| - 1]]
  }

  function Frequency(tokens: seq<string>, w: string): real {
    multiset(tokens)[w] as real
  }

  function Take<T>(s: seq<T>, n: nat): (r: seq<T>)
    ensures |r| <= n && |r| <= |s|
    ensures forall i :: 0 <= i < |r| ==> r[i] == s[i]
  {
    if |s| <= n then s else s[..n]
  }

  /** The at most ten most frequent kept tokens, most frequent first, ties in first-occurrence order. */
  function TopKept(nlp: Nlp, tokens: seq<string>): seq<string> {
    var kept := KeptTokens(nlp, tokens);
    Take(Sort(Dedup(kept), w => Frequency(kept, w)), 10)
  }

  /** A word occurs at most once in a sequence without repeats. */
  lemma {:induction false} DistinctCount(s: seq<string>, w: string)
    requires Distinct(s)
    ensures multiset(s)[w] <= 1
  {
    if s != [] {
      assert s == [s[0]] + s[1..];
      assert Distinct(s[1..]) by {
        forall i, j | 0 <= i < j < |s[1..]| ensures s[1..][i] != s[1..][j] {
          assert s[1..][i] == s[i + 1] && s[1..][j] == s[j + 1];
        }
      }
      DistinctCount(s[1..], w);
      if s[0] == w {
        forall k | 0 <= k < |s[1..]| ensures s[1..][k] != w {
          assert s[1..][k] == s[k + 1];
        }
      }
    }
  }

  /** A rearrangement of a sequence without repeats has none either. */
  lemma DistinctPermutation(a: seq<string>, b: seq<string>)
    requires Distinct(a) && multiset(a) == multiset(b)
    ensures Distinct(b)
  {
    forall i, j | 0 <= i < j < |b| ensures b[i] != b[j] {
      if b[i] == b[j] {
        assert b == b[..j] + [b[j]] + b[j + 1..];
        assert b[i] in b[..j];
        assert multiset(b)[b[i]] >= 2;
        DistinctCount(a, b[i]);
      }
    }
  }

  /** Every top token is a kept token of the input, and they come by non-increasing count. */
  lemma TopKeptSpec(nlp: Nlp, tokens: seq<string>)
    ensures |TopKept(nlp, tokens)| <= 10
    ensures forall i :: 0 <= i < |TopKept(nlp, tokens)| ==>
              Kept(nlp, TopKept(nlp, tokens)[i]) && TopKept(nlp, tokens)[i] in tokens
    ensures forall i, j :: 0 <= i < j < |TopKept(nlp, tokens)| ==>
              Frequency(tokens, TopKept(nlp, tokens)[i]) >= Frequency(tokens, TopKept(nlp, tokens)[j])
  {
    var kept := KeptTokens(nlp, tokens);
    var key := w => Frequency(kept, w);
    var ranked := Sort(Dedup(kept), key);
    SortPermutation(Dedup(kept), key);
    SortNonIncreasing(Dedup(kept), key);
    var r := Take(ranked, 10);
    assert r == TopKept(nlp, tokens);
    forall i | 0 <= i < |r|
      ensures r[i] in kept && multiset(kept)[r[i]] == multiset(tokens)[r[i]]
    {
      assert r[i] == ranked[i];
      assert ranked[i] in multiset(Dedup(kept));
      KeptCount(nlp, tokens, r[i]);
    }
  }

  /** Of a list ranked by descending key, the first ten leave out only
      elements whose key is at most that of every chosen one. */
  lemma TakeRankedIsTop(ranked: seq<string>, key: string -> real, w: string)
    requires NonIncreasing(ranked, key) && w in ranked && w !in Take(ranked, 10)
    ensures |Take(ranked, 10)| == 10
    ensures forall i :: 0 <= i < 10 ==> key(Take(ranked, 10)[i]) >= key(w)
  {
    var j :| 0 <= j < |ranked| && ranked[j] == w;
    assert |Take(ranked, 10)| <= j;
  }

  /** No token is chosen twice. */
  lemma TopKeptDistinct(nlp: Nlp, tokens: seq<string>)
    ensures Distinct(TopKept(nlp, tokens))
  {
    var kept := KeptTokens(nlp, tokens);
    var key := w => Frequency(kept, w);
    SortPermutation(Dedup(kept), key);
    DistinctPermutation(Dedup(kept), Sort(Dedup(kept), key));
  }

  /** A kept token of the input that is not chosen occurs no more often than
      any chosen one, and then ten are chosen. */
  lemma TopKeptLeftOut(nlp: Nlp, tokens: seq<string>, w: string)
    requires Kept(nlp, w) && w in tokens && w !in TopKept(nlp, tokens)
    ensures |TopKept(nlp, tokens)| == 10
    ensures forall i :: 0 <= i < |TopKept(nlp, tokens)| ==>
              Frequency(tokens, TopKept(nlp, tokens)[i]) >= Frequency(tokens, w)
  {
    var kept := KeptTokens(nlp, tokens);
    var key := w => Frequency(kept, w);
    var ranked := Sort(Dedup(kept), key);
    SortPermutation(Dedup(kept), key);
    SortNonIncreasing(Dedup(kept), key);
    assert w in multiset(ranked);
    TakeRankedIsTop(ranked, key, w);
    KeptCount(nlp, tokens, w);
    TopKeptSpec(nlp, tokens);
    var r := TopKept(nlp, tokens);
    forall i | 0 <= i < |r| ensures Frequency(tokens, r[i]) >= Frequency(tokens, w) {
      KeptCount(nlp, tokens, r[i]);
    }
  }

  /** The top tokens are the most frequent kept ones: every kept token left
      out occurs no more often than any chosen one, and fewer than ten are
      chosen only when every kept token is. */
  lemma TopKeptMostFrequent(nlp: Nlp, tokens: seq<string>)
    ensures |TopKept(nlp, tokens)| == 10 || forall w :: Kept(nlp, w) && w in tokens ==> w in TopKept(nlp, tokens)
    ensures forall w, i :: Kept(nlp, w) && w in tokens && w !in TopKept(nlp, tokens) && 0 <= i < |TopKept(nlp, tokens)| ==>
              Frequency(tokens, TopKept(nlp, tokens)[i]) >= Frequency(tokens, w)
  {
    forall w | Kept(nlp, w) && w in tokens && w !in TopKept(nlp, tokens)
      ensures |TopKept(nlp, tokens)| == 10
      ensures forall i :: 0 <= i < |TopKept(nlp, tokens)| ==>
                Frequency(tokens, TopKept(nlp, tokens)[i]) >= Frequency(tokens, w)
    {
      TopKeptLeftOut(nlp, tokens, w);
    }
  }

  /** `extract_keywords`: the at most ten most frequent kept tokens of the
      lower-cased text, most frequent first, ties in first-occurrence order. */
  function ExtractKeywords(nlp: Nlp, text: string): (keywords: seq<string>)
    ensures |keywords| <= 10
    ensures forall i :: 0 <= i < |keywords| ==>
              Kept(nlp, keywords[i]) && keywords[i] in nlp.tokenize(Lower(text))
    ensures forall i, j :: 0 <= i < j < |keywords| ==>
              Frequency(nlp.tokenize(Lower(text)), keywords[i]) >= Frequency(nlp.tokenize(Lower(text)), keywords[j])
    ensures Distinct(keywords)
    ensures |keywords| == 10 || forall w :: Kept(nlp, w) && w in nlp.tokenize(Lower(text)) ==> w in keywords
    ensures forall w, i :: Kept(nlp, w) && w in nlp.tokenize(Lower(text)) && w !in keywords && 0 <= i < |keywords| ==>
              Frequency(nlp.tokenize(Lower(text)), keywords[i]) >= Frequency(nlp.tokenize(Lower(text)), w)
  {
    TopKeptSpec(nlp, nlp.tokenize(Lower(text)));
    TopKeptDistinct(nlp, nlp.tokenize(Lower(text)));
    TopKeptMostFrequent(nlp, nlp.tokenize(Lower(text)));
    TopKept(nlp, nlp.tokenize(Lower(text)))
  }

  lemma {:induction false} KeptCount(nlp: Nlp, tokens: seq<string>, w: string)
    requires Kept(nlp, w)
    ensures multiset(KeptTokens(nlp, tokens))[w] == multiset(tokens)[w]
  {
    if tokens != [] {
      KeptCount(nlp, tokens[1..], w);
      assert tokens == [tokens[0]] + tokens[1..];
    }
  }

  /** `set(s)`. */
  function SetOf(s: seq<string>): set<string> {
    set w | w in s
  }

  /** A stored context file. */
  datatype ContextRecord = ContextRecord(domain: string, content: string, keywords: seq<string>,
                                         created: string, lastUpdated: string)

  /** An entry of the ranking. */
  datatype Relevant = Relevant(domain: string, relevance: real, content: string)

  function Relevance(r: Relevant): real {
    r.relevance
  }

  /** What one listed file contributes to the ranking: a `.json` file whose
      context shares keywords with the query, with relevance overlap over the
      number of query keywords. */
  function Contribution(query: set<string>, file: string, contexts: map<string, ContextRecord>): (r: Option<Relevant>)
    ensures r.Some? <==> EndsWith(file, ".json") && file[..|file| - 5] in contexts &&
                         query * SetOf(contexts[file[..|file| - 5]].keywords) != {}
    ensures r.Some? ==> 0.0 < r.value.relevance <= 1.0
  {
    if !EndsWith(file, ".json") || file[..|file| - 5] !in contexts then None
    else
      var context := contexts[file[..|file| - 5]];
      var shared := query * SetOf(context.keywords);
      if |shared| == 0 then None
      else
        SubsetCard(shared, query);
        Some(Relevant(context.domain, |shared| as real / |query| as real, context.content))
  }

  lemma {:induction false} SubsetCard(a: set<string>, b: set<string>)
    requires a <= b
    ensures |a| <= |b|
    decreases |b|
  {
    if a != {} {
      var x :| x in a;
      SubsetCard(a - {x}, b - {x});
    }
  }

  /** The unsorted list the loop builds, in directory order. */
  function Candidates(query: set<string>, listing: seq<string>, contexts: map<string, ContextRecord>): seq<Relevant> {
    if listing == [] then []
    else
      (match Contribution(query, listing[0], contexts) case Some(r) => [r] case None => []) +
      Candidates(query, listing[1..], contexts)
  }

  lemma AppendAssoc(a: seq<Relevant>, b: seq<Relevant>, c: seq<Relevant>)
    ensures a + b + c == a + (b + c)
  {
  }

  lemma CandidatesUnfold(query: set<string>, listing: seq<string>, contexts: map<string, ContextRecord>)
    requires listing != []
    ensures Candidates(query, listing, contexts) ==
            (match Contribution(query, listing[0], contexts) case Some(r) => [r] case None => []) +
            Candidates(query, listing[1..], contexts)
  {
  }

  /** A context is ranked exactly when a listed file contributes it, and every
      relevance lies in (0, 1]. */
  lemma {:induction false} CandidatesMembers(query: set<string>, listing: seq<string>, contexts: map<string, ContextRecord>, r: Relevant)
    ensures r in Candidates(query, listing, contexts) <==>
              exists i :: 0 <= i < |listing| && Contribution(query, listing[i], contexts) == Some(r)
    ensures r in Candidates(query, listing, contexts) ==> 0.0 < r.relevance <= 1.0
  {
    if listing != [] {
      CandidatesMembers(query, listing[1..], contexts, r);
      assert forall i :: 1 <= i < |listing| ==> listing[i] == listing[1..][i - 1];
      if exists i :: 0 <= i < |listing[1..]| && Contribution(query, listing[1..][i], contexts) == Some(r) {
        var i :| 0 <= i < |listing[1..]| && Contribution(query, listing[1..][i], contexts) == Some(r);
        assert listing[i + 1] == listing[1..][i];
      }
    }
  }

  class ContextStore {
    const nlp: Nlp
    var contexts: map<string, ContextRecord>

    constructor (nlp: Nlp, contexts: map<string, ContextRecord>)
      ensures this.nlp == nlp && this.contexts == contexts
    {
      this.nlp := nlp;
      this.contexts := contexts;
    }

    function GetContext(domain: string): Option<ContextRecord>
      reads this
    {
      if domain in contexts then Some(contexts[domain]) else None
    }

    /** Write a context; rewriting an existing one keeps its creation time.
        `createdAt` and `updatedAt` are the two clock readings the record is
        built with. */
    method CreateContext(domain: string, content: string, createdAt: string, updatedAt: string)
      modifies this
      ensures contexts == old(contexts)[domain := ContextRecord(domain, content, ExtractKeywords(nlp, content),
                            if domain in old(contexts) then old(contexts)[domain].created else createdAt, updatedAt)]
    {
      var created := createdAt;
      var existing := GetContext(domain);
      if existing.Some? {
        created := existing.value.created;
      }
      contexts := contexts[domain := ContextRecord(domain, content, ExtractKeywords(nlp, content), created, updatedAt)];
    }

    /** Extend an existing context by a new line and recompute its keywords;
        an absent domain is left alone. */
    method UpdateContext(domain: string, newContent: string, now: string)
      modifies this
      ensures domain !in old(contexts) ==> contexts == old(contexts)
      ensures domain in old(contexts) ==>
        var c := old(contexts)[domain].content + "\n" + newContent;
        contexts == old(contexts)[domain := old(contexts)[domain].(content := c, keywords := ExtractKeywords(nlp, c), lastUpdated := now)]
    {
      var existing := GetContext(domain);
      if existing.Some? {
        var c := existing.value.content + "\n" + newContent;
        contexts := contexts[domain := existing.value.(content := c, keywords := ExtractKeywords(nlp, c), lastUpdated := now)];
      }
    }

    /** One turn of the loop of `find_relevant_contexts`: what `file` adds to the list. */
    method ContributionOf(queryKeywords: set<string>, file: string) returns (step: seq<Relevant>)
      ensures step == (match Contribution(queryKeywords, file, contexts) case Some(r) => [r] case None => [])
    {
      step := [];
      if EndsWith(file, ".json") {
        var context := GetContext(file[..|file| - 5]);
        if context.Some? {
          var shared := queryKeywords * SetOf(context.value.keywords);
          var overlap := |shared|;
          if overlap > 0 {
            SubsetCard(shared, queryKeywords);
            step := [Relevant(context.value.domain, overlap as real / |queryKeywords| as real, context.value.content)];
          }
        }
      }
    }

    /** The loop of `find_relevant_contexts`: the contexts of the listed
        `.json` files that share keywords with the query, in directory order. */
    method CollectRelevant(queryKeywords: set<string>, listing: seq<string>) returns (relevant: seq<Relevant>)
      ensures relevant == Candidates(queryKeywords, listing, contexts)
    {
      relevant := [];
      var k := 0;
      while k < |listing|
        invariant 0 <= k <= |listing|
        invariant relevant + Candidates(queryKeywords, listing[k..], contexts) == Candidates(queryKeywords, listing, contexts)
      {
        assert listing[k..][1..] == listing[k + 1..];
        var step := ContributionOf(queryKeywords, listing[k]);
        CandidatesUnfold(queryKeywords, listing[k..], contexts);
        ghost var rest := Candidates(queryKeywords, listing[k + 1..], contexts);
        assert Candidates(queryKeywords, listing[k..], contexts) == step + rest;
        AppendAssoc(relevant, step, rest);
        relevant := relevant + step;
        k := k + 1;
      }
      assert relevant + [] == relevant;
    }

    /** `find_relevant_contexts`: the collected contexts, stably sorted by
        descending relevance, so ties keep directory order. */
    method FindRelevantContexts(query: string, listing: seq<string>) returns (ranked: seq<Relevant>)
      ensures ranked == Sort(Candidates(SetOf(ExtractKeywords(nlp, query)), listing, contexts), Relevance)
      ensures NonIncreasing(ranked, Relevance)
      ensures multiset(ranked) == multiset(Candidates(SetOf(ExtractKeywords(nlp, query)), listing, contexts))
      ensures forall v :: WithKey(ranked, Relevance, v) ==
                WithKey(Candidates(SetOf(ExtractKeywords(nlp, query)), listing, contexts), Relevance, v)
    {
      var queryKeywords := SetOf(ExtractKeywords(nlp, query));
      var relevant := CollectRelevant(queryKeywords, listing);
      ranked := Sort(relevant, Relevance);
      SortNonIncreasing(relevant, Relevance);
      SortPermutation(relevant, Relevance);
      forall v ensures WithKey(ranked, Relevance, v) == WithKey(relevant, Relevance, v) {
        SortStable(relevant, Relevance, v);
      }
    }
  }
}

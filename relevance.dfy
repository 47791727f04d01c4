/**
 * Relevance scoring: the sum, over every pair of a query stem and a document
 * keyword, of the pair's string distance when it exceeds a fixed threshold.
 */
module Relevance {
  import opened Plugin

  const RelevanceThreshold: real := 0.5

  /** What one pair adds to the score: its distance if above the threshold, else nothing. */
  function Contribution(d: real): (c: real)
    ensures c >= 0.0
    ensures c > 0.0 <==> d > RelevanceThreshold
    ensures c > 0.0 ==> c == d
  {
    if d > RelevanceThreshold then d else 0.0
  }

  /** The score of one query stem against the document's keywords (`tokenRelevance`). */
  function TokenScore(distance: (Stem, Stem) -> real, token: Stem, docTokens: seq<Stem>): (r: real)
    ensures r >= 0.0
    decreases |docTokens|
  {
    if docTokens == [] then 0.0
    else TokenScore(distance, token, docTokens[..|docTokens| - 1])
         + Contribution(distance(token, docTokens[|docTokens| - 1]))
  }

  /** The relevance of a document to a query (`processRelevance`). */
  function Score(distance: (Stem, Stem) -> real, queryTokens: seq<Stem>, docTokens: seq<Stem>): (r: real)
    ensures r >= 0.0
    decreases |queryTokens|
  {
    if queryTokens == [] then 0.0
    else Score(distance, queryTokens[..|queryTokens| - 1], docTokens)
         + TokenScore(distance, queryTokens[|queryTokens| - 1], docTokens)
  }

  /** `tokenRelevance`: accumulates the contributions of the document tokens one by one. */
  method TokenRelevance(distance: (Stem, Stem) -> real, token: Stem, resultTokens: seq<Stem>)
    returns (result: real)
    ensures result == TokenScore(distance, token, resultTokens)
  {
    result := 0.0;
    for i := 0 to |resultTokens|
      invariant result == TokenScore(distance, token, resultTokens[..i])
    {
      var relevance := distance(token, resultTokens[i]);
      if relevance > RelevanceThreshold {
        result := result + relevance;
      }
      assert resultTokens[..i + 1][..i] == resultTokens[..i];
    }
    assert resultTokens[..|resultTokens|] == resultTokens;
  }

  /** `processRelevance`: adds up the token relevance of every query token. */
  method ProcessRelevance(distance: (Stem, Stem) -> real, queryTokens: seq<Stem>, resultTokens: seq<Stem>)
    returns (relevance: real)
    ensures relevance == Score(distance, queryTokens, resultTokens)
  {
    relevance := 0.0;
    for i := 0 to |queryTokens|
      invariant relevance == Score(distance, queryTokens[..i], resultTokens)
    {
      var r := TokenRelevance(distance, queryTokens[i], resultTokens);
      relevance := relevance + r;
      assert queryTokens[..i + 1][..i] == queryTokens[..i];
    }
    assert queryTokens[..|queryTokens|] == queryTokens;
  }

  /** A stem's score is zero exactly when no keyword is closer than the threshold. */
  lemma {:induction false} TokenScoreZero(distance: (Stem, Stem) -> real, token: Stem, docTokens: seq<Stem>)
    ensures TokenScore(distance, token, docTokens) == 0.0
            <==> forall k :: k in docTokens ==> distance(token, k) <= RelevanceThreshold
    decreases |docTokens|
  {
    if docTokens != [] {
      var init := docTokens[..|docTokens| - 1];
      TokenScoreZero(distance, token, init);
      assert docTokens == init + [docTokens[|docTokens| - 1]];
    }
  }

  /**
   * The relevance is zero exactly when no (query stem, keyword) pair is closer
   * than the threshold; in particular for an empty query or a document without keywords.
   */
  lemma {:induction false} ScoreZero(distance: (Stem, Stem) -> real, queryTokens: seq<Stem>, docTokens: seq<Stem>)
    ensures Score(distance, queryTokens, docTokens) == 0.0
            <==> forall q, k :: q in queryTokens && k in docTokens ==> distance(q, k) <= RelevanceThreshold
    decreases |queryTokens|
  {
    if queryTokens != [] {
      var init := queryTokens[..|queryTokens| - 1];
      var last := queryTokens[|queryTokens| - 1];
      ScoreZero(distance, init, docTokens);
      TokenScoreZero(distance, last, docTokens);
      assert queryTokens == init + [last];
    }
  }

  lemma {:induction false} TokenScoreSplit(distance: (Stem, Stem) -> real, token: Stem, a: seq<Stem>, b: seq<Stem>)
    ensures TokenScore(distance, token, a + b) == TokenScore(distance, token, a) + TokenScore(distance, token, b)
    decreases |b|
  {
    if b == [] {
      assert a + b == a;
    } else {
      var init := b[..|b| - 1];
      TokenScoreSplit(distance, token, a, init);
      assert (a + b)[..|a + b| - 1] == a + init;
    }
  }

  /**
   * The score is additive over the document's keywords: there is no length
   * normalisation, so splitting a keyword list splits the score.
   */
  lemma {:induction false} ScoreSplit(distance: (Stem, Stem) -> real, queryTokens: seq<Stem>, a: seq<Stem>, b: seq<Stem>)
    ensures Score(distance, queryTokens, a + b) == Score(distance, queryTokens, a) + Score(distance, queryTokens, b)
    decreases |queryTokens|
  {
    if queryTokens != [] {
      ScoreSplit(distance, queryTokens[..|queryTokens| - 1], a, b);
      TokenScoreSplit(distance, queryTokens[|queryTokens| - 1], a, b);
    }
  }

  /** Adding a keyword to a document never lowers its relevance. */
  lemma AddingKeywordNeverLowers(distance: (Stem, Stem) -> real, queryTokens: seq<Stem>, docTokens: seq<Stem>, extra: Stem)
    ensures Score(distance, queryTokens, docTokens + [extra]) >= Score(distance, queryTokens, docTokens)
  {
    ScoreSplit(distance, queryTokens, docTokens, [extra]);
  }

  lemma {:induction false} TokenScoreBound(distance: (Stem, Stem) -> real, token: Stem, docTokens: seq<Stem>)
    requires forall a, b :: distance(a, b) <= 1.0
    ensures TokenScore(distance, token, docTokens) <= |docTokens| as real
    decreases |docTokens|
  {
    if docTokens != [] {
      TokenScoreBound(distance, token, docTokens[..|docTokens| - 1]);
    }
  }

  /** With distances at most 1, every pair adds at most 1: the score is at most |query| * |keywords|. */
  lemma {:induction false} ScoreBound(distance: (Stem, Stem) -> real, queryTokens: seq<Stem>, docTokens: seq<Stem>)
    requires forall a, b :: distance(a, b) <= 1.0
    ensures Score(distance, queryTokens, docTokens) <= (|queryTokens| * |docTokens|) as real
    decreases |queryTokens|
  {
    if queryTokens != [] {
      var n := |queryTokens| - 1;
      ScoreBound(distance, queryTokens[..n], docTokens);
      TokenScoreBound(distance, queryTokens[n], docTokens);
      assert (|queryTokens| * |docTokens|) as real == (n * |docTokens|) as real + |docTokens| as real;
    }
  }
}

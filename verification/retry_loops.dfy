/** The two hand-written retry loops side by side: the embedding loop of
    mcp_server.py and the ranking loop of main.py classify failures in the
    same order and differ only in Gemini's fatal errors and in what they
    give up with (a returned report versus the re-raised exception). */
module RetryLoops {
  import opened Retry
  import KnowledgeBase
  import Ranking

  /** Outside Gemini the two loops retry exactly the same failures, after
      the same wait; for Gemini the ranking loop gives up on exactly the
      fatal errors the embedding loop would still retry. */
  lemma SameRetryDecisions(provider: string, e: ProviderError, attempt: nat)
    ensures provider != "gemini" ==>
              (KnowledgeBase.ClassifyEmbedFailure(provider, e, attempt).RetryAfter? <==>
                 Ranking.ClassifyRankingFailure(provider, e, attempt).RetryAfter?)
    ensures Ranking.ClassifyRankingFailure(provider, e, attempt).RetryAfter? ==>
              && KnowledgeBase.ClassifyEmbedFailure(provider, e, attempt).RetryAfter?
              && KnowledgeBase.ClassifyEmbedFailure(provider, e, attempt).wait
                 == Ranking.ClassifyRankingFailure(provider, e, attempt).wait
    ensures provider == "gemini" && attempt < LastAttempt ==>
              ((KnowledgeBase.ClassifyEmbedFailure(provider, e, attempt).RetryAfter? &&
                !Ranking.ClassifyRankingFailure(provider, e, attempt).RetryAfter?) <==>
                 Ranking.IsGeminiFatal(provider, e))
  {
    KnowledgeBase.EmbedRetryable(provider, e, attempt);
    Ranking.RankingRetryable(provider, e, attempt);
  }
}

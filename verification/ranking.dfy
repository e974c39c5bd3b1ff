/** The client side of the pipeline (main.py): choosing the chat model that
    writes the final ranking, and the retry loop around the call that
    generates it.

    The chat model itself is not modelled: each attempt's outcome is given
    as a parameter, `trial(i)` being the response text or the exception of
    attempt `i`. What is modelled is which failures are retried, how long
    the loop waits, and that it either yields a response or re-raises. */
module Ranking {
  import opened Wrappers
  import opened Strings
  import opened Retry

  const LlmVar: string := "LLM_PROVIDER"

  // ================================================================ get_llm

  /** The provider `get_llm` builds: `LLM_PROVIDER`, default "deepseek-local". */
  function LlmTag(env: Env): string {
    Lower(Get(env, LlmVar, "deepseek-local"))
  }

  /** The provider the ranking loop classifies failures by: the same
      variable, but with default "openai". */
  function RankingTag(env: Env): string {
    Lower(Get(env, LlmVar, "openai"))
  }

  /** The two readings agree whenever the variable is set; when it is not,
      the local model's failures are classified as OpenAI's. */
  lemma LlmDefaultsDiffer(env: Env)
    ensures LlmVar in env ==> RankingTag(env) == LlmTag(env)
    ensures LlmVar !in env ==> RankingTag(env) == "openai" && LlmTag(env) == "deepseek-local"
  {
  }

  datatype ChatModel = ChatOpenAI | ChatGoogleGenerativeAI | ChatOllama

  function UnsupportedLlmMessage(provider: string): string {
    "LLM_PROVIDER '" + provider + "' not supported. Use: 'openai', 'gemini', or 'deepseek-local'"
  }

  const MissingGoogleKeyMessage: string := "GOOGLE_API_KEY não encontrada no .env"

  /** `get_llm()`: the configured chat model, or the message of the
      `ValueError` it raises. */
  function GetLlm(env: Env): (r: Result<ChatModel, string>)
    ensures r.Success? <==>
              || LlmTag(env) == "openai" || LlmTag(env) == "deepseek-local"
              || (LlmTag(env) == "gemini" && Get(env, "GOOGLE_API_KEY", "") != "")
    ensures r.Success? ==> (r.value == ChatOllama <==> LlmTag(env) == "deepseek-local")
    ensures r.Success? ==> (r.value == ChatGoogleGenerativeAI <==> LlmTag(env) == "gemini")
    ensures LlmTag(env) == "gemini" && r.Failure? ==> r.error == MissingGoogleKeyMessage
  {
    var provider := LlmTag(env);
    if provider == "openai" then Success(ChatOpenAI)
    else if provider == "gemini" then
      if Get(env, "GOOGLE_API_KEY", "") == "" then Failure(MissingGoogleKeyMessage)
      else Success(ChatGoogleGenerativeAI)
    else if provider == "deepseek-local" then Success(ChatOllama)
    else Failure(UnsupportedLlmMessage(provider))
  }

  /** With `LLM_PROVIDER` unset the local model is chosen. */
  lemma GetLlmDefault(env: Env)
    requires LlmVar !in env
    ensures GetLlm(env) == Success(ChatOllama)
  {
    assert Lower("deepseek-local") == "deepseek-local";
  }

  /** The tag is matched case-insensitively: a value and its lower-cased
      form choose the same model. */
  lemma {:induction false} GetLlmCaseInsensitive(env: Env, value: string)
    ensures GetLlm(env[LlmVar := value]) == GetLlm(env[LlmVar := Lower(value)])
  {
    LowerIsLower(value);
    assert LlmTag(env[LlmVar := value]) == LlmTag(env[LlmVar := Lower(value)]);
  }

  /** Any tag other than the three known ones is rejected, naming the tag. */
  lemma UnsupportedLlmRejected(env: Env)
    requires LlmTag(env) != "openai" && LlmTag(env) != "gemini" && LlmTag(env) != "deepseek-local"
    ensures GetLlm(env) == Failure(UnsupportedLlmMessage(LlmTag(env)))
  {
  }

  // ================================================================ the ranking loop

  /** Gemini's model-not-found test on the lower-cased error text. */
  predicate IsGeminiNotFound(errorText: string) {
    Contains(errorText, "not found") || Contains(errorText, "404")
  }

  /** Gemini's authentication test. */
  predicate IsGeminiAuthentication(errorText: string) {
    Contains(errorText, "api key") || Contains(errorText, "authentication")
  }

  /** Gemini's quota test. */
  predicate IsGeminiQuota(errorText: string) {
    Contains(errorText, "quota") || Contains(errorText, "429")
  }

  /** A Gemini failure the loop re-raises on any attempt. */
  predicate IsGeminiFatal(provider: string, e: ProviderError) {
    var errorText := Lower(e.message);
    provider == "gemini"
    && (IsGeminiNotFound(errorText) || IsGeminiAuthentication(errorText) || IsGeminiQuota(errorText))
  }

  /** The except-branch of the ranking loop: what a failure on `attempt`
      leads to. Giving up means re-raising the attempt's own exception. The
      generic rate-limit branch and the branch for other errors behave
      alike: retry after the backoff while attempts remain, re-raise on the
      last one. */
  function ClassifyRankingFailure(provider: string, e: ProviderError, attempt: nat): (r: Decision<ProviderError>)
    ensures r.RetryAfter? ==> attempt < LastAttempt && r.wait == Backoff(attempt)
    ensures r.GiveUp? ==> r.failure == e
  {
    var attemptsLeft := attempt < LastAttempt;
    if provider == "openai" && e.kind == RateLimitError then
      if attemptsLeft then RetryAfter(Backoff(attempt)) else GiveUp(e)
    else if IsInsufficientQuota(provider, e) then GiveUp(e)
    else if IsGeminiFatal(provider, e) then GiveUp(e)
    else if IsRateLimitText(Lower(e.message)) then
      if attemptsLeft then RetryAfter(Backoff(attempt)) else GiveUp(e)
    else
      if attemptsLeft then RetryAfter(Backoff(attempt)) else GiveUp(e)
  }

  function RankingClassifier(provider: string): (ProviderError, nat) -> Decision<ProviderError> {
    (e: ProviderError, a: nat) => ClassifyRankingFailure(provider, e, a)
  }

  /** Before the last attempt a failure is retried exactly when it is
      neither OpenAI's insufficient quota nor a fatal Gemini error; on the
      last attempt nothing is. Every give-up re-raises the same exception. */
  lemma RankingRetryable(provider: string, e: ProviderError, attempt: nat)
    ensures attempt < LastAttempt ==>
              (ClassifyRankingFailure(provider, e, attempt).RetryAfter? <==>
                 !IsInsufficientQuota(provider, e) && !IsGeminiFatal(provider, e))
    ensures attempt >= LastAttempt ==> ClassifyRankingFailure(provider, e, attempt).GiveUp?
    ensures ClassifyRankingFailure(provider, e, attempt).RetryAfter? ==>
              ClassifyRankingFailure(provider, e, attempt).wait == Backoff(attempt)
    ensures ClassifyRankingFailure(provider, e, attempt).GiveUp? ==>
              ClassifyRankingFailure(provider, e, attempt).failure == e
  {
  }

  lemma RankingClassifierIsBounded(provider: string)
    ensures BacksOff(RankingClassifier(provider))
    ensures LastAttemptGivesUp(RankingClassifier(provider))
  {
    forall e, a ensures RankingClassifier(provider)(e, a) == ClassifyRankingFailure(provider, e, a) {}
    forall e, a { RankingRetryable(provider, e, a); }
  }

  /** How the ranking step ended: the response (`resposta_final`) or the
      re-raised exception, with the waits slept and the attempts made. */
  datatype Ranked = Ranked(response: Result<string, ProviderError>, waits: seq<nat>, attempts: nat)

  /** The ranking loop of `run_agent`. The loop never runs out without a
      `break` or a `raise`, so a response exists whenever no exception
      escapes; a raised exception is the last attempt's own. */
  function GenerateRanking(provider: string, trial: nat -> Attempt<string>): (r: Ranked)
    ensures 1 <= r.attempts <= MaxRetries && |r.waits| == r.attempts - 1
    ensures r.waits == [2, 4][..|r.waits|] && Sum(r.waits) <= 6
    ensures forall i :: 0 <= i < r.attempts - 1 ==> trial(i).Failed?
    ensures r.response.Success? ==> trial(r.attempts - 1) == Succeeded(r.response.value)
    ensures r.response.Failure? ==> trial(r.attempts - 1) == Failed(r.response.error)
    ensures forall i :: 0 <= i < r.attempts - 1 ==>
              && Transient(provider, trial(i))
              && ClassifyRankingFailure(provider, trial(i).error, i) == RetryAfter(Backoff(i))
    ensures r.response.Failure? ==> ClassifyRankingFailure(provider, r.response.error, r.attempts - 1).GiveUp?
  {
    var classify := RankingClassifier(provider);
    RankingClassifierIsBounded(provider);
    NeverFallsThrough(classify, trial);
    WaitSchedule(classify, trial);
    var run := RunRetry(classify, trial);
    forall i | 0 <= i < run.attempts - 1
      ensures Transient(provider, trial(i))
      ensures ClassifyRankingFailure(provider, trial(i).error, i) == RetryAfter(Backoff(i))
    {
      assert trial(0 + i).Failed? && classify(trial(0 + i).error, 0 + i) == RetryAfter(run.waits[i]);
      RankingRetryable(provider, trial(i).error, i);
    }
    match run.end
    case Done(v) => Ranked(Success(v), run.waits, run.attempts)
    case Stopped(e) =>
      RankingRetryable(provider, trial(run.attempts - 1).error, run.attempts - 1);
      Ranked(Failure(e), run.waits, run.attempts)
  }

  /** A first attempt that succeeds is the response, with no wait. */
  lemma FirstResponseKept(provider: string, trial: nat -> Attempt<string>)
    requires trial(0).Succeeded?
    ensures GenerateRanking(provider, trial) == Ranked(Success(trial(0).value), [], 1)
  {
    FirstSuccessStops(RankingClassifier(provider), trial);
  }

  /** A fatal Gemini error is re-raised on the first attempt, without
      waiting. */
  lemma GeminiFatalIsImmediate(trial: nat -> Attempt<string>)
    requires trial(0).Failed? && IsGeminiFatal("gemini", trial(0).error)
    ensures GenerateRanking("gemini", trial) == Ranked(Failure(trial(0).error), [], 1)
  {
    assert RankingClassifier("gemini")(trial(0).error, 0) == GiveUp(trial(0).error);
  }

  /** OpenAI's insufficient quota is re-raised on the first attempt. */
  lemma InsufficientQuotaIsImmediate(trial: nat -> Attempt<string>)
    requires trial(0).Failed? && IsInsufficientQuota("openai", trial(0).error)
    ensures GenerateRanking("openai", trial) == Ranked(Failure(trial(0).error), [], 1)
  {
    assert RankingClassifier("openai")(trial(0).error, 0) == GiveUp(trial(0).error);
  }

  /** A failure the classifier retries. */
  predicate Transient(provider: string, a: Attempt<string>) {
    a.Failed? && !IsInsufficientQuota(provider, a.error) && !IsGeminiFatal(provider, a.error)
  }

  /** Two transient failures followed by a response: the third attempt's
      response, after waiting 2 and 4 seconds. */
  lemma {:induction false} RecoversOnLastAttempt(provider: string, trial: nat -> Attempt<string>)
    requires Transient(provider, trial(0)) && Transient(provider, trial(1))
    requires trial(2).Succeeded?
    ensures GenerateRanking(provider, trial) == Ranked(Success(trial(2).value), [2, 4], 3)
  {
    var classify := RankingClassifier(provider);
    RankingRetryable(provider, trial(0).error, 0);
    RankingRetryable(provider, trial(1).error, 1);
    assert classify(trial(0).error, 0) == RetryAfter(2);
    assert classify(trial(1).error, 1) == RetryAfter(4);
    assert RunFrom(classify, trial, 2) == Run(Done(trial(2).value), [], 3);
    assert RunFrom(classify, trial, 1) == Run(Done(trial(2).value), [4], 3);
    assert RunFrom(classify, trial, 0) == Run(Done(trial(2).value), [2, 4], 3);
  }

  /** Three transient failures: the third one is re-raised after waiting
      2 and 4 seconds. */
  lemma {:induction false} ExhaustedRaisesLast(provider: string, trial: nat -> Attempt<string>)
    requires Transient(provider, trial(0)) && Transient(provider, trial(1)) && Transient(provider, trial(2))
    ensures GenerateRanking(provider, trial) == Ranked(Failure(trial(2).error), [2, 4], 3)
  {
    var classify := RankingClassifier(provider);
    RankingRetryable(provider, trial(0).error, 0);
    RankingRetryable(provider, trial(1).error, 1);
    RankingRetryable(provider, trial(2).error, 2);
    assert classify(trial(0).error, 0) == RetryAfter(2);
    assert classify(trial(1).error, 1) == RetryAfter(4);
    assert classify(trial(2).error, 2) == GiveUp(trial(2).error);
    assert RunFrom(classify, trial, 2) == Run(Stopped(trial(2).error), [], 3);
    assert RunFrom(classify, trial, 1) == Run(Stopped(trial(2).error), [4], 3);
    assert RunFrom(classify, trial, 0) == Run(Stopped(trial(2).error), [2, 4], 3);
  }
}

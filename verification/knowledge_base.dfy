/** The retrieval service of mcp_server.py: the two remote-callable
    operations `update_knowledge_base` and `query_rag` over the process-wide
    vector index.

    The index is an explicit value instead of a global: `None` before the
    first successful ingestion, then the fragments it holds, in insertion
    order. Vectors, the splitter's chunk boundaries and FAISS's similarity
    ranking are not modelled: the splitter, each embedding attempt and the
    ranking are given as parameters. */
module KnowledgeBase {
  import opened Wrappers
  import opened Strings
  import opened Retry
  import opened PaperSources

  /** A chunk of an enriched document, carrying its parent's metadata. */
  datatype Fragment = Fragment(text: string, metadata: Metadata)

  /** The global `vector_db`: absent, or the fragments indexed so far. */
  type Index = Option<seq<Fragment>>

  /** `RecursiveCharacterTextSplitter(chunk_size=1000, chunk_overlap=100)`. */
  const ChunkSize: nat := 1000
  const ChunkOverlap: nat := 100

  /** `similarity_search(question, k=5)`. */
  const TopK: nat := 5

  /** `split_documents(docs)` for a chunk size and overlap: the fragments,
      or the message of the exception it raised. */
  type Splitter = (seq<Document>, nat, nat) -> Result<seq<Fragment>, string>

  const ProviderVar: string := "EMBEDDING_PROVIDER"

  // ================================================================ configuration

  /** The provider `get_embeddings` builds: `EMBEDDING_PROVIDER`, default "local". */
  function EmbeddingsTag(env: Env): string {
    Lower(Get(env, ProviderVar, "local"))
  }

  /** The provider `update_knowledge_base` classifies failures by: the same
      variable, but with default "openai". */
  function ClassifierTag(env: Env): string {
    Lower(Get(env, ProviderVar, "openai"))
  }

  /** The two readings agree whenever the variable is set; when it is not,
      failures of the local embedder are classified as OpenAI's. */
  lemma ProviderDefaultsDiffer(env: Env)
    ensures ProviderVar in env ==> ClassifierTag(env) == EmbeddingsTag(env)
    ensures ProviderVar !in env ==> ClassifierTag(env) == "openai" && EmbeddingsTag(env) == "local"
  {
  }

  datatype Embeddings = OpenAIEmbeddings | GoogleEmbeddings | OllamaEmbeddings

  const MissingEmbeddingsKeyMessage: string := "GOOGLE_API_KEY not found in .env"

  function UnsupportedEmbeddingsMessage(provider: string): string {
    "EMBEDDING_PROVIDER '" + provider + "' not supported. Use: 'openai', 'gemini', or 'local'"
  }

  /** `get_embeddings()`: the configured embeddings model, or the message of
      the `ValueError` it raises. */
  function GetEmbeddings(env: Env): (r: Result<Embeddings, string>)
    ensures r.Success? <==>
              || EmbeddingsTag(env) == "openai" || EmbeddingsTag(env) == "local"
              || (EmbeddingsTag(env) == "gemini" && Get(env, "GOOGLE_API_KEY", "") != "")
    ensures r.Success? ==> (r.value == OpenAIEmbeddings <==> EmbeddingsTag(env) == "openai")
    ensures r.Success? ==> (r.value == GoogleEmbeddings <==> EmbeddingsTag(env) == "gemini")
    ensures r.Success? ==> (r.value == OllamaEmbeddings <==> EmbeddingsTag(env) == "local")
    ensures EmbeddingsTag(env) == "gemini" && r.Failure? ==> r.error == MissingEmbeddingsKeyMessage
  {
    var provider := EmbeddingsTag(env);
    if provider == "openai" then Success(OpenAIEmbeddings)
    else if provider == "gemini" then
      if Get(env, "GOOGLE_API_KEY", "") == "" then Failure(MissingEmbeddingsKeyMessage)
      else Success(GoogleEmbeddings)
    else if provider == "local" then Success(OllamaEmbeddings)
    else Failure(UnsupportedEmbeddingsMessage(provider))
  }

  /** With `EMBEDDING_PROVIDER` unset the local Ollama embedder is chosen. */
  lemma GetEmbeddingsDefault(env: Env)
    requires ProviderVar !in env
    ensures GetEmbeddings(env) == Success(OllamaEmbeddings)
  {
    assert Lower("local") == "local";
  }

  /** Any provider other than the three known ones is rejected, naming it. */
  lemma UnsupportedEmbeddingsRejected(env: Env)
    requires EmbeddingsTag(env) != "openai" && EmbeddingsTag(env) != "gemini" && EmbeddingsTag(env) != "local"
    ensures GetEmbeddings(env) == Failure(UnsupportedEmbeddingsMessage(EmbeddingsTag(env)))
  {
  }

  // ================================================================ request parsing

  /** `[s.strip().lower() for s in sources.split(",")]`. */
  function ParseSources(sources: string): (r: seq<string>)
    ensures |r| == Count(sources, ',') + 1
    ensures forall i :: 0 <= i < |r| ==> IsLower(r[i]) && ',' !in r[i]
    ensures forall i :: 0 <= i < |r| ==> Unpadded(r[i])
  {
    var pieces := Split(sources, ',');
    SplitCount(sources, ',');
    var r := seq(|pieces|, i requires 0 <= i < |pieces| => NormalizeSource(pieces[i]));
    forall i | 0 <= i < |r|
      ensures IsLower(r[i]) && ',' !in r[i]
      ensures Unpadded(r[i])
    {
      assert r[i] == NormalizeSource(pieces[i]);
    }
    r
  }

  /** One requested source id, stripped and lower-cased: the lower case of
      the slice of `piece` left once the spaces around it are dropped. */
  function NormalizeSource(piece: string): (r: string)
    ensures IsLower(r)
    ensures ',' !in piece ==> ',' !in r
    ensures Unpadded(r)
    ensures exists i :: 0 <= i <= |piece| - |r| && NormalizesAt(piece, r, i)
  {
    NormalizeSourceFacts(piece);
    Lower(Strip(piece))
  }

  lemma NormalizeSourceFacts(piece: string)
    ensures IsLower(Lower(Strip(piece)))
    ensures ',' !in piece ==> ',' !in Lower(Strip(piece))
    ensures Unpadded(Lower(Strip(piece)))
    ensures exists i :: 0 <= i <= |piece| - |Lower(Strip(piece))| && NormalizesAt(piece, Lower(Strip(piece)), i)
  {
    var t := Strip(piece);
    LowerIsLower(t);
    LowerKeepsComma(piece, t);
    LowerKeepsUnpadded(t);
    LowerOfTrimmedSlice(piece, t);
  }

  lemma LowerKeepsComma(piece: string, t: string)
    requires forall c :: c in t ==> c in piece
    ensures ',' !in piece ==> ',' !in Lower(t)
  {
    if ',' in Lower(t) {
      var k :| 0 <= k < |t| && Lower(t)[k] == ',';
      assert t[k] == ',';
    }
  }

  lemma LowerOfTrimmedSlice(piece: string, t: string)
    requires exists i :: 0 <= i <= |piece| - |t| && IsTrimmedSlice(piece, t, i)
    ensures exists i :: 0 <= i <= |piece| - |Lower(t)| && NormalizesAt(piece, Lower(t), i)
  {
    var i :| 0 <= i <= |piece| - |t| && IsTrimmedSlice(piece, t, i);
    assert NormalizesAt(piece, Lower(t), i);
  }

  /** `r` is the lower case of `piece[i..i + |r|]`, and everything of
      `piece` around that slice is space. */
  predicate NormalizesAt(piece: string, r: string, i: nat) {
    i + |r| <= |piece| && IsTrimmedSlice(piece, piece[i..i + |r|], i) && r == Lower(piece[i..i + |r|])
  }

  /** A source id that is already stripped, lower case and comma-free. */
  predicate IsCanonicalSource(id: string) {
    && IsLower(id) && ',' !in id
    && Unpadded(id)
  }

  /** Comma-free ids joined with commas parse to the ids themselves,
      each stripped and lower-cased, in order. */
  lemma ParseJoinedSources(ids: seq<string>)
    requires |ids| >= 1
    requires forall i :: 0 <= i < |ids| ==> ',' !in ids[i]
    ensures |ParseSources(Join(ids, ","))| == |ids|
    ensures forall i :: 0 <= i < |ids| ==> ParseSources(Join(ids, ","))[i] == Lower(Strip(ids[i]))
  {
    var joined := Join(ids, ",");
    SplitJoin(ids, ',');
    ParseSourcesLength(joined);
    forall i | 0 <= i < |ids|
      ensures ParseSources(joined)[i] == Lower(Strip(ids[i]))
    {
      ParseSourcesAt(joined, i);
    }
  }

  lemma ParseSourcesLength(sources: string)
    ensures |ParseSources(sources)| == |Split(sources, ',')|
  {
  }

  lemma ParseSourcesAt(sources: string, i: nat)
    requires i < |Split(sources, ',')|
    ensures i < |ParseSources(sources)|
    ensures ParseSources(sources)[i] == Lower(Strip(Split(sources, ',')[i]))
  {
  }

  /** Canonical ids joined with commas parse back to themselves. */
  lemma ParseCanonicalSources(ids: seq<string>)
    requires |ids| >= 1
    requires forall i :: 0 <= i < |ids| ==> IsCanonicalSource(ids[i])
    ensures ParseSources(Join(ids, ",")) == ids
  {
    ParseJoinedSources(ids);
    var r := ParseSources(Join(ids, ","));
    forall i | 0 <= i < |ids|
      ensures r[i] == ids[i]
    {
      assert Strip(ids[i]) == ids[i];
    }
  }

  /** `max(1, max_papers // len(source_list))`. Python's floor division and
      Dafny's division agree for the positive divisor used here. */
  function MaxPerSource(maxPapers: int, count: nat): (r: int)
    requires count >= 1
    ensures r >= 1
    ensures maxPapers >= count ==> r * count <= maxPapers < (r + 1) * count
    ensures maxPapers < count ==> r == 1
  {
    var share := maxPapers / count;
    if share >= 1 then share else 1
  }

  /** Fifteen papers over "a,b" allow seven per source. */
  lemma FifteenOverTwoSources()
    ensures MaxPerSource(15, |ParseSources("a,b")|) == 7
  {
    assert Count("a,b", ',') == 1 by {
      assert "a,b"[1..] == ",b" && ",b"[1..] == "b" && "b"[1..] == "";
    }
  }

  /** The defaults of `update_knowledge_base`: ten papers from both sources. */
  const DefaultMaxPapers: int := 10
  const DefaultSources: string := "arxiv,semantic_scholar"

  /** A request left at its defaults searches ArXiv, then Semantic Scholar,
      five papers each. */
  lemma DefaultRequest()
    ensures ParseSources(DefaultSources) == ["arxiv", "semantic_scholar"]
    ensures MaxPerSource(DefaultMaxPapers, |ParseSources(DefaultSources)|) == 5
  {
    var ids := ["arxiv", "semantic_scholar"];
    DefaultSourcesJoined();
    CanonicalSource("arxiv");
    CanonicalSource("semantic_scholar");
    ParseCanonicalSources(ids);
  }

  lemma DefaultSourcesJoined()
    ensures Join(["arxiv", "semantic_scholar"], ",") == DefaultSources
  {
    var ids := ["arxiv", "semantic_scholar"];
    assert ids[1..] == ["semantic_scholar"];
  }

  /** A lower-case id of letters and underscores is canonical. */
  lemma CanonicalSource(id: string)
    requires forall i :: 0 <= i < |id| ==> 'a' <= id[i] <= 'z' || id[i] == '_'
    ensures IsCanonicalSource(id)
  {
  }

  // ================================================================ embedding with retry

  /** Every failure report the tool returns begins with "Error". */
  function ErrorReport(rest: string): (r: string)
    ensures StartsWith(r, "Error")
  {
    "Error" + rest
  }

  const QuotaExceededMessage: string :=
    ErrorReport(": OpenAI quota exceeded. Check: https://platform.openai.com/account/billing or use EMBEDDING_PROVIDER=gemini/local")
  const InsufficientQuotaMessage: string :=
    ErrorReport(": Insufficient quota. Add credits or use EMBEDDING_PROVIDER=gemini/local")

  function RateLimitMessage(provider: string, details: string): string {
    ErrorReport(": Rate limit or quota exceeded for " + provider + ". Details: " + details)
  }

  function EmbeddingErrorMessage(details: string): string {
    ErrorReport(" creating embeddings: " + details)
  }

  /** OpenAI's own `RateLimitError`, which the loop treats before any text
      matching. */
  predicate IsOpenAIRateLimit(provider: string, e: ProviderError) {
    provider == "openai" && e.kind == RateLimitError
  }

  /** The except-branch of the embedding loop: what a failure on `attempt`
      leads to; a give-up carries the string the tool returns. On the last
      attempt that string depends on which test the error meets first. */
  function ClassifyEmbedFailure(provider: string, e: ProviderError, attempt: nat): (r: Decision<string>)
    ensures r.RetryAfter? ==> attempt < LastAttempt && r.wait == Backoff(attempt)
    ensures r.GiveUp? ==> StartsWith(r.failure, "Error")
    ensures attempt < LastAttempt && !IsInsufficientQuota(provider, e) ==> r.RetryAfter?
    ensures IsInsufficientQuota(provider, e) ==> r == GiveUp(InsufficientQuotaMessage)
    ensures attempt >= LastAttempt && IsOpenAIRateLimit(provider, e) ==> r == GiveUp(QuotaExceededMessage)
    ensures attempt >= LastAttempt && !IsOpenAIRateLimit(provider, e) && !IsInsufficientQuota(provider, e) ==>
              (IsRateLimitText(Lower(e.message)) ==> r == GiveUp(RateLimitMessage(provider, e.message)))
              && (!IsRateLimitText(Lower(e.message)) ==> r == GiveUp(EmbeddingErrorMessage(e.message)))
  {
    var errorText := Lower(e.message);
    var attemptsLeft := attempt < LastAttempt;
    if IsOpenAIRateLimit(provider, e) then
      if attemptsLeft then RetryAfter(Backoff(attempt)) else GiveUp(QuotaExceededMessage)
    else if IsInsufficientQuota(provider, e) then
      GiveUp(InsufficientQuotaMessage)
    else if IsRateLimitText(errorText) then
      if attemptsLeft then RetryAfter(Backoff(attempt)) else GiveUp(RateLimitMessage(provider, e.message))
    else
      if attemptsLeft then RetryAfter(Backoff(attempt)) else GiveUp(EmbeddingErrorMessage(e.message))
  }

  function EmbedClassifier(provider: string): (ProviderError, nat) -> Decision<string> {
    (e: ProviderError, a: nat) => ClassifyEmbedFailure(provider, e, a)
  }

  /** Before the last attempt every failure is retried except OpenAI's
      insufficient quota; on the last attempt nothing is. */
  lemma EmbedRetryable(provider: string, e: ProviderError, attempt: nat)
    ensures attempt < LastAttempt ==>
              (ClassifyEmbedFailure(provider, e, attempt).RetryAfter? <==> !IsInsufficientQuota(provider, e))
    ensures attempt >= LastAttempt ==> ClassifyEmbedFailure(provider, e, attempt).GiveUp?
    ensures ClassifyEmbedFailure(provider, e, attempt).RetryAfter? ==>
              ClassifyEmbedFailure(provider, e, attempt).wait == Backoff(attempt)
  {
  }

  /** Every message the embedding loop gives up with is an error report. */
  lemma EmbedGiveUpIsError(provider: string)
    ensures forall e, attempt :: ClassifyEmbedFailure(provider, e, attempt).GiveUp? ==>
              StartsWith(ClassifyEmbedFailure(provider, e, attempt).failure, "Error")
  {
  }

  lemma EmbedClassifierIsBounded(provider: string)
    ensures BacksOff(EmbedClassifier(provider))
    ensures LastAttemptGivesUp(EmbedClassifier(provider))
  {
    forall e, a ensures EmbedClassifier(provider)(e, a) == ClassifyEmbedFailure(provider, e, a) {}
    forall e, a { EmbedRetryable(provider, e, a); }
  }

  /** The embedding loop: at most three attempts, waits of 2 then 4 seconds
      and never after the last one, and no way to leave it except a
      successful attempt or a returned error. */
  function EmbedWithRetry(provider: string, trial: nat -> Attempt<()>): (run: Run<(), string>)
    ensures !run.end.FellThrough?
    ensures 1 <= run.attempts <= MaxRetries && |run.waits| == run.attempts - 1
    ensures run.waits == [2, 4][..|run.waits|] && Sum(run.waits) <= 6
    ensures run.end.Done? ==> trial(run.attempts - 1).Succeeded?
    ensures run.end.Stopped? ==> trial(run.attempts - 1).Failed? && StartsWith(run.end.failure, "Error")
    ensures forall i :: 0 <= i < run.attempts - 1 ==>
              trial(i).Failed? && ClassifyEmbedFailure(provider, trial(i).error, i) == RetryAfter(Backoff(i))
    ensures run.end.Stopped? ==>
              ClassifyEmbedFailure(provider, trial(run.attempts - 1).error, run.attempts - 1) == GiveUp(run.end.failure)
  {
    var classify := EmbedClassifier(provider);
    EmbedClassifierIsBounded(provider);
    NeverFallsThrough(classify, trial);
    WaitSchedule(classify, trial);
    EmbedGiveUpIsError(provider);
    EmbedRunRetried(provider, trial);
    RunRetry(classify, trial)
  }

  /** Each attempt of the embedding loop before its last failed and was
      retried with the backoff. */
  lemma EmbedRunRetried(provider: string, trial: nat -> Attempt<()>)
    ensures var run := RunRetry(EmbedClassifier(provider), trial);
            forall i :: 0 <= i < run.attempts - 1 ==>
              trial(i).Failed? && ClassifyEmbedFailure(provider, trial(i).error, i) == RetryAfter(Backoff(i))
  {
    var classify := EmbedClassifier(provider);
    var run := RunRetry(classify, trial);
    NeverFallsThrough(classify, trial) by { EmbedClassifierIsBounded(provider); }
    forall i | 0 <= i < run.attempts - 1
      ensures trial(i).Failed? && ClassifyEmbedFailure(provider, trial(i).error, i) == RetryAfter(Backoff(i))
    {
      assert trial(0 + i).Failed? && classify(trial(0 + i).error, 0 + i) == RetryAfter(run.waits[i]);
    }
  }

  /** OpenAI's insufficient quota stops the loop on the spot. */
  lemma InsufficientQuotaIsImmediate(trial: nat -> Attempt<()>)
    requires trial(0).Failed? && IsInsufficientQuota("openai", trial(0).error)
    ensures EmbedWithRetry("openai", trial) == Run(Stopped(InsufficientQuotaMessage), [], 1)
  {
  }

  /** An OpenAI rate limit that persists through all attempts ends with the
      quota message, after waiting 2 and 4 seconds. */
  lemma OpenAIRateLimitExhausted(trial: nat -> Attempt<()>)
    requires forall i :: 0 <= i < MaxRetries ==> trial(i).Failed? && trial(i).error.kind == RateLimitError
    ensures EmbedWithRetry("openai", trial) == Run(Stopped(QuotaExceededMessage), [2, 4], 3)
  {
    assert trial(0).Failed? && trial(1).Failed? && trial(2).Failed?;
  }

  /** A rate limit recognised only by its text (any provider's, OpenAI's
      included when it is not a `RateLimitError`) that persists through all
      attempts is reported with the last error's text, after waiting 2 and
      4 seconds. */
  lemma PersistentRateLimit(provider: string, trial: nat -> Attempt<()>)
    requires forall i :: 0 <= i < MaxRetries ==>
               && trial(i).Failed? && IsRateLimitText(Lower(trial(i).error.message))
               && !IsOpenAIRateLimit(provider, trial(i).error) && !IsInsufficientQuota(provider, trial(i).error)
    ensures EmbedWithRetry(provider, trial)
         == Run(Stopped(RateLimitMessage(provider, trial(2).error.message)), [2, 4], 3)
  {
    assert trial(0).Failed? && trial(1).Failed? && trial(2).Failed?;
  }

  /** An ordinary error (a refused connection, say) on every attempt is
      reported as an embedding error with the last error's text, after
      waiting 2 and 4 seconds. */
  lemma PersistentErrorReported(provider: string, trial: nat -> Attempt<()>)
    requires forall i :: 0 <= i < MaxRetries ==>
               && trial(i).Failed? && !IsRateLimitText(Lower(trial(i).error.message))
               && !IsOpenAIRateLimit(provider, trial(i).error) && !IsInsufficientQuota(provider, trial(i).error)
    ensures EmbedWithRetry(provider, trial)
         == Run(Stopped(EmbeddingErrorMessage(trial(2).error.message)), [2, 4], 3)
  {
    assert trial(0).Failed? && trial(1).Failed? && trial(2).Failed?;
  }

  /** A transient failure followed by success indexes after one wait. */
  lemma RecoversAfterOneFailure(provider: string, trial: nat -> Attempt<()>)
    requires trial(0).Failed? && !IsInsufficientQuota(provider, trial(0).error)
    requires trial(1).Succeeded?
    ensures EmbedWithRetry(provider, trial) == Run(Done(()), [2], 2)
  {
    var classify := EmbedClassifier(provider);
    EmbedRetryable(provider, trial(0).error, 0);
    assert classify(trial(0).error, 0) == RetryAfter(2);
    assert trial(1).value == ();
    assert RunFrom(classify, trial, 1) == Run(Done(()), [], 2);
    assert RunFrom(classify, trial, 0) == Run(Done(()), [2], 2);
  }

  // ================================================================ the index

  /** The fragments an index holds. */
  function Entries(index: Index): seq<Fragment> {
    index.GetOr([])
  }

  /** `FAISS.from_documents` on an absent index, `add_documents` otherwise. */
  function Grow(index: Index, fragments: seq<Fragment>): (r: Index)
    ensures r.Some?
    ensures Entries(r) == Entries(index) + fragments
  {
    match index
    case None => Some(fragments)
    case Some(entries) => Some(entries + fragments)
  }

  // ================================================================ update_knowledge_base

  /** Everything outside the model that an ingestion consults. */
  datatype Services = Services(
    adapters: Adapters,
    splitter: Splitter,
    embedTrial: nat -> Attempt<()>,
    env: Env)

  /** What an ingestion returns to its caller, the index it leaves behind
      and the waits it slept. */
  datatype Ingestion = Ingestion(report: string, index: Index, waits: seq<nat>)

  // The report texts are built from a short head ("No papers", "Success!")
  // and the rest, so that proofs about how a report begins stay cheap.
  function NothingFoundMessage(sources: string): string {
    "No papers" + " found in the sources " + sources + " for this theme."
  }

  function ProcessingErrorMessage(details: string): string {
    ErrorReport(" processing papers: " + details)
  }

  function SuccessMessage(papers: nat): string {
    "Success!" + " " + NatToString(papers) + " papers were indexed in the RAG."
  }

  predicate IsSuccessReport(report: string) {
    StartsWith(report, "Success!")
  }

  /** The raw documents an ingestion request finds: each one was contributed
      by a known source the request names. */
  function RawDocuments(svc: Services, topic: string, maxPapers: int, sources: string): (r: seq<Document>)
    ensures forall d :: d in r ==>
              exists i :: && 0 <= i < |ParseSources(sources)| && IsKnownSource(ParseSources(sources)[i])
                          && d in Dispatch(svc.adapters, topic, ParseSources(sources)[i], MaxPerSource(maxPapers, |ParseSources(sources)|))
  {
    var sourceList := ParseSources(sources);
    SearchAllSources(svc.adapters, topic, sourceList, MaxPerSource(maxPapers, |sourceList|))
  }

  /** The part of `update_knowledge_base` after the search, on the raw
      documents it found. The outer `except Exception` becomes the two
      `ProcessingErrorMessage` branches: the splitter and `get_embeddings`
      are the steps that can raise. The last branch is the `return` after a
      loop that ran out without `break`, kept as written. */
  function IngestDocuments(svc: Services, index: Index, rawDocs: seq<Document>, sources: string): (r: Ingestion)
    ensures Entries(index) <= Entries(r.index)
    ensures index.Some? ==> r.index.Some?
    ensures |r.waits| <= MaxRetries - 1 && Sum(r.waits) <= 6
    ensures r.waits == [2, 4][..|r.waits|]
  {
    if |rawDocs| == 0 then Ingestion(NothingFoundMessage(sources), index, [])
    else
      match svc.splitter(EnrichDocuments(rawDocs), ChunkSize, ChunkOverlap)
      case Failure(details) => Ingestion(ProcessingErrorMessage(details), index, [])
      case Success(fragments) =>
        var provider := ClassifierTag(svc.env);
        match GetEmbeddings(svc.env)
        case Failure(details) => Ingestion(ProcessingErrorMessage(details), index, [])
        case Success(_) =>
          var run := EmbedWithRetry(provider, svc.embedTrial);
          var success := SuccessMessage(|rawDocs|);
          match run.end
          case Done(_) => Ingestion(success, Grow(index, fragments), run.waits)
          case Stopped(message) => Ingestion(message, index, run.waits)
          case FellThrough => Ingestion(success, index, run.waits)
  }

  /** `update_knowledge_base(tema, max_papers, sources)`: the search, then
      the ingestion of what it found. */
  function UpdateKnowledgeBase(svc: Services, index: Index, topic: string, maxPapers: int, sources: string): (r: Ingestion)
    ensures Entries(index) <= Entries(r.index)
    ensures index.Some? ==> r.index.Some?
    ensures |r.waits| <= MaxRetries - 1 && Sum(r.waits) <= 6
    ensures r.waits == [2, 4][..|r.waits|]
  {
    IngestDocuments(svc, index, RawDocuments(svc, topic, maxPapers, sources), sources)
  }

  /** The ingestion reached the embedding loop and it ended with `break`. */
  predicate Indexed(svc: Services, rawDocs: seq<Document>) {
    && |rawDocs| > 0
    && svc.splitter(EnrichDocuments(rawDocs), ChunkSize, ChunkOverlap).Success?
    && GetEmbeddings(svc.env).Success?
    && EmbedWithRetry(ClassifierTag(svc.env), svc.embedTrial).end.Done?
  }

  /** An empty aggregation reports "nothing found" and changes nothing. */
  lemma NothingFoundKeepsIndex(svc: Services, index: Index, sources: string)
    ensures IngestDocuments(svc, index, [], sources) == Ingestion(NothingFoundMessage(sources), index, [])
  {
  }

  /** A request naming no known source finds nothing. */
  lemma UnknownSourcesFindNothing(svc: Services, index: Index, topic: string, maxPapers: int, sources: string)
    requires forall i :: 0 <= i < |ParseSources(sources)| ==> !IsKnownSource(ParseSources(sources)[i])
    ensures UpdateKnowledgeBase(svc, index, topic, maxPapers, sources).report == NothingFoundMessage(sources)
  {
    var sourceList := ParseSources(sources);
    SearchAllSourcesNoneKnown(svc.adapters, topic, sourceList, MaxPerSource(maxPapers, |sourceList|));
  }

  lemma ReportPrefixes(sources: string, details: string, papers: nat)
    ensures !IsSuccessReport(NothingFoundMessage(sources))
    ensures !IsSuccessReport(ProcessingErrorMessage(details))
    ensures IsSuccessReport(SuccessMessage(papers))
    ensures forall s :: StartsWith(s, "Error") ==> !IsSuccessReport(s)
  {
    var tail := " found in the sources " + sources + " for this theme.";
    assert NothingFoundMessage(sources) == "No papers" + tail;
    StartsWithConcat("No papers", tail, "N");
    StartsWithDiffers(NothingFoundMessage(sources), "N", "Success!");
    StartsWithDiffers(ProcessingErrorMessage(details), "Error", "Success!");
    var rest := " " + NatToString(papers) + " papers were indexed in the RAG.";
    assert SuccessMessage(papers) == "Success!" + rest;
    forall s | StartsWith(s, "Error") ensures !IsSuccessReport(s) {
      StartsWithDiffers(s, "Error", "Success!");
    }
  }

  /** A splitter that raises is reported as a processing error. */
  lemma {:induction false} SplitFailureReported(svc: Services, index: Index, rawDocs: seq<Document>, sources: string)
    requires |rawDocs| > 0
    requires svc.splitter(EnrichDocuments(rawDocs), ChunkSize, ChunkOverlap).Failure?
    ensures var r := IngestDocuments(svc, index, rawDocs, sources);
            StartsWith(r.report, "Error") && r.index == index
    ensures IngestDocuments(svc, index, rawDocs, sources).report
         == ProcessingErrorMessage(svc.splitter(EnrichDocuments(rawDocs), ChunkSize, ChunkOverlap).error)
  {
  }

  /** An embeddings configuration that `get_embeddings` rejects is reported
      as a processing error. */
  lemma {:induction false} ConfigFailureReported(svc: Services, index: Index, rawDocs: seq<Document>, sources: string)
    requires |rawDocs| > 0
    requires svc.splitter(EnrichDocuments(rawDocs), ChunkSize, ChunkOverlap).Success?
    requires GetEmbeddings(svc.env).Failure?
    ensures var r := IngestDocuments(svc, index, rawDocs, sources);
            StartsWith(r.report, "Error") && r.index == index
    ensures IngestDocuments(svc, index, rawDocs, sources).report == ProcessingErrorMessage(GetEmbeddings(svc.env).error)
  {
  }

  /** An embedding loop that gives up returns its error report. */
  lemma {:induction false} EmbedFailureReported(svc: Services, index: Index, rawDocs: seq<Document>, sources: string)
    requires |rawDocs| > 0
    requires svc.splitter(EnrichDocuments(rawDocs), ChunkSize, ChunkOverlap).Success?
    requires GetEmbeddings(svc.env).Success?
    requires !EmbedWithRetry(ClassifierTag(svc.env), svc.embedTrial).end.Done?
    ensures var r := IngestDocuments(svc, index, rawDocs, sources);
            StartsWith(r.report, "Error") && r.index == index
    ensures var r := IngestDocuments(svc, index, rawDocs, sources);
            var run := EmbedWithRetry(ClassifierTag(svc.env), svc.embedTrial);
            run.end.Stopped? && r.report == run.end.failure && r.waits == run.waits
  {
  }

  /** A completed embedding loop reports the number of raw documents and
      appends the fragments to the index. */
  lemma {:induction false} IndexedSucceeds(svc: Services, index: Index, rawDocs: seq<Document>, sources: string)
    requires Indexed(svc, rawDocs)
    ensures var r := IngestDocuments(svc, index, rawDocs, sources);
            && r.report == SuccessMessage(|rawDocs|)
            && r.index == Grow(index, svc.splitter(EnrichDocuments(rawDocs), ChunkSize, ChunkOverlap).value)
            && r.waits == EmbedWithRetry(ClassifierTag(svc.env), svc.embedTrial).waits
  {
  }

  /** "Success!" is reported exactly when the embedding loop broke out after
      a successful attempt, and then the index holds the new fragments after
      the old ones and the count is that of the raw documents; otherwise the
      index is left as it was. */
  lemma {:induction false} SuccessOnlyAfterIndexing(svc: Services, index: Index, rawDocs: seq<Document>, sources: string)
    ensures var r := IngestDocuments(svc, index, rawDocs, sources);
            IsSuccessReport(r.report) <==> Indexed(svc, rawDocs)
    ensures var r := IngestDocuments(svc, index, rawDocs, sources);
            Indexed(svc, rawDocs) ==>
              && r.report == SuccessMessage(|rawDocs|)
              && r.index == Grow(index, svc.splitter(EnrichDocuments(rawDocs), ChunkSize, ChunkOverlap).value)
    ensures var r := IngestDocuments(svc, index, rawDocs, sources);
            !Indexed(svc, rawDocs) ==> r.index == index
  {
    var r := IngestDocuments(svc, index, rawDocs, sources);
    ReportPrefixes(sources, "", |rawDocs|);
    if Indexed(svc, rawDocs) {
      IndexedSucceeds(svc, index, rawDocs, sources);
    } else if |rawDocs| == 0 {
      assert r.report == NothingFoundMessage(sources);
    } else {
      var split := svc.splitter(EnrichDocuments(rawDocs), ChunkSize, ChunkOverlap);
      if split.Failure? {
        SplitFailureReported(svc, index, rawDocs, sources);
      } else if GetEmbeddings(svc.env).Failure? {
        ConfigFailureReported(svc, index, rawDocs, sources);
      } else {
        EmbedFailureReported(svc, index, rawDocs, sources);
      }
      StartsWithDiffers(r.report, "Error", "Success!");
    }
  }

  /** Whatever went wrong, an ingestion that does not report success leaves
      the index as it was. */
  lemma FailureKeepsIndex(svc: Services, index: Index, rawDocs: seq<Document>, sources: string)
    requires !IsSuccessReport(IngestDocuments(svc, index, rawDocs, sources).report)
    ensures IngestDocuments(svc, index, rawDocs, sources).index == index
  {
    SuccessOnlyAfterIndexing(svc, index, rawDocs, sources);
  }

  /** Some character of `s` is not a space. */
  predicate HasText(s: string) {
    exists k :: 0 <= k < |s| && !IsSpace(s[k])
  }

  /** A splitter that, like the real one, cuts a non-empty batch of
      documents that each hold some non-space text into at least one
      fragment. Whitespace-only documents may vanish entirely. */
  ghost predicate SplitsIntoFragments(svc: Services) {
    forall docs: seq<Document> ::
      && |docs| > 0
      && (forall i :: 0 <= i < |docs| ==> HasText(docs[i].content))
      && svc.splitter(docs, ChunkSize, ChunkOverlap).Success?
      ==> |svc.splitter(docs, ChunkSize, ChunkOverlap).value| > 0
  }

  /** Every enriched document holds text: its header begins with "FONTE". */
  lemma EnrichedHasText(rawDocs: seq<Document>)
    ensures forall i :: 0 <= i < |rawDocs| ==> HasText(EnrichDocuments(rawDocs)[i].content)
  {
    forall i | 0 <= i < |rawDocs|
      ensures HasText(EnrichDocuments(rawDocs)[i].content)
    {
      var m := rawDocs[i].metadata;
      ProvenanceBegins(m);
      assert EnrichDocuments(rawDocs)[i].content == Provenance(m) + rawDocs[i].content;
      assert EnrichDocuments(rawDocs)[i].content[0] == 'F';
    }
  }

  /** An index that exists holds at least one fragment. */
  predicate NonEmptyIndex(index: Index) {
    index.None? || |index.value| > 0
  }

  /** An ingestion never leaves an existing but empty index behind. */
  lemma IngestKeepsIndexNonEmpty(svc: Services, index: Index, rawDocs: seq<Document>, sources: string)
    requires SplitsIntoFragments(svc)
    requires NonEmptyIndex(index)
    ensures NonEmptyIndex(IngestDocuments(svc, index, rawDocs, sources).index)
  {
    SuccessOnlyAfterIndexing(svc, index, rawDocs, sources);
    if Indexed(svc, rawDocs) {
      var docs := EnrichDocuments(rawDocs);
      EnrichedHasText(rawDocs);
      assert |docs| > 0 && svc.splitter(docs, ChunkSize, ChunkOverlap).Success?;
    }
  }

  /** The same for a whole `update_knowledge_base` request. */
  lemma UpdateKeepsIndexNonEmpty(svc: Services, index: Index, topic: string, maxPapers: int, sources: string)
    requires SplitsIntoFragments(svc)
    requires NonEmptyIndex(index)
    ensures NonEmptyIndex(UpdateKnowledgeBase(svc, index, topic, maxPapers, sources).index)
  {
    IngestKeepsIndexNonEmpty(svc, index, RawDocuments(svc, topic, maxPapers, sources), sources);
  }

  function Size(index: Index): nat {
    |Entries(index)|
  }

  /** Ingesting twice never shrinks the index. */
  lemma RepeatedIngestionGrows(svc1: Services, svc2: Services, index: Index, topic: string, maxPapers: int, sources: string)
    ensures var first := UpdateKnowledgeBase(svc1, index, topic, maxPapers, sources).index;
            var second := UpdateKnowledgeBase(svc2, first, topic, maxPapers, sources).index;
            Size(index) <= Size(first) <= Size(second)
  {
  }

  // ================================================================ query_rag

  const EmptyKnowledgeBaseMessage: string := "The knowledge base is empty. Use 'update_knowledge_base' first."

  /** FAISS's similarity ordering of the indexed fragments for a question,
      best first, or the message of the exception raised while embedding the
      question. */
  type Ranker = (seq<Fragment>, string) -> Result<seq<Fragment>, string>

  /** The block one retrieved fragment contributes to the context. */
  function Frame(f: Fragment): string {
    "\n---\n" + f.text + "\n"
  }

  /** The context string built by the loop over the results: empty exactly
      when nothing was retrieved. */
  function Context(results: seq<Fragment>): (r: string)
    ensures r == "" <==> |results| == 0
  {
    if |results| == 0 then "" else Context(results[..|results| - 1]) + Frame(results[|results| - 1])
  }

  /** A ranking that orders fragments of the index, each at most as often
      as the index holds it. */
  predicate RanksFrom(entries: seq<Fragment>, ranking: seq<Fragment>) {
    multiset(ranking) <= multiset(entries)
  }

  /** `similarity_search(question, k)`: the `k` best-ranked indexed
      fragments, or all of them when the index holds fewer. */
  function SimilaritySearch(entries: seq<Fragment>, ranking: seq<Fragment>, k: nat): (r: seq<Fragment>)
    requires RanksFrom(entries, ranking)
    ensures r <= ranking
    ensures |r| == (if |ranking| < k then |ranking| else k)
    ensures RanksFrom(entries, r)
    ensures |r| <= k && |r| <= |entries|
  {
    var r := if |ranking| < k then ranking else ranking[..k];
    assert ranking == r + ranking[|r|..];
    assert multiset(ranking) == multiset(r) + multiset(ranking[|r|..]);
    SubMultisetSize(multiset(r), multiset(entries));
    r
  }

  /** A sub-multiset is no larger. */
  lemma {:induction false} SubMultisetSize<T>(a: multiset<T>, b: multiset<T>)
    requires a <= b
    ensures |a| <= |b|
    decreases |a|
  {
    if |a| > 0 {
      var x :| x in a;
      SubMultisetSize(a - multiset{x}, b - multiset{x});
    }
  }

  /** Whether FAISS's ranking for `question`, when it has one, orders
      fragments of the index. */
  predicate RanksIndex(index: Index, question: string, rank: Ranker) {
    index.Some? && rank(index.value, question).Success? ==> RanksFrom(index.value, rank(index.value, question).value)
  }

  /** `query_rag(question)`. */
  function QueryRag(index: Index, question: string, rank: Ranker): (r: string)
    requires RanksIndex(index, question, rank)
    ensures index.None? ==> r == EmptyKnowledgeBaseMessage
    ensures index.Some? && rank(index.value, question).Failure? ==>
              r == "Error querying RAG: " + rank(index.value, question).error
    ensures index.Some? && rank(index.value, question).Success? ==>
              var ranking := rank(index.value, question).value;
              && (|ranking| <= TopK ==> r == Context(ranking))
              && (|ranking| > TopK ==> r == Context(ranking[..TopK]))
    ensures index.Some? && rank(index.value, question).Success? ==>
              exists results :: && r == Context(results) && RanksFrom(index.value, results)
                                && |results| <= TopK && |results| <= |index.value|
  {
    match index
    case None => EmptyKnowledgeBaseMessage
    case Some(entries) =>
      match rank(entries, question)
      case Failure(details) => "Error querying RAG: " + details
      case Success(ranking) =>
        assert |ranking| == TopK ==> ranking[..TopK] == ranking;
        var results := SimilaritySearch(entries, ranking, TopK);
        assert RanksFrom(entries, results);
        Context(results)
  }

  /** Concatenation of contexts is the context of the concatenation. */
  lemma {:induction false} ContextAppend(a: seq<Fragment>, b: seq<Fragment>)
    ensures Context(a + b) == Context(a) + Context(b)
    decreases |b|
  {
    if |b| == 0 {
      assert a + b == a;
    } else {
      var init, last := b[..|b| - 1], b[|b| - 1];
      ContextAppend(a, init);
      assert (a + b)[..|a + b| - 1] == a + init;
      assert (a + b)[|a + b| - 1] == last;
      assert Context(a + b) == Context(a + init) + Frame(last);
      assert Context(b) == Context(init) + Frame(last);
    }
  }

  /** The `i`-th block of the context is the `i`-th result: ranked order is
      kept, each fragment text appears whole between delimiters. */
  lemma {:induction false} ContextBlock(results: seq<Fragment>, i: nat)
    requires i < |results|
    ensures Context(results) == Context(results[..i]) + Frame(results[i]) + Context(results[i + 1..])
  {
    var before, here, after := results[..i], [results[i]], results[i + 1..];
    assert results == (before + here) + after;
    ContextAppend(before + here, after);
    ContextAppend(before, here);
    assert Context(here) == Frame(results[i]) by {
      assert here[..0] == [];
    }
  }

  /** The context is the fragment texts plus six delimiter characters each. */
  lemma {:induction false} ContextLength(results: seq<Fragment>)
    ensures |Context(results)| == TextLength(results) + 6 * |results|
  {
    if |results| > 0 {
      ContextLength(results[..|results| - 1]);
      TextLengthLast(results);
    }
  }

  function TextLength(results: seq<Fragment>): nat {
    if |results| == 0 then 0 else |results[0].text| + TextLength(results[1..])
  }

  lemma {:induction false} TextLengthLast(results: seq<Fragment>)
    requires |results| > 0
    ensures TextLength(results) == TextLength(results[..|results| - 1]) + |results[|results| - 1].text|
  {
    if |results| > 1 {
      TextLengthLast(results[1..]);
      assert results[1..][..|results| - 2] == results[..|results| - 1][1..];
    }
  }
}

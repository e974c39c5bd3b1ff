# papersthisweek — a Dafny model of the ingestion, retrieval and ranking logic

papersthisweek is a weekly "top papers" pipeline. An MCP server (mcp_server.py)
exposes two tools. `update_knowledge_base` fetches recent papers from ArXiv and
Semantic Scholar (paper_sources.py), prefixes each with a provenance header,
chunks and embeds them into an in-memory FAISS index, and retries the embedding
call with exponential backoff. `query_rag` returns up to five best-matching
fragments as one context string. A client (main.py) calls both tools and asks a
chat model, chosen by `get_llm`, for a ranking, with a retry loop of its own.

The model covers the deterministic part of that pipeline:

- `PaperSources` (paper_sources.dfy): the ArXiv metadata stamping, the
  Semantic Scholar item mapping (request limit, slicing, url and year
  fallbacks, JSON `null`s), `search_all_sources` and `enrich_documents`.
- `KnowledgeBase` (knowledge_base.dfy): `get_embeddings`, the parsing of the
  source list, the per-source limit, the embedding retry classifier,
  `update_knowledge_base` with every result string, and `query_rag`. The global
  `vector_db` is an explicit `Option<seq<Fragment>>` value, passed in and
  returned.
- `Retry` (retry.dfy): the `for attempt in range(3)` loop both sites write
  out, as a generic driver over the attempts' outcomes and a classifier per
  site. It returns the waits it would sleep instead of sleeping.
- `Ranking` (ranking.dfy): `get_llm`'s provider selection and the ranking
  retry loop of main.py.
- `RetryLoops` (retry_loops.dfy): how the two classifiers relate.
- `Agent` (agent.dfy): how main.py's `query_rag` call binds its arguments
  (see Findings).
- `Strings` and `Wrappers`: the Python `str` operations and `dict.get` the
  code relies on, with CPython's semantics (ASCII-only case mapping).

Outside calls are parameters:

- the ArXiv loader;
- the Semantic Scholar HTTP fetch;
- the text splitter;
- each embedding or chat attempt, given as its outcome for attempt `i`;
- FAISS's similarity ranking.

The environment is a string map.

## Model

| member | source | states |
|---|---|---|
| Wrappers.Get | paper_sources.py:127-133 | `dict.get(key, default)`: the stored value when the key is present, the default otherwise |
| Strings.Lower | paper_sources.py:114 | `str.lower()` keeps the length and lower-cases each ASCII letter at its position |
| Strings.Upper | paper_sources.py:128 | `str.upper()` keeps the length and upper-cases each ASCII letter at its position |
| Strings.LowerIsLower | mcp_server.py:105 | a lower-cased string is lower case, so lower-casing twice changes nothing |
| Strings.Strip | mcp_server.py:105 | `strip()` returns a contiguous slice of the string with no space at either end, everything outside the slice being space; an unpadded string is unchanged |
| Strings.Split | mcp_server.py:105 | `split(",")` always yields at least one piece, and no piece contains a comma |
| Strings.JoinSplit | mcp_server.py:105 | joining the pieces of `split(sep)` with `sep` restores the string |
| Strings.SplitJoin | mcp_server.py:105 | splitting a join of separator-free pieces returns those pieces |
| Strings.SplitCount | mcp_server.py:105 | `split(sep)` yields one more piece than `sep` occurs in the string |
| Strings.NatToString | mcp_server.py:180 | `str(n)` of a count is a non-empty string of decimal digits, beginning with "0" exactly for zero (no leading zeros) |
| Strings.ParseNatToString | mcp_server.py:180 | reading the digits of `str(n)` back gives `n` |
| Strings.NatToStringInjective | mcp_server.py:180 | different counts print differently, so the success message determines the count |
| Strings.IntToString | paper_sources.py:81 | `str(year)`: a minus sign exactly for a negative year, followed by the decimal digits of its magnitude |
| Retry.Backoff | mcp_server.py:154 | the wait `retry_delay * 2 ** attempt`: `retry_delay` on attempt 0, and each later attempt waits twice the one before |
| Retry.RateLimitAnywhere | mcp_server.py:166 | any error text with "429" inside it counts as a rate limit, wherever it sits |
| Retry.RunFrom | mcp_server.py:137-178 | the loop's full trace: at most 3 attempts; every wait belongs to a failed attempt the classifier retried; a `break` carries the last attempt's value; a give-up carries the classifier's verdict on the last failure |
| Retry.NeverFallsThrough | main.py:181-256 | when the final attempt always gives up, the loop never ends without a `break` or a `return`/`raise` |
| Retry.WaitSchedule | mcp_server.py:154-176 | with waits `2 * 2 ** attempt` and no retry after the last attempt, the waits are a prefix of [2, 4] and total at most 6 seconds |
| Retry.FirstSuccessStops | mcp_server.py:144 | a first attempt that succeeds ends the loop with no wait |
| PaperSources.StampArxiv | paper_sources.py:26-32 | source "arxiv", source_name "ArXiv", url the "Entry ID" or "" when it is missing; content and every other key unchanged |
| PaperSources.SearchArxiv | paper_sources.py:12-37 | the loaded documents, stamped one by one in order, or the empty list when loading raises |
| PaperSources.RequestLimit | paper_sources.py:50 | the `limit` parameter is `min(max_results, 100)` |
| PaperSources.PyPrefix | paper_sources.py:66 | `items[:max_results]` with Python's slice rules, including a negative bound |
| PaperSources.AuthorNamesOf | paper_sources.py:68 | the author names exist exactly when neither the list nor any name is `null`; then one name per author, in order, each the author's "name" or "" when it has none; no list gives no names |
| PaperSources.ItemToDocument | paper_sources.py:67-88 | the seven metadata keys; source "semantic_scholar"; Title the rendered title; Authors the names joined by ", "; paperId the rendered id; Published empty exactly when the year is falsy, else `str(year)`; url as given, else the paper-page fallback for a truthy paperId, else "" (a null url renders "None"); the content is the title/authors/year/abstract layout over those values |
| PaperSources.ConvertItems | paper_sources.py:66-88 | the hits are converted one to one and in order, unless some hit raises |
| PaperSources.SearchSemanticScholar | paper_sources.py:40-93 | nothing on an exception, a non-200 status, or a 200 reply without a "data" list; at most `max_results` documents, all stamped Semantic Scholar; otherwise the converted sliced hits |
| PaperSources.Dispatch | paper_sources.py:113-120 | a lower-cased "arxiv" or "semantic_scholar" goes to that adapter; any other id contributes nothing |
| PaperSources.SearchAllSources | paper_sources.py:107-122 | every document found was contributed by a requested id naming a known source; a single requested id yields exactly what that source returns |
| PaperSources.StandardSourcesStamped | paper_sources.py:109-122 | with the two real adapters, every document found is stamped either "arxiv"/"ArXiv" or "semantic_scholar"/"Semantic Scholar" |
| PaperSources.SearchAllSourcesAppend | paper_sources.py:113-122 | requesting `a` then `b` yields `a`'s documents followed by `b`'s, in request order |
| PaperSources.SearchAllSourcesMembership | paper_sources.py:113-122 | a document is found exactly when some requested source contributed it |
| PaperSources.SearchAllSourcesNoneKnown | paper_sources.py:107-122 | when no requested id is known the result is empty |
| PaperSources.SearchAllSourcesSkipsUnknown | paper_sources.py:119-120 | an unknown id anywhere in the request changes nothing |
| PaperSources.SearchAllSourcesCaseInsensitive | paper_sources.py:114-116 | requests that agree up to letter case find the same documents |
| PaperSources.MixedCaseArxiv | paper_sources.py:114-116 | "ArXiv" is served by the ArXiv adapter |
| PaperSources.Enrich | paper_sources.py:136-142 | the header comes first, then the old content as the suffix; metadata unchanged |
| PaperSources.EnrichDocuments | paper_sources.py:124-144 | one rewritten document per input, in order: content is the provenance header followed by the old content |
| PaperSources.UnenrichEnrich | paper_sources.py:136-142 | removing the header recovers each original document |
| PaperSources.EnrichDefaults | paper_sources.py:127-133 | with nothing set the header reads source "UNKNOWN" and empty title, date and link |
| PaperSources.EnrichSourceNameDefault | paper_sources.py:128 | a source without a display name is shown in upper case |
| PaperSources.ProvenanceBegins | paper_sources.py:136-142 | every provenance header is non-empty and begins with "F" (of "FONTE") |
| PaperSources.EnrichedArxivDocument | paper_sources.py:127-142 | an enriched ArXiv document names "ArXiv" and links its entry id |
| PaperSources.EnrichedSemanticScholarDocument | paper_sources.py:124-142 | an enriched Semantic Scholar document names "Semantic Scholar" and shows its title, its year (empty when falsy) and its link |
| KnowledgeBase.ProviderDefaultsDiffer | mcp_server.py:127 | the classifier's provider equals `get_embeddings`' one when the variable is set; unset, they are "openai" and "local" |
| KnowledgeBase.GetEmbeddings | mcp_server.py:19-80 | succeeds exactly for "openai", "local", and "gemini" with a non-empty key; on success the class is OpenAI exactly for "openai", Google exactly for "gemini" and Ollama exactly for "local"; "gemini" fails only with "GOOGLE_API_KEY not found in .env" |
| KnowledgeBase.GetEmbeddingsDefault | mcp_server.py:25 | with the variable unset the local Ollama model is chosen |
| KnowledgeBase.UnsupportedEmbeddingsRejected | mcp_server.py:76-80 | any other lower-cased tag fails with the not-supported message naming it |
| KnowledgeBase.ParseSources | mcp_server.py:105 | one id per comma-separated piece (commas + 1), each lower case, comma-free and with no space at either end |
| KnowledgeBase.NormalizeSource | mcp_server.py:105 | the id is the lower case of the slice of the piece left after dropping the spaces around it: no space at either end, lower case, no comma the piece lacks |
| KnowledgeBase.ParseJoinedSources | mcp_server.py:105 | comma-free ids of any case and padding, joined by commas, parse to each id stripped and lower-cased, in order |
| KnowledgeBase.ParseCanonicalSources | mcp_server.py:105 | canonical ids joined by commas parse back to themselves |
| KnowledgeBase.MaxPerSource | mcp_server.py:106 | `max(1, max_papers // n)` is at least 1, is the floor of the share when there are enough papers, and is 1 otherwise |
| KnowledgeBase.FifteenOverTwoSources | mcp_server.py:106 | 15 papers over two sources allow 7 each |
| KnowledgeBase.DefaultRequest | mcp_server.py:85-86 | the defaults `max_papers = 10` and `sources = "arxiv,semantic_scholar"` search ArXiv then Semantic Scholar, five papers each |
| KnowledgeBase.ErrorReport | mcp_server.py:159-183 | every failure report begins with "Error" |
| KnowledgeBase.ClassifyEmbedFailure | mcp_server.py:145-178 | a retry happens only before the last attempt and waits the backoff; every give-up message starts with "Error"; before the last attempt everything but OpenAI's insufficient quota is retried; insufficient quota returns its message at once; on the last attempt an OpenAI `RateLimitError` returns the quota-exceeded message, a text-matched rate limit the rate-limit message with the error's text, and any other error "Error creating embeddings: " with the error's text |
| KnowledgeBase.EmbedRetryable | mcp_server.py:145-178 | before the last attempt every failure is retried except OpenAI's insufficient quota; on the last none is; a retry waits the backoff |
| KnowledgeBase.EmbedGiveUpIsError | mcp_server.py:159-178 | every string the embedding loop gives up with starts with "Error" |
| KnowledgeBase.EmbedClassifierIsBounded | mcp_server.py:153-177 | the embedding classifier backs off exponentially and never retries the last attempt |
| KnowledgeBase.EmbedWithRetry | mcp_server.py:133-180 | at most 3 attempts; waits a prefix of [2, 4]; a `break` only after a successful attempt; a return only with an "Error" report after a failed one; never runs off the loop; each attempt before the last failed and was retried with the backoff; a give-up is the classifier's verdict on the last attempt |
| KnowledgeBase.EmbedRunRetried | mcp_server.py:133-178 | in the embedding run every attempt before the last failed and was retried, waiting the backoff |
| KnowledgeBase.InsufficientQuotaIsImmediate | mcp_server.py:160-161 | OpenAI's insufficient quota returns its message on the first attempt, without waiting |
| KnowledgeBase.OpenAIRateLimitExhausted | mcp_server.py:152-159 | an OpenAI rate limit on all three attempts returns the quota message after waits 2 and 4 |
| KnowledgeBase.PersistentRateLimit | mcp_server.py:166-172 | a rate limit recognised by its text on all three attempts (OpenAI's too, unless it is a `RateLimitError` or insufficient quota) reports it with the last error's text after waits 2 and 4 |
| KnowledgeBase.PersistentErrorReported | mcp_server.py:173-178 | an ordinary error on all three attempts returns "Error creating embeddings: " with the last error's text after waits 2 and 4 |
| KnowledgeBase.RecoversAfterOneFailure | mcp_server.py:137-144 | a retryable failure followed by a success ends after one wait of 2 seconds |
| KnowledgeBase.Grow | mcp_server.py:140-143 | `from_documents` on an absent index and `add_documents` on a present one both leave the old fragments followed by the new ones |
| KnowledgeBase.RawDocuments | mcp_server.py:105-112 | every raw document comes from a known source named in the parsed request, fetched with the per-source limit |
| KnowledgeBase.UpdateKnowledgeBase | mcp_server.py:83-183 | the search followed by the ingestion of its documents: the index only grows and stays present once present; the waits are a prefix of [2, 4], at most 6 seconds in all |
| KnowledgeBase.IngestDocuments | mcp_server.py:114-183 | after the search: the index only grows and stays present once present; the waits are a prefix of [2, 4], at most 6 seconds in all |
| KnowledgeBase.NothingFoundKeepsIndex | mcp_server.py:114-115 | an empty aggregation returns the nothing-found message, changes nothing and waits nothing |
| KnowledgeBase.UnknownSourcesFindNothing | mcp_server.py:105-115 | a request naming no known source reports that nothing was found |
| KnowledgeBase.ReportPrefixes | mcp_server.py:115-183 | the nothing-found and error reports never start with "Success!", the success report does |
| KnowledgeBase.SplitFailureReported | mcp_server.py:124-183 | a raising splitter is reported as "Error processing papers: " followed by its message, and leaves the index unchanged |
| KnowledgeBase.ConfigFailureReported | mcp_server.py:129-183 | a rejected embeddings configuration is reported as "Error processing papers: " followed by its message, and leaves the index unchanged |
| KnowledgeBase.EmbedFailureReported | mcp_server.py:137-178 | an embedding loop that gives up returns exactly the loop's error report, after exactly the loop's waits, and leaves the index unchanged |
| KnowledgeBase.IndexedSucceeds | mcp_server.py:137-180 | after a `break`, the report counts the raw documents, the fragments are appended, and the waits are the loop's |
| KnowledgeBase.SuccessOnlyAfterIndexing | mcp_server.py:137-183 | "Success!" is reported exactly when an attempt succeeded; then the count and index are as above, otherwise the index is unchanged |
| KnowledgeBase.FailureKeepsIndex | mcp_server.py:114-183 | any report other than success leaves the index as it was |
| KnowledgeBase.RepeatedIngestionGrows | mcp_server.py:140-143 | two ingestions in a row never shrink the index |
| KnowledgeBase.IngestKeepsIndexNonEmpty | mcp_server.py:114-143 | with a splitter that cuts a non-empty batch of documents with text into at least one fragment, a present index never ends up empty; the provenance header gives every enriched document text |
| KnowledgeBase.EnrichedHasText | paper_sources.py:124-142 | every enriched document has a non-space character |
| KnowledgeBase.UpdateKeepsIndexNonEmpty | mcp_server.py:98-143 | the same for a whole `update_knowledge_base` request |
| KnowledgeBase.SimilaritySearch | mcp_server.py:196 | the first min(k, ranked) fragments, in ranked order; all of them fragments of the index, so at most k and at most the index size |
| KnowledgeBase.QueryRag | mcp_server.py:186-204 | the sentinel when the index is absent, whatever the question; "Error querying RAG: " plus the message when the search raises; otherwise the context of the first five ranked fragments, which are fragments of the index, at most five and at most as many as it holds |
| KnowledgeBase.Context | mcp_server.py:198-200 | the context is empty exactly when there are no results |
| KnowledgeBase.ContextAppend | mcp_server.py:198-200 | the context of two result lists is the concatenation of their contexts |
| KnowledgeBase.ContextBlock | mcp_server.py:198-202 | the i-th block of the context is the i-th result, framed by "\n---\n" and "\n" |
| KnowledgeBase.ContextLength | mcp_server.py:198-200 | the context is the fragment texts plus six delimiter characters per fragment |
| Ranking.LlmDefaultsDiffer | main.py:179 | the classifier's provider equals `get_llm`'s one when the variable is set; unset, they are "openai" and "deepseek-local" |
| Ranking.GetLlm | main.py:16-93 | succeeds exactly for "openai", "deepseek-local", and "gemini" with a non-empty key; the model matches the tag; a keyless gemini raises the missing-key error |
| Ranking.GetLlmDefault | main.py:22 | with `LLM_PROVIDER` unset the local Ollama model is chosen |
| Ranking.GetLlmCaseInsensitive | main.py:22 | a tag and its lower-cased form choose the same model |
| Ranking.UnsupportedLlmRejected | main.py:89-93 | any other tag raises the not-supported error naming it |
| Ranking.ClassifyRankingFailure | main.py:185-256 | a retry happens only before the last attempt and waits the backoff; every give-up re-raises the failure itself |
| Ranking.RankingRetryable | main.py:185-256 | before the last attempt a failure is retried exactly when it is neither OpenAI's insufficient quota nor a fatal Gemini error; nothing is retried on the last; a give-up re-raises the same exception |
| Ranking.RankingClassifierIsBounded | main.py:188-256 | the ranking classifier backs off exponentially and never retries the last attempt |
| Ranking.GenerateRanking | main.py:177-256 | at most 3 attempts with waits a prefix of [2, 4]; all but the last failed with a transient error and was retried with the backoff; the result is the last attempt's response or its own exception, so a response exists whenever nothing is raised, and a raised failure is one the classifier gives up on |
| Ranking.FirstResponseKept | main.py:181-184 | a first attempt that succeeds is the response, with no wait |
| Ranking.GeminiFatalIsImmediate | main.py:216-237 | for Gemini a not-found, authentication or quota error is re-raised on the first attempt |
| Ranking.InsufficientQuotaIsImmediate | main.py:205-211 | for OpenAI an insufficient-quota error is re-raised on the first attempt |
| Ranking.RecoversOnLastAttempt | main.py:240-253 | two retryable failures then a response give that response after waits 2 and 4 |
| Ranking.ExhaustedRaisesLast | main.py:240-256 | three retryable failures re-raise the third after waits 2 and 4 |
| RetryLoops.SameRetryDecisions | main.py:185-256 | outside Gemini the ranking and embedding loops retry the same failures with the same wait; for Gemini they differ exactly on the fatal errors |
| Agent.CallQueryRag | mcp_server.py:186 | a tool call runs `query_rag` on the "question" argument when it is supplied, and fails naming it otherwise |
| Agent.AgentQueryAsWrittenFails | main.py:144-147 | the agent's call, keyed "pergunta", fails for every index |
| Agent.AgentQueryReachesIndex | mcp_server.py:186-192 | keyed "question", the call answers from the index, the sentinel when it is absent |

## Left out

- Network I/O: ArXiv loading and the Semantic Scholar request are given
  inputs. The API-key header (paper_sources.py:45-56) does not change the
  modelled result.
- FAISS and the text splitter: chunk boundaries, vectors and the similarity
  metric are uninterpreted. Only the parameters 1000/100 and k=5 are kept.
- Embedding and chat objects, floating point and the prompt template: each
  attempt is a given outcome, an exception class plus its text.
- `time.sleep` and `asyncio.sleep`: modelled as the returned list of waits.
- MCP stdio transport, async sessions and all printing are not modelled. So
  is the Telegram delivery; telegram_sender.py is not part of this model.
- The `ImportError` paths of `get_embeddings`, `get_llm` and the OpenAI
  classifiers are not modelled: they assume the libraries are installed.
- The Ollama construction errors (mcp_server.py:61-74, main.py:74-87) are not
  modelled: they come from a library the model does not see.
- JSON values of unexpected types (a non-integer year, a non-object author)
  are not modelled; `null`s are, for the fields that are read.
- A metadata value Python holds as `None` is stored as the text "None".
  This is what the enricher prints for it. A `None` source, which would make
  `enrich_documents` raise, is not modelled; no adapter produces one.
- Case mapping covers ASCII letters only; `str.lower` on other scripts is not
  modelled.
- Concurrency on the global index is not modelled; the calls are sequential.
- KnowledgeBase.QueryRag: FAISS's similarity search is a parameter, and the
  model takes as given (`RanksIndex`) that it only returns fragments of the
  index; which fragments rank best is not modelled.
- KnowledgeBase.IngestKeepsIndexNonEmpty: rests on the splitter cutting every
  non-empty batch whose documents all have a non-space character into at
  least one fragment (`SplitsIntoFragments`); whitespace-only documents may
  vanish. The provenance header gives every enriched document such a
  character (EnrichedHasText).
  `FAISS.from_documents` raising on an empty list is not modelled.
- Retry.RunFrom: the branch that falls off the loop without `break` is kept
  as written. For the embedding loop it would report success without
  indexing (mcp_server.py:180). It is proved unreachable for both classifiers.

## Findings

| source | as written | input that shows it | evidently intended | confidence | as-written member | corrected member |
|---|---|---|---|---|---|---|
| main.py:144-147 | `query_rag` is called with arguments `{"pergunta": …}`, but its only parameter is named `question` (mcp_server.py:186) | any run of the agent, whatever the index holds | arguments `{"question": …}`, so the ranking is built from retrieved fragments | high, not executed | Agent.AgentQueryAsWrittenFails | Agent.AgentQueryReachesIndex |

## Notes

- Failures other than rate limits, quota errors and the fatal Gemini errors
  are retried, not failed at once (mcp_server.py:173-178, main.py:249-256).
- Only an absent index gets the empty-knowledge-base sentinel
  (mcp_server.py:191).
- The source request is a list: order and duplicates are kept
  (paper_sources.py:113).
- `get_embeddings` is called on every ingestion (mcp_server.py:129), not once
  at start-up.

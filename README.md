# Keyword-research pipeline — a Dafny model

This project models the core of a long-tail keyword collector. The collector works against a phrase-analytics web service. Its core has six parts:

- **Config** (`Settings`, config.dfy): the run configuration with its defaults, and `validate`.
- **RateLimiter** (`RateLimiting`, rate_limiter.dfy): a sliding-window limiter. It keeps a deque of request timestamps and never lets more than `max_requests` of them fall in any trailing window of `time_window` seconds.
- **KeysAPIClient** (`KeysApi`, api_client.dfy): the service client.
  - `_request` is the retry loop. It handles 202 and 429 by pausing and retrying, 401 and 404 by stopping, and 500 and transport faults by exponential backoff.
  - Around it sit the wrappers `suggest`, `suggest_multi_region`, `create_extended_keywords`, `check_extended_keywords_state`, `get_extended_keywords`, `wait_for_extended_keywords` and `delete_doubles`.
- **KeywordProcessor** (`KeywordPipeline`, keyword_processor.dfy): the pipeline. It has an offline synthesis, and single- and multi-region online runs: suggest, extend, collect pages, filter locally, deduplicate through the service, cut at `max_results`. It also builds the `^`-joined server-side filter string, the local filter and the deduplication.
- **SeedGenerator** (`Seeds`, seed_generator.dfy): builds template seeds from the niche's base phrases. Its keyed deduplication compares seeds by their sorted lower-cased words; its quality filter follows.
- **Exporter** (`Export`, exporter.dfy): the CSV rows, the JSON renaming of `destination_key` to `word`, and the text report.

Support modules:

- `Common` (Option, Result, Min/Max, powers of two).
- `Seqs` (filter, subsequence, distinctness, Python's `s[:n]`).
- `Text` (`split`, `strip`, `lower`, `in`, `join`, `str(int)`, and the word runs of `\b\w+\b`).
- `Records` (JSON scalar values, keyword records, and the `kw.get("destination_key") or kw.get("word", "")` identity).

The parts that update state in place are modelled imperatively:

- The rate limiter is a `class` whose `requests` field the methods reassign. A ghost `history` of every appended timestamp records the quota property.
- The client is a `class` that owns a limiter. Its methods run the request loop and the poll loop as `while` loops against the limiter.
- The pipeline, seed and export loops are methods with loop invariants. Each is proved equal to a specification function, and the promised properties are proved about those functions as lemmas.

The environment is passed in as parameters:

- Time is an integer clock: a method takes the current reading and returns the reading after its pauses.
- The network is an oracle: `answers(a)` is what the service does on attempt `a`.
- To the pipeline, the client is a `Service` value giving the wrappers' answers.

Points where the code behaves differently from what one might expect of a retrying client, which the model follows:

- A 202 reply consumes an attempt of the `for attempt in range(max_retries)` loop. It is not an extra wait outside the retry budget.
- Any other 4xx/5xx status (e.g. 403) goes through `raise_for_status()`. The resulting `HTTPError` is a `RequestException`, so it takes the backoff path and does not fail at once.
- A 401 raises a plain `Exception` inside the `try`. That exception is not a `RequestException`, so it leaves the loop at once.
- A `Retry-After` header that `int()` cannot parse, or a negative one that `time.sleep` refuses, raises out of the loop (`BadRetryAfter`).

## Model

| member | source | states |
|---|---|---|
| Settings.Default | config.py:10-23 | every declared field of a freshly built `Config` has the dataclass default (`msk`, 213, empty niche, thresholds 80/1000/3, top 50, safe filters on, TTL 86400, no seed targets, stop words or ad filters) |
| Settings.Validate | config.py:42-48 | a configuration is accepted exactly when token and niche are non-empty and `min_num_words >= 1`; otherwise the first failing check in source order is the error |
| Settings.DefaultsNeedNiche | config.py:10-23 | a default configuration is always rejected: for a missing token if the token is empty, otherwise for the missing niche |
| Settings.DefaultsValidWithNiche | config.py:42-48 | a default configuration with a non-empty token and niche passes validation |
| RateLimiting.Evict | rate_limiter.py:17-18 | the `popleft` loop: leading timestamps at or before `now - time_window` are dropped; partner EvictShape |
| RateLimiting.Admit | rate_limiter.py:15-26 | one `wait_if_needed` call on the deque: evict, pause and drop the oldest entry when the window is full, append the clock; partners AdmitShape and AdmitKeepsQuota |
| RateLimiting.EvictShape | rate_limiter.py:17-18 | eviction removes exactly a prefix of entries at or before `now - window`; the first entry kept is inside the window |
| RateLimiting.AdmitShape | rate_limiter.py:20-26 | when the window is (still) full the call sleeps until the oldest entry leaves it, drops that entry and appends the later clock; otherwise it appends `now`; the appended timestamp is never before `now` |
| RateLimiting.AdmitQueueIsSuffix | rate_limiter.py:13-26 | after a call the deque is a suffix of all timestamps appended so far and holds at most `max_requests` of them |
| RateLimiting.AdmitRemovesOnlyOld | rate_limiter.py:17-24 | every timestamp that has left the deque lies at least `time_window` before the newly appended one |
| RateLimiting.AppendKeepsQuota | rate_limiter.py:26 | appending a timestamp, when everything outside the deque is a full window older, keeps every trailing window within quota |
| RateLimiting.AdmitKeepsQuota | rate_limiter.py:13-26 | one call preserves the limiter invariant over the whole history |
| RateLimiting.StepKeepsInv | rate_limiter.py:13-26 | one call on a trace whose clock moved forward preserves the trace invariant |
| RateLimiting.ReplayKeepsInv | rate_limiter.py:13-26 | any sequence of calls, with any pauses between them, preserves the invariant |
| RateLimiting.QuotaNeverExceeded | rate_limiter.py:7-26 | starting from an empty deque, no trailing window of `time_window` seconds ever holds more than `max_requests` admitted requests |
| RateLimiting.AdmitKeepsTail | rate_limiter.py:17-26 | the new deque is a suffix of the old deque followed by the new timestamp |
| RateLimiting.AdmitKeepsSorted | rate_limiter.py:17-26 | a sorted deque stays sorted across a call when the clock has not run back |
| RateLimiting.StepKeepsOrder | rate_limiter.py:13-26 | one call appends a timestamp no earlier than the previous ones and keeps the deque in order |
| RateLimiting.ReplayKeepsOrder | rate_limiter.py:13-26 | over any sequence of calls the timestamps are non-decreasing and the deque stays oldest-first |
| RateLimiting.AdmittedKeepsInv | rate_limiter.py:13-26 | the invariant carried over one call in terms of its results; the returned clock is the last timestamp |
| RateLimiting.RateLimiter.constructor | rate_limiter.py:7-11 | a new limiter has the given quota, an empty deque and satisfies the invariant |
| RateLimiting.RateLimiter.WaitIfNeeded | rate_limiter.py:13-26 | the deque becomes the admitted queue, the returned clock is the appended timestamp, the history grows by it, and the quota holds over the whole history |
| RateLimiting.RateLimiter.Admitting | rate_limiter.py:15-26 | the eviction loop, the full-window pause and the append compute exactly one admission step |
| RateLimiting.RateLimiter.Reset | rate_limiter.py:28-30 | after a reset the deque and history are empty and the invariant holds |
| KeysApi.Backoff | api_client.py:44-58 | the reaction to a 500 or a `RequestException`: pause `2^attempt` before the last attempt, raise on it; partner FaultBacksOff |
| KeysApi.Judge | api_client.py:21-58 | one attempt's decision, the status checks in source order; partners AttemptFinishes, AttemptRetries, PendingRetries and FaultBacksOff |
| KeysApi.Attempts | api_client.py:19-60 | the retry loop never runs the clock back, makes one rate-limited request per attempt and uses at most `max_retries` attempts |
| KeysApi.AttemptFinishes | api_client.py:20-52 | an attempt whose outcome is final ends the loop with that result after one admitted request |
| KeysApi.AttemptRetries | api_client.py:20-57 | an attempt judged a retry admits one request, sleeps the pause and continues with the next attempt |
| KeysApi.AttemptsExhausted | api_client.py:60 | once every attempt is used the loop ends with `None` |
| KeysApi.PendingRetries | api_client.py:27-35 | a 202 pauses 2 s; a 429 pauses for its `Retry-After`, or 15 s without one |
| KeysApi.FaultBacksOff | api_client.py:43-58 | a 500, a `raise_for_status` failure, a transport fault or undecodable JSON pauses `2^attempt` before the last attempt and raises on the last one |
| KeysApi.AllPendingGivesNone | api_client.py:20-60 | when every remaining attempt is a 202 or a usable 429 the request returns `None` after all attempts |
| KeysApi.FirstFinalDecides | api_client.py:20-58 | the first attempt with a final outcome decides the result, and no further attempt is made |
| KeysApi.UnauthorizedOrMissingStops | api_client.py:37-41 | a 401 raises the invalid-token error and a 404 returns `None` at once, after only pending retries before it |
| KeysApi.AllFaultsBackOff | api_client.py:43-58 | when every attempt faults, the pauses are the doublings `2^a` and the last attempt's error is raised |
| KeysApi.RetryStep | api_client.py:20-57 | one retry is one rate-limiter step followed by the pause |
| KeysApi.KeysOr | api_client.py:70 | a raised error is passed on; a non-empty response yields its `keys` list (empty when absent); an empty or missing response yields the default |
| KeysApi.CreatedUid | api_client.py:100 | an error is passed on unchanged; a scalar `uid` of any JSON type in a non-empty response is returned as it is; no response, an empty one or one without `uid` gives `None`; a non-`None` result always is the response's `uid` |
| KeysApi.BodyOr | api_client.py:121 | a non-empty response is returned as is; a missing or empty one becomes the default body |
| KeysApi.PageParams | api_client.py:108-114 | the page parameters always hold page, per-page and sort, and hold the filter exactly when it is non-empty |
| KeysApi.NoStateIsPending | api_client.py:102-104 | the default state `{"state": 0}` is neither ready nor failed |
| KeysApi.Polling | api_client.py:123-136 | the poll loop never returns `False` and never runs the clock back |
| KeysApi.PollsBounded | api_client.py:125-134 | no poll at all is made exactly when `max_wait` has already passed; otherwise the polls after the first are bounded by the remaining time over 3 s |
| KeysApi.AlwaysProcessingTimesOut | api_client.py:125-136 | a service that answers only 202 or a usable 429 on every attempt makes the wait raise the timeout |
| KeysApi.NeverReadyNeverTrue | api_client.py:123-136 | when no poll from now on ever reports state 10, the wait never returns `True` |
| KeysApi.StaysInProgressTimesOut | api_client.py:123-136 | when every poll from now on answers with a state other than 10 and 2 (or the default state), the wait raises the timeout |
| KeysApi.PollEnds | api_client.py:126-130 | state 10 returns `True`, state 2 raises the report failure and a client error is passed on, each after one poll |
| KeysApi.PollGoesOn | api_client.py:126-134 | any other state sleeps 3 s and polls again |
| KeysApi.RegionsFoundNonEmpty | api_client.py:75-81 | every region in the result was asked for and has a non-empty suggestion list |
| KeysApi.RegionsKeepFound | api_client.py:76-80 | regions already recorded stay recorded |
| KeysApi.RegionRaises | api_client.py:78 | an error of one region's request ends the loop with that error |
| KeysApi.RegionAnswers | api_client.py:78-80 | a region's answer is recorded when non-empty and the loop moves on |
| KeysApi.KeysApiClient.constructor | api_client.py:10-12 | the client owns a fresh 10-per-10-seconds limiter with empty state |
| KeysApi.KeysApiClient.Request | api_client.py:19-60 | the loop's result and the limiter's new state and clock are those of the retry-loop specification |
| KeysApi.KeysApiClient.Attempt | api_client.py:21-58 | one pass of the loop judges the outcome as the specification does and advances the specification by one attempt |
| KeysApi.KeysApiClient.Suggest | api_client.py:62-70 | without a token no request is made and the result is `[]`; otherwise the result is the `keys` field or `[]` |
| KeysApi.KeysApiClient.SuggestMultiRegion | api_client.py:72-81 | without a token nothing is requested and the result is `{}`; otherwise the result is the region loop's map |
| KeysApi.KeysApiClient.CreateExtendedKeywords | api_client.py:83-100 | the result is the response's `uid`, or none |
| KeysApi.KeysApiClient.CheckExtendedKeywordsState | api_client.py:102-104 | the result is the response, or the default state |
| KeysApi.KeysApiClient.GetExtendedKeywords | api_client.py:106-121 | the parameters sent are those of `PageParams`, and the result is the response or the empty default page |
| KeysApi.KeysApiClient.WaitForExtendedKeywords | api_client.py:123-136 | the result and the clock are those of the poll-loop specification |
| KeysApi.KeysApiClient.DeleteDoubles | api_client.py:138-144 | the result is the returned `keys`, or the list sent when there is no response |
| Records.PhraseValue | keyword_processor.py:113 | `kw.get("destination_key") or kw.get("word", "")`: a truthy `destination_key`, else the `word` field, else `""` |
| Text.Lower | keyword_processor.py:202 | `lower()` built one character at a time: the result has the text's length and each of its characters is the folded character at that place; partners LowerIdempotent and LowerKeepsClasses |
| Text.LowerIdempotent | keyword_processor.py:202 | lower-casing twice is lower-casing once |
| Text.LowerKeepsClasses | keyword_processor.py:202 | lower-casing keeps every character outside `\w`, and keeps each character's `\w` and whitespace class |
| Text.Strip | keyword_processor.py:166 | `strip()` leaves no whitespace at either end and never lengthens the text; partner StripShape |
| Text.StripShape | keyword_processor.py:166 | the stripped text is the slice of the text after its leading whitespace, and everything before and after that slice is whitespace |
| Text.Split | keyword_processor.py:215 | the maximal runs between separators: every piece is non-empty and holds no separator; with SplitWhole, SplitAtSeparator and `Split("") == []` this determines the result |
| Text.SplitWhole | keyword_processor.py:215 | a non-empty text without separators is split into itself alone |
| Text.SplitAtSeparator | keyword_processor.py:215 | a separator cuts the text in two: the pieces of the left part, then those of the right part, and nothing is lost |
| Text.Words | keyword_processor.py:215 | `split()`: non-empty words without whitespace; it is Split at whitespace, so SplitWhole and SplitAtSeparator determine it |
| KeywordPipeline.IsQuestion | keyword_processor.py:34 | the lower-cased seed contains one of the five interrogatives; partner OfflineResultsFollowSeeds |
| KeywordPipeline.OfflineRecord | keyword_processor.py:28-41 | the synthesised record of one seed; partner OfflineRecordFields |
| KeywordPipeline.Hits | keyword_processor.py:204 | a stop word hits when it is non-blank after stripping and occurs, lower-cased, in the lower-cased text; partner ContainsStopWordsIff |
| KeywordPipeline.ContainsStopWords | keyword_processor.py:201-206 | the search over the stop words up to the first hit; partner ContainsStopWordsIff |
| KeywordPipeline.Passes | keyword_processor.py:180-197 | a candidate is kept when its word count, `wsk`, stop words and phrase pass; partner FilterKeepsQualified |
| KeywordPipeline.Filters | keyword_processor.py:156-175 | the clauses joined by `^`; partners BuildFilters and FiltersSplitIntoClauses |
| KeywordPipeline.Collect | keyword_processor.py:134-154 | the paging from page p on; partners CollectShape, ThreePages and FetchAllKeywords |
| KeywordPipeline.Dedup | keyword_processor.py:116-123 | the first candidate of each allowed phrase, in order; partners DedupIsSubsequence, DedupPhrases, DedupKeepsFirst and DedupCoversAllowed |
| KeywordPipeline.Extended | keyword_processor.py:91-110 | create the job, fail on a falsy uid, wait, collect its pages; partners ProcessExtendedKeywords and NoUidRaises |
| KeywordPipeline.Finish | keyword_processor.py:79-89 | extend, filter, deduplicate, cut at `max_results`; partners FinishPipeline, FinishIsBoundedSubsequence and FinishIsFilteredAndDistinct |
| KeywordPipeline.OfflineModeResults | keyword_processor.py:24-42 | the offline result is the synthesised records cut at `max_results` |
| KeywordPipeline.OfflineResultsFollowSeeds | keyword_processor.py:26-42 | the offline records carry the seeds in order, with zero metrics, the seed's word count, and the question flag exactly when the seed contains an interrogative |
| KeywordPipeline.OfflineRecordPhrase | keyword_processor.py:28-30 | a synthesised record's phrase is its seed |
| KeywordPipeline.OfflineRecordFields | keyword_processor.py:31-34 | a synthesised record has zero `wsk` and `ws`, the seed's word count, and `isquest` 1 exactly for question seeds |
| KeywordPipeline.ContainsStopWordsIff | keyword_processor.py:201-206 | a text contains stop words exactly when some non-blank stripped, lower-cased stop word occurs in its lower-cased form |
| KeywordPipeline.IsValidKeyword | keyword_processor.py:208-219 | the three checks in source order: at least 5 characters, only `\w`, `\s` and `-`, and at least half the words distinct; its partners are DistinctWordsAreValid and RepeatedWord |
| KeywordPipeline.RepeatedWord | keyword_processor.py:215-217 | a long-enough phrase that is one word said k times passes exactly when k <= 2: two copies still have half their words distinct |
| KeywordPipeline.DistinctWordsAreValid | keyword_processor.py:208-219 | a long-enough phrase of allowed characters with no repeated word is valid |
| KeywordPipeline.FilterKeywords | keyword_processor.py:177-199 | the loop keeps exactly the candidates that pass every check, in order |
| KeywordPipeline.FilterKeepsQualified | keyword_processor.py:177-199 | the kept candidates are a subsequence, each meets the word-count, `wsk`, stop-word and validity checks, and every candidate that passes is kept |
| KeywordPipeline.BuildFilters | keyword_processor.py:156-175 | the loop builds exactly the specified filter string |
| KeywordPipeline.AppendStopClauses | keyword_processor.py:165-167 | one `NOT LIKE` clause is appended per non-blank stop word, in order |
| KeywordPipeline.StopClausesGrow | keyword_processor.py:165-167 | the clauses of one more stop word extend the clause list by that word's clause |
| KeywordPipeline.FiltersSplitIntoClauses | keyword_processor.py:156-175 | when stop words and ad filters contain no `^`, splitting the filter string at `^` gives back exactly the clauses in order |
| KeywordPipeline.StopClausesShape | keyword_processor.py:165-167 | every stop-word clause is non-empty and free of `^` |
| KeywordPipeline.CollectShape | keyword_processor.py:127-154 | the collector requests pages 1, 2, ... while each is full, stops at the first error or short page, and returns the rows of exactly the pages it read |
| KeywordPipeline.ThreePages | keyword_processor.py:134-152 | pages of 100, 100 and 37 rows are collected in three requests into 237 rows |
| KeywordPipeline.FetchAllKeywords | keyword_processor.py:127-154 | the collected rows and the number of requests are the specification's, and request i asks for page i+1 with 100 rows, the filter string and the sort |
| KeywordPipeline.RequestPages | keyword_processor.py:134-152 | the paging loop against the specification, page by page |
| KeywordPipeline.CollectStep | keyword_processor.py:143-152 | an error stops, a short page ends with its rows, a full page is followed by the next |
| KeywordPipeline.GlueTwice | keyword_processor.py:147 | extending the collected rows twice is extending by the concatenation |
| KeywordPipeline.DeduplicateKeywords | keyword_processor.py:112-125 | the result is the service's answer applied to the candidates as specified |
| KeywordPipeline.DedupIsSubsequence | keyword_processor.py:116-123 | the deduplicated records are a subsequence of the input |
| KeywordPipeline.DedupPhrases | keyword_processor.py:116-123 | each kept record's phrase was returned by the service and no phrase is kept twice |
| KeywordPipeline.DedupKeepsFirst | keyword_processor.py:118-122 | each kept record is the first with its phrase |
| KeywordPipeline.DedupCoversAllowed | keyword_processor.py:117-122 | every phrase the service returned that occurs in the input has a record kept |
| KeywordPipeline.ListOfSet | keyword_processor.py:50-55 | `list(set(xs))` is a duplicate-free list of exactly the set's elements |
| KeywordPipeline.ProcessExtendedKeywords | keyword_processor.py:91-110 | creating the job, waiting and collecting as specified; no uid raises |
| KeywordPipeline.FinishPipeline | keyword_processor.py:79-89 | extend, filter, deduplicate and cut as specified |
| KeywordPipeline.FinishIsBoundedSubsequence | keyword_processor.py:59-69 | a successful run returns a subsequence of the collected records, at most `max_results` long |
| KeywordPipeline.FinishIsFilteredAndDistinct | keyword_processor.py:62-69 | every returned record passes the local filter and no phrase is returned twice |
| KeywordPipeline.NoUidRaises | keyword_processor.py:100-101 | a falsy job uid (`None`, `""`, `0`, `False`) fails the run |
| KeywordPipeline.SingleRegionPipeline | keyword_processor.py:71-89 | the candidates are the distinct seeds and suggestions, and the result is that of the finishing steps; a suggest error is passed on |
| KeywordPipeline.MultiRegionPipeline | keyword_processor.py:44-69 | the candidates are the distinct seeds and the suggestions of every region, and the result is that of the finishing steps |
| KeywordPipeline.AddSuggestions | keyword_processor.py:51-53 | extending by each region's suggestions adds exactly their elements |
| KeywordPipeline.ProcessPipeline | keyword_processor.py:11-22 | offline mode returns the synthesised records; otherwise the multi- or single-region pipeline decides |
| Seeds.NewSeedGenerator | seed_generator.py:31-33 | the niche is stored lower-cased and missing seed targets become an empty list |
| Seeds.ExtractBasePhrases | seed_generator.py:56-66 | one to three base phrases; the two- and three-word prefixes only when there are that many words; the last is all words joined |
| Seeds.BasePhraseWords | seed_generator.py:56-66 | splitting each base phrase gives back the niche's first two, first three or all words |
| Seeds.GenerateTransactional | seed_generator.py:68-73 | 16 seeds: eight intents each before and after the base |
| Seeds.GenerateLocalized | seed_generator.py:75-80 | 18 seeds: three intents with the base and each of six locations |
| Seeds.GenerateConstrained | seed_generator.py:82-88 | 24 seeds: each of eight constraints bare and behind two intents |
| Seeds.GenerateQuestions | seed_generator.py:90-94 | 6 seeds: six questions before the base |
| Seeds.GenerateSeasonal | seed_generator.py:96-101 | 10 seeds: five seasons after the base, bare and with "на" |
| Seeds.Transactional | seed_generator.py:68-73 | the transactional templates; partners GenerateTransactional and TransactionalContainsBase |
| Seeds.Localized | seed_generator.py:75-80 | the localized templates; partners GenerateLocalized and LocalizedContainsBase |
| Seeds.Constrained | seed_generator.py:82-88 | the constrained templates; partners GenerateConstrained and ConstrainedContainsBase |
| Seeds.Questions | seed_generator.py:90-94 | the question templates; partners GenerateQuestions and QuestionsContainBase |
| Seeds.Seasonal | seed_generator.py:96-101 | the seasonal templates; partners GenerateSeasonal and SeasonalContainsBase |
| Seeds.TransactionalContainsBase | seed_generator.py:68-73 | every transactional seed contains the base |
| Seeds.LocalizedContainsBase | seed_generator.py:75-80 | every localized seed contains the base |
| Seeds.ConstrainedContainsBase | seed_generator.py:82-88 | every constrained seed contains the base |
| Seeds.QuestionsContainBase | seed_generator.py:90-94 | every question seed contains the base |
| Seeds.SeasonalContainsBase | seed_generator.py:96-101 | every seasonal seed contains the base |
| Seeds.ExpansionsContainBase | seed_generator.py:44-49 | one base gives 74 seeds, each containing it |
| Seeds.SortWordsSorted | seed_generator.py:107 | `sorted(words)` is ordered and a permutation of the words |
| Seeds.SameWordsSameKey | seed_generator.py:107 | seeds with the same multiset of lower-cased words have the same deduplication key |
| Seeds.Key | seed_generator.py:107 | the deduplication key, the sorted lower-cased words joined by spaces; partners SortWordsSorted and SameWordsSameKey |
| Seeds.Unique | seed_generator.py:103-111 | first-occurrence deduplication by key; partners UniqueShape, UniqueKeepsFirst, UniqueOfUnique and DeduplicateIdempotent |
| Seeds.Quality | seed_generator.py:116-117 | at least two words and ten characters; partner FilterQuality |
| Seeds.Deduplicate | seed_generator.py:103-111 | the loop computes the specified first-occurrence deduplication |
| Seeds.UniqueShape | seed_generator.py:103-111 | the kept seeds are a subsequence with pairwise different keys, none of them already seen |
| Seeds.UniqueKeepsFirst | seed_generator.py:106-110 | every unseen key is kept, through the first seed that has it |
| Seeds.UniqueOfUnique | seed_generator.py:103-111 | a list whose keys are already distinct and unseen is kept whole |
| Seeds.DeduplicateIdempotent | seed_generator.py:103-111 | deduplicating twice is deduplicating once |
| Seeds.FilterQuality | seed_generator.py:113-119 | exactly the seeds of at least two words and ten characters are kept, in order |
| Seeds.Expand | seed_generator.py:45-49 | the five expanders in the order `generate` extends them |
| Seeds.Generate | seed_generator.py:36-54 | the loop computes the specified generation |
| Seeds.ExpandAllContains | seed_generator.py:44-49 | every template seed contains one of the base phrases |
| Seeds.CandidatesOrder | seed_generator.py:39-49 | the candidate list starts with the first `count // 2` seed targets and goes on with template seeds, each containing a base phrase of the niche |
| Seeds.Candidates | seed_generator.py:37-49 | the list `generate` deduplicates; partner CandidatesOrder |
| Seeds.TargetsUsed | seed_generator.py:39-40 | `len(seed_targets[:count // 2])`, never more than the targets there are |
| Seeds.Generated | seed_generator.py:36-54 | deduplicate, filter, cut at `count`; partners Generate and GeneratedGuarantees |
| Seeds.SubsequenceKeepsDistinctKeys | seed_generator.py:51-54 | filtering or cutting a key-distinct list keeps its keys distinct |
| Seeds.GeneratedGuarantees | seed_generator.py:36-54 | at most `count` seeds, each passing the quality filter, with pairwise different keys, in candidate order |
| Export.ColumnsOf | exporter.py:13-19 | the CSV columns are the fixed columns present in the first record, in the fixed order |
| Export.ToCsv | exporter.py:9-32 | no table for no records; otherwise the header is the first record's columns and there is one row per record |
| Export.BuildRows | exporter.py:25-32 | one row per record, in order |
| Export.BuildRow | exporter.py:26-31 | a row holds the record's value for each column |
| Export.CsvCells | exporter.py:27-31 | the `word` cell is the record's phrase value; any other cell is the field's value, or `None` when the record lacks it |
| Export.Cell | exporter.py:28-30 | one CSV cell; partner CsvCells |
| Export.RowOf | exporter.py:26-31 | one CSV row; partners BuildRow and CsvCells |
| Export.ToJson | exporter.py:38-43 | one cleaned record per record, in order |
| Export.CleanRenames | exporter.py:40-43 | `destination_key` is renamed to `word`, every other field is kept, and cleaning twice is cleaning once |
| Export.Clean | exporter.py:40-42 | the copy with `destination_key` moved to `word`; partner CleanRenames |
| Export.Mentions | exporter.py:90-93 | some stop word occurs in the lower-cased phrase; partner StopWordHits |
| Export.StopWordHits | exporter.py:90-93 | the stop-word count is at most the number of records |
| Export.GenerateReport | exporter.py:51-101 | the report is the specified lines joined by newlines, or the error the source would raise |
| Export.ReportLines | exporter.py:51-101 | the report's lines or its error; partners GenerateReport, ReportErrors, ReportSections, ReportListsTopKeywords and ReportListsSeeds |
| Export.MetricsLine | exporter.py:68 | the line under a listed keyword, its `wsk` and word count defaulting to 0; partner KeywordLinesAt |
| Export.ReportHeader | exporter.py:52-57 | the header lines |
| Export.ReportTop | exporter.py:59-68 | the top-keywords section |
| Export.ReportSeeds | exporter.py:70-79 | the seeds section |
| Export.ListKeywords | exporter.py:63-68 | two report lines per top keyword |
| Export.ListSeeds | exporter.py:75-76 | one numbered line per listed seed |
| Export.KeywordLinesAt | exporter.py:63-68 | two lines per keyword: line 2i names keyword i+1 by its phrase, line 2i+1 gives its `wsk` and word count, each 0 when missing |
| Export.SeedLinesAt | exporter.py:75-76 | line i lists seed i+1 |
| Export.ReportErrors | exporter.py:87-93 | no records makes the report fail on the average; records without a stop-word list make it fail on the count |
| Export.TopLinesAt | exporter.py:59-68 | the top section has a title, a rule and, for each of the first `min(return_top, n)` records, its numbered phrase and its metrics line |
| Export.SeedSectionAt | exporter.py:70-79 | the seeds section lists at most 30 seeds and then says how many more there are |
| Export.ReportSections | exporter.py:51-101 | the report is header, top section, seeds section and statistics, in that order |
| Export.ReportListsTopKeywords | exporter.py:59-68 | the report's lines 7, 9, ... name the top keywords in order, `min(return_top, n)` of them, and lines 8, 10, ... give their `wsk` and word count |
| Export.ReportListsSeeds | exporter.py:70-81 | the report lists the first 30 seeds in order, then the count of the rest or a blank line |

## Left out

- HTTP transport, the session headers and JSON decoding are not modelled. Each attempt's outcome is a parameter, and a decoded body is a map of scalar fields, string lists and record lists.
- Time is an integer clock, not a float from `time.time()`. `time.sleep(d)` advances it by `d`, and a request takes no time.
- The rate limiter's lock and any concurrent use of the client are not modelled; each call is one sequential step.
- RateLimiting.RateLimiter.constructor: requires `max_requests >= 1`. With 0 the first call indexes an empty deque and raises; that case is not modelled.
- RateLimiting.RateLimiter.WaitIfNeeded: the class invariant does not include the deque's sortedness. Order is proved on traces instead (`ReplayKeepsOrder`).
- Print calls, progress messages and the emoji prefixes of the exception texts are left out. Exceptions are the `ApiError`, `PipelineError` and `ReportError` cases.
- `sample_validation` is left out: it uses `random.sample` and `get_keyword_dashboard`, which is not in the client.
- `Config.from_env`, `load_dotenv`, main.py and interactive.py are not part of this model.
- The `Config` dataclass does not declare `offline_mode`, `multi_region`, `regions` and `max_results`, which the pipeline reads. They are fields without defaults.
- KeywordPipeline.FilterKeywords, BuildFilters and the pipelines require a stop-word list. With `stop_words=None` Python raises `TypeError` while iterating. The report models that case as the `StopWordsNotIterable` error.
- In the pipeline the client is the `Service` oracle: the wrappers' answers after their defaults. The client class itself is modelled separately in `KeysApi`.
- The create options, similarity 30 and the two flags, are accepted but not sent anywhere.
- The pipeline ignores the result of `wait_for_extended_keywords` (it is `True` or raises), and so does the model.
- The page answers for a job are a finite list. A page past its end answers with no body, which the wrapper turns into the empty default page.
- `list(set(xs))` has an unspecified order. `ListOfSet` gives some duplicate-free order of the same elements.
- A JSON field of the wrong type reads as its default (`NumField`, `Phrase`, `KeysField`, `PageRows`). Nothing models Python raising on the comparison. A phrase that is not a string reads as `""`: where Python's `text.lower()` and `len(text)` raise in `_filter_keywords` (keyword_processor.py:202, 209), the model's filter drops the record, and where `.lower()` raises in the report's stop-word count (exporter.py:91), the model tests the stop words against `""`, so only an empty stop word counts the record.
- KeysApi.CreatedUid: a `uid` that is a JSON list reads as `None`, since a job id is modelled as a scalar value. In Python a non-empty list would be truthy and be passed on as the uid.
- The service wrappers take the uid as given. The `str(uid)` of the URL and parameters is not modelled.
- The Unicode classes `\w` and `\s` are approximated. `\w` is the ASCII letters and digits, `_`, the letters U+00C0..U+024F except U+00D7 and U+00F7, and the Cyrillic letters U+0400..U+0481 and U+048A..U+052F; other scripts and digits are not word characters. `\s` is Python's whitespace. `lower()` folds only the ASCII capitals, the Latin-1 capitals U+00C0..U+00DE except U+00D7, and the Cyrillic capitals U+0400..U+042F; every other letter (Latin Extended-A, Greek, the extended Cyrillic ranges, ...) is left unchanged.
- `SeedGenerator.generated_seeds` is never used by the source and is not modelled.
- File output and the csv and json writers are not modelled. `ToCsv` returns the header and the rows as value lists in column order, and `ToJson` returns the cleaned records.
- Export.GenerateReport: the two averages (`:.0f`, `:.1f`) and the time stamp are text parameters. Numbers in the keyword lines are rendered through a `showReal` parameter, since float formatting is not modelled.
- Some loops are written as helper methods, each with its own specification: AppendStopClauses and AppendStopClause, RequestPages, AddSuggestions, BuildRows and BuildRow, Expand, ListKeywords and ListSeeds, ReportHeader, ReportTop and ReportSeeds, and KeysApiClient.Attempt. `KeysApi.Sleep`, the clock `d` seconds later, is a helper without a contract of its own, and so is `KeywordPipeline.Phrases`, the list `words_only` of the candidates' phrases.

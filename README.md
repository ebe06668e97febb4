# SEO audit engine: a Dafny model

This project models the core of the SEO audit service, in three parts.

- **The audit engine** (`server/services/auditEngine.ts`).
  - `runFullAudit` marks the audit running and inserts an empty report row. It then runs three phases and charges fixed credits after each one: 250 for on-page, 45 for backlinks, 50 for the AI summary. Finally it saves the report and marks the audit completed. Any error marks the audit failed and records the credits charged so far.
  - `runOnPageAudit` starts a crawl and waits for it with the bounded poll `waitForTask`. It then reduces the crawled pages to eleven metrics in one loop over nine counters and two count maps.
  - `runBacklinkAudit` and `calculateAvgRank` turn the backlink replies into counts, a toxicity score and a rounded mean rank.
- **The provider client** (`server/services/dataforseo.ts`). The model covers:
  - how a reply that is not ok becomes an error;
  - how the crawl's task id is extracted;
  - the lookup of a task in the `tasks_ready` list;
  - the zero defaults of the backlink summary;
  - the backlink toxicity heuristic.
- **The new-audit form** (`client/src/pages/NewAudit.tsx`). `handleSubmit` rejects an empty input. It then trims the input, removes one `http://` or `https://` prefix and one trailing slash, and rejects a result that is empty.

## Files

| file | module | contents |
|---|---|---|
| `wrappers.dfy` | `Wrappers` | `Option` and `Result` |
| `seqs.dfy` | `Seqs` | `Count`, `Sum` and `Somes` over sequences, with their lemmas |
| `js_math.dfy` | `JsMath` | `Math.round(x / n)` as integer arithmetic |
| `text.dfy` | `Text` | ASCII `toLowerCase`, prefix, suffix and substring tests, and the whitespace `trim` removes |
| `dataforseo.dfy` | `DataForSEO` | Provider replies, task-id extraction, task lookup, summary defaults, toxicity |
| `onpage.dfy` | `OnPage` | Page records, the metric definitions, count maps, and the page loop |
| `audit_engine.dfy` | `AuditEngine` | The poll, the phases, the tables, the run as a function (`Orchestrate`), and the classes `AuditStore` and `Engine` |
| `new_audit.dfy` | `NewAudit` | Domain cleaning and `handleSubmit` |

## How the model is built

- **External inputs are parameters.** Every reply from the crawl provider is an input. So is the language model's reply, the `Date.now()` readings of the poll, the `new Date()` timestamps, and the set of database writes that throw. The `World` datatype gathers them. The source reads `new Date()` three times (server/services/auditEngine.ts:40, 72, 83). `World.startedAt` stands for line 40, and `World.finishedAt` stands for both line 72 and line 83. One value is enough for the last two because at most one of them reaches the table: the completed write either succeeds, or it throws and the catch block writes its own time. `Observe` turns a `World` into the results of the three phases.
- **Specification functions.** `WaitFrom`, `OnPagePhase`, `BacklinkPhase`, `SummaryPhase`, `TryAudit`, `RunPhases` and `Orchestrate` are functions that state what each step computes. The properties of the run are proved about these functions.
- **Methods that match the source.** The methods of class `Engine` follow the source step by step:
  - a `while` loop for `waitForTask`;
  - the `creditsUsed` field incremented after each phase;
  - writes through class `AuditStore`, whose `audits` and `reports` maps stand for the two tables.

  Each method's `ensures` ties its outputs and the new state to the matching function. The page loop (`OnPage.ScanPages`) and the toxicity loop (`DataForSEO.AnalyzeBacklinkToxicity`) are `for` loops. Their invariants relate the counters to `Count` and `Sum` over the prefix that has been processed.
- **Rounding.** `Math.round(x / n)` rounds half up, so it equals `floor((2x + n) / 2n)` for integers `x` and `n > 0`. `JsMath.RoundDiv` computes exactly that.
- **JavaScript truthiness.**
  - An absent field is `None`. An empty string counts as absent wherever the source tests it for truthiness, such as `!page.meta?.title`.
  - `x || 0` on a count keeps the count when it is present, because a present `0` gives `0` either way.
- **The clock.** `clock(0)` is the start time and `clock(k)` is the k-th loop test. `ClockSteady` says that readings never go back and that loop tests are at least one poll interval apart. This holds because each pass sleeps for the interval.
- **Where the code and its documentation differ, the model follows the code.**
  - The average load time divides by the number of all pages, including pages without a timing (`OnPage.AvgLoadTimeCountsUntimedPages`).
  - A language-model reply with no content (empty or undefined) gives an analysis with three empty lists rather than an error (`AuditEngine.SummaryPhase`).

## Model

| member | source | states |
|---|---|---|
| `DataForSEO.MakeRequest` | server/services/dataforseo.ts:47-53 | A request succeeds exactly when the status is in 200..299. A failure carries that status. A success passes on the decoded tasks unchanged. |
| `DataForSEO.StartOnPageCrawl` | server/services/dataforseo.ts:68-75 | A reply that is not ok fails with its HTTP status. A success returns the first task's id, which is present and non-empty. An ok reply without such an id fails with `CrawlNotStarted`. |
| `DataForSEO.GetBacklinkSummary` | server/services/dataforseo.ts:97-105 | Succeeds exactly when the reply is ok. Each of the four counts is the first result's field when present, and 0 when absent. With no first result, all four counts are 0. |
| `DataForSEO.FindTask` | server/services/dataforseo.ts:150 | `None` exactly when no entry has the id. Otherwise it returns the first entry with that id: the entry has the id and no earlier entry does. |
| `DataForSEO.GetTaskStatus` | server/services/dataforseo.ts:147-151 | Succeeds exactly when the reply is ok, and then returns the lookup of the id in the first task's result list. A failure carries the HTTP status. |
| `DataForSEO.LinkScore` | server/services/dataforseo.ts:161-172 | A link earns 0 to 3 points. It earns 0 exactly when it breaks none of the three rules (rank below 10, spam word in the anchor, low-trust domain), and 3 exactly when it breaks all three. A link without a rank earns at least 1. |
| `DataForSEO.AnalyzeBacklinkToxicity` | server/services/dataforseo.ts:157-176 | The loop returns `Toxicity`: the sum of the per-link scores. |
| `DataForSEO.ToxicityBounds` | server/services/dataforseo.ts:157-176 | 0 <= toxicity <= 3 · number of links. |
| `DataForSEO.ToxicityAppend` | server/services/dataforseo.ts:160-173 | Links are scored independently: toxicity(a + b) = toxicity(a) + toxicity(b). |
| `DataForSEO.LowRankLowTrustExample` | server/services/dataforseo.ts:166-171 | A rank-5 link with anchor "buy" from "x.xyz" scores 2: low rank plus low-trust domain. |
| `DataForSEO.SpamAnchorIgnoresCase` | server/services/dataforseo.ts:162-169 | The anchor "Best CASINO bonus" is flagged, because the anchor is lower-cased before the substring test. |
| `JsMath.RoundDiv` | server/services/auditEngine.ts:196 | The result `r` satisfies 2nr <= 2x + n < 2nr + 2n, so it is the nearest integer to x / n, with halves rounded up. |
| `JsMath.RoundDivBetween` | server/services/auditEngine.ts:196 | A rounded mean of values in [lo, hi] lies in [lo, hi]. |
| `OnPage.MobileScore` | server/services/auditEngine.ts:173 | The score is 100 or 50. It is 100 exactly when the summary has `mobile_friendly` set to true. |
| `OnPage.TallyCounts` | server/services/auditEngine.ts:127-135 | The count map the loop builds, adding one to a value's count or starting it at one, has exactly the inserted values as keys, and each count is the number of times the value occurs. |
| `OnPage.RepeatedKeysOfTally` | server/services/auditEngine.ts:155-160 | The keys whose count is above one are exactly the values that occur more than once. |
| `OnPage.CountRepeatedKeys` | server/services/auditEngine.ts:155-160 | The loop over the map's entries returns the number of keys whose count is above one. |
| `OnPage.ScanPages` | server/services/auditEngine.ts:105-152 | After the page loop, each counter is the number of pages that meet its test (status 404, status >= 500, falsy title, falsy description, no h1) or the sum of the page's term (images without alt, time to interactive). Each map is the tally of the truthy titles or descriptions. |
| `OnPage.AnalyzePages` | server/services/auditEngine.ts:104-174 | The aggregation returns `Metrics`: the per-metric definition. |
| `OnPage.ErrorCountsBounded` | server/services/auditEngine.ts:120-121 | No page is both a 404 and a 5xx, so errors404 + errors5xx <= totalPages, and both are non-negative. |
| `OnPage.MissingCountsBounded` | server/services/auditEngine.ts:124-141 | missingTitles, missingDescriptions and missingH1 each lie between 0 and totalPages. |
| `OnPage.TallyTotal` | server/services/auditEngine.ts:127-135 | A count map's counts add up to the number of values inserted. |
| `OnPage.TitlesAccountedFor` | server/services/auditEngine.ts:124-129 | missingTitles + (sum of the title map's counts) = number of pages. |
| `OnPage.DescriptionsAccountedFor` | server/services/auditEngine.ts:131-136 | missingDescriptions + (sum of the description map's counts) = number of pages. |
| `OnPage.DuplicateTitlesCountValues` | server/services/auditEngine.ts:155-157 | The titles A, A, A, B give duplicateTitles = 1: repeated values are counted, not occurrences. |
| `OnPage.AvgLoadTimeEmpty` | server/services/auditEngine.ts:172 | With no pages, the average load time is 0. |
| `OnPage.AvgLoadTimeExample` | server/services/auditEngine.ts:172 | Timings of 100, 200 and 300 ms average to 200. |
| `OnPage.AvgLoadTimeCountsUntimedPages` | server/services/auditEngine.ts:149-172 | The divisor counts every page: 300 ms on one of two pages averages to 150. |
| `OnPage.AvgLoadTimeBetween` | server/services/auditEngine.ts:172 | With every timing in [0, hi], the average lies in [0, hi]. |
| `AuditEngine.WaitFrom` | server/services/auditEngine.ts:271-284 | Each poll is made before the deadline. A timeout happens only once the elapsed time has reached the timeout. `Ready` means the last poll listed the task with status code 20000. `PollFailed` means the last poll's reply was not ok, and the error carries its status. |
| `AuditEngine.WaitedWhileRunning` | server/services/auditEngine.ts:275-281 | Every poll before the last one succeeded and found the task not yet finished. So the wait returns at the first poll that reports the task finished. |
| `AuditEngine.PollsBounded` | server/services/auditEngine.ts:272-281 | Under a steady clock, (polls - 1) · interval < timeout. |
| `AuditEngine.CrawlWaitAtMostTwelvePolls` | server/services/auditEngine.ts:99 | The crawl wait (60000 ms timeout, 5000 ms interval) polls at most 12 times. |
| `AuditEngine.NeverReadyTimesOutAfterTwelvePolls` | server/services/auditEngine.ts:271-284 | With polls that take no time and a task that is never listed, the wait times out after exactly 12 polls. |
| `AuditEngine.Engine.WaitForTask` | server/services/auditEngine.ts:271-284 | The `while` loop returns what `WaitFrom` specifies. |
| `AuditEngine.CalculateAvgRank` | server/services/auditEngine.ts:193-197 | 0 for no backlinks. Otherwise the mean rank, with a missing rank counted as 0, rounded to the nearest integer with halves rounded up. |
| `AuditEngine.AvgRankWithinRanks` | server/services/auditEngine.ts:195-196 | The average rank lies within the range of the ranks. |
| `AuditEngine.AvgRankCountsMissingRankAsZero` | server/services/auditEngine.ts:195 | Ranks 10, missing and 21 average to 31 / 3, which rounds to 10. |
| `AuditEngine.AvgRankRoundsHalfUp` | server/services/auditEngine.ts:196 | Ranks 1 and 2 average to 2. |
| `AuditEngine.BacklinkPhase` | server/services/auditEngine.ts:177-191 | The phase succeeds exactly when both replies are ok. A failing summary request is reported before a failing backlink request. On success, the four counts are those of `GetBacklinkSummary`, toxicLinks is `Toxicity` of the link list (so 0 <= toxicLinks <= 3 · number of links), and avgDomainRank is `CalculateAvgRank` of the links. |
| `AuditEngine.Engine.RunBacklinkAudit` | server/services/auditEngine.ts:177-191 | Returns what `BacklinkPhase` specifies. |
| `AuditEngine.SummaryPhase` | server/services/auditEngine.ts:266-268 | Fails exactly when the call fails or the content is not JSON. No content gives three empty lists. A null document is passed on as `None`, and only a null document gives `None`. |
| `AuditEngine.OnPagePhase` | server/services/auditEngine.ts:95-102 | A crawl that does not start, a poll that fails and a timeout each fail the phase with their own error. After a `Ready` wait, a summary reply that is not ok fails with its status; otherwise a pages reply that is not ok fails with its status; two ok replies succeed. On success, the crawl started, the wait ended `Ready`, and the metrics are `Metrics` of the page list and the summary. |
| `AuditEngine.Engine.RunOnPageAudit` | server/services/auditEngine.ts:95-175 | Returns what `OnPagePhase` specifies. |
| `AuditEngine.ApplyPatch` | server/services/auditEngine.ts:38-85 | None of the three status writes (running, completed, failed) sets `pending`. Each sets exactly the columns it names. |
| `AuditEngine.PatchAudit` | server/db.ts:150-154 | An update keyed by id changes only that row, and changes nothing when there is no such row. |
| `AuditEngine.PatchReport` | server/db.ts:170-174 | An update keyed by auditId replaces only that report, and changes nothing when there is no such row. |
| `AuditEngine.CreateReportError` | server/db.ts:157-161 | The insert succeeds exactly when the write works and no report exists for the audit. A report that already exists fails as a duplicate, because auditId is unique (drizzle/schema.ts line 68). |
| `AuditEngine.AuditStore.UpdateAudit` | server/db.ts:150-154 | Succeeds exactly when the write is not broken. Only the audits table changes, as `PatchAudit` says. |
| `AuditEngine.AuditStore.CreateAuditReport` | server/db.ts:157-161 | Inserts the empty report exactly when `CreateReportError` reports no error, and leaves the audits table unchanged. |
| `AuditEngine.AuditStore.UpdateAuditReport` | server/db.ts:170-174 | Succeeds exactly when the write is not broken. Only the reports table changes, as `PatchReport` says. |
| `AuditEngine.CreditsCharged` | server/services/auditEngine.ts:49-58 | A run adds 0, 250, 295 or 345 credits. The result reports the counter. A successful run adds 345. |
| `AuditEngine.CompletedIffEverythingSucceeds` | server/services/auditEngine.ts:36-79 | A run succeeds exactly when four things hold: every write of the try block works, no report row exists yet, all three phases succeed, and the analysis is not null. The audit row then ends completed, with both timestamps and 345 more credits, and the report holds the three phases' results. |
| `AuditEngine.EndsInTerminalState` | server/services/auditEngine.ts:70-92 | When the catch block's write works, the run resolves. The audit row then ends completed or failed, as the result says, with the credit counter and the completion time. |
| `AuditEngine.NeverBackToPending` | server/services/auditEngine.ts:36-93 | The run never writes `pending`. A pending row after the run is the untouched row. |
| `AuditEngine.OnlyOwnRowsChange` | server/services/auditEngine.ts:36-93 | Only the audit's own row and its own report row change. |
| `AuditEngine.FailedPhaseKeepsEarlierCredits` | server/services/auditEngine.ts:48-92 | Suppose the audit is running and its empty report exists. A failing on-page phase then leaves 0 more credits, a failing backlink phase 250, and a failing summary 295. The report stays empty, and the result carries the phase's error. |
| `AuditEngine.CrawlTimeoutFailsAudit` | server/services/auditEngine.ts:49-50 | A crawl that is not reported finished before the deadline fails the audit with `TaskTimeout` and no credits charged, and the report stays empty. |
| `AuditEngine.NullAnalysisFailsFullyCharged` | server/services/auditEngine.ts:57-64 | A null analysis throws when its lists are read, after the summary phase was charged. The audit fails with 345 more credits and an empty report. |
| `AuditEngine.Engine.constructor` | server/services/auditEngine.ts:23-34 | A new engine has its audit id and domain, and a zero credit counter. |
| `AuditEngine.Engine.TryFullAudit` | server/services/auditEngine.ts:37-79 | The error, the credit counter and the two tables are those `TryAudit` specifies. |
| `AuditEngine.Engine.RunPhasesAndSave` | server/services/auditEngine.ts:48-74 | The error, the credit counter and the two tables are those `RunPhases` specifies. |
| `AuditEngine.Engine.RunFullAudit` | server/services/auditEngine.ts:36-93 | The result, the credit counter and the two tables are those `Orchestrate` specifies for the observed phase results. |
| `NewAudit.Trim` | client/src/pages/NewAudit.tsx:35 | The result is a slice of the input with only whitespace around it, and has no whitespace at either end. |
| `NewAudit.TrimUnique` | client/src/pages/NewAudit.tsx:35 | That slice is unique: it runs from the first to the last non-whitespace character. |
| `NewAudit.TrimIdempotent` | client/src/pages/NewAudit.tsx:35 | Trimming twice equals trimming once. |
| `NewAudit.StripProtocol` | client/src/pages/NewAudit.tsx:36 | The regex removes a leading "https://" if there is one, otherwise a leading "http://" if there is one, and otherwise nothing. |
| `NewAudit.StripTrailingSlash` | client/src/pages/NewAudit.tsx:37 | The regex removes one trailing "/" if there is one, and otherwise nothing. |
| `NewAudit.StripsToSlice` | client/src/pages/NewAudit.tsx:36-37 | Both removals together leave the slice of their input at offset 0, 7 or 8, at most 9 characters shorter. |
| `NewAudit.CleanDomain` | client/src/pages/NewAudit.tsx:35-37 | The cleaned domain is a slice of the trimmed input at offset 0, 7 or 8, at most 9 characters shorter. |
| `NewAudit.HandleSubmit` | client/src/pages/NewAudit.tsx:29-44 | An empty input is rejected as missing, and only an empty input is. A non-empty input that cleans to "" is rejected as invalid. Every other input submits exactly its cleaned domain, which is no longer than the input. |
| `NewAudit.StripsOneProtocol` | client/src/pages/NewAudit.tsx:36 | "http://http://a" submits "http://a": only one protocol prefix is removed. |
| `NewAudit.CleaningNotIdempotent` | client/src/pages/NewAudit.tsx:37 | "a.com//" cleans to "a.com/", which cleans to "a.com": cleaning is not idempotent. |
| `NewAudit.RejectedInputs` | client/src/pages/NewAudit.tsx:29-42 | "" is rejected as missing. "   " and "https://" are rejected as invalid. |
| `NewAudit.CleansTypicalInput` | client/src/pages/NewAudit.tsx:35-44 | " https://example.com/\n" submits "example.com". |
| `NewAudit.WhitespaceBehindProtocolSurvives` | client/src/pages/NewAudit.tsx:35-36 | Trimming comes before the protocol is removed, so "http:// a.com" submits " a.com". |
| `NewAudit.CleanDomainTrimmed` | client/src/pages/NewAudit.tsx:35-37 | When the trimmed input has no protocol prefix and no trailing slash, the cleaned domain has no whitespace at either end. |

## Left out

- HTTP, Basic authentication and `fetch` in `makeRequest` are not modelled. Each request is represented by the decoded reply it received: its status and its `tasks` array. Two error paths of the source therefore have no `Reply` of their own: a `fetch` that rejects (server/services/dataforseo.ts:47) and a body that is not JSON, where `response.json()` throws (line 53). Both fail the phase exactly as a reply that is not ok does, so `HttpError` stands in for them.
- The request payloads are not modelled, including `max_crawl_pages`, the limit of 100 for `getBacklinks` and the other request options. The replies are inputs, so the options have no effect in the model.
- `getOnPageSummary`, `getOnPagePages` and `getBacklinks` are modelled only as taking the first task's first result or its result list, with `null` or `[]` as the fallback (`DataForSEO.GetOnPageSummary`, `DataForSEO.GetResultList`). The records themselves are inputs.
- `getReferringDomains` and `checkKeywordRankings` are not modelled. The audit never calls the first, and the second is a placeholder.
- The language model call, its prompt, `JSON.parse` and `JSON.stringify` are not modelled. The reply is an input (`AuditEngine.LlmReply`) that can fail, be empty, not be JSON, be `null`, or be the requested object.
- An analysis object that parses but lacks one of its lists is not modelled: the source then stores `undefined` for that column.
- The `rawData` column and the JSON text of the three lists are not modelled. The report holds the phase results themselves.
- Error messages are not modelled. Errors are the tags of `AuditEngine.AuditError` and `DataForSEO.ApiFailure`.
- `Date.now()`, `new Date()` and `setTimeout` are not modelled as real time. They are integer readings supplied as inputs.
- `AuditEngine.WaitFrom` requires `ClockSteady`: readings never go back, and loop tests are at least one interval apart. A clock that did not advance would make the source loop forever, and the model does not cover such a clock. `AuditEngine.Engine.RunFullAudit` and the phase functions carry the same precondition.
- `AuditEngine.Observe` computes every phase's result up front. This is equivalent to the run because every request has its own reply, so a phase the run does not reach cannot change the outcome. The methods of `Engine` do perform the phases in the source's order.
- Concurrency is not modelled. The router launches `runFullAudit` without waiting for it, and two runs of the same audit could interleave.
- `Text.Lower` lowers ASCII letters only. JavaScript's `toLowerCase` also lowers other Unicode letters. Only ASCII letters matter to the spam words and the domain suffixes.
- The schema's column types are not modelled: integers are unbounded. Only the zero defaults of a new report (`AuditEngine.EmptyReport`) and the uniqueness of its audit id are kept.
- The form's rendering, its toasts and the mutation call are not modelled. `NewAudit.HandleSubmit` returns what would be submitted.
- CleanDomain: the result is free of surrounding whitespace only when the trimmed input has no protocol prefix and no trailing slash (`NewAudit.CleanDomainTrimmed`). Whitespace behind a prefix survives (`NewAudit.WhitespaceBehindProtocolSurvives`), so the unconditional statement does not hold of the code.
- DataForSEO.LinkScore: the per-rule points are stated as the 0 and 3 cases and the bounds, not as a separate lemma per rule. The sum of the three rule indicators is the definition itself.

# SmartPrompt analysis core, in Dafny

SmartPrompt scores a prompt for a language model and proposes a rewording.
The scoring runs in two near-copies: the Chrome extension's service worker
(`background.js`) and the Next.js API route (`pages/api/analyze.js`). Both
do the same work:

- tokenize the prompt and route it on its token count: over the limit, already
  in the optimal band, cut into chunks, or sent in one call;
- call the model once per chunk, with a template chosen by the chunk's
  position and a per-chunk word target;
- normalise every answer with the fail-soft `validateUnifiedResponse`;
- merge the chunk results: the mean accuracy rounded to one decimal, the union
  of the suggestions, and the rewordings joined by a blank line.

The worker also keeps two pieces of module state: a per-sender rate-limit
map and a reference count on the cached tokenizer. The API route keeps its
tokenizer in a module-level cache.

Modules, one file each:

- `Json` (json.dfy): the values `JSON.parse` yields and the field access and
  truthiness the validator relies on.
- `Text` (text.dfy): trimming, the blockquote test, first-seen deduplication
  (a JavaScript `Set` read back in insertion order), and joining.
- `Config` (config.dfy): `MODEL_CONFIG`, `Math.round`, and the routing decision.
- `Planner` (planner.dfy): `Math.ceil(n / 9820)` chunks, and their slices.
- `Composer` (composer.dfy): template selection and the two word-target formulas.
- `Validator` (validator.dfy): `validateUnifiedResponse`.
- `Aggregator` (aggregator.dfy): how the chunk results are merged.
- `ChunkLoop` (chunk_loop.dfy): the `for` loop over chunks, shared by both entry
  points and parameterised by which one runs it. It is specified by the
  function `RunAll` and implemented as the method `RunChunks`.
- `BackgroundWorker` (background.dfy): the worker's state as a class `Worker`,
  with `handlePromptAnalysis` specified by the function `Handle`.
- `AnalyzeApi` (analyze_api.dfy): the API route's tokenizer cache as a class
  `Server`, with `handler` specified by the function `Respond`.

The tokenizer (`encode`, `decode`), the model call and `JSON.parse` are
function parameters. The stored API key, `sender.origin` and `Date.now()`
are method parameters. A model call answers either a JSON value or a thrown
error message.

Where the two entry points differ, the model follows each file:

- The word target is `round((9820 / C) * 4 / 3)` in the worker but
  `round((9820 / (C || 1)) * 0.75)` in the route.
- Only the worker re-checks the chunk size.
- The worker's `processChunk` returns the whole API envelope, an object, so the
  validator answers the neutral result for every call.
- The route validates the model's text, then validates that result again, and
  also validates `finalResponse`, all of them objects. So every 200 body is
  the neutral result, or the `no_optimization_needed` answer of the optimal
  band.
- The worker's error responses report `tokenCount: 0`: the catch block sees
  the outer `let tokenCount = 0`, which the inner declaration shadows.
- The route's catch block names a `tokenCount` that is not in scope there.
  It throws, and the framework answers its own 500.

Where the system's written description and its code differ, the model
follows the code. For instance, a successful analysis here carries the
neutral figures, not the model's, and an error reports no token count.

Two defects of the worker are the exception (see "## Findings"). As written,
`background.js` throws while the module loads, because line 21 reads names
that are never declared, and the chunked route throws after its first call,
because `result` at lines 261-267 is never declared. `Handle`, `Answer` and
`RunChunks` model the evidently intended worker instead: the thresholds are
read through `MODEL_CONFIG` and `result` is a declared local. The behaviour
as written is modelled only by `ResolveThresholds`, `ThresholdsAsWritten`,
`ChunkedAsWritten` and `ChunkedAsWrittenStops`.

## Model

| member | source | states |
|---|---|---|
| Json.MemberOf | background.js:324-328 | `m?.k` on a possibly missing value answers a value exactly when `m` is present, is an object, and has the key, and that value is the field stored under the key |
| Json.Truthy | background.js:338 | definition: JavaScript truthiness, under which `null`, `false`, `0` and `""` (and a missing field) are falsy and everything else, `[]` and `{}` included, is truthy |
| Text.TrimStart | background.js:344 | the result is a suffix of the input; what was dropped is all whitespace; the result does not start with whitespace |
| Text.TrimEnd | background.js:344 | the result is a prefix of the input; what was dropped is all whitespace; the result does not end with whitespace |
| Text.Trim | background.js:344 | `String.prototype.trim` yields a trimmed string that occurs in its input with only whitespace before and after it |
| Text.TrimFixedPoint | background.js:344 | trimming leaves a string unchanged exactly when it is already trimmed, in both directions |
| Text.Dedup | background.js:337-341 | `[...new Set(xs)]` has no duplicates, the same members as `xs`, and is no longer |
| Text.DedupFirstSeenOrder | background.js:337-341 | the Set keeps elements in the order of their first occurrence in `xs` |
| Text.DedupOfDistinct | background.js:337-341 | a duplicate-free sequence passes through the Set unchanged |
| Text.NonBlank | background.js:153 | definition: the prompt guard `!prompt \|\| prompt.trim().length === 0`, and `!prompt?.trim()` at pages/api/analyze.js:176, passes exactly a present prompt that is not whitespace only |
| Text.HasBlockquote | background.js:317 | definition: `s.includes("> ")` |
| Text.Join | background.js:276 | definition: `join(sep)`, whose properties `JoinLength` and `JoinOfEmpties` state |
| Text.JoinLength | background.js:276 | `join(sep)` of k strings has their total length plus k - 1 separators |
| Text.JoinOfEmpties | background.js:276 | joining k empty strings gives k - 1 separators |
| Config.Round | background.js:274 | `Math.round` gives the integer within half of x, halves rounded up |
| Config.Clamp | background.js:335 | `Math.max(lo, Math.min(hi, x))` lies in `[lo, hi]`: it is x itself when x is in range, `lo` below the range and `hi` above it |
| Config.RouteFor | background.js:176-283 | definition: the routing decision, with the branches in source order (token limit, no-optimisation band, chunking, single call), the same as pages/api/analyze.js:189-201; `RouteRanges` states what it decides |
| Config.RouteRanges | background.js:172-241 | the four branches, tested in source order, are exactly the disjoint ranges `n >= 120000`, `[3615, 6025]`, `[9820, 120000)` and the rest |
| Config.NoOptimizationBandIntegral | pages/api/analyze.js:193 | the band `0.75 * 4820 <= n <= 1.25 * 4820` is `4n >= 3 * 4820 && 4n <= 5 * 4820` |
| Planner.ChunkCount | background.js:173 | `ceil(n / 9820)`: the least count of 9820-token chunks that covers n tokens |
| Planner.Chunk | background.js:250-253 | every slice is non-empty and at most 9820 tokens long |
| Planner.Chunks | background.js:249-253 | the chunks partition the tokens: one non-empty slice of at most 9820 tokens per planned chunk, in index order, whose concatenation gives back exactly the token sequence |
| Planner.ChunksContiguous | background.js:250-251 | chunk 0 starts at 0, each chunk starts where the previous one ends, and the last ends at n |
| Planner.ConcatPrefix | background.js:249-253 | the first k slices, concatenated, are the first `min(k * 9820, n)` tokens |
| Planner.ChunkCountOnChunkedRoute | background.js:241 | the chunked route has between 1 and 13 chunks |
| Composer.SelectTemplate | background.js:185-192 | definition: the template chosen from the chunk flags, the same code as pages/api/analyze.js:113-121; `ChunkTemplatesByPosition` and `UnchunkedIsRegular` state its properties |
| Composer.BackgroundWords | background.js:174 | the worker's target is `(9820 * 4) / (3C)` rounded to the nearest integer |
| Composer.AnalyzeWords | pages/api/analyze.js:109 | the route's target is `9820 * 0.75 / C` rounded, with a missing or zero C read as 1 |
| Composer.BackgroundChunkTemplate | background.js:261-267 | definition: the flags `(true, true, false)` for chunk 0, `(true, false, true)` for the last chunk and `(true, false, false)` otherwise, with the worker's word target; `ChunkTemplatesByPosition` states the template it selects |
| Composer.AnalyzeChunkTemplate | pages/api/analyze.js:216-223 | definition: the `chunkInfo` flags `isBegin: i === 0` and `isEnd: i === CHUNKS - 1`, with the route's word target; `ChunkTemplatesByPosition` states the template it selects |
| Composer.ChunkTemplatesByPosition | background.js:185-192 | chunk 0 gets the begin template even when it is the only chunk, the last chunk the end template, the others the middle one, each with `(i, C)` and its file's word target |
| Composer.UnchunkedIsRegular | pages/api/analyze.js:113-121 | a call that is not chunked gets the regular template, whatever the position flags are |
| Composer.WordTargetsShrink | background.js:174 | more chunks never raise either word target |
| Composer.WordTargetsDiffer | pages/api/analyze.js:109 | for every reachable chunk count (1 to 13), the route asks for fewer words per chunk than the worker |
| Validator.AccuracyInput | background.js:335 | definition: the raw Accuracy as `Math.min` reads it, with a missing field or one of another type read as 0 |
| Validator.NormalizeAccuracy | background.js:334-336 | the accuracy is an integer in `[0, 100]`, within half of the raw value when that is in range, and 0 or 100 when it is outside |
| Validator.TakeThree | background.js:339 | `.slice(0, 3)` is the prefix of length `min(3, n)`: the whole array when it is that short, otherwise its first three entries |
| Validator.NonEmptyStrings | background.js:340 | the filter keeps exactly the non-empty strings, and nothing else |
| Validator.NonEmptyStringsAppend | background.js:340 | the filter works entry by entry, keeping order and multiplicity: filtering a concatenation gives the concatenation of the filtered parts |
| Validator.NonEmptyStringsSingle | background.js:340 | a single entry is kept exactly when it is a non-empty string, and is then kept once |
| Validator.NormalizeSuggestions | background.js:337-341 | a falsy field gives `[]`; a truthy non-array throws; otherwise there are at most three distinct non-empty suggestions, exactly the non-empty strings among the first three entries |
| Validator.SuggestionsFirstSeenOrder | background.js:337-341 | the suggestions keep the order of their first occurrence among the entries kept |
| Validator.RewordField | background.js:328 | definition: `content.Optimization?.Reword` |
| Validator.Normalize | background.js:321-346 | after parsing: success exactly when Reword is a string and the suggestions do not throw; the result is canonical, its rewording is the trimmed Reword, its suggestions are the normalised Suggestions, and its accuracy is the normalised Accuracy |
| Validator.Validate | background.js:310-355 | a non-string argument, a `"> "` blockquote, or a parse failure gives the neutral result; otherwise the normalised content, or the neutral result when normalising throws |
| Validator.ValidateCanonical | background.js:310-355 | whatever its argument, the validator answers a canonical result |
| Validator.NormalizeEncode | background.js:332-346 | normalising the serialisation of a canonical result gives that result back |
| Validator.ValidateIdempotent | pages/api/analyze.js:265-309 | validating again the text of an already validated result leaves it unchanged, when that text has no `"> "` and parses back to the result's serialisation |
| Aggregator.AccumulateAccuracy | background.js:268 | definition: `cumulative.accuracy += A / CHUNKS` over the results in chunk order, in exact arithmetic; `AccumulateIsScaledSum` states its value |
| Aggregator.AccumulateIsScaledSum | background.js:268 | adding `A / C` chunk by chunk gives the sum of the accuracies over C |
| Aggregator.RoundToTenth | background.js:274 | `Math.round(x * 10) / 10` is a multiple of 0.1 within 0.05 of x |
| Aggregator.AggregateAccuracy | background.js:268-274 | the merged accuracy is the equal-weight mean of the chunk accuracies, rounded to one decimal |
| Aggregator.AggregateAccuracyBounds | pages/api/analyze.js:225-231 | when every chunk accuracy is in `[0, 100]`, so is the merged one |
| Aggregator.AggregateAccuracyUniform | background.js:268-274 | chunks that all score v merge to exactly v |
| Aggregator.AllSuggestions | background.js:269 | definition: every chunk's suggestions in chunk order, the sequence `forEach(s => set.add(s))` adds |
| Aggregator.UnionSuggestions | background.js:269-275 | the merged suggestions have no duplicates, are exactly the suggestions of some chunk, and come in the order of their first occurrence across the chunks, chunk by chunk |
| Aggregator.UnionNotCapped | pages/api/analyze.js:226-232 | the union is not capped at three: two chunks with three distinct suggestions each give six |
| Aggregator.Rewords | background.js:270 | the rewordings are pushed one per chunk, in chunk order |
| Aggregator.AggregateOf | background.js:273-279 | definition: the merged result of all the chunks, whose parts the lemmas around it state |
| Aggregator.CumulativeOf | background.js:243-270 | definition: the `cumulative` object once the given results are folded in; `ChunkLoop.Fold` and `FinishFolded` state how the loop builds and finishes it |
| Aggregator.Finish | background.js:273-279 | definition: the final figures built from `cumulative` after the loop |
| Aggregator.FinishFolded | background.js:273-279 | the final figures built from `cumulative` after the loop are the merged result of all the chunks |
| Aggregator.AggregateOfNeutrals | background.js:268-276 | merging k neutral results gives accuracy 0, no suggestions, and k - 1 blank-line separators |
| ChunkLoop.ChunkTemplate | background.js:261-267 | definition: the template of chunk i, chosen by the entry point running the loop (pages/api/analyze.js:216-223 for the route) |
| ChunkLoop.ChunkRequest | background.js:250-267 | definition: the call made for chunk i, its template with the decoded text of its slice; `RunSent` and `BuildRequest` state where it is used |
| ChunkLoop.Step | background.js:249-271 | definition: one iteration on a run that has not stopped, which stops with the call's error or adds the validated answer; a step that does not stop adds exactly one result and one call |
| ChunkLoop.RunAll | background.js:249-271 | definition: the loop over every chunk, the specification `RunChunks` is proved against |
| ChunkLoop.RunPrefix | background.js:249-271 | a loop that has not stopped after k iterations holds k results and has made k calls |
| ChunkLoop.RunSent | background.js:249-267 | the j-th call is the request for chunk j, and there is at most one call per chunk |
| ChunkLoop.RunResults | pages/api/analyze.js:209-227 | a completed loop holds, in order, the validated answer to each chunk's call, and every call was answered |
| ChunkLoop.RunAbortsOnlyUpstream | background.js:257-259 | the loop stops only because its last call failed; the size re-check never fires |
| ChunkLoop.RunAllNeutral | background.js:262-266 | with no failed call and no string answer, the loop completes with the neutral result for every chunk |
| ChunkLoop.AbortedStays | background.js:249-271 | once a call has thrown, no later iteration runs |
| ChunkLoop.AddAll | background.js:269 | `forEach(s => set.add(s))` leaves the Set holding the first-seen deduplication of everything added so far |
| ChunkLoop.BuildRequest | background.js:250-259 | slicing chunk i and decoding it builds that chunk's request; the size check cannot fire |
| ChunkLoop.Fold | background.js:268-270 | folding one result into `cumulative` gives the `cumulative` of the results so far plus that one |
| ChunkLoop.ChunkIteration | background.js:250-270 | one pass of the loop body either stops the whole run with the error the call threw, or extends it by the validated answer |
| ChunkLoop.Outcome | background.js:273-281 | definition: a completed run answers the merged figures of its results; a stopped one the error that stopped it |
| ChunkLoop.RunChunks | background.js:241-279 | the imperative loop and the final figures give exactly the outcome and calls of the specification `RunAll` |
| BackgroundWorker.ApiKeyValid | background.js:149 | definition: a stored key of at least 32 characters that starts with `sk-` |
| BackgroundWorker.SenderId | background.js:158 | the sender id is never empty; a non-empty origin is its own id; `'unknown'` exactly when there is no origin, an empty one, or a literal `'unknown'` |
| BackgroundWorker.Throttled | background.js:159-160 | definition: the sender has a recorded timestamp that is truthy (not 0) and less than 1000 ms old |
| BackgroundWorker.GuardFailure | background.js:149-162 | no guard fails exactly when the key is valid, the prompt is not blank and the sender is not throttled; otherwise one of those three errors |
| BackgroundWorker.RateLimitAfter | background.js:163 | an accepted request records its time for its sender only; a refused one leaves the map unchanged |
| BackgroundWorker.ChunkedResponse | background.js:273-281 | definition: the `finalResponse` of a completed loop as a chunked analysis, or the catch block's `analysis_error` for the error that stopped it (background.js:296-303), with `tokenCount: 0` |
| BackgroundWorker.Answer | background.js:165-294 | definition: everything after the rate-limit entry on the prompt's tokens, the specification `AnswerTokens` is proved against |
| BackgroundWorker.Handle | background.js:141-294 | definition: `handlePromptAnalysis` as a whole, the specification `Worker.HandlePromptAnalysis` is proved against |
| BackgroundWorker.AnswerTokens | background.js:176-294 | the routing code after the tokenizer gives the response and calls of the specification `Answer` |
| BackgroundWorker.AnswerCalls | background.js:176-294 | no call over the limit or in the optimal band; one call with the whole prompt and the regular template on the single route; otherwise at most one call per chunk, in chunk order, with at most 13 chunks |
| BackgroundWorker.ChunkedEnvelopesAreNeutral | background.js:225-279 | since `processChunk` returns the API envelope, a chunked analysis whose calls all succeed reports accuracy 0, no suggestions, and only blank lines as its rewording |
| BackgroundWorker.SingleEnvelopeIsNeutral | background.js:283-293 | the same on the single route: the analysis is accuracy 0, no suggestions, and an empty rewording |
| BackgroundWorker.ErrorsReportNoTokens | background.js:296-303 | every `analysis_error` reports `tokenCount: 0` |
| BackgroundWorker.GuardsPrecede | background.js:149-162 | a bad key is reported whatever the prompt, then an empty prompt, then the rate limit, and none of them calls the model |
| BackgroundWorker.SecondRequestThrottled | background.js:157-163 | a second request from the same sender within 1000 ms is refused (unless the first was stamped at time 0), and other senders are unaffected |
| BackgroundWorker.Worker.constructor | background.js:102-131 | the worker starts with no senders recorded, no tokenizer, and no users |
| BackgroundWorker.Worker.GetEncoder | background.js:103-108 | the tokenizer is loaded after the call, and nothing else changes |
| BackgroundWorker.Worker.ReleaseEncoder | background.js:122-128 | one user fewer; the tokenizer is freed only when the count lands exactly on 0 |
| BackgroundWorker.Worker.OnSuspend | background.js:114-120 | suspending frees a live tokenizer and resets the count; a count with no tokenizer is left as it is |
| BackgroundWorker.Worker.Attempt | background.js:145-294 | the `try` block answers `Handle`; only a request that passes the guards records its time, loads the tokenizer and adds a user |
| BackgroundWorker.Worker.HandlePromptAnalysis | background.js:141-307 | the response and calls are `Handle`'s; the rate map is updated as `RateLimitAfter` says; the `finally` release leaves the count as `EncoderAfter` says |
| BackgroundWorker.Released | background.js:122-128 | definition: `releaseEncoder()` on the count and the tokenizer, the specification `Worker.ReleaseEncoder` is proved against |
| BackgroundWorker.EncoderAfter | background.js:304-306 | definition: the count after one request, with the `finally` release on every path |
| BackgroundWorker.EncoderBalanced | background.js:166-167 | a request that reaches the tokenizer, from a quiet worker, leaves the worker quiet with the tokenizer freed |
| BackgroundWorker.GuardFailureLeaks | background.js:304-306 | a request refused by a guard on a quiet worker still releases, driving the count to -1; any run of later requests that pass the guards then leaves the count at -1 and the tokenizer live |
| BackgroundWorker.IterateLeaked | background.js:122-128 | from a count of -1, any number of requests that pass the guards leave the count at -1 and the tokenizer live |
| BackgroundWorker.LeakScenario | background.js:149-167 | a refused request followed by an accepted one leaves the count at -1 and the tokenizer never freed |
| BackgroundWorker.ResolveThresholds | background.js:171-173 | evaluating the threshold names in order fails on the first name that is not bound, and succeeds exactly when all are bound |
| BackgroundWorker.ChunkedAsWritten | background.js:261-267 | definition: the chunked route as written, which stops at the undeclared `result` |
| BackgroundWorker.ThresholdsAsWritten | background.js:21 | as written, the bare `optimalTokenLen` is unbound, so evaluation fails on it |
| BackgroundWorker.ThresholdsIntended | background.js:5-11 | read through `MODEL_CONFIG`, the names give the constants the routing uses, and the limit is 120000 |
| BackgroundWorker.ChunkedAsWrittenStops | background.js:261-267 | as written, the chunked route makes one call and fails on the undeclared `result`; as intended, it calls every chunk and sends a chunked analysis |
| AnalyzeApi.Split | pages/api/analyze.js:168 | `split(' ')` gives at least one piece, and no piece contains the separator |
| AnalyzeApi.SplitJoin | pages/api/analyze.js:168 | joining the pieces with the separator gives the header back |
| AnalyzeApi.SplitFirst | pages/api/analyze.js:168 | text up to the first separator is the first piece, and the rest splits on its own |
| AnalyzeApi.SecondField | pages/api/analyze.js:168 | a header with no space splits into itself; otherwise the second piece is the text between the first space and the next space or the end |
| AnalyzeApi.AuthToken | pages/api/analyze.js:168-169 | a header with no space has no token; otherwise the token is the second space-separated field, none when that field is empty; a token is never empty and has no space |
| AnalyzeApi.AuthTokenOfBearer | pages/api/analyze.js:168-169 | `Bearer <token>` yields the token (none when it is empty), and a header with no space yields none |
| AnalyzeApi.ReachesEncoder | pages/api/analyze.js:166-178 | definition: a request passes the method, token and prompt checks, and so reaches `getEncoding`; `Server.Handler` states that the tokenizer is cached exactly then |
| AnalyzeApi.Respond | pages/api/analyze.js:149-262 | definition: `handler` as a whole, the specification `Server.Handler` is proved against |
| AnalyzeApi.FinalResponseJson | pages/api/analyze.js:230-236 | definition: the `finalResponse` object, the same shape as at pages/api/analyze.js:243-249, as the validator is handed it |
| AnalyzeApi.ChunkedResponse | pages/api/analyze.js:230-238 | status 200 exactly when the loop completed, and its body is then the neutral result; otherwise a 500 for the loop's error |
| AnalyzeApi.SingleResponse | pages/api/analyze.js:240-250 | status 200 exactly when the call was answered, and its body is then the neutral result; otherwise a 500 for the failed call |
| AnalyzeApi.AnswerPrompt | pages/api/analyze.js:189-251 | after the prompt check, the status is 200 or 500, and a 200 carries either the neutral result or `no_optimization_needed` |
| AnalyzeApi.AnswerTokens | pages/api/analyze.js:182-251 | the routing code after the tokenizer gives the response and calls of `AnswerPrompt` |
| AnalyzeApi.Server.constructor | pages/api/analyze.js:95 | the module starts with no tokenizer cached |
| AnalyzeApi.Server.GetEncoding | pages/api/analyze.js:97-103 | the tokenizer is cached after the call, and is built only when it was not already cached |
| AnalyzeApi.Server.Handler | pages/api/analyze.js:149-262 | the response and calls are `Respond`'s; the tokenizer is cached exactly when the request got past the method, token and prompt checks |
| AnalyzeApi.LoadsOnce | pages/api/analyze.js:97-103 | the first call builds the tokenizer and the second finds it cached |
| AnalyzeApi.ChecksPrecede | pages/api/analyze.js:166-178 | a non-POST request gets 405 whatever its headers; then a missing or empty bearer token gets 401; then a blank prompt gets a 500; no model call happens before all three pass |
| AnalyzeApi.SuccessBodyIsNeutral | pages/api/analyze.js:238-250 | every 200 body is the neutral result or `no_optimization_needed`; the status is always 200, 401, 405 or 500 |
| AnalyzeApi.AnswerCalls | pages/api/analyze.js:189-251 | no call over the limit or in the optimal band; one call with the whole prompt on the single route; otherwise at most one call per chunk, in chunk order |
| AnalyzeApi.ChunkedFailureStops | pages/api/analyze.js:216-228 | a 500 on the chunked route comes from the last call made, which failed, and no later chunk is called |

## Left out

- The tokenizer: `encoding_for_model`, `get_encoding`, WASM loading and
  `encoder.free()`. Encoding and decoding are opaque function parameters. In
  `pages/api/analyze.js`, `encoder.decode` returns bytes rather than text; the
  model treats its result as opaque text.
- The network and transport: `fetch`, the OpenAI client, `chrome.storage`,
  `chrome.runtime` messaging, `sendResponse` and `res.status().json()`. A
  model call is a function from the request to an answered JSON value or a
  thrown message. HTTP status codes and the response bodies are modelled.
- `JSON.parse` is a function parameter from text to an optional JSON value.
- JavaScript coercions: an `Accuracy` that is a string, an array or an object
  (coerced by `Math.min`, possibly to NaN) is read as 0. A non-string API key
  or prompt, which makes `startsWith` or `trim` throw, is not modelled: both
  are optional strings. `length` counts characters, not UTF-16 code units.
- Floating point: accuracies and word targets are exact reals. The drift of
  the repeated `+= A / C` and the decimal text `6426.666…` in the regular
  template are not modelled.
- The template prose is not modelled. Only the chosen template and its
  `(index, total, words)` parameters are.
- The CORS allow-list (`pages/api/analyze.js:152-163`) is HTTP plumbing.
- Timing: `Date.now()` is one parameter, so the worker's two separate reads
  at lines 160 and 163 are taken to be equal. `durationMs` is not modelled.
- The route's `RATE_LIMIT` map (`pages/api/analyze.js:146-147`) is never used.
  The validators' `isChunked` variable is never read.
- Concurrency: requests are handled one at a time. The interleaving of
  concurrent requests around the shared tokenizer count is not modelled.
- `next.config.js` is not part of this model: it is build configuration.
- The validator copy in `pages/api/analyze.js:265-309` is the same code as
  `background.js:310-355`, and is modelled once.
- A validator argument that is an array: it has `includes`, but it ends in
  the neutral result like every other non-string, which is what
  `Validator.Validate` states.
- NonEmptyStrings: its own contract states membership only; the order and
  multiplicity the filter keeps are stated by `NonEmptyStringsAppend` and
  `NonEmptyStringsSingle`.
- `Json.Member` is the definition of optional chaining `v?.k` on a present
  value; what callers rely on is stated by `MemberOf`.
- AnalyzeApi.Server.Handler: the body of the framework's own 500 page is not
  modelled. The response carries the error the `try` block threw as `Crashed`.

## Findings

| source | as written | input that shows it | evidently intended | confidence | as-written member | corrected member |
|---|---|---|---|---|---|---|
| background.js:21 | the regular template and the thresholds at lines 171-174 and 232 read the bare names `optimalTokenLen`, `maxOptimalTokenLen` and `max_tokens`; none is declared, so evaluating line 21 throws a ReferenceError while the module loads | loading the worker module | read them through `MODEL_CONFIG`, as `pages/api/analyze.js:185-193` does: limit 120000, band `[3615, 6025]`, chunk size 9820 | high; not executed | BackgroundWorker.ThresholdsAsWritten | BackgroundWorker.ThresholdsIntended |
| background.js:261-267 | `result = …` assigns a name that was never declared; in module (strict) code that throws once the first chunk's call has returned | any prompt of 9820 to 119999 tokens whose first call succeeds | a `const result` inside the loop, as in `pages/api/analyze.js:216`, so every chunk is called and merged | high; not executed | BackgroundWorker.ChunkedAsWrittenStops | ChunkLoop.RunChunks |

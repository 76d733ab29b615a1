/**
 * The extension's service worker (background.js): its module-level state,
 * namely the per-sender rate-limit map and the reference count of the
 * cached tokenizer, and `handlePromptAnalysis`, which checks a request,
 * routes it on its token count and answers it through `sendResponse`.
 *
 * The stored API key, `sender.origin`, `Date.now()`, the tokenizer and the
 * model are parameters.
 */
module BackgroundWorker {
  import opened Json
  import opened Text
  import opened Config
  import opened Planner
  import opened Composer
  import opened Validator
  import opened Aggregator
  import opened ChunkLoop

  /** RATE_LIMIT_WINDOW_MS: one request per sender per second. */
  const RateLimitWindowMs: int := 1000

  /** Why a request was answered with `type: 'analysis_error'`. */
  datatype Failure =
    | InvalidApiKey                          // background.js:149-151
    | EmptyPrompt                            // background.js:153-155
    | RateLimited                            // background.js:160-162
    | TooManyTokens(tokenCount: nat)         // background.js:176-178
    | OversizedChunk(index: int, size: int)  // background.js:257-259
    | ApiError(message: string)              // a model call threw
    | Undeclared(name: string)               // a ReferenceError

  /** What `sendResponse` is given. */
  datatype Response =
    | NoOptimizationNeeded(tokenCount: nat)
    | Analysis(accuracy: real, suggestions: seq<string>, reword: string, wasChunked: bool, tokenCount: nat)
    | AnalysisError(failure: Failure, tokenCount: nat)

  /** The response and, in order, the model calls made to produce it. */
  datatype Reply = Reply(response: Response, sent: seq<Request>)

  // ---------------------------------------------------------------------------
  // The guards of the `try` block

  /** The stored key passes `!apiKey || !apiKey.startsWith('sk-') || apiKey.length < 32`. */
  predicate ApiKeyValid(apiKey: Option<string>) {
    apiKey.Some? && |apiKey.value| >= 32 && apiKey.value[..3] == "sk-"
  }

  /** `sender?.origin || 'unknown'`: senders without an origin all share one entry. */
  function SenderId(origin: Option<string>): (id: string)
    ensures id != ""
    ensures origin.Some? && origin.value != "" ==> id == origin.value
    ensures id == "unknown" <==> origin.None? || origin.value == "" || origin.value == "unknown"
  {
    if origin.Some? && origin.value != "" then origin.value else "unknown"
  }

  /**
   * `lastRequest && Date.now() - lastRequest < RATE_LIMIT_WINDOW_MS`: a
   * sender with no entry, or whose entry is the falsy timestamp 0, is never
   * held back.
   */
  predicate Throttled(rateLimit: map<string, int>, id: string, now: int) {
    id in rateLimit && rateLimit[id] != 0 && now - rateLimit[id] < RateLimitWindowMs
  }

  /** The first guard that throws, in the order the `try` block tests them. */
  function GuardFailure(apiKey: Option<string>, prompt: Option<string>,
                        rateLimit: map<string, int>, id: string, now: int): (f: Option<Failure>)
    ensures f.None? <==> ApiKeyValid(apiKey) && NonBlank(prompt) && !Throttled(rateLimit, id, now)
    ensures f.Some? ==> f.value in {InvalidApiKey, EmptyPrompt, RateLimited}
  {
    if !ApiKeyValid(apiKey) then Some(InvalidApiKey)
    else if !NonBlank(prompt) then Some(EmptyPrompt)
    else if Throttled(rateLimit, id, now) then Some(RateLimited)
    else None
  }

  /** `RATE_LIMIT.set(senderId, Date.now())`, done only once every guard has passed. */
  function RateLimitAfter(rateLimit: map<string, int>, id: string, now: int, passed: bool): (m: map<string, int>)
    ensures passed ==> id in m && m[id] == now
    ensures forall other :: other != id ==> (other in m <==> other in rateLimit)
    ensures forall other :: other != id && other in m ==> m[other] == rateLimit[other]
    ensures !passed ==> m == rateLimit
  {
    if passed then rateLimit[id := now] else rateLimit
  }

  // ---------------------------------------------------------------------------
  // Routing and the response

  /** The chunk loop's outcome as `sendResponse` reports it; the catch block's `tokenCount` is the outer, never-assigned 0. */
  function ChunkedResponse(outcome: LoopOutcome, n: nat): Response {
    match outcome
    case Merged(a) => Analysis(a.accuracy, a.suggestions, a.reword, true, n)
    case Failed(ChunkTooLarge(i, size)) => AnalysisError(OversizedChunk(i, size), 0)
    case Failed(UpstreamError(m)) => AnalysisError(ApiError(m), 0)
  }

  /** A chunked run that completed holds one result per chunk, so at least one. */
  lemma RunAllNonEmpty(v: Variant, tokens: seq<int>, decode: seq<int> -> string,
                       llm: Request -> CallResult, parse: string -> Option<Json>)
    requires |tokens| >= MaxOptimalTokenLen
    ensures var run := RunAll(v, tokens, decode, llm, parse);
      run.Completed? ==> |run.results| == ChunkCount(|tokens|) >= 1
  {
  }

  /**
   * Everything after the rate-limit entry, on the prompt's tokens: the token
   * limit, the no-optimisation band, then the chunked loop or one call.
   */
  function Answer(prompt: string, tokens: seq<int>, decode: seq<int> -> string,
                  llm: Request -> CallResult, parse: string -> Option<Json>): Reply
  {
    var n := |tokens|;
    match RouteFor(n)
    case LimitExceeded => Reply(AnalysisError(TooManyTokens(n), 0), [])
    case NoOptimization => Reply(NoOptimizationNeeded(n), [])
    case Chunked =>
      RouteRanges(n);
      RunAllNonEmpty(Background, tokens, decode, llm, parse);
      var run := RunAll(Background, tokens, decode, llm, parse);
      Reply(ChunkedResponse(Outcome(run), n), run.sent)
    case Single =>
      var request := Request(Regular, prompt);
      match llm(request)
      case CallFailed(m) => Reply(AnalysisError(ApiError(m), 0), [request])
      case Answered(body) =>
        var result := Validate(body, parse);
        Reply(Analysis(result.accuracy as real, result.suggestions, result.reword, false, n), [request])
  }

  /** `handlePromptAnalysis` as a whole: the guards, then the answer on `encode(prompt)`. */
  function Handle(apiKey: Option<string>, prompt: Option<string>, rateLimit: map<string, int>, id: string, now: int,
                  encode: string -> seq<int>, decode: seq<int> -> string,
                  llm: Request -> CallResult, parse: string -> Option<Json>): Reply
  {
    match GuardFailure(apiKey, prompt, rateLimit, id, now)
    case Some(f) => Reply(AnalysisError(f, 0), [])
    case None => Answer(prompt.value, encode(prompt.value), decode, llm, parse)
  }

  // ---------------------------------------------------------------------------
  // The tokenizer's reference count

  /** `encoderUsers` and whether `encoder` holds a tokenizer not yet freed. */
  datatype EncoderState = EncoderState(users: int, live: bool)

  /** `releaseEncoder()`: one user fewer; the tokenizer is freed only when the count lands exactly on 0. */
  function Released(e: EncoderState): EncoderState {
    EncoderState(e.users - 1, e.live && e.users - 1 != 0)
  }

  /**
   * The count after one request: `getEncoder()` and `encoderUsers++` run
   * only once the guards have passed, but the `finally` block releases on
   * every path.
   */
  function EncoderAfter(e: EncoderState, reached: bool): EncoderState {
    if reached then Released(EncoderState(e.users + 1, true)) else Released(e)
  }

  /** From a quiet worker, a request that reaches the tokenizer leaves it quiet again, the tokenizer freed. */
  lemma EncoderBalanced(live: bool)
    ensures EncoderAfter(EncoderState(0, live), true) == EncoderState(0, false)
  {
  }

  /**
   * A request turned away by a guard still releases: from a quiet worker the
   * count drops to -1, and from then on no request brings it back to 0, so
   * the tokenizer each of them loads is never freed (until suspension).
   */
  lemma GuardFailureLeaks(live: bool, k: nat)
    ensures EncoderAfter(EncoderState(0, live), false) == EncoderState(-1, live)
    ensures Iterate(EncoderState(-1, live), k + 1) == EncoderState(-1, true)
  {
    IterateLeaked(live, k);
  }

  /** `k` requests in a row that all reach the tokenizer. */
  function Iterate(e: EncoderState, k: nat): EncoderState {
    if k == 0 then e else EncoderAfter(Iterate(e, k - 1), true)
  }

  lemma {:induction false} IterateLeaked(live: bool, k: nat)
    ensures Iterate(EncoderState(-1, live), k + 1) == EncoderState(-1, true)
  {
    if k > 0 {
      IterateLeaked(live, k - 1);
    }
  }

  /**
   * The `try` block after the tokenizer is taken: the token limit, the
   * no-optimisation band, then the chunked loop or the single call.
   */
  method AnswerTokens(prompt: string, tokens: seq<int>, decode: seq<int> -> string,
                      llm: Request -> CallResult, parse: string -> Option<Json>)
    returns (reply: Reply)
    ensures reply == Answer(prompt, tokens, decode, llm, parse)
  {
    var n := |tokens|;
    if n as real >= TokenLimit {
      return Reply(AnalysisError(TooManyTokens(n), 0), []);
    }
    if n as real >= OptimalTokenLen as real * 0.75 && n as real <= OptimalTokenLen as real * 1.25 {
      return Reply(NoOptimizationNeeded(n), []);
    }
    if n >= MaxOptimalTokenLen {
      var outcome, sent := RunChunks(Background, tokens, decode, llm, parse);
      reply := Reply(ChunkedResponse(outcome, n), sent);
    } else {
      var request := Request(Regular, prompt);
      var answer := llm(request);
      if answer.CallFailed? {
        return Reply(AnalysisError(ApiError(answer.message), 0), [request]);
      }
      var result := Validate(answer.body, parse);
      reply := Reply(Analysis(result.accuracy as real, result.suggestions, result.reword, false, n), [request]);
    }
  }

  // ---------------------------------------------------------------------------
  // The worker's state

  class Worker {
    /** RATE_LIMIT: each sender's last accepted request time. */
    var rateLimit: map<string, int>
    /** encoderUsers. */
    var encoderUsers: int
    /** Whether `encoder` holds a tokenizer that has not been freed. */
    var encoderLive: bool

    function Encoder(): EncoderState
      reads this
    {
      EncoderState(encoderUsers, encoderLive)
    }

    /** The worker as it starts: no senders seen, no tokenizer, no users. */
    constructor ()
      ensures rateLimit == map[] && encoderUsers == 0 && !encoderLive
    {
      rateLimit := map[];
      encoderUsers := 0;
      encoderLive := false;
    }

    /** `getEncoder()`: loads the tokenizer on first use and keeps it. */
    method GetEncoder()
      modifies this
      ensures encoderLive
      ensures rateLimit == old(rateLimit) && encoderUsers == old(encoderUsers)
    {
      if !encoderLive {
        encoderLive := true;
      }
    }

    /** `releaseEncoder()`. */
    method ReleaseEncoder()
      modifies this
      ensures Encoder() == Released(old(Encoder()))
      ensures rateLimit == old(rateLimit)
    {
      encoderUsers := encoderUsers - 1;
      if encoderUsers == 0 && encoderLive {
        encoderLive := false;
      }
    }

    /** The `onSuspend` listener: frees a live tokenizer and resets the count; a count without a tokenizer is left as is. */
    method OnSuspend()
      modifies this
      ensures !encoderLive
      ensures encoderUsers == if old(encoderLive) then 0 else old(encoderUsers)
      ensures rateLimit == old(rateLimit)
    {
      if encoderLive {
        encoderLive := false;
        encoderUsers := 0;
      }
    }

    /** The `try` block of `handlePromptAnalysis`, up to the response it sends or the error it throws. */
    method Attempt(apiKey: Option<string>, prompt: Option<string>, origin: Option<string>, now: int,
                   encode: string -> seq<int>, decode: seq<int> -> string,
                   llm: Request -> CallResult, parse: string -> Option<Json>)
      returns (reply: Reply)
      modifies this
      ensures var id := SenderId(origin);
        var passed := GuardFailure(apiKey, prompt, old(rateLimit), id, now).None?;
        && reply == Handle(apiKey, prompt, old(rateLimit), id, now, encode, decode, llm, parse)
        && rateLimit == RateLimitAfter(old(rateLimit), id, now, passed)
        && encoderUsers == old(encoderUsers) + (if passed then 1 else 0)
        && encoderLive == (old(encoderLive) || passed)
    {
      if !ApiKeyValid(apiKey) {
        return Reply(AnalysisError(InvalidApiKey, 0), []);
      }
      if !NonBlank(prompt) {
        return Reply(AnalysisError(EmptyPrompt, 0), []);
      }
      var id := SenderId(origin);
      if Throttled(rateLimit, id, now) {
        return Reply(AnalysisError(RateLimited, 0), []);
      }
      rateLimit := rateLimit[id := now];
      GetEncoder();
      encoderUsers := encoderUsers + 1;
      var tokens := encode(prompt.value);
      reply := AnswerTokens(prompt.value, tokens, decode, llm, parse);
    }

    /** `handlePromptAnalysis`: the `try` block, then `releaseEncoder()` in `finally`. */
    method HandlePromptAnalysis(apiKey: Option<string>, prompt: Option<string>, origin: Option<string>, now: int,
                                encode: string -> seq<int>, decode: seq<int> -> string,
                                llm: Request -> CallResult, parse: string -> Option<Json>)
      returns (response: Response, sent: seq<Request>)
      modifies this
      ensures var id := SenderId(origin);
        var passed := GuardFailure(apiKey, prompt, old(rateLimit), id, now).None?;
        && Reply(response, sent) == Handle(apiKey, prompt, old(rateLimit), id, now, encode, decode, llm, parse)
        && rateLimit == RateLimitAfter(old(rateLimit), id, now, passed)
        && Encoder() == EncoderAfter(old(Encoder()), passed)
    {
      var reply := Attempt(apiKey, prompt, origin, now, encode, decode, llm, parse);
      ReleaseEncoder();
      response, sent := reply.response, reply.sent;
    }
  }

  // ---------------------------------------------------------------------------
  // Properties of the handler

  /**
   * The route decides how many calls are made: none for a prompt over the
   * limit or already in the optimal band, one carrying the whole prompt
   * otherwise below the chunk size, and on the chunked route at most one per
   * chunk, in chunk order, at most thirteen.
   */
  lemma AnswerCalls(prompt: string, tokens: seq<int>, decode: seq<int> -> string,
                    llm: Request -> CallResult, parse: string -> Option<Json>)
    ensures var r := Answer(prompt, tokens, decode, llm, parse);
      && (|tokens| >= 120000 ==> r == Reply(AnalysisError(TooManyTokens(|tokens|), 0), []))
      && (3615 <= |tokens| <= 6025 ==> r == Reply(NoOptimizationNeeded(|tokens|), []))
      && (|tokens| < 3615 || 6025 < |tokens| < 9820 ==> r.sent == [Request(Regular, prompt)])
      && (9820 <= |tokens| < 120000 ==>
            |r.sent| <= ChunkCount(|tokens|) <= 13
            && forall j :: 0 <= j < |r.sent| ==> r.sent[j] == ChunkRequest(Background, tokens, decode, j))
  {
    var n := |tokens|;
    RouteRanges(n);
    if RouteFor(n) == Chunked {
      ChunkCountOnChunkedRoute(n);
      RunSent(Background, tokens, decode, llm, parse, ChunkCount(n));
    }
  }

  /**
   * processChunk returns the whole API envelope (`response.json()`), an
   * object, and the validator answers the neutral result for anything that is
   * not a string. So when every call succeeds the chunked route reports
   * accuracy 0, no suggestions, and a rewording made only of the blank lines
   * between the empty per-chunk rewordings.
   */
  lemma ChunkedEnvelopesAreNeutral(prompt: string, tokens: seq<int>, decode: seq<int> -> string,
                                   llm: Request -> CallResult, parse: string -> Option<Json>)
    requires 9820 <= |tokens| < 120000
    requires forall q :: llm(q).Answered? && !llm(q).body.JStr?
    ensures Answer(prompt, tokens, decode, llm, parse).response
      == Analysis(0.0, [], Repeat(BlankLine, ChunkCount(|tokens|) - 1), true, |tokens|)
  {
    var run := RunAll(Background, tokens, decode, llm, parse);
    var merged := Aggregate(0.0, [], Repeat(BlankLine, ChunkCount(|tokens|) - 1));
    assert run.Completed? && run.results != [] && AggregateOf(run.results) == merged by {
      RouteRanges(|tokens|);
      RunAllNeutral(Background, tokens, decode, llm, parse);
      AggregateOfNeutrals(run.results);
    }
    assert Outcome(run) == Merged(merged);
    AnswerChunked(prompt, tokens, decode, llm, parse);
  }

  /** On the chunked route the answer is the loop's outcome. */
  lemma AnswerChunked(prompt: string, tokens: seq<int>, decode: seq<int> -> string,
                      llm: Request -> CallResult, parse: string -> Option<Json>)
    requires 9820 <= |tokens| < 120000
    ensures var run := RunAll(Background, tokens, decode, llm, parse);
      && (run.Completed? ==> run.results != [])
      && Answer(prompt, tokens, decode, llm, parse).response == ChunkedResponse(Outcome(run), |tokens|)
  {
    RouteRanges(|tokens|);
    RunAllNonEmpty(Background, tokens, decode, llm, parse);
  }

  /** The same on the single-call route: the envelope validates to the neutral result. */
  lemma SingleEnvelopeIsNeutral(prompt: string, tokens: seq<int>, decode: seq<int> -> string,
                                llm: Request -> CallResult, parse: string -> Option<Json>)
    requires |tokens| < 3615 || 6025 < |tokens| < 9820
    requires llm(Request(Regular, prompt)).Answered? && !llm(Request(Regular, prompt)).body.JStr?
    ensures Answer(prompt, tokens, decode, llm, parse).response == Analysis(0.0, [], "", false, |tokens|)
  {
    RouteRanges(|tokens|);
  }

  /**
   * Every `analysis_error` reports `tokenCount: 0`: the catch block sees the
   * outer `let tokenCount = 0`, which the inner `const tokenCount` shadows
   * and never assigns.
   */
  lemma ErrorsReportNoTokens(apiKey: Option<string>, prompt: Option<string>, rateLimit: map<string, int>,
                             id: string, now: int, encode: string -> seq<int>, decode: seq<int> -> string,
                             llm: Request -> CallResult, parse: string -> Option<Json>)
    ensures var r := Handle(apiKey, prompt, rateLimit, id, now, encode, decode, llm, parse).response;
      r.AnalysisError? ==> r.tokenCount == 0
  {
    if GuardFailure(apiKey, prompt, rateLimit, id, now).None? {
      AnswerErrorsReportNoTokens(prompt.value, encode(prompt.value), decode, llm, parse);
    }
  }

  /** The same past the guards: every error of the answer reports no tokens. */
  lemma AnswerErrorsReportNoTokens(prompt: string, tokens: seq<int>, decode: seq<int> -> string,
                                   llm: Request -> CallResult, parse: string -> Option<Json>)
    ensures var r := Answer(prompt, tokens, decode, llm, parse).response;
      r.AnalysisError? ==> r.tokenCount == 0
  {
    if RouteFor(|tokens|) == Chunked {
      AnswerChunked(prompt, tokens, decode, llm, parse);
    }
  }

  /**
   * The guards come first and in order: a bad key is reported whatever the
   * prompt, an empty prompt whatever the rate limit, and none of them calls
   * the model.
   */
  lemma GuardsPrecede(apiKey: Option<string>, prompt: Option<string>, rateLimit: map<string, int>,
                      id: string, now: int, encode: string -> seq<int>, decode: seq<int> -> string,
                      llm: Request -> CallResult, parse: string -> Option<Json>)
    ensures var r := Handle(apiKey, prompt, rateLimit, id, now, encode, decode, llm, parse);
      && (!ApiKeyValid(apiKey) ==> r == Reply(AnalysisError(InvalidApiKey, 0), []))
      && (ApiKeyValid(apiKey) && !NonBlank(prompt) ==> r == Reply(AnalysisError(EmptyPrompt, 0), []))
      && (ApiKeyValid(apiKey) && NonBlank(prompt) && Throttled(rateLimit, id, now) ==>
            r == Reply(AnalysisError(RateLimited, 0), []))
  {
  }

  /**
   * Within a second of an accepted request, the same sender is turned away
   * (unless its request was accepted at the falsy time 0), while other
   * senders are not affected.
   */
  lemma SecondRequestThrottled(rateLimit: map<string, int>, id: string, t: int, t': int, other: string)
    requires t != 0 && t' - t < RateLimitWindowMs
    requires other != id && !Throttled(rateLimit, other, t')
    ensures Throttled(RateLimitAfter(rateLimit, id, t, true), id, t')
    ensures !Throttled(RateLimitAfter(rateLimit, id, t, true), other, t')
  {
  }

  /**
   * A worker that first turns a request away (here a bad key) and then
   * answers one (here a prompt already in the optimal band) is left with a
   * count of -1 and a tokenizer that is never freed.
   */
  method LeakScenario() returns (users: int, live: bool)
    ensures users == -1 && live
  {
    var w := new Worker();
    var noTokens := (s: string) => [];
    var someTokens := (s: string) => seq(4000, i => 0);
    var decode := (ts: seq<int>) => "";
    var llm := (q: Request) => CallFailed("offline");
    var parse := (s: string) => None;
    var _, _ := w.HandlePromptAnalysis(None, Some("hello"), None, 5000, noTokens, decode, llm, parse);
    var key := "sk-" + seq(29, i => 'x');
    var _, _ := w.HandlePromptAnalysis(Some(key), Some("hello"), None, 9000, someTokens, decode, llm, parse);
    users, live := w.encoderUsers, w.encoderLive;
  }

  // ---------------------------------------------------------------------------
  // Undeclared identifiers (see README, Findings)

  /** The numeric values background.js can reach by name from its top level and from the handler. */
  const Scope: map<string, real> := map[
    "MODEL_CONFIG.max_tokens" := 128000.0,
    "MODEL_CONFIG.optimalTokenLen" := 4820.0,
    "MODEL_CONFIG.maxOptimalTokenLen" := 9820.0,
    "MODEL_CONFIG.temperature" := 0.4,
    "RATE_LIMIT_WINDOW_MS" := 1000.0]

  /** The names the thresholds are read from: line 21 (at module evaluation), then lines 171 and 172. */
  datatype ConfigNames = ConfigNames(optimal: string, maxOptimal: string, maxTokens: string)

  const WrittenNames: ConfigNames := ConfigNames("optimalTokenLen", "maxOptimalTokenLen", "max_tokens")
  const IntendedNames: ConfigNames :=
    ConfigNames("MODEL_CONFIG.optimalTokenLen", "MODEL_CONFIG.maxOptimalTokenLen", "MODEL_CONFIG.max_tokens")

  /** `optimalTokenLen`, `MAX_TOKENS_SINGLE` and `TOKEN_LIMIT`. */
  datatype Thresholds = Thresholds(optimal: real, maxTokensSingle: real, tokenLimit: real)

  datatype Resolution = Resolved(thresholds: Thresholds) | ReferenceError(name: string)

  /** Evaluating the threshold expressions in source order: the first unbound name throws. */
  function ResolveThresholds(names: ConfigNames): (r: Resolution)
    ensures r.Resolved? <==> names.optimal in Scope && names.maxOptimal in Scope && names.maxTokens in Scope
    ensures r.ReferenceError? ==> r.name !in Scope
    ensures names.optimal !in Scope ==> r == ReferenceError(names.optimal)
    ensures names.optimal in Scope && names.maxOptimal !in Scope ==> r == ReferenceError(names.maxOptimal)
    ensures names.optimal in Scope && names.maxOptimal in Scope && names.maxTokens !in Scope ==>
      r == ReferenceError(names.maxTokens)
  {
    if names.optimal !in Scope then ReferenceError(names.optimal)
    else if names.maxOptimal !in Scope then ReferenceError(names.maxOptimal)
    else if names.maxTokens !in Scope then ReferenceError(names.maxTokens)
    else
      var maxTokens := Scope[names.maxTokens];
      Resolved(Thresholds(Scope[names.optimal], Scope[names.maxOptimal], maxTokens - 0.0625 * maxTokens))
  }

  /** As written, the first bare name, in the template literal at line 21, throws while the module loads. */
  lemma ThresholdsAsWritten()
    ensures ResolveThresholds(WrittenNames) == ReferenceError("optimalTokenLen")
  {
  }

  /** Read through MODEL_CONFIG, as pages/api/analyze.js does, they are the constants the routing uses. */
  lemma ThresholdsIntended()
    ensures ResolveThresholds(IntendedNames)
      == Resolved(Thresholds(OptimalTokenLen as real, MaxOptimalTokenLen as real, TokenLimit))
    ensures TokenLimit == 120000.0
  {
  }

  /**
   * The chunk loop as written: `result = …` at lines 262-266 assigns an
   * undeclared name, which throws in module (strict) code once the first
   * chunk's call has returned. So at most one call is made and no chunked
   * analysis is ever sent.
   */
  function ChunkedAsWritten(tokens: seq<int>, decode: seq<int> -> string,
                            llm: Request -> CallResult): Reply
    requires |tokens| >= MaxOptimalTokenLen
  {
    var request := ChunkRequest(Background, tokens, decode, 0);
    match llm(request)
    case CallFailed(m) => Reply(AnalysisError(ApiError(m), 0), [request])
    case Answered(_) => Reply(AnalysisError(Undeclared("result"), 0), [request])
  }

  /**
   * On the chunked route, the loop as written sends one call and fails, while
   * the loop as intended (the one `Answer` uses) calls the model once per
   * chunk and sends the merged analysis when every call succeeds.
   */
  lemma ChunkedAsWrittenStops(prompt: string, tokens: seq<int>, decode: seq<int> -> string,
                              llm: Request -> CallResult, parse: string -> Option<Json>)
    requires 9820 <= |tokens| < 120000
    requires forall q :: llm(q).Answered?
    ensures var w := ChunkedAsWritten(tokens, decode, llm);
      |w.sent| == 1 && w.response == AnalysisError(Undeclared("result"), 0)
    ensures var r := Answer(prompt, tokens, decode, llm, parse);
      |r.sent| == ChunkCount(|tokens|) >= 1 && r.response.Analysis? && r.response.wasChunked
  {
    var n := |tokens|;
    RouteRanges(n);
    var k := ChunkCount(n);
    RunAbortsOnlyUpstream(Background, tokens, decode, llm, parse, k);
    var run := RunAll(Background, tokens, decode, llm, parse);
    assert run.Completed?;
  }
}

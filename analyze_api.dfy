/**
 * The Next.js API route (pages/api/analyze.js): `handler`, which checks the
 * HTTP method and the bearer token, then routes the prompt on its token
 * count exactly as the extension does, and the module-level cache of the
 * tokenizer (`getEncoding`).
 *
 * The tokenizer, the model (`callAnalysisAPI`'s OpenAI call) and
 * `JSON.parse` are parameters; CORS headers and `Date.now()` are not
 * modelled.
 */
module AnalyzeApi {
  import opened Json
  import opened Text
  import opened Config
  import opened Planner
  import opened Composer
  import opened Validator
  import opened Aggregator
  import opened ChunkLoop

  // ---------------------------------------------------------------------------
  // The bearer token

  /** `s.split(sep)` for a one-character separator: the pieces between separators, empty ones included. */
  function Split(s: string, sep: char): (parts: seq<string>)
    ensures |parts| >= 1
    ensures forall i :: 0 <= i < |parts| ==> sep !in parts[i]
  {
    if s == [] then [""] else Extend(Split(s[..|s| - 1], sep), s[|s| - 1], sep)
  }

  /** Reading one more character: a separator opens a new, empty piece; anything else extends the last piece. */
  function Extend(parts: seq<string>, c: char, sep: char): (r: seq<string>)
    requires |parts| >= 1
  {
    if c == sep then parts + [""] else parts[..|parts| - 1] + [parts[|parts| - 1] + [c]]
  }

  /** Splitting and joining back with the separator gives the string back. */
  lemma {:induction false} SplitJoin(s: string, sep: char)
    ensures Join(Split(s, sep), [sep]) == s
  {
    if s != [] {
      var p, c := s[..|s| - 1], s[|s| - 1];
      var init := Split(p, sep);
      SplitJoin(p, sep);
      assert p + [c] == s;
      if c == sep {
        assert (init + [""])[..|init|] == init;
      } else {
        var k := |init|;
        var parts := init[..k - 1] + [init[k - 1] + [c]];
        assert parts[..k - 1] == init[..k - 1];
        if k > 1 {
          assert Join(init, [sep]) == Join(init[..k - 1], [sep]) + [sep] + init[k - 1];
        }
      }
    }
  }

  /** A piece free of the separator splits to itself. */
  lemma {:induction false} SplitNoSeparator(s: string, sep: char)
    requires sep !in s
    ensures Split(s, sep) == [s]
  {
    if s != [] {
      SplitNoSeparator(s[..|s| - 1], sep);
      assert s[..|s| - 1] + [s[|s| - 1]] == s;
    }
  }

  /** Text after the last separator becomes the last piece. */
  lemma {:induction false} SplitAfterSeparator(a: string, sep: char, b: string)
    requires sep !in b
    ensures Split(a + [sep] + b, sep) == Split(a, sep) + [b]
  {
    if b == [] {
      assert (a + [sep])[..|a|] == a;
      assert a + [sep] + b == a + [sep];
    } else {
      var b' := b[..|b| - 1];
      SplitAfterSeparator(a, sep, b');
      assert (a + [sep] + b)[..|a + [sep] + b| - 1] == a + [sep] + b';
      assert b' + [b[|b| - 1]] == b;
    }
  }

  /** Text after the first separator splits into what follows it, with the text before it as the first piece. */
  lemma {:induction false} SplitFirst(a: string, sep: char, c: string)
    requires sep !in a
    ensures Split(a + [sep] + c, sep) == [a] + Split(c, sep)
  {
    if c == [] {
      SplitNoSeparator(a, sep);
      assert (a + [sep])[..|a|] == a;
      assert a + [sep] + c == a + [sep];
    } else {
      var c', x := c[..|c| - 1], c[|c| - 1];
      SplitFirst(a, sep, c');
      var u := a + [sep] + c;
      assert u[..|u| - 1] == a + [sep] + c';
      ExtendTail(a, Split(c', sep), x, sep);
    }
  }

  /** Extending pieces that start with `a` leaves `a` first. */
  lemma ExtendTail(a: string, parts: seq<string>, c: char, sep: char)
    requires |parts| >= 1
    ensures Extend([a] + parts, c, sep) == [a] + Extend(parts, c, sep)
  {
    if c != sep {
      var k := |parts|;
      assert ([a] + parts)[..k] == [a] + parts[..k - 1];
    }
  }

  /** A string holding the separator is cut at its first occurrence. */
  lemma {:induction false} FirstSeparator(s: string, sep: char) returns (a: string, c: string)
    requires sep in s
    ensures s == a + [sep] + c && sep !in a
  {
    if s[0] == sep {
      a, c := [], s[1..];
    } else {
      var a', c' := FirstSeparator(s[1..], sep);
      a, c := [s[0]] + a', c';
      assert s == [s[0]] + s[1..];
    }
  }

  /**
   * `t` is the second space-separated field of `s`: the text after the first
   * space, up to the next space or the end.
   */
  ghost predicate IsSecondField(s: string, t: string) {
    exists a, b :: FieldsAround(s, a, t, b)
  }

  /** `s` is `a`, a space, then `t`, with `b` starting at the next space or empty. */
  predicate FieldsAround(s: string, a: string, t: string, b: string) {
    s == a + " " + t + b && ' ' !in a && ' ' !in t && (b == "" || b[0] == ' ')
  }

  /** The first piece of `split(' ')` runs up to the first space or the end. */
  lemma FirstField(c: string) returns (t: string, b: string)
    ensures c == t + b && ' ' !in t && (b == "" || b[0] == ' ')
    ensures Split(c, ' ')[0] == t
  {
    if ' ' in c {
      var t', c' := FirstSeparator(c, ' ');
      SplitFirst(t', ' ', c');
      t, b := t', " " + c';
    } else {
      SplitNoSeparator(c, ' ');
      t, b := c, "";
    }
  }

  /** The second piece of `split(' ')` is the second field; a string with no space splits into one piece. */
  lemma SecondField(s: string)
    ensures ' ' !in s ==> Split(s, ' ') == [s]
    ensures ' ' in s ==> |Split(s, ' ')| >= 2 && IsSecondField(s, Split(s, ' ')[1])
  {
    if ' ' !in s {
      SplitNoSeparator(s, ' ');
    } else {
      var a, c := FirstSeparator(s, ' ');
      SplitFirst(a, ' ', c);
      var t, b := FirstField(c);
      assert Split(s, ' ')[1] == t;
      assert s == a + " " + t + b;
      assert FieldsAround(s, a, t, b);
    }
  }

  /**
   * `req.headers.authorization?.split(' ')[1]`, kept only when truthy
   * (`!authToken` answers 401): a header with no space has no token, and
   * otherwise the token is its second field, none when that is empty.
   */
  function AuthToken(authorization: Option<string>): (token: Option<string>)
    ensures token.Some? ==> token.value != "" && ' ' !in token.value
    ensures authorization.None? || ' ' !in authorization.value ==> token.None?
    ensures authorization.Some? && ' ' in authorization.value ==>
      exists t :: IsSecondField(authorization.value, t) && token == (if t == "" then None else Some(t))
  {
    if authorization.None? then None
    else
      var parts := Split(authorization.value, ' ');
      SecondField(authorization.value);
      if |parts| >= 2 && parts[1] != "" then Some(parts[1]) else None
  }

  /** `Bearer <token>` yields the token; a header with no space yields none. */
  lemma AuthTokenOfBearer(scheme: string, token: string)
    requires ' ' !in scheme && ' ' !in token
    ensures AuthToken(Some(scheme + " " + token)) == if token == "" then None else Some(token)
    ensures AuthToken(Some(scheme)) == None
  {
    SplitAfterSeparator(scheme, ' ', token);
    SplitNoSeparator(scheme, ' ');
  }

  // ---------------------------------------------------------------------------
  // Responses

  /** Why the `try` block threw. */
  datatype Cause =
    | EmptyPrompt                   // analyze.js:176-178
    | TooManyTokens(tokenCount: nat) // analyze.js:189-191
    | Upstream(error: LoopError)     // callAnalysisAPI rethrew a failed OpenAI call

  /**
   * What reaches the client. `Crashed` is the 500 the framework sends when
   * the handler itself throws: the catch block refers to `tokenCount`, which
   * is declared inside the `try` block and so is not in scope there, and
   * building its `analysis_error` body throws a ReferenceError; `cause` is
   * the error the `try` block threw.
   */
  datatype Body =
    | ErrorMessage(error: string)
    | NoOptimizationNeeded(tokenCount: nat)
    | Unified(result: ChunkResult)
    | Crashed(cause: Cause)

  datatype HttpResponse = HttpResponse(status: int, body: Body)

  /** The response and, in order, the model calls made to produce it. */
  datatype Exchange = Exchange(response: HttpResponse, sent: seq<Request>)

  /** `finalResponse`, as the object `validateUnifiedResponse` is handed at lines 238 and 250. */
  function FinalResponseJson(accuracy: real, suggestions: seq<string>, reword: string, wasChunked: bool, n: nat): Json {
    JObj(map[
      "accuracy" := JNum(accuracy),
      "suggestions" := JArr(StringsToJson(suggestions)),
      "reword" := JStr(reword),
      "wasChunked" := JBool(wasChunked),
      "tokenCount" := JNum(n as real)])
  }

  /** Lines 230-238, or the error the loop threw. */
  function ChunkedResponse(outcome: LoopOutcome, n: nat, parse: string -> Option<Json>): (r: HttpResponse)
    ensures r.status == 200 <==> outcome.Merged?
    ensures r.status == 200 ==> r.body == Unified(Neutral)
    ensures r.status != 200 ==> r == HttpResponse(500, Crashed(Upstream(outcome.error)))
  {
    match outcome
    case Failed(e) => HttpResponse(500, Crashed(Upstream(e)))
    case Merged(a) =>
      var final := FinalResponseJson(a.accuracy, a.suggestions, a.reword, true, n);
      HttpResponse(200, Unified(Validate(final, parse)))
  }

  /**
   * Lines 242-250: `callAnalysisAPI` validates the model's text and returns
   * the result object, which is validated again, copied into `finalResponse`
   * and validated a third time.
   */
  function SingleResponse(answer: CallResult, n: nat, parse: string -> Option<Json>): (r: HttpResponse)
    ensures r.status == 200 <==> answer.Answered?
    ensures r.status == 200 ==> r.body == Unified(Neutral)
    ensures r.status != 200 ==> r == HttpResponse(500, Crashed(Upstream(UpstreamError(answer.message))))
  {
    match answer
    case CallFailed(m) => HttpResponse(500, Crashed(Upstream(UpstreamError(m))))
    case Answered(body) =>
      var result := Validate(Encode(Validate(body, parse)), parse);
      var final := FinalResponseJson(result.accuracy as real, result.suggestions, result.reword, false, n);
      HttpResponse(200, Unified(Validate(final, parse)))
  }

  /** The routing part of the `try` block, on the prompt's tokens. */
  function AnswerPrompt(prompt: string, tokens: seq<int>, decode: seq<int> -> string,
                        llm: Request -> CallResult, parse: string -> Option<Json>): (x: Exchange)
    ensures x.response.status == 200 || x.response.status == 500
    ensures x.response.status == 200 ==>
      x.response.body == Unified(Neutral) || x.response.body == NoOptimizationNeeded(|tokens|)
    ensures x.response.body.Unified? ==> x.response.status == 200
  {
    var n := |tokens|;
    match RouteFor(n)
    case LimitExceeded => Exchange(HttpResponse(500, Crashed(TooManyTokens(n))), [])
    case NoOptimization => Exchange(HttpResponse(200, NoOptimizationNeeded(n)), [])
    case Chunked =>
      RouteRanges(n);
      var run := RunAll(Analyze, tokens, decode, llm, parse);
      assert run.Completed? ==> |run.results| == ChunkCount(n) >= 1;
      Exchange(ChunkedResponse(Outcome(run), n, parse), run.sent)
    case Single =>
      var request := Request(Regular, prompt);
      Exchange(SingleResponse(llm(request), n, parse), [request])
  }

  /** Whether a request gets past the method, token and prompt checks, and so loads the tokenizer. */
  predicate ReachesEncoder(httpMethod: string, authorization: Option<string>, prompt: Option<string>) {
    httpMethod == "POST" && AuthToken(authorization).Some? && NonBlank(prompt)
  }

  /** `handler(req, res)`: the method check, the token check, then the `try` block. */
  function Respond(httpMethod: string, authorization: Option<string>, prompt: Option<string>,
                   encode: string -> seq<int>, decode: seq<int> -> string,
                   llm: Request -> CallResult, parse: string -> Option<Json>): Exchange
  {
    if httpMethod != "POST" then Exchange(HttpResponse(405, ErrorMessage("Method not allowed")), [])
    else if AuthToken(authorization).None? then Exchange(HttpResponse(401, ErrorMessage("Unauthorized")), [])
    else if !NonBlank(prompt) then Exchange(HttpResponse(500, Crashed(EmptyPrompt)), [])
    else AnswerPrompt(prompt.value, encode(prompt.value), decode, llm, parse)
  }

  /**
   * The `try` block once the tokenizer is loaded: the token limit, the
   * no-optimisation band, then the chunked loop or the single call.
   */
  method AnswerTokens(prompt: string, tokens: seq<int>, decode: seq<int> -> string,
                      llm: Request -> CallResult, parse: string -> Option<Json>)
    returns (x: Exchange)
    ensures x == AnswerPrompt(prompt, tokens, decode, llm, parse)
  {
    var n := |tokens|;
    if n as real >= TokenLimit {
      return Exchange(HttpResponse(500, Crashed(TooManyTokens(n))), []);
    }
    if n as real >= OptimalTokenLen as real * 0.75 && n as real <= OptimalTokenLen as real * 1.25 {
      return Exchange(HttpResponse(200, NoOptimizationNeeded(n)), []);
    }
    if n >= MaxOptimalTokenLen {
      var outcome, sent := RunChunks(Analyze, tokens, decode, llm, parse);
      x := Exchange(ChunkedResponse(outcome, n, parse), sent);
    } else {
      var request := Request(Regular, prompt);
      var answer := llm(request);
      x := Exchange(SingleResponse(answer, n, parse), [request]);
    }
  }

  // ---------------------------------------------------------------------------
  // The route's state

  class Server {
    /** Whether the module-level `encoding` has been built. */
    var encodingLoaded: bool

    constructor ()
      ensures !encodingLoaded
    {
      encodingLoaded := false;
    }

    /** `getEncoding()`: builds the cl100k_base tokenizer on the first call and reuses it afterwards. */
    method GetEncoding() returns (loadedNow: bool)
      modifies this
      ensures encodingLoaded
      ensures loadedNow == !old(encodingLoaded)
    {
      loadedNow := !encodingLoaded;
      if loadedNow {
        encodingLoaded := true;
      }
    }

    /** `handler(req, res)`. */
    method Handler(httpMethod: string, authorization: Option<string>, prompt: Option<string>,
                   encode: string -> seq<int>, decode: seq<int> -> string,
                   llm: Request -> CallResult, parse: string -> Option<Json>)
      returns (response: HttpResponse, sent: seq<Request>)
      modifies this
      ensures Exchange(response, sent) == Respond(httpMethod, authorization, prompt, encode, decode, llm, parse)
      ensures encodingLoaded == (old(encodingLoaded) || ReachesEncoder(httpMethod, authorization, prompt))
    {
      sent := [];
      if httpMethod != "POST" {
        return HttpResponse(405, ErrorMessage("Method not allowed")), [];
      }
      var token := AuthToken(authorization);
      if token.None? {
        return HttpResponse(401, ErrorMessage("Unauthorized")), [];
      }
      if !NonBlank(prompt) {
        return HttpResponse(500, Crashed(EmptyPrompt)), [];
      }
      var _ := GetEncoding();
      var tokens := encode(prompt.value);
      var x := AnswerTokens(prompt.value, tokens, decode, llm, parse);
      response, sent := x.response, x.sent;
    }
  }

  /** The tokenizer is built once: a second call finds it cached. */
  method LoadsOnce() returns (first: bool, second: bool)
    ensures first && !second
  {
    var server := new Server();
    first := server.GetEncoding();
    second := server.GetEncoding();
  }

  // ---------------------------------------------------------------------------
  // Properties of the handler

  /**
   * The checks come in order and none of them calls the model: a method
   * other than POST is refused whatever the headers, a missing or empty
   * bearer token next, then an empty prompt.
   */
  lemma ChecksPrecede(httpMethod: string, authorization: Option<string>, prompt: Option<string>,
                      encode: string -> seq<int>, decode: seq<int> -> string,
                      llm: Request -> CallResult, parse: string -> Option<Json>)
    ensures var x := Respond(httpMethod, authorization, prompt, encode, decode, llm, parse);
      && (httpMethod != "POST" ==> x.response.status == 405 && x.sent == [])
      && (httpMethod == "POST" && AuthToken(authorization).None? ==> x.response.status == 401 && x.sent == [])
      && (httpMethod == "POST" && AuthToken(authorization).Some? && !NonBlank(prompt) ==>
            x == Exchange(HttpResponse(500, Crashed(EmptyPrompt)), []))
      && (x.sent != [] ==> ReachesEncoder(httpMethod, authorization, prompt))
  {
  }

  /**
   * Every successful analysis body is the neutral result: the handler hands
   * `validateUnifiedResponse` the `finalResponse` object, not a string, and
   * it answers the fail-soft value for any non-string.
   */
  lemma SuccessBodyIsNeutral(httpMethod: string, authorization: Option<string>, prompt: Option<string>,
                             encode: string -> seq<int>, decode: seq<int> -> string,
                             llm: Request -> CallResult, parse: string -> Option<Json>)
    ensures var r := Respond(httpMethod, authorization, prompt, encode, decode, llm, parse).response;
      && (r.body.Unified? ==> r.status == 200 && r.body.result == Neutral)
      && (r.status == 200 ==> r.body.Unified? || r.body.NoOptimizationNeeded?)
      && (r.status == 200 || r.status == 401 || r.status == 405 || r.status == 500)
  {
    var r := Respond(httpMethod, authorization, prompt, encode, decode, llm, parse).response;
    if ReachesEncoder(httpMethod, authorization, prompt) {
      var x := AnswerPrompt(prompt.value, encode(prompt.value), decode, llm, parse);
      assert r == x.response;
    } else {
      assert r.status != 200 && !r.body.Unified?;
    }
  }

  /**
   * The route decides the calls made, as in the extension: none over the
   * limit or in the optimal band, one with the whole prompt below the chunk
   * size, and otherwise at most one per chunk in chunk order. With every
   * call answered, all chunks are called.
   */
  lemma AnswerCalls(prompt: string, tokens: seq<int>, decode: seq<int> -> string,
                    llm: Request -> CallResult, parse: string -> Option<Json>)
    ensures var x := AnswerPrompt(prompt, tokens, decode, llm, parse);
      && (|tokens| >= 120000 ==> x == Exchange(HttpResponse(500, Crashed(TooManyTokens(|tokens|))), []))
      && (3615 <= |tokens| <= 6025 ==> x == Exchange(HttpResponse(200, NoOptimizationNeeded(|tokens|)), []))
      && (|tokens| < 3615 || 6025 < |tokens| < 9820 ==> x.sent == [Request(Regular, prompt)])
      && (9820 <= |tokens| < 120000 ==>
            |x.sent| <= ChunkCount(|tokens|) <= 13
            && forall j :: 0 <= j < |x.sent| ==> x.sent[j] == ChunkRequest(Analyze, tokens, decode, j))
  {
    var n := |tokens|;
    RouteRanges(n);
    if RouteFor(n) == Chunked {
      ChunkCountOnChunkedRoute(n);
      RunSent(Analyze, tokens, decode, llm, parse, ChunkCount(n));
    }
  }

  /** A failed model call on the chunked route stops the loop: the response is the framework's 500 and no later chunk is called. */
  lemma ChunkedFailureStops(prompt: string, tokens: seq<int>, decode: seq<int> -> string,
                            llm: Request -> CallResult, parse: string -> Option<Json>)
    requires 9820 <= |tokens| < 120000
    ensures var x := AnswerPrompt(prompt, tokens, decode, llm, parse);
      x.response.status == 500 ==>
        x.sent != [] && llm(x.sent[|x.sent| - 1]).CallFailed?
        && x.response.body == Crashed(Upstream(UpstreamError(llm(x.sent[|x.sent| - 1]).message)))
  {
    RouteRanges(|tokens|);
    RunAbortsOnlyUpstream(Analyze, tokens, decode, llm, parse, ChunkCount(|tokens|));
  }
}

/**
 * The chunk loop of both entry points (background.js:249-279 and
 * pages/api/analyze.js:209-236): for each planned chunk, build its request,
 * call the model, validate the answer, and fold the result into the running
 * accuracy, suggestion set and list of rewordings.
 *
 * The tokenizer's `decode`, the model and `JSON.parse` are parameters.
 */
module ChunkLoop {
  import opened Json
  import opened Text
  import opened Config
  import opened Planner
  import opened Composer
  import opened Validator
  import opened Aggregator

  /** Which entry point runs the loop: they differ in word target, flag passing and the size re-check. */
  datatype Variant = Background | Analyze

  /** One model call: the chosen template and the text it frames. */
  datatype Request = Request(template: Template, content: string)

  /** What a model call gives back: the parsed body, or the error it threw. */
  datatype CallResult = Answered(body: Json) | CallFailed(message: string)

  /** Why the loop stopped early. */
  datatype LoopError =
    | ChunkTooLarge(index: int, size: int)  // background.js:257-259
    | UpstreamError(message: string)        // a model call threw

  /** The loop after some chunks: the validated results so far, or the error that stopped it; and the calls made. */
  datatype Run =
    | Completed(results: seq<ChunkResult>, sent: seq<Request>)
    | Aborted(error: LoopError, sent: seq<Request>)

  function ChunkTemplate(v: Variant, i: nat, chunks: nat): Template
    requires chunks >= 1
  {
    match v
    case Background => BackgroundChunkTemplate(i, chunks)
    case Analyze => AnalyzeChunkTemplate(i, chunks)
  }

  /** The call made for chunk `i`: its template and the decoded text of its tokens. */
  function ChunkRequest(v: Variant, tokens: seq<int>, decode: seq<int> -> string, i: nat): Request
    requires i < ChunkCount(|tokens|)
  {
    Request(ChunkTemplate(v, i, ChunkCount(|tokens|)), decode(Chunk(tokens, i)))
  }

  /**
   * Iteration `i` of the loop, on a run that has not stopped: the size
   * re-check (background.js only), the call, and the validated answer.
   */
  function Step(v: Variant, tokens: seq<int>, decode: seq<int> -> string,
                llm: Request -> CallResult, parse: string -> Option<Json>, i: nat,
                rs: seq<ChunkResult>, sent: seq<Request>): (r: Run)
    requires i < ChunkCount(|tokens|)
    ensures r.Completed? ==> |r.results| == |rs| + 1 && |r.sent| == |sent| + 1
  {
    var chunk := Chunk(tokens, i);
    if v == Background && |chunk| > MaxOptimalTokenLen then Aborted(ChunkTooLarge(i, |chunk|), sent)
    else
      var request := ChunkRequest(v, tokens, decode, i);
      match llm(request)
      case CallFailed(m) => Aborted(UpstreamError(m), sent + [request])
      case Answered(body) => Completed(rs + [Validate(body, parse)], sent + [request])
  }

  /** The loop's first `k` iterations. */
  function RunPrefix(v: Variant, tokens: seq<int>, decode: seq<int> -> string,
                     llm: Request -> CallResult, parse: string -> Option<Json>, k: nat): (r: Run)
    requires k <= ChunkCount(|tokens|)
    ensures r.Completed? ==> |r.results| == k && |r.sent| == k
  {
    if k == 0 then Completed([], [])
    else match RunPrefix(v, tokens, decode, llm, parse, k - 1)
      case Aborted(e, sent) => Aborted(e, sent)
      case Completed(rs, sent) => Step(v, tokens, decode, llm, parse, k - 1, rs, sent)
  }

  function RunAll(v: Variant, tokens: seq<int>, decode: seq<int> -> string,
                  llm: Request -> CallResult, parse: string -> Option<Json>): Run
  {
    RunPrefix(v, tokens, decode, llm, parse, ChunkCount(|tokens|))
  }

  /** The `j`-th call the loop makes is the request for chunk `j`; it makes at most one call per chunk. */
  lemma {:induction false} RunSent(v: Variant, tokens: seq<int>, decode: seq<int> -> string,
                                   llm: Request -> CallResult, parse: string -> Option<Json>, k: nat)
    requires k <= ChunkCount(|tokens|)
    ensures var r := RunPrefix(v, tokens, decode, llm, parse, k);
      |r.sent| <= k && forall j :: 0 <= j < |r.sent| ==> r.sent[j] == ChunkRequest(v, tokens, decode, j)
  {
    if k > 0 {
      RunSent(v, tokens, decode, llm, parse, k - 1);
      var p := RunPrefix(v, tokens, decode, llm, parse, k - 1);
      var r := RunPrefix(v, tokens, decode, llm, parse, k);
      var request := ChunkRequest(v, tokens, decode, k - 1);
      if p.Completed? {
        assert r == Step(v, tokens, decode, llm, parse, k - 1, p.results, p.sent);
        StepSent(v, tokens, decode, llm, parse, k - 1, p.results, p.sent);
        if r.sent != p.sent {
          forall j | 0 <= j < |r.sent|
            ensures r.sent[j] == ChunkRequest(v, tokens, decode, j)
          {
            if j < |p.sent| {
              assert r.sent[j] == p.sent[j];
            }
          }
        }
      } else {
        assert r.sent == p.sent;
      }
    }
  }

  /** One iteration sends nothing or the request for its own chunk. */
  lemma StepSent(v: Variant, tokens: seq<int>, decode: seq<int> -> string,
                 llm: Request -> CallResult, parse: string -> Option<Json>, i: nat,
                 rs: seq<ChunkResult>, sent: seq<Request>)
    requires i < ChunkCount(|tokens|)
    ensures var r := Step(v, tokens, decode, llm, parse, i, rs, sent);
      r.sent == sent || r.sent == sent + [ChunkRequest(v, tokens, decode, i)]
  {
  }

  /** A completed run holds, in chunk order, the validated answer to each chunk's call, every one answered. */
  lemma {:induction false} RunResults(v: Variant, tokens: seq<int>, decode: seq<int> -> string,
                                      llm: Request -> CallResult, parse: string -> Option<Json>, k: nat)
    requires k <= ChunkCount(|tokens|)
    ensures var r := RunPrefix(v, tokens, decode, llm, parse, k);
      r.Completed? ==> forall j :: 0 <= j < k ==>
        llm(r.sent[j]).Answered? && r.results[j] == Validate(llm(r.sent[j]).body, parse)
  {
    if k > 0 {
      RunResults(v, tokens, decode, llm, parse, k - 1);
      var p := RunPrefix(v, tokens, decode, llm, parse, k - 1);
      var r := RunPrefix(v, tokens, decode, llm, parse, k);
      if r.Completed? {
        assert p.Completed?;
        var request := ChunkRequest(v, tokens, decode, k - 1);
        assert r == Completed(p.results + [Validate(llm(request).body, parse)], p.sent + [request]);
        forall j | 0 <= j < k
          ensures llm(r.sent[j]).Answered? && r.results[j] == Validate(llm(r.sent[j]).body, parse)
        {
          if j < k - 1 {
            assert r.sent[j] == p.sent[j] && r.results[j] == p.results[j];
          }
        }
      }
    }
  }

  /**
   * A run stops only because its last call failed: the size re-check of
   * background.js never fires, since no chunk exceeds the cap.
   */
  lemma {:induction false} RunAbortsOnlyUpstream(v: Variant, tokens: seq<int>, decode: seq<int> -> string,
                                                 llm: Request -> CallResult, parse: string -> Option<Json>, k: nat)
    requires k <= ChunkCount(|tokens|)
    ensures var r := RunPrefix(v, tokens, decode, llm, parse, k);
      r.Aborted? ==>
        r.error.UpstreamError? && r.sent != [] && llm(r.sent[|r.sent| - 1]) == CallFailed(r.error.message)
  {
    if k > 0 {
      RunAbortsOnlyUpstream(v, tokens, decode, llm, parse, k - 1);
    }
  }

  /**
   * When no call fails and no answer is a string (an API envelope, say), the
   * run completes and every chunk's result is the neutral one.
   */
  lemma RunAllNeutral(v: Variant, tokens: seq<int>, decode: seq<int> -> string,
                      llm: Request -> CallResult, parse: string -> Option<Json>)
    requires forall q :: llm(q).Answered? && !llm(q).body.JStr?
    ensures var run := RunAll(v, tokens, decode, llm, parse);
      && run.Completed? && |run.results| == ChunkCount(|tokens|)
      && forall j :: 0 <= j < |run.results| ==> run.results[j] == Neutral
  {
    var k := ChunkCount(|tokens|);
    var run := RunAll(v, tokens, decode, llm, parse);
    RunAbortsOnlyUpstream(v, tokens, decode, llm, parse, k);
    RunResults(v, tokens, decode, llm, parse, k);
    forall j | 0 <= j < |run.results|
      ensures run.results[j] == Neutral
    {
      assert run.results[j] == Validate(llm(run.sent[j]).body, parse);
    }
  }

  /** One more iteration of a loop that has not stopped: the next chunk's call, and its validated answer. */
  lemma RunPrefixStep(v: Variant, tokens: seq<int>, decode: seq<int> -> string,
                      llm: Request -> CallResult, parse: string -> Option<Json>, i: nat,
                      rs: seq<ChunkResult>, sent: seq<Request>)
    requires i < ChunkCount(|tokens|)
    requires RunPrefix(v, tokens, decode, llm, parse, i) == Completed(rs, sent)
    ensures var request := ChunkRequest(v, tokens, decode, i);
      llm(request).Answered? ==>
        RunPrefix(v, tokens, decode, llm, parse, i + 1)
          == Completed(rs + [Validate(llm(request).body, parse)], sent + [request])
    ensures var request := ChunkRequest(v, tokens, decode, i);
      llm(request).CallFailed? ==>
        RunPrefix(v, tokens, decode, llm, parse, i + 1)
          == Aborted(UpstreamError(llm(request).message), sent + [request])
  {
  }

  /** Once the loop has stopped, later iterations never run: the run stays as it was. */
  lemma {:induction false} AbortedStays(v: Variant, tokens: seq<int>, decode: seq<int> -> string,
                                        llm: Request -> CallResult, parse: string -> Option<Json>, k: nat, m: nat)
    requires k <= m <= ChunkCount(|tokens|)
    requires RunPrefix(v, tokens, decode, llm, parse, k).Aborted?
    ensures RunPrefix(v, tokens, decode, llm, parse, m) == RunPrefix(v, tokens, decode, llm, parse, k)
  {
    if k < m {
      AbortedStays(v, tokens, decode, llm, parse, k, m - 1);
    }
  }

  /** `xs.forEach(s => set.add(s))` on a Set listed as `acc`. */
  method AddAll(acc: seq<string>, xs: seq<string>, ghost seen: seq<string>) returns (r: seq<string>)
    requires acc == Dedup(seen)
    ensures r == Dedup(seen + xs)
  {
    r := acc;
    var j := 0;
    assert seen + xs[..0] == seen;
    while j < |xs|
      invariant 0 <= j <= |xs|
      invariant r == Dedup(seen + xs[..j])
    {
      assert seen + xs[..j + 1] == (seen + xs[..j]) + [xs[j]];
      DedupSnoc(seen + xs[..j], xs[j]);
      if xs[j] !in r {
        r := r + [xs[j]];
      }
      j := j + 1;
    }
    assert xs[..j] == xs;
  }

  /** The loop's result: the merged aggregate, or the error that stopped it. */
  datatype LoopOutcome = Merged(aggregate: Aggregate) | Failed(error: LoopError)

  function Outcome(r: Run): LoopOutcome
    requires r.Completed? ==> r.results != []
  {
    match r
    case Aborted(e, _) => Failed(e)
    case Completed(rs, _) => Merged(AggregateOf(rs))
  }

  /**
   * The slice of chunk `i` (background.js:250-253), the re-check of its size
   * (background.js:257-259, which never fires: no slice is longer than the
   * cap) and the request built from its decoded text.
   */
  method BuildRequest(v: Variant, tokens: seq<int>, decode: seq<int> -> string, i: nat)
    returns (request: Request)
    requires i < ChunkCount(|tokens|)
    ensures request == ChunkRequest(v, tokens, decode, i)
  {
    var n := |tokens|;
    var start := i * MaxOptimalTokenLen;
    var end := if (i + 1) * MaxOptimalTokenLen < n then (i + 1) * MaxOptimalTokenLen else n;
    var chunkTokens := tokens[start..end];
    if v == Background && |chunkTokens| > MaxOptimalTokenLen {
      assert false;
    }
    request := Request(ChunkTemplate(v, i, ChunkCount(n)), decode(chunkTokens));
  }

  /**
   * Folding one validated result into `cumulative` (background.js:270-276):
   * its share of the accuracy, its suggestions into the set, its rewording
   * onto the list.
   */
  method Fold(c: Cumulative, chunks: nat, ghost rs: seq<ChunkResult>, result: ChunkResult)
    returns (c': Cumulative)
    requires chunks > 0
    requires c == CumulativeOf(rs, chunks)
    ensures c' == CumulativeOf(rs + [result], chunks)
  {
    FoldStep(rs, result, chunks);
    var suggestions := AddAll(c.suggestions, result.suggestions, AllSuggestions(rs));
    c' := Cumulative(c.accuracy + result.accuracy as real / chunks as real, suggestions, c.reworded + [result.reword]);
  }

  /** Chunk `i` answered: the run goes on with its validated result. */
  lemma AnsweredStep(v: Variant, tokens: seq<int>, decode: seq<int> -> string,
                     llm: Request -> CallResult, parse: string -> Option<Json>, i: nat,
                     rs: seq<ChunkResult>, sent: seq<Request>)
    requires i < ChunkCount(|tokens|)
    requires RunPrefix(v, tokens, decode, llm, parse, i) == Completed(rs, sent)
    requires llm(ChunkRequest(v, tokens, decode, i)).Answered?
    ensures var request := ChunkRequest(v, tokens, decode, i);
      RunPrefix(v, tokens, decode, llm, parse, i + 1)
        == Completed(rs + [Validate(llm(request).body, parse)], sent + [request])
  {
    RunPrefixStep(v, tokens, decode, llm, parse, i, rs, sent);
  }

  /** Chunk `i`'s call failed: the whole run ends there, with that error. */
  lemma FailedStep(v: Variant, tokens: seq<int>, decode: seq<int> -> string,
                   llm: Request -> CallResult, parse: string -> Option<Json>, i: nat,
                   rs: seq<ChunkResult>, sent: seq<Request>)
    requires i < ChunkCount(|tokens|)
    requires RunPrefix(v, tokens, decode, llm, parse, i) == Completed(rs, sent)
    requires llm(ChunkRequest(v, tokens, decode, i)).CallFailed?
    ensures var request := ChunkRequest(v, tokens, decode, i);
      RunAll(v, tokens, decode, llm, parse) == Aborted(UpstreamError(llm(request).message), sent + [request])
  {
    RunPrefixStep(v, tokens, decode, llm, parse, i, rs, sent);
    AbortedStays(v, tokens, decode, llm, parse, i + 1, ChunkCount(|tokens|));
  }

  /**
   * One pass of the loop body on a run that has not stopped: build chunk
   * `i`'s request, call the model, and either stop with the error it threw
   * or fold its validated answer into `cumulative`.
   */
  method ChunkIteration(v: Variant, tokens: seq<int>, decode: seq<int> -> string,
                        llm: Request -> CallResult, parse: string -> Option<Json>, i: nat,
                        cumulative: Cumulative, ghost rs: seq<ChunkResult>, sent: seq<Request>)
    returns (failure: Option<string>, cumulative': Cumulative, ghost rs': seq<ChunkResult>, sent': seq<Request>)
    requires i < ChunkCount(|tokens|)
    requires RunPrefix(v, tokens, decode, llm, parse, i) == Completed(rs, sent)
    requires cumulative == CumulativeOf(rs, ChunkCount(|tokens|))
    ensures failure.None? ==> RunPrefix(v, tokens, decode, llm, parse, i + 1) == Completed(rs', sent')
    ensures failure.None? ==> cumulative' == CumulativeOf(rs', ChunkCount(|tokens|))
    ensures failure.Some? ==> RunAll(v, tokens, decode, llm, parse) == Aborted(UpstreamError(failure.value), sent')
  {
    var request := BuildRequest(v, tokens, decode, i);
    var reply := llm(request);
    sent' := sent + [request];
    if reply.CallFailed? {
      FailedStep(v, tokens, decode, llm, parse, i, rs, sent);
      return Some(reply.message), cumulative, rs, sent';
    }
    AnsweredStep(v, tokens, decode, llm, parse, i, rs, sent);
    var result := Validate(reply.body, parse);
    cumulative' := Fold(cumulative, ChunkCount(|tokens|), rs, result);
    rs' := rs + [result];
    failure := None;
  }

  /**
   * The `for (let i = 0; i < CHUNKS; i++)` loop with its `cumulative`
   * accumulator, followed by the construction of the final figures.
   * Called only on the chunked route, where there is at least one chunk.
   */
  method RunChunks(v: Variant, tokens: seq<int>, decode: seq<int> -> string,
                   llm: Request -> CallResult, parse: string -> Option<Json>)
    returns (outcome: LoopOutcome, sent: seq<Request>)
    requires |tokens| >= MaxOptimalTokenLen
    ensures outcome == Outcome(RunAll(v, tokens, decode, llm, parse))
    ensures sent == RunAll(v, tokens, decode, llm, parse).sent
  {
    var chunks := ChunkCount(|tokens|);
    var cumulative := Cumulative(0.0, [], []);
    ghost var rs: seq<ChunkResult> := [];
    sent := [];
    var i := 0;
    while i < chunks
      invariant 0 <= i <= chunks
      invariant RunPrefix(v, tokens, decode, llm, parse, i) == Completed(rs, sent)
      invariant cumulative == CumulativeOf(rs, chunks)
    {
      var failure;
      failure, cumulative, rs, sent := ChunkIteration(v, tokens, decode, llm, parse, i, cumulative, rs, sent);
      if failure.Some? {
        outcome := Failed(UpstreamError(failure.value));
        assert outcome == Outcome(RunAll(v, tokens, decode, llm, parse));
        return;
      }
      i := i + 1;
    }
    assert i == chunks;
    assert RunAll(v, tokens, decode, llm, parse) == Completed(rs, sent);
    FinishFolded(rs);
    outcome := Merged(Finish(cumulative));
  }
}

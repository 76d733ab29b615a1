/**
 * The configuration both entry points share (MODEL_CONFIG), JavaScript's
 * `Math.round`, and the routing decision taken on a prompt's token count.
 */
module Config {

  /** MODEL_CONFIG.max_tokens: the model's context window. */
  const MaxTokens: nat := 128000
  /** MODEL_CONFIG.optimalTokenLen: the prompt length judged already optimal. */
  const OptimalTokenLen: nat := 4820
  /** MODEL_CONFIG.maxOptimalTokenLen: the most tokens sent in one call; the chunk size. */
  const MaxOptimalTokenLen: nat := 9820

  /** `max_tokens - (0.0625 * max_tokens)`: at or above this a prompt is refused. */
  const TokenLimit: real := MaxTokens as real - 0.0625 * MaxTokens as real

  /**
   * `Math.round(x)`: the nearest integer, halves rounded up
   * (towards positive infinity, so `Math.round(-2.5) == -2`).
   */
  function Round(x: real): (r: int)
    ensures r as real - 0.5 <= x < r as real + 0.5
  {
    (x + 0.5).Floor
  }

  /** `Math.max(lo, Math.min(hi, x))`. */
  function Clamp(x: real, lo: real, hi: real): (r: real)
    requires lo <= hi
    ensures lo <= r <= hi
    ensures lo <= x <= hi ==> r == x
    ensures x < lo ==> r == lo
    ensures x > hi ==> r == hi
  {
    if x > hi then hi else if x < lo then lo else x
  }

  /** The four ways a request can go once its tokens are counted. */
  datatype Route =
    | LimitExceeded   // refused: the prompt is too long for the model
    | NoOptimization  // answered at once with `no_optimization_needed`
    | Chunked         // split into chunks, one model call each
    | Single          // one model call with the whole prompt

  /**
   * The branches of the handlers in the order they are tested: the token
   * limit, then the no-optimisation band `[0.75, 1.25] * optimalTokenLen`,
   * then `tokenCount >= maxOptimalTokenLen`, else a single call.
   */
  function RouteFor(n: nat): Route {
    if n as real >= TokenLimit then LimitExceeded
    else if n as real >= OptimalTokenLen as real * 0.75
         && n as real <= OptimalTokenLen as real * 1.25 then NoOptimization
    else if n >= MaxOptimalTokenLen then Chunked
    else Single
  }

  /**
   * The precedence collapses to four disjoint integer ranges: the band
   * `[3615, 6025]` lies wholly below the chunk threshold, so no count is both
   * "already optimal" and "needs chunking".
   */
  lemma RouteRanges(n: nat)
    ensures RouteFor(n) == LimitExceeded <==> n >= 120000
    ensures RouteFor(n) == NoOptimization <==> 3615 <= n <= 6025
    ensures RouteFor(n) == Chunked <==> 9820 <= n < 120000
    ensures RouteFor(n) == Single <==> n < 3615 || 6025 < n < 9820
  {
    assert TokenLimit == 120000.0;
    assert OptimalTokenLen as real * 0.75 == 3615.0;
    assert OptimalTokenLen as real * 1.25 == 6025.0;
  }

  /** The same band written in integers only: `4n >= 3 * 4820` and `4n <= 5 * 4820`. */
  lemma NoOptimizationBandIntegral(n: nat)
    ensures RouteFor(n) == NoOptimization <==>
      4 * n >= 3 * OptimalTokenLen && 4 * n <= 5 * OptimalTokenLen
  {
    RouteRanges(n);
  }
}

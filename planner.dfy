/**
 * Chunk planning: how a token sequence that is too long for one call is cut
 * into consecutive slices of at most `maxOptimalTokenLen` tokens.
 * Tokens are opaque integers (the tokenizer's ids).
 */
module Planner {
  import opened Config

  /** `Math.ceil(tokenCount / maxOptimalTokenLen)`. */
  function ChunkCount(n: nat): (c: nat)
    ensures c * MaxOptimalTokenLen >= n
    ensures c == 0 || (c - 1) * MaxOptimalTokenLen < n
  {
    (n + MaxOptimalTokenLen - 1) / MaxOptimalTokenLen
  }

  /** `i * maxOptimalTokenLen`. */
  function ChunkStart(i: nat): nat {
    i * MaxOptimalTokenLen
  }

  /** `Math.min((i + 1) * maxOptimalTokenLen, tokenCount)`. */
  function ChunkEnd(i: nat, n: nat): nat {
    if (i + 1) * MaxOptimalTokenLen < n then (i + 1) * MaxOptimalTokenLen else n
  }

  /**
   * `tokens.slice(start, end)` for chunk `i`: never empty, never over the cap.
   */
  function Chunk(tokens: seq<int>, i: nat): (r: seq<int>)
    requires i < ChunkCount(|tokens|)
    ensures 0 < |r| <= MaxOptimalTokenLen
  {
    tokens[ChunkStart(i)..ChunkEnd(i, |tokens|)]
  }

  function Concat(cs: seq<seq<int>>): seq<int> {
    if cs == [] then [] else Concat(cs[..|cs| - 1]) + cs[|cs| - 1]
  }

  /**
   * All chunks in index order. They partition the token sequence:
   * concatenated in order they give back exactly `tokens`, with no gap and
   * no overlap.
   */
  function Chunks(tokens: seq<int>): (cs: seq<seq<int>>)
    ensures |cs| == ChunkCount(|tokens|)
    ensures forall i :: 0 <= i < |cs| ==> cs[i] == Chunk(tokens, i)
    ensures forall i :: 0 <= i < |cs| ==> 0 < |cs[i]| <= MaxOptimalTokenLen
    ensures Concat(cs) == tokens
  {
    var c := ChunkCount(|tokens|);
    var cs := seq(c, i requires 0 <= i < c => Chunk(tokens, i));
    ConcatPrefix(tokens, cs, c);
    assert cs[..c] == cs;
    if c == 0 then cs
    else
      ChunksContiguous(|tokens|, c - 1);
      cs
  }

  /** Chunks are contiguous: each starts where the one before it ends, the first at 0, the last at `n`. */
  lemma ChunksContiguous(n: nat, i: nat)
    requires i < ChunkCount(n)
    ensures ChunkStart(0) == 0
    ensures ChunkStart(i) < ChunkEnd(i, n)
    ensures i + 1 < ChunkCount(n) ==> ChunkEnd(i, n) == ChunkStart(i + 1)
    ensures i + 1 == ChunkCount(n) ==> ChunkEnd(i, n) == n
  {
  }

  /** The first `k` chunks, concatenated, are the first `min(k * cap, n)` tokens. */
  lemma {:induction false} ConcatPrefix(tokens: seq<int>, cs: seq<seq<int>>, k: nat)
    requires |cs| == ChunkCount(|tokens|)
    requires forall i :: 0 <= i < |cs| ==> cs[i] == Chunk(tokens, i)
    requires k <= |cs|
    ensures Concat(cs[..k]) == tokens[..if k == 0 then 0 else ChunkEnd(k - 1, |tokens|)]
  {
    if k > 0 {
      ConcatPrefix(tokens, cs, k - 1);
      assert cs[..k][..k - 1] == cs[..k - 1];
      var prev := if k - 1 == 0 then 0 else ChunkEnd(k - 2, |tokens|);
      assert prev == ChunkStart(k - 1);
      assert tokens[..ChunkEnd(k - 1, |tokens|)]
        == tokens[..prev] + tokens[prev..ChunkEnd(k - 1, |tokens|)];
    }
  }

  /**
   * On the chunked route there is at least one chunk, and at most thirteen:
   * `9820 <= n < 120000` gives `1 <= ceil(n / 9820) <= 13`.
   */
  lemma ChunkCountOnChunkedRoute(n: nat)
    requires RouteFor(n) == Chunked
    ensures 1 <= ChunkCount(n) <= 13
  {
    RouteRanges(n);
  }
}

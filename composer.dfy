/**
 * Instruction selection (PROMPT_TEMPLATES and the flag tests in front of
 * them). Only the chosen template and its parameters are modelled, not the
 * prose: `(chunkIndex + 1, totalChunks, words)` are what the prose embeds.
 */
module Composer {
  import opened Config

  /** Where a chunk sits in the sequence of chunks. */
  datatype Position = First | Middle | Last

  /** The template chosen for one model call. */
  datatype Template =
    | Regular                                          // whole prompt, no chunk framing
    | BeginChunked(index: nat, total: nat, words: int)  // "first chunk, others will follow"
    | EndChunked(index: nat, total: nat, words: int)    // "last chunk, end it strong"
    | MiddleChunked(index: nat, total: nat, words: int) // "builds on the previous chunk"
  {
    /** The chunk position a chunked template frames; `Regular` frames none. */
    function PositionTag(): Position
      requires !Regular?
    {
      match this
      case BeginChunked(_, _, _) => First
      case EndChunked(_, _, _) => Last
      case MiddleChunked(_, _, _) => Middle
    }
  }

  /**
   * `processChunk` / `callAnalysisAPI` template selection: begin, then end,
   * then middle when chunked; the regular template otherwise, whatever the
   * position flags say.
   */
  function SelectTemplate(isChunked: bool, isBegin: bool, isEnd: bool,
                          chunkIndex: nat, totalChunks: nat, words: int): Template
  {
    if isChunked && isBegin then BeginChunked(chunkIndex, totalChunks, words)
    else if isChunked && isEnd then EndChunked(chunkIndex, totalChunks, words)
    else if isChunked then MiddleChunked(chunkIndex, totalChunks, words)
    else Regular
  }

  /** Index 0 is first (even when it is also the last), index `total - 1` last, the rest middle. */
  function PositionOf(i: nat, total: nat): Position {
    if i == 0 then First else if i == total - 1 then Last else Middle
  }

  /** The target word count of background.js: `Math.round(((maxOptimalTokenLen / CHUNKS) * 4) / 3)`. */
  function BackgroundWords(chunks: nat): (w: int)
    requires chunks >= 1
    ensures w as real - 0.5 <= (MaxOptimalTokenLen as real * 4.0) / (3.0 * chunks as real) < w as real + 0.5
  {
    var x := ((MaxOptimalTokenLen as real / chunks as real) * 4.0) / 3.0;
    assert x == (MaxOptimalTokenLen as real * 4.0) / (3.0 * chunks as real);
    Round(x)
  }

  /**
   * The target word count of pages/api/analyze.js:
   * `Math.round((maxOptimalTokenLen / (totalChunks || 1)) * 0.75)`;
   * an absent or zero `totalChunks` counts as 1.
   */
  function AnalyzeWords(totalChunks: nat): (w: int)
    ensures var c := if totalChunks == 0 then 1 else totalChunks;
      w as real - 0.5 <= (MaxOptimalTokenLen as real * 0.75) / c as real < w as real + 0.5
  {
    var c := if totalChunks == 0 then 1 else totalChunks;
    var x := (MaxOptimalTokenLen as real / c as real) * 0.75;
    assert x == (MaxOptimalTokenLen as real * 0.75) / c as real;
    Round(x)
  }

  /** background.js:261-267 passes `(isBegin, isEnd)` as `(true, false)` for chunk 0, `(false, true)` for the last, `(false, false)` otherwise. */
  function BackgroundChunkTemplate(i: nat, chunks: nat): Template
    requires chunks >= 1
  {
    if i == 0 then SelectTemplate(true, true, false, i, chunks, BackgroundWords(chunks))
    else if i == chunks - 1 then SelectTemplate(true, false, true, i, chunks, BackgroundWords(chunks))
    else SelectTemplate(true, false, false, i, chunks, BackgroundWords(chunks))
  }

  /** analyze.js:216-223 passes `isBegin: i === 0` and `isEnd: i === CHUNKS - 1`. */
  function AnalyzeChunkTemplate(i: nat, chunks: nat): Template {
    SelectTemplate(true, i == 0, i == chunks - 1, i, chunks, AnalyzeWords(chunks))
  }

  /**
   * Both files frame chunk `i` of `chunks` by its position: chunk 0 gets the
   * begin template even when it is the only chunk, chunk `chunks - 1` the end
   * template, every other chunk the middle one, each carrying `(i, chunks)`.
   * They differ only in the word target.
   */
  lemma ChunkTemplatesByPosition(i: nat, chunks: nat)
    requires i < chunks
    ensures var b := BackgroundChunkTemplate(i, chunks);
      !b.Regular? && b.PositionTag() == PositionOf(i, chunks)
      && b.index == i && b.total == chunks && b.words == BackgroundWords(chunks)
    ensures var a := AnalyzeChunkTemplate(i, chunks);
      !a.Regular? && a.PositionTag() == PositionOf(i, chunks)
      && a.index == i && a.total == chunks && a.words == AnalyzeWords(chunks)
  {
  }

  /** A call that is not chunked always gets the regular template, whatever the other flags. */
  lemma UnchunkedIsRegular(isBegin: bool, isEnd: bool, i: nat, total: nat, words: int)
    ensures SelectTemplate(false, isBegin, isEnd, i, total, words) == Regular
  {
  }

  lemma RoundMonotonic(x: real, y: real)
    requires x <= y
    ensures Round(x) <= Round(y)
  {
  }

  /** `x / c` shrinks as the positive divisor `c` grows. */
  lemma DivisionAntitone(x: real, c1: real, c2: real)
    requires x >= 0.0 && 0.0 < c1 <= c2
    ensures x / c2 <= x / c1
  {
    var q1, q2 := x / c1, x / c2;
    assert q1 * c1 == x && q2 * c2 == x;
  }

  /** More chunks never ask for more words, in either file. */
  lemma WordTargetsShrink(c1: nat, c2: nat)
    requires 1 <= c1 <= c2
    ensures BackgroundWords(c2) <= BackgroundWords(c1)
    ensures AnalyzeWords(c2) <= AnalyzeWords(c1)
  {
    var m := MaxOptimalTokenLen as real;
    DivisionAntitone(m * 4.0, 3.0 * c1 as real, 3.0 * c2 as real);
    DivisionAntitone(m * 0.75, c1 as real, c2 as real);
    RoundMonotonic(m * 4.0 / (3.0 * c2 as real), m * 4.0 / (3.0 * c1 as real));
    RoundMonotonic(m * 0.75 / c2 as real, m * 0.75 / c1 as real);
  }

  /**
   * The two files disagree on the word target: background.js asks for 4/3 of
   * the chunk budget, analyze.js for 3/4 of it, so for every chunk count the
   * chunked route can reach (at most 13) background.js asks for more words.
   */
  lemma WordTargetsDiffer(c: nat)
    requires 1 <= c <= 13
    ensures AnalyzeWords(c) < BackgroundWords(c)
  {
    var m := MaxOptimalTokenLen as real;
    var a, b := m * 0.75 / c as real, m * 4.0 / (3.0 * c as real);
    assert a * c as real == m * 0.75;
    assert b * (3.0 * c as real) == m * 4.0;
    var d := b - a;
    assert d * c as real == m * 4.0 / 3.0 - m * 0.75;
    assert d >= 1.0;
  }
}

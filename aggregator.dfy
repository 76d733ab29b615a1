/**
 * How the chunked route merges its per-chunk results: the equal-weight mean
 * of the accuracies rounded to one decimal, the union of the suggestions in
 * first-seen order (not capped), and the rewordings joined by a blank line.
 */
module Aggregator {
  import opened Text
  import opened Config
  import opened Validator

  /** `cumulative.accuracy += result.Evaluation.Accuracy / CHUNKS`, over `rs` in order (exact arithmetic). */
  function AccumulateAccuracy(rs: seq<ChunkResult>, chunks: nat): real
    requires chunks > 0
  {
    if rs == [] then 0.0
    else AccumulateAccuracy(rs[..|rs| - 1], chunks) + rs[|rs| - 1].accuracy as real / chunks as real
  }

  function SumAccuracy(rs: seq<ChunkResult>): int {
    if rs == [] then 0 else SumAccuracy(rs[..|rs| - 1]) + rs[|rs| - 1].accuracy
  }

  /** Adding `a / C` chunk by chunk gives the sum of the accuracies over `C`. */
  lemma {:induction false} AccumulateIsScaledSum(rs: seq<ChunkResult>, chunks: nat)
    requires chunks > 0
    ensures AccumulateAccuracy(rs, chunks) == SumAccuracy(rs) as real / chunks as real
  {
    if rs != [] {
      AccumulateIsScaledSum(rs[..|rs| - 1], chunks);
      var s, a, c := SumAccuracy(rs[..|rs| - 1]) as real, rs[|rs| - 1].accuracy as real, chunks as real;
      assert s / c + a / c == (s + a) / c;
    }
  }

  /** The mean of the chunk accuracies, each chunk weighing the same whatever its size. */
  function Mean(rs: seq<ChunkResult>): real
    requires rs != []
  {
    SumAccuracy(rs) as real / |rs| as real
  }

  /** `Math.round(x * 10) / 10`: the nearest multiple of 0.1, halves rounded up. */
  function RoundToTenth(x: real): (a: real)
    ensures a - 0.05 <= x < a + 0.05
    ensures (a * 10.0).Floor as real == a * 10.0
  {
    var k := Round(x * 10.0);
    assert (k as real / 10.0) * 10.0 == k as real;
    k as real / 10.0
  }

  /**
   * `Math.round(cumulative.accuracy * 10) / 10` once every chunk is in:
   * the mean rounded to one decimal.
   */
  function AggregateAccuracy(rs: seq<ChunkResult>): (a: real)
    requires rs != []
    ensures a - 0.05 <= Mean(rs) < a + 0.05
    ensures (a * 10.0).Floor as real == a * 10.0
  {
    AccumulateIsScaledSum(rs, |rs|);
    RoundToTenth(AccumulateAccuracy(rs, |rs|))
  }

  lemma {:induction false} SumAccuracyBounds(rs: seq<ChunkResult>)
    requires forall i :: 0 <= i < |rs| ==> 0 <= rs[i].accuracy <= 100
    ensures 0 <= SumAccuracy(rs) <= 100 * |rs|
  {
    if rs != [] {
      SumAccuracyBounds(rs[..|rs| - 1]);
    }
  }

  lemma MeanBounds(sum: real, n: real)
    requires n > 0.0 && 0.0 <= sum <= 100.0 * n
    ensures 0.0 <= sum / n <= 100.0
  {
    var m := sum / n;
    assert m * n == sum;
  }

  /** When every chunk accuracy lies in `[0, 100]`, so does the aggregate. */
  lemma AggregateAccuracyBounds(rs: seq<ChunkResult>)
    requires rs != []
    requires forall i :: 0 <= i < |rs| ==> 0 <= rs[i].accuracy <= 100
    ensures 0.0 <= AggregateAccuracy(rs) <= 100.0
  {
    SumAccuracyBounds(rs);
    MeanBounds(SumAccuracy(rs) as real, |rs| as real);
    var a := AggregateAccuracy(rs);
    var k := (a * 10.0).Floor;
    assert k as real == a * 10.0;
    assert -1 < k < 1001;
  }

  lemma {:induction false} SumAccuracyUniform(rs: seq<ChunkResult>, v: int)
    requires forall i :: 0 <= i < |rs| ==> rs[i].accuracy == v
    ensures SumAccuracy(rs) == v * |rs|
  {
    if rs != [] {
      SumAccuracyUniform(rs[..|rs| - 1], v);
    }
  }

  /** Chunks that all score `v` aggregate to exactly `v`; in particular a single chunk passes its score through. */
  lemma AggregateAccuracyUniform(rs: seq<ChunkResult>, v: int)
    requires rs != []
    requires forall i :: 0 <= i < |rs| ==> rs[i].accuracy == v
    ensures AggregateAccuracy(rs) == v as real
  {
    SumAccuracyUniform(rs, v);
    assert Mean(rs) == v as real;
    var a := AggregateAccuracy(rs);
    var k := (a * 10.0).Floor;
    assert k as real == a * 10.0;
    assert 10 * v - 1 < k < 10 * v + 1;
  }

  /** Every chunk's suggestions, in chunk order. */
  function AllSuggestions(rs: seq<ChunkResult>): seq<string> {
    if rs == [] then [] else AllSuggestions(rs[..|rs| - 1]) + rs[|rs| - 1].suggestions
  }

  lemma {:induction false} AllSuggestionsMembers(rs: seq<ChunkResult>, s: string)
    ensures s in AllSuggestions(rs) <==> exists i :: 0 <= i < |rs| && s in rs[i].suggestions
  {
    if rs != [] {
      var p := rs[..|rs| - 1];
      AllSuggestionsMembers(p, s);
      if s in AllSuggestions(p) {
        var i :| 0 <= i < |p| && s in p[i].suggestions;
        assert rs[i] == p[i];
      }
      if exists i :: 0 <= i < |rs| && s in rs[i].suggestions {
        var i :| 0 <= i < |rs| && s in rs[i].suggestions;
        if i < |p| {
          assert p[i] == rs[i];
        }
      }
    }
  }

  /**
   * `Array.from(cumulative.suggestions)`: the suggestions of all chunks,
   * each once, in the order in which they were first added (chunk by chunk,
   * each chunk's in its own order), and not capped at three.
   */
  function UnionSuggestions(rs: seq<ChunkResult>): (u: seq<string>)
    ensures NoDuplicates(u)
    ensures forall s :: s in u <==> exists i :: 0 <= i < |rs| && s in rs[i].suggestions
    ensures forall s :: s in u ==> s in AllSuggestions(rs)
    ensures forall i, j :: 0 <= i < j < |u| ==>
      FirstIndex(AllSuggestions(rs), u[i]) < FirstIndex(AllSuggestions(rs), u[j])
  {
    forall s ensures s in AllSuggestions(rs) <==> exists i :: 0 <= i < |rs| && s in rs[i].suggestions {
      AllSuggestionsMembers(rs, s);
    }
    DedupFirstSeenOrder(AllSuggestions(rs));
    Dedup(AllSuggestions(rs))
  }

  /** The union is not capped: two chunks with three distinct suggestions each give six. */
  lemma UnionNotCapped()
    ensures |UnionSuggestions([ChunkResult(50, ["a", "b", "c"], ""), ChunkResult(50, ["d", "e", "f"], "")])| == 6
  {
    var rs := [ChunkResult(50, ["a", "b", "c"], ""), ChunkResult(50, ["d", "e", "f"], "")];
    assert AllSuggestions(rs) == ["a", "b", "c", "d", "e", "f"] by {
      assert rs[..1] == [rs[0]];
      assert AllSuggestions(rs[..1]) == ["a", "b", "c"];
    }
    DedupOfDistinct(["a", "b", "c", "d", "e", "f"]);
  }

  /** `cumulative.reworded`: each chunk's rewording, in chunk order. */
  function Rewords(rs: seq<ChunkResult>): (ws: seq<string>)
    ensures |ws| == |rs| && forall i :: 0 <= i < |rs| ==> ws[i] == rs[i].reword
  {
    if rs == [] then [] else Rewords(rs[..|rs| - 1]) + [rs[|rs| - 1].reword]
  }

  /** Folding one more chunk into the running figures extends each of them by that chunk alone. */
  lemma FoldStep(rs: seq<ChunkResult>, r: ChunkResult, chunks: nat)
    requires chunks > 0
    ensures AccumulateAccuracy(rs + [r], chunks) == AccumulateAccuracy(rs, chunks) + r.accuracy as real / chunks as real
    ensures AllSuggestions(rs + [r]) == AllSuggestions(rs) + r.suggestions
    ensures Rewords(rs + [r]) == Rewords(rs) + [r.reword]
  {
    assert (rs + [r])[..|rs|] == rs;
  }

  /** The separator `cumulative.reworded.join("\n\n")` puts between rewordings. */
  const BlankLine: string := "\n\n"

  /** The merged result of the chunked route. */
  datatype Aggregate = Aggregate(accuracy: real, suggestions: seq<string>, reword: string)

  function AggregateOf(rs: seq<ChunkResult>): Aggregate
    requires rs != []
  {
    Aggregate(AggregateAccuracy(rs), UnionSuggestions(rs), Join(Rewords(rs), BlankLine))
  }

  /** The loop's `cumulative` object: running accuracy, suggestion set in insertion order, rewordings. */
  datatype Cumulative = Cumulative(accuracy: real, suggestions: seq<string>, reworded: seq<string>)

  /** The `cumulative` object once the results `rs` are folded in. */
  function CumulativeOf(rs: seq<ChunkResult>, chunks: nat): Cumulative
    requires chunks > 0
  {
    Cumulative(AccumulateAccuracy(rs, chunks), Dedup(AllSuggestions(rs)), Rewords(rs))
  }

  /** The figures the chunked route answers, built from `cumulative` after the loop. */
  function Finish(c: Cumulative): Aggregate {
    Aggregate(RoundToTenth(c.accuracy), c.suggestions, Join(c.reworded, BlankLine))
  }

  /** Finishing the `cumulative` object of all the chunks gives their merged result. */
  lemma FinishFolded(rs: seq<ChunkResult>)
    requires rs != []
    ensures Finish(CumulativeOf(rs, |rs|)) == AggregateOf(rs)
  {
  }

  /**
   * Merging only neutral results (what the validator answers for anything it
   * cannot read) gives accuracy 0, no suggestions, and a rewording made of
   * nothing but the `k - 1` blank-line separators.
   */
  lemma AggregateOfNeutrals(rs: seq<ChunkResult>)
    requires rs != []
    requires forall i :: 0 <= i < |rs| ==> rs[i] == Neutral
    ensures AggregateOf(rs) == Aggregate(0.0, [], Repeat(BlankLine, |rs| - 1))
  {
    assert forall i :: 0 <= i < |rs| ==> rs[i].accuracy == 0;
    AggregateAccuracyUniform(rs, 0);
    assert A: AggregateAccuracy(rs) == 0.0;
    NoSuggestionsUnion(rs);
    assert B: UnionSuggestions(rs) == [];
    assert forall i :: 0 <= i < |rs| ==> rs[i].reword == "";
    EmptyRewordsJoin(rs);
  }

  lemma EmptyRewordsJoin(rs: seq<ChunkResult>)
    requires rs != []
    requires forall i :: 0 <= i < |rs| ==> rs[i].reword == ""
    ensures Join(Rewords(rs), BlankLine) == Repeat(BlankLine, |rs| - 1)
  {
    var ws := Rewords(rs);
    forall i | 0 <= i < |ws| ensures ws[i] == "" {
      assert ws[i] == rs[i].reword;
    }
    JoinOfEmpties(ws, BlankLine);
  }

  lemma {:induction false} NoSuggestionsUnion(rs: seq<ChunkResult>)
    requires forall i :: 0 <= i < |rs| ==> rs[i].suggestions == []
    ensures AllSuggestions(rs) == [] && UnionSuggestions(rs) == []
  {
    if rs != [] {
      NoSuggestionsUnion(rs[..|rs| - 1]);
    }
  }
}

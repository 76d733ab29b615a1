/**
 * `validateUnifiedResponse`, the fail-soft normaliser both entry points use
 * (background.js:310-355 and its copy at pages/api/analyze.js:265-309): it
 * turns whatever the model answered into a canonical chunk result, and
 * answers the neutral result instead of throwing on anything malformed.
 */
module Validator {
  import opened Json
  import opened Text
  import opened Config

  /** `{Evaluation: {Accuracy, Suggestions}, Optimization: {Reword}}`. */
  datatype ChunkResult = ChunkResult(accuracy: int, suggestions: seq<string>, reword: string)

  /** `{Evaluation: {Accuracy: 0, Suggestions: []}, Optimization: {Reword: ""}}`, the fail-soft answer. */
  const Neutral: ChunkResult := ChunkResult(0, [], "")

  /**
   * What a normalised result looks like: an integer accuracy in `[0, 100]`,
   * at most three distinct non-empty suggestions, a trimmed rewording.
   */
  predicate Canonical(r: ChunkResult) {
    && 0 <= r.accuracy <= 100
    && |r.suggestions| <= 3
    && NoDuplicates(r.suggestions)
    && (forall i :: 0 <= i < |r.suggestions| ==> r.suggestions[i] != "")
    && Trimmed(r.reword)
  }

  /**
   * `content.Evaluation?.Accuracy || 0` as the number `Math.min` sees: a
   * falsy value gives 0, a number itself, `true` gives 1. Strings, arrays and
   * objects, which JavaScript coerces (possibly to NaN), are read as 0.
   */
  function AccuracyInput(raw: Option<Json>): real {
    if !Truthy(raw) then 0.0
    else match raw.value
      case JNum(x) => x
      case JBool(b) => if b then 1.0 else 0.0
      case _ => 0.0
  }

  /** `Math.round(Math.max(0, Math.min(100, x)))`. */
  function NormalizeAccuracy(x: real): (a: int)
    ensures 0 <= a <= 100
    ensures 0.0 <= x <= 100.0 ==> a as real - 0.5 <= x < a as real + 0.5
    ensures x <= 0.0 ==> a == 0
    ensures x >= 100.0 ==> a == 100
  {
    Round(Clamp(x, 0.0, 100.0))
  }

  /** `.slice(0, 3)`. */
  function TakeThree(items: seq<Json>): (r: seq<Json>)
    ensures |r| == if |items| <= 3 then |items| else 3
    ensures r == items[..|r|]
  {
    if |items| <= 3 then items else items[..3]
  }

  /** `.filter(s => typeof s === 'string' && s.length > 0)`, keeping order. */
  function NonEmptyStrings(items: seq<Json>): (r: seq<string>)
    ensures |r| <= |items|
    ensures forall s :: s in r <==> s != "" && JStr(s) in items
    ensures forall i :: 0 <= i < |r| ==> r[i] != ""
  {
    if items == [] then []
    else
      var rest := NonEmptyStrings(items[..|items| - 1]);
      var last := items[|items| - 1];
      assert items == items[..|items| - 1] + [last];
      if last.JStr? && last.s != "" then rest + [last.s] else rest
  }

  /**
   * The filter works element by element and keeps the order and the
   * multiplicity of what it keeps: filtering a concatenation is the
   * concatenation of the filtered parts.
   */
  lemma {:induction false} NonEmptyStringsAppend(a: seq<Json>, b: seq<Json>)
    ensures NonEmptyStrings(a + b) == NonEmptyStrings(a) + NonEmptyStrings(b)
  {
    if b == [] {
      assert a + b == a;
    } else {
      var b', x := b[..|b| - 1], b[|b| - 1];
      LastSplit(a, b);
      NonEmptyStringsAppend(a, b');
      NonEmptyStringsSnoc(a + b', x);
      NonEmptyStringsSnoc(b', x);
      var kept := if x.JStr? && x.s != "" then [x.s] else [];
      calc {
        NonEmptyStrings(a + b);
        NonEmptyStrings(a + b') + kept;
        (NonEmptyStrings(a) + NonEmptyStrings(b')) + kept;
        { assert (NonEmptyStrings(a) + NonEmptyStrings(b')) + kept == NonEmptyStrings(a) + (NonEmptyStrings(b') + kept); }
        NonEmptyStrings(a) + (NonEmptyStrings(b') + kept);
        NonEmptyStrings(a) + NonEmptyStrings(b);
      }
    }
  }

  /** Splitting off the last element of the right operand of a concatenation. */
  lemma LastSplit<T>(a: seq<T>, b: seq<T>)
    requires b != []
    ensures b == b[..|b| - 1] + [b[|b| - 1]]
    ensures a + b == (a + b[..|b| - 1]) + [b[|b| - 1]]
  {
    assert b == b[..|b| - 1] + [b[|b| - 1]];
  }

  /** One more entry: kept at the end when it is a non-empty string. */
  lemma NonEmptyStringsSnoc(items: seq<Json>, x: Json)
    ensures NonEmptyStrings(items + [x]) == NonEmptyStrings(items) + if x.JStr? && x.s != "" then [x.s] else []
  {
    assert (items + [x])[..|items|] == items;
  }

  /** A single entry is kept exactly when it is a non-empty string. */
  lemma NonEmptyStringsSingle(x: Json)
    ensures NonEmptyStrings([x]) == if x.JStr? && x.s != "" then [x.s] else []
  {
    assert [x][..0] == [];
  }

  /**
   * `[...new Set((content.Evaluation?.Suggestions || []).slice(0, 3).filter(...))]`.
   * `None` stands for the TypeError thrown when the field is truthy but not an
   * array (a string has `slice` but no `filter`; numbers, booleans and objects
   * have neither).
   */
  function NormalizeSuggestions(raw: Option<Json>): (r: Option<seq<string>>)
    ensures r.None? <==> Truthy(raw) && !raw.value.JArr?
    ensures !Truthy(raw) ==> r == Some([])
    ensures r.Some? ==> |r.value| <= 3 && NoDuplicates(r.value)
    ensures r.Some? ==> forall i :: 0 <= i < |r.value| ==> r.value[i] != ""
    ensures r.Some? && Truthy(raw) ==>
      forall s :: s in r.value <==> s != "" && JStr(s) in TakeThree(raw.value.items)
  {
    if !Truthy(raw) then Some([])
    else if raw.value.JArr? then
      var kept := NonEmptyStrings(TakeThree(raw.value.items));
      assert forall i :: 0 <= i < |Dedup(kept)| ==> Dedup(kept)[i] in kept;
      Some(Dedup(kept))
    else None
  }

  /** `content.Optimization?.Reword`. */
  function RewordField(content: Json): Option<Json> {
    MemberOf(Member(content, "Optimization"), "Reword")
  }

  /**
   * The part of the validator after `JSON.parse`: `None` when it throws
   * (Reword not a string, or Suggestions truthy but not an array).
   */
  function Normalize(content: Json): (r: Option<ChunkResult>)
    ensures r.Some? <==>
      && RewordField(content).Some? && RewordField(content).value.JStr?
      && NormalizeSuggestions(MemberOf(Member(content, "Evaluation"), "Suggestions")).Some?
    ensures r.Some? ==> Canonical(r.value)
    ensures r.Some? ==> r.value.reword == Trim(RewordField(content).value.s)
    ensures r.Some? ==>
      r.value.suggestions == NormalizeSuggestions(MemberOf(Member(content, "Evaluation"), "Suggestions")).value
    ensures r.Some? ==>
      r.value.accuracy == NormalizeAccuracy(AccuracyInput(MemberOf(Member(content, "Evaluation"), "Accuracy")))
  {
    var evaluation := Member(content, "Evaluation");
    var reword := RewordField(content);
    if reword.None? || !reword.value.JStr? then None
    else
      var suggestions := NormalizeSuggestions(MemberOf(evaluation, "Suggestions"));
      if suggestions.None? then None
      else
        var accuracy := NormalizeAccuracy(AccuracyInput(MemberOf(evaluation, "Accuracy")));
        Some(ChunkResult(accuracy, suggestions.value, Trim(reword.value.s)))
  }

  /**
   * `validateUnifiedResponse(data)`. The blockquote guard calls
   * `data.includes`, which only a string has: for any other argument (an API
   * envelope, an already validated result) it throws and the neutral value
   * comes back. `parse` is `JSON.parse`, `None` meaning it threw.
   */
  function Validate(data: Json, parse: string -> Option<Json>): (r: ChunkResult)
    ensures !data.JStr? ==> r == Neutral
    ensures data.JStr? && HasBlockquote(data.s) ==> r == Neutral
    ensures data.JStr? && parse(data.s).None? ==> r == Neutral
    ensures data.JStr? && !HasBlockquote(data.s) && parse(data.s).Some? ==>
      r == Normalize(parse(data.s).value).GetOr(Neutral)
  {
    if !data.JStr? || HasBlockquote(data.s) then Neutral
    else match parse(data.s)
      case None => Neutral
      case Some(content) => Normalize(content).GetOr(Neutral)
  }

  /**
   * Whatever it is given, the validator answers a canonical result: accuracy
   * an integer in `[0, 100]`, at most three distinct non-empty suggestions,
   * a trimmed rewording.
   */
  lemma ValidateCanonical(data: Json, parse: string -> Option<Json>)
    ensures Canonical(Validate(data, parse))
  {
  }

  // ---------------------------------------------------------------------------
  // Idempotence: a canonical result, serialised and validated again, is unchanged

  function StringsToJson(xs: seq<string>): (r: seq<Json>)
    ensures |r| == |xs|
  {
    if xs == [] then [] else StringsToJson(xs[..|xs| - 1]) + [JStr(xs[|xs| - 1])]
  }

  /** The JSON object a result is serialised as. */
  function Encode(r: ChunkResult): Json {
    JObj(map[
      "Evaluation" := JObj(map[
        "Accuracy" := JNum(r.accuracy as real),
        "Suggestions" := JArr(StringsToJson(r.suggestions))]),
      "Optimization" := JObj(map["Reword" := JStr(r.reword)])])
  }

  lemma {:induction false} NonEmptyStringsOfStrings(xs: seq<string>)
    requires forall i :: 0 <= i < |xs| ==> xs[i] != ""
    ensures NonEmptyStrings(StringsToJson(xs)) == xs
  {
    if xs != [] {
      var p := xs[..|xs| - 1];
      NonEmptyStringsOfStrings(p);
      assert StringsToJson(xs)[..|xs| - 1] == StringsToJson(p);
      assert StringsToJson(xs)[|xs| - 1] == JStr(xs[|xs| - 1]);
      assert NonEmptyStrings(StringsToJson(xs)) == NonEmptyStrings(StringsToJson(p)) + [xs[|xs| - 1]];
      assert p + [xs[|xs| - 1]] == xs;
    }
  }

  /** The three fields of a serialised result, read back the way the validator reads them. */
  lemma EncodeFields(r: ChunkResult)
    ensures RewordField(Encode(r)) == Some(JStr(r.reword))
    ensures MemberOf(Member(Encode(r), "Evaluation"), "Suggestions") == Some(JArr(StringsToJson(r.suggestions)))
    ensures MemberOf(Member(Encode(r), "Evaluation"), "Accuracy") == Some(JNum(r.accuracy as real))
  {
  }

  /** Normalising the serialisation of a canonical result gives that result back. */
  lemma NormalizeEncode(r: ChunkResult)
    requires Canonical(r)
    ensures Normalize(Encode(r)) == Some(r)
  {
    EncodeFields(r);
    var items := StringsToJson(r.suggestions);
    NonEmptyStringsOfStrings(r.suggestions);
    DedupOfDistinct(r.suggestions);
    assert TakeThree(items) == items;
    assert NormalizeSuggestions(Some(JArr(items))) == Some(r.suggestions);
    NormalizeWholeAccuracy(r.accuracy);
    TrimFixedPoint(r.reword);
    assert Normalize(Encode(r)) == Some(ChunkResult(r.accuracy, r.suggestions, Trim(r.reword)));
  }

  /** An accuracy that is already a whole number in `[0, 100]` is read back unchanged. */
  lemma NormalizeWholeAccuracy(a: int)
    requires 0 <= a <= 100
    ensures NormalizeAccuracy(AccuracyInput(Some(JNum(a as real)))) == a
  {
  }

  /**
   * Validating the text of an already validated result (free of `"> "` and
   * parsed back to its serialisation) returns it unchanged.
   */
  lemma ValidateIdempotent(r: ChunkResult, text: string, parse: string -> Option<Json>)
    requires Canonical(r)
    requires !HasBlockquote(text) && parse(text) == Some(Encode(r))
    ensures Validate(JStr(text), parse) == r
  {
    NormalizeEncode(r);
  }

  /** The suggestions keep the order in which they first appear among the three raw entries kept. */
  lemma SuggestionsFirstSeenOrder(raw: seq<Json>)
    ensures var r := NormalizeSuggestions(Some(JArr(raw))).value;
      var kept := NonEmptyStrings(TakeThree(raw));
      forall i, j :: 0 <= i < j < |r| ==> FirstIndex(kept, r[i]) < FirstIndex(kept, r[j])
  {
    DedupFirstSeenOrder(NonEmptyStrings(TakeThree(raw)));
  }
}

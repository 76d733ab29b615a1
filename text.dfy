/**
 * The string and array primitives the core relies on, with the meaning
 * JavaScript gives them: `String.prototype.trim`, `String.prototype.includes`,
 * `[...new Set(xs)]` (duplicates dropped, first-seen order kept) and
 * `Array.prototype.join`.
 */
module Text {
  import opened Json

  /** The characters `String.prototype.trim` removes: WhiteSpace and LineTerminator of ECMA-262. */
  predicate IsWhitespace(c: char) {
    || c == '\t' || c == '\n' || c == '\U{000B}' || c == '\U{000C}' || c == '\r'
    || c == ' ' || c == '\U{00A0}' || c == '\U{1680}'
    || ('\U{2000}' <= c <= '\U{200A}')
    || c == '\U{2028}' || c == '\U{2029}' || c == '\U{202F}' || c == '\U{205F}'
    || c == '\U{3000}' || c == '\U{FEFF}'
  }

  predicate AllWhitespace(s: string) {
    forall i :: 0 <= i < |s| ==> IsWhitespace(s[i])
  }

  /** A string `trim` leaves alone: empty, or neither end is whitespace. */
  predicate Trimmed(s: string) {
    s == [] || (!IsWhitespace(s[0]) && !IsWhitespace(s[|s| - 1]))
  }

  /** Leading whitespace removed: what is dropped is whitespace, what remains is a suffix. */
  function TrimStart(s: string): (r: string)
    ensures |r| <= |s| && r == s[|s| - |r|..]
    ensures AllWhitespace(s[..|s| - |r|])
    ensures r != [] ==> !IsWhitespace(r[0])
  {
    if s != [] && IsWhitespace(s[0]) then TrimStart(s[1..]) else s
  }

  /** Trailing whitespace removed: what is dropped is whitespace, what remains is a prefix. */
  function TrimEnd(s: string): (r: string)
    ensures |r| <= |s| && r == s[..|r|]
    ensures AllWhitespace(s[|r|..])
    ensures r != [] ==> !IsWhitespace(r[|r| - 1])
  {
    if s != [] && IsWhitespace(s[|s| - 1]) then TrimEnd(s[..|s| - 1]) else s
  }

  /** `s.trim()`. */
  function Trim(s: string): (r: string)
    ensures Trimmed(r)
    ensures |r| <= |s|
    ensures exists k :: PaddedAt(s, r, k)
  {
    var t := TrimStart(s);
    var r := TrimEnd(t);
    assert r != [] ==> r[0] == t[0];
    var k := |s| - |t|;
    assert r == s[k..k + |r|];
    assert s[k + |r|..] == t[|r|..];
    assert PaddedAt(s, r, k);
    r
  }

  /** `s` is `r` at offset `k`, with only whitespace before and after it. */
  predicate PaddedAt(s: string, r: string, k: int) {
    && 0 <= k <= |s| - |r| && r == s[k..k + |r|]
    && AllWhitespace(s[..k]) && AllWhitespace(s[k + |r|..])
  }

  /** `trim` is the identity exactly on trimmed strings, hence idempotent. */
  lemma TrimFixedPoint(s: string)
    ensures Trim(s) == s <==> Trimmed(s)
  {
  }

  /**
   * A prompt that gets past `!prompt || prompt.trim().length === 0`
   * (background.js) or `!prompt?.trim()` (pages/api/analyze.js): present,
   * and not whitespace only. `None` stands for `undefined`.
   */
  predicate NonBlank(s: Option<string>) {
    s.Some? && Trim(s.value) != ""
  }

  /** `s.includes("> ")`: the markdown blockquote marker occurs somewhere in `s`. */
  predicate HasBlockquote(s: string) {
    exists i :: 0 <= i < |s| - 1 && s[i] == '>' && s[i + 1] == ' '
  }

  // ---------------------------------------------------------------------------
  // `new Set(...)` over strings: insertion order, first occurrence kept

  predicate NoDuplicates(s: seq<string>) {
    forall i, j :: 0 <= i < j < |s| ==> s[i] != s[j]
  }

  /** `set.add(x)` on a Set whose iteration order is `acc`. */
  function AddNew(acc: seq<string>, x: string): seq<string> {
    if x in acc then acc else acc + [x]
  }

  /** `[...new Set(xs)]`: adds the elements of `xs` one by one, left to right. */
  function Dedup(xs: seq<string>): (r: seq<string>)
    ensures NoDuplicates(r)
    ensures forall x :: x in r <==> x in xs
    ensures |r| <= |xs|
  {
    if xs == [] then [] else AddNew(Dedup(xs[..|xs| - 1]), xs[|xs| - 1])
  }

  /** Adding one more element to the set: kept only if new. */
  lemma DedupSnoc(xs: seq<string>, x: string)
    ensures Dedup(xs + [x]) == AddNew(Dedup(xs), x)
  {
    assert (xs + [x])[..|xs|] == xs;
  }

  /** Index of the first occurrence of `x` in `xs`. */
  function FirstIndex(xs: seq<string>, x: string): (k: nat)
    requires x in xs
    ensures k < |xs| && xs[k] == x && x !in xs[..k]
  {
    if xs[0] == x then 0 else 1 + FirstIndex(xs[1..], x)
  }

  lemma {:induction false} FirstIndexAppend(xs: seq<string>, y: string, x: string)
    requires x in xs
    ensures FirstIndex(xs + [y], x) == FirstIndex(xs, x)
  {
    if xs[0] != x {
      assert (xs + [y])[1..] == xs[1..] + [y];
      FirstIndexAppend(xs[1..], y, x);
    }
  }

  /** The deduplicated list is ordered by each element's first occurrence in the input. */
  lemma {:induction false} DedupFirstSeenOrder(xs: seq<string>)
    ensures forall i, j :: 0 <= i < j < |Dedup(xs)| ==>
      FirstIndex(xs, Dedup(xs)[i]) < FirstIndex(xs, Dedup(xs)[j])
  {
    if xs != [] {
      var p, y := xs[..|xs| - 1], xs[|xs| - 1];
      assert xs == p + [y];
      DedupFirstSeenOrder(p);
      var d := Dedup(p);
      forall x | x in p ensures FirstIndex(xs, x) == FirstIndex(p, x) < |p| {
        FirstIndexAppend(p, y, x);
      }
      if y !in d {
        assert y !in p;
        assert FirstIndex(xs, y) == |p| by {
          assert xs[..|p|] == p;
        }
      }
    }
  }

  /** Deduplicating a duplicate-free list changes nothing. */
  lemma {:induction false} DedupOfDistinct(xs: seq<string>)
    requires NoDuplicates(xs)
    ensures Dedup(xs) == xs
  {
    if xs != [] {
      var p := xs[..|xs| - 1];
      DedupOfDistinct(p);
      assert xs[|xs| - 1] !in p;
      assert p + [xs[|xs| - 1]] == xs;
    }
  }

  // ---------------------------------------------------------------------------
  // Array.prototype.join

  /** `xs.join(sep)`. */
  function Join(xs: seq<string>, sep: string): string {
    if xs == [] then ""
    else if |xs| == 1 then xs[0]
    else Join(xs[..|xs| - 1], sep) + sep + xs[|xs| - 1]
  }

  function TotalLength(xs: seq<string>): nat {
    if xs == [] then 0 else TotalLength(xs[..|xs| - 1]) + |xs[|xs| - 1]|
  }

  /** The joined string holds every part and one separator between each two neighbours. */
  lemma {:induction false} JoinLength(xs: seq<string>, sep: string)
    requires xs != []
    ensures |Join(xs, sep)| == TotalLength(xs) + (|xs| - 1) * |sep|
  {
    if |xs| > 1 {
      JoinLength(xs[..|xs| - 1], sep);
    } else {
      assert xs[..0] == [];
    }
  }

  /** `sep` repeated `k` times. */
  function Repeat(sep: string, k: nat): string {
    if k == 0 then "" else Repeat(sep, k - 1) + sep
  }

  /** Joining `k + 1` empty strings leaves only the `k` separators. */
  lemma {:induction false} JoinOfEmpties(xs: seq<string>, sep: string)
    requires xs != []
    requires forall i :: 0 <= i < |xs| ==> xs[i] == ""
    ensures Join(xs, sep) == Repeat(sep, |xs| - 1)
  {
    if |xs| > 1 {
      JoinOfEmpties(xs[..|xs| - 1], sep);
    }
  }
}

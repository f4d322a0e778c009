/** The input and output policy checks around the answer pipeline
    (rag-backend/guardrails.py). */
module Guardrails {
  import opened Text

  /** The allow-list of domain terms, in source order (it lists "calculate" twice). */
  const MathKeywords: seq<string> :=
    ["math", "mathematics", "algebra", "geometry", "calculus"] +
    ["trigonometry", "probability", "statistics", "integral", "derivative"] +
    ["equation", "formula", "function", "sum", "solve", "proof"] +
    ["differential", "limit", "series", "logarithm", "matrix", "vector"] +
    ["quadratic", "set", "relation", "permutation", "combination", "sequence"] +
    ["progression", "definite", "indefinite", "area", "volume", "complex"] +
    ["number", "domain", "range", "inverse", "linear", "polynomial"] +
    ["rational", "exponent", "continuity", "maxima", "minima", "tangent"] +
    ["normal", "locus", "partial", "system", "scalar", "modulus"] +
    ["argument", "identity", "inequality", "ellipse", "parabola"] +
    ["hyperbola", "circle", "coordinate", "jacobian", "fourier"] +
    ["laplace", "sinc", "cosh", "sinh", "calculate", "find", "prove"] +
    ["explain", "concept", "theorem", "principle", "law", "graph"] +
    ["diagram", "approximately", "calculate"]

  /** The text that replaces a flagged answer. */
  const BlockMessage: string := " Output blocked for safety reasons."

  /** Python's `any(word in text for word in keywords)`. */
  function AnyKeywordIn(keywords: seq<string>, text: string): (b: bool)
    ensures b <==> exists k :: 0 <= k < |keywords| && Occurs(keywords[k], text)
  {
    if keywords == [] then false
    else
      assert forall k :: 0 < k < |keywords| ==> keywords[k] == keywords[1..][k - 1];
      Contains(text, keywords[0]) || AnyKeywordIn(keywords[1..], text)
  }

  /** Some keyword at an index occurs exactly when some member of the list occurs. */
  lemma KeywordMembership(keywords: seq<string>, text: string)
    ensures (exists k :: 0 <= k < |keywords| && Occurs(keywords[k], text))
        <==> (exists kw :: kw in keywords && Occurs(kw, text))
  {
    if exists k :: 0 <= k < |keywords| && Occurs(keywords[k], text) {
      var k :| 0 <= k < |keywords| && Occurs(keywords[k], text);
      assert keywords[k] in keywords;
    }
    if exists kw :: kw in keywords && Occurs(kw, text) {
      var kw :| kw in keywords && Occurs(kw, text);
      var k :| 0 <= k < |keywords| && keywords[k] == kw;
    }
  }

  /** Accepts the query iff some allow-listed term is a substring of its lower-cased text. */
  predicate InputGuardrail(userInput: string): (b: bool)
    ensures b <==> exists kw :: kw in MathKeywords && Occurs(kw, Lower(userInput))
  {
    KeywordMembership(MathKeywords, Lower(userInput));
    AnyKeywordIn(MathKeywords, Lower(userInput))
  }

  /** The denylist test: a literal link marker or the unsafe-content marker, case-sensitive. */
  predicate Flagged(answer: string): (b: bool)
    ensures b <==> Occurs("http", answer) || Occurs("malicious", answer)
  {
    Contains(answer, "http") || Contains(answer, "malicious")
  }

  /** The block message itself passes the denylist. */
  lemma BlockMessageNotFlagged()
    ensures !Flagged(BlockMessage)
  {
    assert 'h' !in BlockMessage;
    assert 'm' !in BlockMessage;
    FirstCharAbsent("http", BlockMessage);
    FirstCharAbsent("malicious", BlockMessage);
  }

  /** Returns the answer unchanged, or the block message when the answer is flagged;
      a caller detects blocking by comparing the result with its argument. */
  function OutputGuardrail(answer: string): (r: string)
    ensures r != answer <==> Flagged(answer)
    ensures r == answer || r == BlockMessage
  {
    BlockMessageNotFlagged();
    if Flagged(answer) then BlockMessage else answer
  }

  /** The input check ignores letter case: lowering the query first changes nothing. */
  lemma InputGuardrailIgnoresCase(s: string)
    ensures InputGuardrail(s) == InputGuardrail(Lower(s))
  {
    LowerIdempotent(s);
  }

  /** Matching is by substring, so anything that contains an accepted query is accepted. */
  lemma InputGuardrailMonotone(s: string, t: string)
    requires InputGuardrail(s) && Occurs(s, t)
    ensures InputGuardrail(t)
  {
    var k :| 0 <= k < |MathKeywords| && Occurs(MathKeywords[k], Lower(s));
    var i, j :| 0 <= i <= j <= |t| && t[i..j] == s;
    LowerSlice(t, i, j);
    assert Lower(t)[i..j] == Lower(s);
    OccursTransitive(MathKeywords[k], Lower(s), Lower(t));
  }

  /** A query holding the lower-case keyword `MathKeywords[k]` at offset `i` is
      accepted. */
  lemma AcceptedAt(t: string, i: nat, k: nat)
    requires k < |MathKeywords| && i + |MathKeywords[k]| <= |t|
    requires t[i..i + |MathKeywords[k]|] == MathKeywords[k]
    requires Lower(MathKeywords[k]) == MathKeywords[k]
    ensures InputGuardrail(t)
  {
    var kw := MathKeywords[k];
    LowerSlice(t, i, i + |kw|);
    assert Lower(t)[i..i + |kw|] == kw;
    assert kw in MathKeywords;
  }

  /** No keyword is the empty string. */
  lemma KeywordsNonEmpty()
    ensures "" !in MathKeywords
  {
  }

  /** The empty query is rejected. */
  lemma InputGuardrailRejectsEmpty()
    ensures !InputGuardrail("")
  {
    if InputGuardrail("") {
      var k :| 0 <= k < |MathKeywords| && Occurs(MathKeywords[k], Lower(""));
      OccursInEmpty(MathKeywords[k]);
      KeywordsNonEmpty();
    }
  }

  /** A keyword inside an unrelated word still matches: "summer" contains "sum". */
  lemma InputGuardrailMatchesInsideWords()
    ensures InputGuardrail("summer")
  {
    var s := Lower("summer");
    assert s[0..3] == "sum";
    assert "sum" in MathKeywords;
  }

  /** Applying the output check to its own result changes nothing more. */
  lemma OutputGuardrailIdempotent(answer: string)
    ensures OutputGuardrail(OutputGuardrail(answer)) == OutputGuardrail(answer)
  {
  }
}

/** The feedback-driven refinement store (rag-backend/self_learning_agent.py): a
    qualifying correction is turned into one JSON example by the model and appended
    to the persisted list of examples. */
module SelfLearning {
  import opened Wrappers
  import opened Text
  import opened Collaborators

  /** A parsed JSON value, as `json.loads` returns it. */
  datatype Json =
    | JNull
    | JBool(b: bool)
    | JNumber(n: int)
    | JString(s: string)
    | JArray(items: seq<Json>)
    | JObject(fields: seq<(string, Json)>)

  /** A feedback item: the three dictionary entries the agent reads, each possibly missing. */
  datatype FeedbackItem = FeedbackItem(assessment: Option<string>, query: Option<string>, correctionText: Option<string>)

  /** Only an INCORRECT or COMPLEX assessment is refined; any other value, or none, is ignored. */
  predicate Qualifies(item: FeedbackItem) {
    item.assessment == Some("INCORRECT") || item.assessment == Some("COMPLEX")
  }

  /** The entries a qualifying item must carry: they are read outside the error handler. */
  predicate WellFormed(item: FeedbackItem) {
    Qualifies(item) ==> item.query.Some? && item.correctionText.Some?
  }

  /** The refinement prompt, up to the query. */
  const PromptHead: string :=
    "\n" +
    "    You are a prompt engineer for an AI Math Tutor. Your job is to extract the \n" +
    "    core knowledge from a human correction to create a reusable, high-quality \n" +
    "    \"Few-Shot Example\" for future LLM responses.\n" +
    "\n" +
    "    Create a single JSON object with two keys: \"question\" and \"ideal_answer\".\n" +
    "    \n" +
    "    --- INPUT ---\n" +
    "    Original Query: "

  /** Between the query and the correction. */
  const PromptMiddle: string := "\n    Human Correction (Gold Standard): "

  /** After the correction: the instructions and the required output shape. */
  const PromptTail: string :=
    "\n" +
    "    \n" +
    "    --- INSTRUCTIONS ---\n" +
    "    1. The \"question\" must be the core math problem from the query.\n" +
    "    2. The \"ideal_answer\" must be the clean, simplified, step-by-step solution provided \n" +
    "       in the Human Correction, formatted with numbered steps and proper LaTeX.\n" +
    "    \n" +
    "    --- REQUIRED JSON OUTPUT ---\n" +
    "    {\n" +
    "        \"question\": \"[Extracted core question]\",\n" +
    "        \"ideal_answer\": \"[Cleaned, step-by-step solution]\"\n" +
    "    }\n" +
    "    "

  function RefinementPrompt(query: string, correction: string): string {
    PromptHead + query + PromptMiddle + correction + PromptTail
  }

  /** The prompt quotes the query and the correction verbatim, between the fixed
      head and the fixed instructions. */
  lemma PromptQuotesBoth(query: string, correction: string)
    ensures var p := RefinementPrompt(query, correction);
      StartsWith(p, PromptHead + query) && EndsWith(p, correction + PromptTail) &&
      Occurs(query, p) && Occurs(correction, p)
  {
    QuotesSecond(PromptHead, query, PromptMiddle, correction, PromptTail);
    QuotesFourth(PromptHead, query, PromptMiddle, correction, PromptTail);
  }

  /** Of five parts concatenated, the first two start the whole and the second occurs in it. */
  lemma QuotesSecond(h: string, q: string, m: string, c: string, t: string)
    ensures StartsWith(h + q + m + c + t, h + q) && Occurs(q, h + q + m + c + t)
  {
    var rest := m + c + t;
    assert h + q + m + c + t == h + q + rest;
    ConcatMiddle(h, q, rest);
    ConcatEnds(h + q, rest);
  }

  /** Of five parts concatenated, the last two end the whole and the fourth occurs in it. */
  lemma QuotesFourth(h: string, q: string, m: string, c: string, t: string)
    ensures EndsWith(h + q + m + c + t, c + t) && Occurs(c, h + q + m + c + t)
  {
    var front := h + q + m;
    ConcatMiddle(front, c, t);
    assert h + q + m + c + t == front + (c + t);
    ConcatEnds(front, c + t);
  }

  /** Different corrections of the same query give different prompts. */
  lemma PromptDeterminesCorrection(query: string, c1: string, c2: string)
    requires RefinementPrompt(query, c1) == RefinementPrompt(query, c2)
    ensures c1 == c2
  {
    var n := |PromptHead + query + PromptMiddle|;
    var p1, p2 := RefinementPrompt(query, c1), RefinementPrompt(query, c2);
    assert |c1| == |c2|;
    assert p1[n..n + |c1|] == c1;
    assert p2[n..n + |c2|] == c2;
  }

  /** The refinement step on its own: the model call it makes (none for a
      non-qualifying item) and the parsed example it yields (none when the model
      fails or its stripped reply is not JSON). */
  function Refine(item: FeedbackItem, generate: string -> LlmReply, parse: string -> Option<Json>): (r: Traced<Option<Json>>)
    requires WellFormed(item)
    ensures !Qualifies(item) <==> r.calls == []
    ensures Qualifies(item) ==>
      r.calls == [GenerateCall(RefinementPrompt(item.query.value, item.correctionText.value))]
    ensures r.value.Some? ==> Qualifies(item)
    ensures Qualifies(item) && generate(RefinementPrompt(item.query.value, item.correctionText.value)).LlmRaised? ==>
      r.value == None
    ensures Qualifies(item) && generate(RefinementPrompt(item.query.value, item.correctionText.value)).LlmText? ==>
      r.value == parse(Strip(generate(RefinementPrompt(item.query.value, item.correctionText.value)).text))
  {
    if !Qualifies(item) then Traced(None, [])
    else
      var prompt := RefinementPrompt(item.query.value, item.correctionText.value);
      var example := match generate(prompt)
        case LlmRaised(_) => None
        case LlmText(text) => parse(Strip(text));
      Traced(example, [GenerateCall(prompt)])
  }

  /** The example list after refining one item: the parsed example is appended
      when there is one, and the list is unchanged otherwise. */
  function Step(examples: seq<Json>, item: FeedbackItem,
                generate: string -> LlmReply, parse: string -> Option<Json>): (r: seq<Json>)
    requires WellFormed(item)
    ensures |examples| <= |r| <= |examples| + (if Qualifies(item) then 1 else 0)
    ensures r[..|examples|] == examples
    ensures |r| == |examples| + 1 <==> Refine(item, generate, parse).value.Some?
    ensures |r| == |examples| + 1 ==> r[|examples|] == Refine(item, generate, parse).value.value
  {
    var example := Refine(item, generate, parse).value;
    if example.Some? then examples + [example.value] else examples
  }

  predicate AllWellFormed(items: seq<FeedbackItem>) {
    forall i :: 0 <= i < |items| ==> WellFormed(items[i])
  }

  lemma TailWellFormed(items: seq<FeedbackItem>)
    requires items != [] && AllWellFormed(items)
    ensures WellFormed(items[0]) && AllWellFormed(items[1..])
  {
    forall i | 0 <= i < |items[1..]| ensures WellFormed(items[1..][i]) {
      assert items[1..][i] == items[i + 1];
    }
  }

  /** The example list after refining `items` in order, starting from `examples`. */
  ghost function Replay(examples: seq<Json>, items: seq<FeedbackItem>,
                        generate: string -> LlmReply, parse: string -> Option<Json>): seq<Json>
    requires AllWellFormed(items)
    decreases |items|
  {
    if items == [] then examples
    else
      TailWellFormed(items);
      Replay(Step(examples, items[0], generate, parse), items[1..], generate, parse)
  }

  /** How many of the items qualify for refinement. */
  function QualifyingCount(items: seq<FeedbackItem>): nat {
    if items == [] then 0 else (if Qualifies(items[0]) then 1 else 0) + QualifyingCount(items[1..])
  }

  /** The list only grows: what was there stays, in order, at the front, and at most
      one example is added per qualifying item. */
  lemma {:induction false} ReplayOnlyGrows(examples: seq<Json>, items: seq<FeedbackItem>,
                                           generate: string -> LlmReply, parse: string -> Option<Json>)
    requires AllWellFormed(items)
    ensures var after := Replay(examples, items, generate, parse);
      |examples| <= |after| <= |examples| + QualifyingCount(items) && after[..|examples|] == examples
    decreases |items|
  {
    if items != [] {
      TailWellFormed(items);
      var next := Step(examples, items[0], generate, parse);
      ReplayOnlyGrows(next, items[1..], generate, parse);
      var after := Replay(next, items[1..], generate, parse);
      assert after[..|examples|] == after[..|next|][..|examples|];
    }
  }

  /** Feedback in which nothing qualifies leaves the list exactly as it was. */
  lemma {:induction false} NothingQualifyingChangesNothing(examples: seq<Json>, items: seq<FeedbackItem>,
                                                           generate: string -> LlmReply, parse: string -> Option<Json>)
    requires AllWellFormed(items)
    requires QualifyingCount(items) == 0
    ensures Replay(examples, items, generate, parse) == examples
  {
    ReplayOnlyGrows(examples, items, generate, parse);
  }

  /** A model reply whose stripped text parses to `v` appends exactly `v`. */
  lemma ParsedValueAppended(examples: seq<Json>, item: FeedbackItem,
                            generate: string -> LlmReply, parse: string -> Option<Json>, v: Json)
    requires WellFormed(item) && Qualifies(item)
    requires var reply := generate(RefinementPrompt(item.query.value, item.correctionText.value));
      reply.LlmText? && parse(Strip(reply.text)) == Some(v)
    ensures Step(examples, item, generate, parse) == examples + [v]
  {
  }

  /** A model exception, or a reply that does not parse, leaves the list as it was. */
  lemma FailureKeepsExamples(examples: seq<Json>, item: FeedbackItem,
                             generate: string -> LlmReply, parse: string -> Option<Json>)
    requires WellFormed(item) && Qualifies(item)
    requires var reply := generate(RefinementPrompt(item.query.value, item.correctionText.value));
      reply.LlmRaised? || parse(Strip(reply.text)) == None
    ensures Refine(item, generate, parse).value == None
    ensures Step(examples, item, generate, parse) == examples
  {
  }

  /** Whatever the stripped reply parses to is appended, including values that are
      not an object with "question" and "ideal_answer" keys, such as a bare null. */
  lemma AppendsParsedValueUnchecked(examples: seq<Json>, item: FeedbackItem,
                                    generate: string -> LlmReply, parse: string -> Option<Json>)
    requires WellFormed(item) && Qualifies(item)
    requires var reply := generate(RefinementPrompt(item.query.value, item.correctionText.value));
      reply.LlmText? && parse(Strip(reply.text)) == Some(JNull)
    ensures Step(examples, item, generate, parse) == examples + [JNull]
  {
    ParsedValueAppended(examples, item, generate, parse, JNull);
  }

  /** The persisted example file, `optimized_examples.json`: absent, or holding a list. */
  class RefinementStore {
    var file: Option<seq<Json>>

    /** A store whose file is absent. */
    constructor ()
      ensures file == None
    {
      file := None;
    }

    /** The examples the file holds; an absent file holds none. */
    function Examples(): seq<Json>
      reads this
    {
      file.GetOr([])
    }

    /** `load_refined_examples`: the stored list, or the empty list when the file is absent. */
    method LoadRefinedExamples() returns (examples: seq<Json>)
      ensures examples == Examples()
      ensures file.None? ==> examples == []
      ensures file.Some? ==> examples == file.value
    {
      if file.Some? {
        return file.value;
      }
      return [];
    }

    /** `save_refined_examples`: the file is rewritten with the given list, so a later
        load returns exactly that list. */
    method SaveRefinedExamples(examples: seq<Json>)
      modifies this
      ensures file == Some(examples)
      ensures Examples() == examples
    {
      file := Some(examples);
    }

    /** `run_refinement_agent`: a non-qualifying item is ignored; otherwise the model
        is asked once and, when its stripped reply parses, the parsed value is loaded,
        appended and saved. On a model or parse failure the file is untouched. */
    method RunRefinementAgent(item: FeedbackItem, generate: string -> LlmReply, parse: string -> Option<Json>)
      returns (calls: seq<Call>)
      requires WellFormed(item)
      modifies this
      ensures calls == Refine(item, generate, parse).calls
      ensures Refine(item, generate, parse).value.None? ==> file == old(file)
      ensures Refine(item, generate, parse).value.Some? ==>
        file == Some(old(Examples()) + [Refine(item, generate, parse).value.value])
      ensures Examples() == Step(old(Examples()), item, generate, parse)
    {
      if !Qualifies(item) {
        return [];
      }
      var query := item.query.value;
      var correction := item.correctionText.value;
      var refinementPrompt := RefinementPrompt(query, correction);
      calls := [GenerateCall(refinementPrompt)];
      var response := generate(refinementPrompt);
      if response.LlmRaised? {
        return;
      }
      var refinedExample := parse(Strip(response.text));
      if refinedExample.None? {
        return;
      }
      var examples := LoadRefinedExamples();
      examples := examples + [refinedExample.value];
      SaveRefinedExamples(examples);
    }
  }
}

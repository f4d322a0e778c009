/** The knowledge-base answer agent (rag-backend/kb_response_agent.py): a prompt that
    lists every retrieved document with its distance, and the agent that refuses
    without context and otherwise asks the model once. */
module KbResponse {
  import opened Text
  import opened Collaborators

  /** The tutoring and formatting rules the prompt opens with. */
  const SystemInstruction: string :=
    "You are an expert Math and JEE tutor. Your task is to provide a comprehensive, " +
    "simplified, and step-by-step solution to the user's question. " +
    "**You MUST ONLY use the information provided in the [CONTEXT] section below.** " +
    "If the context does not contain the answer, you must politely state: " +
    "'The necessary information for a complete answer is not available in the knowledge base.'\n" +
    "**CRITICAL OUTPUT FORMATTING RULES:**\n" +
    "1. **Structure:** The entire output MUST be structured using **Markdown Headings** (`### Step X: Concept`) for each step.\n" +
    "2. **LaTeX:** You MUST use perfect **block LaTeX** for all final equations, formulas, and symbolic results. Use double dollar signs (`$$`) to enclose block equations.\n" +
    "3. **Readability:** Use bold text and numbered lists within steps to clearly explain the reasoning.\n" +
    "4. **No conversational filler:** Do NOT include introductory phrases like 'Here is the solution' or concluding sentences. Start immediately with '### Step 1:'\n" +
    "**EXAMPLE REQUIRED FORMAT:**\n" +
    "### Step 1: Identify Given Values\n" +
    "The problem is based on the **Binomial Theorem** from Document 2. The formula is:\n" +
    "$$ (x+y)^n = \\sum_{k=0}^n \\binom{n}{k} x^{n-k} y^k $$\n" +
    "### Step 2: Apply Formula\n" +
    "..."

  /** The context block opens with this header. */
  const ContextHeader: string := "\n\n[CONTEXT]\n"

  const QuestionMarker: string := "\n\n[USER QUESTION]: "

  const NoContextMessage: string := "KB Response Agent failed: No relevant context was provided."

  const LlmErrorPrefix: string :=
    " LLM Generation Error: Could not connect to the model or process the request. Details: "

  /** The line for the `n`-th hit (numbered from 1). */
  function DocumentLine(n: nat, hit: Hit, formatDistance: real -> string): string {
    "Document " + NatToString(n) + " (Distance: " + formatDistance(hit.distance) + "): " + hit.content + "\n"
  }

  /** The lines for all hits, in order. */
  function DocumentLines(hits: seq<Hit>, formatDistance: real -> string): string
    decreases |hits|
  {
    if hits == [] then ""
    else DocumentLines(hits[..|hits| - 1], formatDistance) + DocumentLine(|hits|, hits[|hits| - 1], formatDistance)
  }

  /** Instruction, context block and question. */
  function FramePrompt(contextText: string, question: string): string {
    SystemInstruction + "\n\n" + contextText + QuestionMarker + question
  }

  /** The prompt `create_rag_prompt` returns. */
  function RagPrompt(question: string, retrievedData: seq<Hit>, formatDistance: real -> string): string {
    FramePrompt(ContextHeader + DocumentLines(retrievedData, formatDistance), question)
  }

  /** Builds the context block line by line, as the source's loop does. */
  method CreateRagPrompt(question: string, retrievedData: seq<Hit>, formatDistance: real -> string)
    returns (finalPrompt: string)
    ensures finalPrompt == RagPrompt(question, retrievedData, formatDistance)
  {
    var contextText := ContextHeader;
    var i := 0;
    while i < |retrievedData|
      invariant 0 <= i <= |retrievedData|
      invariant contextText == ContextHeader + DocumentLines(retrievedData[..i], formatDistance)
    {
      ContextGrows(retrievedData, i, formatDistance);
      contextText := contextText + DocumentLine(i + 1, retrievedData[i], formatDistance);
      i := i + 1;
    }
    assert retrievedData[..i] == retrievedData;
    finalPrompt := FramePrompt(contextText, question);
  }

  /** One more hit appends its line to the context block. */
  lemma ContextGrows(hits: seq<Hit>, i: nat, formatDistance: real -> string)
    requires i < |hits|
    ensures ContextHeader + DocumentLines(hits[..i + 1], formatDistance)
         == ContextHeader + DocumentLines(hits[..i], formatDistance) + DocumentLine(i + 1, hits[i], formatDistance)
  {
    assert hits[..i + 1][..i] == hits[..i];
  }

  /** `KBResponseAgent`: no context, no model call; otherwise one generation on the
      prompt built from every hit. */
  function KbResponseAgent(question: string, retrievedData: seq<Hit>, svc: Services): (r: Traced<string>)
    ensures r.calls == [] <==> retrievedData == []
    ensures retrievedData != [] ==>
      r.calls == [GenerateCall(RagPrompt(question, retrievedData, svc.formatDistance))]
    ensures NoKbSearch(r.calls)
  {
    if retrievedData == [] then
      Traced(NoContextMessage, [])
    else
      var ragPrompt := RagPrompt(question, retrievedData, svc.formatDistance);
      match svc.generate(ragPrompt)
      case LlmText(text) => Traced(text, [GenerateCall(ragPrompt)])
      case LlmRaised(e) => Traced(LlmErrorPrefix + e, [GenerateCall(ragPrompt)])
  }

  /** The line of hit `i` follows the lines of the hits before it, so the context
      lists every hit once, in order, numbered from 1. */
  lemma {:induction false} DocumentLineInOrder(hits: seq<Hit>, formatDistance: real -> string, i: nat)
    requires i < |hits|
    ensures DocumentLines(hits[..i], formatDistance) + DocumentLine(i + 1, hits[i], formatDistance)
         <= DocumentLines(hits, formatDistance)
    decreases |hits|
  {
    var n := |hits|;
    var init := hits[..n - 1];
    if i == n - 1 {
      assert init == hits[..i];
    } else {
      assert init[..i] == hits[..i] && init[i] == hits[i];
      DocumentLineInOrder(init, formatDistance, i);
    }
  }

  /** The prompt opens with the instruction and the context header, and ends with the question. */
  lemma PromptFraming(question: string, retrievedData: seq<Hit>, formatDistance: real -> string)
    ensures StartsWith(RagPrompt(question, retrievedData, formatDistance), SystemInstruction + "\n\n" + ContextHeader)
    ensures EndsWith(RagPrompt(question, retrievedData, formatDistance), QuestionMarker + question)
  {
    FrameEnds(SystemInstruction, "\n\n", ContextHeader, DocumentLines(retrievedData, formatDistance), QuestionMarker, question);
  }

  /** Without hits the agent returns its fixed message and calls nothing. */
  lemma EmptyContextShortCircuits(question: string, svc: Services)
    ensures KbResponseAgent(question, [], svc) == Traced(NoContextMessage, [])
  {
  }

  /** A generation exception comes back as the error prefix followed by its text. */
  lemma GenerationErrorBecomesText(question: string, retrievedData: seq<Hit>, svc: Services)
    requires retrievedData != []
    requires svc.generate(RagPrompt(question, retrievedData, svc.formatDistance)).LlmRaised?
    ensures KbResponseAgent(question, retrievedData, svc).value
         == LlmErrorPrefix + svc.generate(RagPrompt(question, retrievedData, svc.formatDistance)).detail
  {
  }

  /** A successful generation is returned as the model's text, unchanged. */
  lemma GenerationReturnsText(question: string, retrievedData: seq<Hit>, svc: Services)
    requires retrievedData != []
    requires svc.generate(RagPrompt(question, retrievedData, svc.formatDistance)).LlmText?
    ensures KbResponseAgent(question, retrievedData, svc).value
         == svc.generate(RagPrompt(question, retrievedData, svc.formatDistance)).text
  {
  }
}

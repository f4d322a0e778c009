# Math agent gateway, routing and refinement store, in Dafny

This project models the decision core of the `rag-backend` of a math-question
assistant, and proves properties of that model:

- **Guardrails** (`guardrails.py`). The input check accepts a query when one of
  78 keywords is a substring of the lower-cased query. The output check replaces
  an answer containing "http" or "malicious" with a fixed block message.
- **Similarity router** (`router_agent.py`). It searches the knowledge base once
  and routes to `KB_RESPONSE` when the best hit's distance is strictly below 0.45,
  and to `WEB_SEARCH` otherwise.
- **Gateway** (`ai_gateway.py`). It runs the input check, retrieves five hits,
  routes and computes the confidence, dispatches to one answer agent, runs the
  output check, and returns a tagged response: REJECTED/400, BLOCKED/403, or the
  route's name with 200.
- **Answer agents and their prompt builders** (`kb_response_agent.py`,
  `model_context_protocol.py`, `web_search_agent.py`, `web_search_stratergy.py`).
  Each builder numbers its sections from 1 in input order and uses defaults for
  missing fields. Each agent returns early on empty input and turns a service
  exception into an error string.
- **Refinement store** (`self_learning_agent.py`). A qualifying correction is
  turned into one JSON example by the model. On success, the example file is read,
  the example appended, and the file written back.

The services are parameters, not code. The `Services` value in
`collaborators.dfy` bundles four functions:

- vector search, `(query, k) -> hits`;
- web search, which returns results or raises;
- text generation, which returns text or raises;
- the `.4f` distance formatter.

Each agent returns a `Traced` value: its result together with the list of service
calls it made. This lets the contracts state "searched once with k = 5" or "no
model call". Distances and confidence are `real`. A raised exception is a
constructor carrying its message.

Two behaviours of the code are easy to miss, and the model keeps both:

- The input check matches keywords as substrings, not as words. So the query
  "random trivia question unrelated to math" is accepted, because it contains
  "math" (`Gateway.TriviaQueryIsAccepted`).
- The refinement step appends any JSON value the model's reply parses to. Nothing
  checks for the "question"/"ideal_answer" keys
  (`SelfLearning.AppendsParsedValueUnchecked`).

Imperative code is modelled as methods:

- The loops that build prompts are methods with loop invariants, proved equal to
  the prompt functions (`CreateRagPrompt`, `CreateMcpWebRagPrompt`,
  `CreateWebRagPrompt`, `CreateStrategyPrompt`).
- The gateway is a method with the source's step-by-step locals, proved equal to
  the function `Gateway.Gateway`.
- The example file is the field `file` of the class `SelfLearning.RefinementStore`.
  The load method reads that field; the save and refine methods update it.

## Model

| member | source | states |
|---|---|---|
| Guardrails.AnyKeywordIn | rag-backend/guardrails.py:26 | true exactly when some keyword of the list occurs as a substring of the text |
| Guardrails.InputGuardrail | rag-backend/guardrails.py:1-31 | a query is accepted iff some listed keyword occurs in its lower-cased form |
| Guardrails.InputGuardrailIgnoresCase | rag-backend/guardrails.py:8-26 | accepting a query and accepting its lower-cased form are the same decision |
| Guardrails.InputGuardrailMonotone | rag-backend/guardrails.py:26 | any text that contains an accepted query is accepted |
| Guardrails.InputGuardrailMatchesInsideWords | rag-backend/guardrails.py:11-26 | "summer" is accepted, because "sum" matches inside a word |
| Guardrails.AcceptedAt | rag-backend/guardrails.py:26 | a query that holds a listed keyword at some offset is accepted |
| Guardrails.KeywordsNonEmpty | rag-backend/guardrails.py:8-23 | no keyword is the empty string |
| Guardrails.InputGuardrailRejectsEmpty | rag-backend/guardrails.py:26-31 | the empty query is rejected |
| Guardrails.BlockMessageNotFlagged | rag-backend/guardrails.py:38-39 | the block message contains neither "http" nor "malicious" |
| Guardrails.Flagged | rag-backend/guardrails.py:38 | an answer is flagged iff "http" or "malicious" occurs in it, with case kept |
| Guardrails.OutputGuardrail | rag-backend/guardrails.py:34-40 | the answer changes iff it contains "http" or "malicious" (case-sensitive), and it is either unchanged or replaced by the block message |
| Guardrails.OutputGuardrailIdempotent | rag-backend/guardrails.py:38-40 | applying the output check twice is the same as once |
| Router.RouterAgent | rag-backend/router_agent.py:9-47 | searches exactly once with the question and k (default 1), and routes to KB_RESPONSE iff the search returns at least one hit and the first hit's distance is below 0.45 |
| Router.RouteFor | rag-backend/router_agent.py:33-47 | the knowledge-base route iff the list is non-empty and its first distance is below 0.45; the lemmas below give its consequences |
| Router.RouteNames | rag-backend/router_agent.py:3-4 | a route's name is "KB_RESPONSE" or "WEB_SEARCH", and "KB_RESPONSE" names only the knowledge-base route |
| Router.EmptyRoutesToWeb | rag-backend/router_agent.py:45-47 | no hits route to the web |
| Router.ThresholdIsExclusive | rag-backend/router_agent.py:6-43 | a best distance of exactly 0.45 routes to the web |
| Router.OnlyFirstHitMatters | rag-backend/router_agent.py:34 | two non-empty hit lists with the same first distance get the same route |
| Router.RouteMonotone | rag-backend/router_agent.py:38 | if a best distance routes to the knowledge base, so does any smaller one |
| Gateway.RouteHits | rag-backend/ai_gateway.py:34-44 | mode is KB_RESPONSE iff there are hits and the first distance is below 0.45; the agent context is all hits on that route and empty otherwise; confidence is 0.0 without hits and 1 minus the first distance with hits |
| Gateway.Synthesize | rag-backend/ai_gateway.py:50-57 | never a vector search; on the knowledge-base route with hits, exactly one model call on the RAG prompt of those hits; on the web route, first an advanced search for 5 results |
| Gateway.Respond | rag-backend/ai_gateway.py:62-80 | never a rejection; blocked iff the answer is flagged, and then with the block message; otherwise the answer is served unchanged, with the route and confidence |
| Gateway.Gateway | rag-backend/ai_gateway.py:12-80 | rejected iff the input check fails, and then with no calls; otherwise it starts with a 5-hit vector search, and a served answer's mode is the router's decision on those hits |
| Gateway.ProcessQueryThroughGateway | rag-backend/ai_gateway.py:12-80 | the step-by-step method yields exactly `Gateway.Gateway`, rejects iff the input check fails, and then makes no call; the fallback branch is unreachable |
| Gateway.RejectedBeforeAnyCall | rag-backend/ai_gateway.py:20-25 | a rejected query gets the fixed message and status 400_BAD_INPUT, with no retrieval, synthesis or output check |
| Gateway.RetrievesFiveHitsOnce | rag-backend/ai_gateway.py:31 | an accepted query starts with one vector search for five hits, and no later call searches the vector store |
| Gateway.ServedConfidence | rag-backend/ai_gateway.py:34-41 | a served answer has confidence 0.0 and the web mode without hits, and 1 minus the first distance with hits, on either route |
| Gateway.InlineRouteIsRouterDecision | rag-backend/ai_gateway.py:38-44 | the gateway's inline threshold test makes the router's decision on the same hits |
| Gateway.GatewayAgreesWithRouterAgent | rag-backend/ai_gateway.py:31-44 | the served mode equals `RouterAgent`'s route when its k-hit search agrees with the 5-hit search on emptiness and on the first distance |
| Gateway.DispatchesOnRoute | rag-backend/ai_gateway.py:51-57 | on the knowledge-base route the agent gets every hit (a non-empty list) and makes one model call on that prompt; on the web route the MCP web agent gets only the query |
| Gateway.OutputCheckDecides | rag-backend/ai_gateway.py:59-80 | the response is BLOCKED/403 with the block message iff the synthesized answer is flagged; otherwise it is served unchanged with 200 and a route name as mode |
| Gateway.CloseHitServedFromKnowledgeBase | rag-backend/ai_gateway.py:34-80 | an accepted query with best distance 0.2 and an unflagged answer is served from the knowledge base with confidence 0.8 |
| Gateway.ChainRuleQueryIsAccepted | rag-backend/guardrails.py:9-26 | "Explain the chain rule with calculus" passes the input check |
| Gateway.TriviaQueryIsAccepted | rag-backend/guardrails.py:9-26 | "random trivia question unrelated to math" passes the input check |
| KbResponse.CreateRagPrompt | rag-backend/kb_response_agent.py:12-47 | the loop that appends one document line per hit builds exactly `RagPrompt` |
| KbResponse.ContextGrows | rag-backend/kb_response_agent.py:41-42 | one more hit appends its numbered document line at the end of the context block |
| KbResponse.DocumentLineInOrder | rag-backend/kb_response_agent.py:41-42 | the context lines up to hit i are followed by the line `Document i+1 (Distance: …): content` for hit i, so lines are numbered from 1 in input order |
| KbResponse.PromptFraming | rag-backend/kb_response_agent.py:40-45 | the prompt starts with the instruction, a blank line and the "\n\n[CONTEXT]\n" header, and ends with "\n\n[USER QUESTION]: " and the question |
| KbResponse.KbResponseAgent | rag-backend/kb_response_agent.py:50-83 | no service call iff there are no hits; otherwise exactly one model call on the RAG prompt; never a vector search |
| KbResponse.EmptyContextShortCircuits | rag-backend/kb_response_agent.py:64-65 | empty context returns the fixed failure message with no call |
| KbResponse.GenerationErrorBecomesText | rag-backend/kb_response_agent.py:82-83 | a model exception becomes its message after the " LLM Generation Error: … Details: " prefix |
| KbResponse.GenerationReturnsText | rag-backend/kb_response_agent.py:74-80 | with hits and a successful generation, the agent returns the model's text unchanged |
| WebAgentFlow.SearchThenGenerate | rag-backend/web_search_agent.py:73-104 | the shared agent flow searches first, at advanced depth with the given limit, then makes at most one model call and no vector search |
| WebAgentFlow.GeneratesOnlyOnResults | rag-backend/web_search_agent.py:81-101 | the model is called iff the search returned a non-empty result list, and then on the prompt built from those results |
| WebAgentFlow.NoResultsShortCircuits | rag-backend/web_search_agent.py:81-84 | an empty or missing result list returns the agent's no-results text after the search alone |
| WebAgentFlow.SearchErrorReported | rag-backend/web_search_agent.py:86-87 | a search exception becomes the agent's search-error prefix followed by its message |
| WebAgentFlow.GenerationErrorReported | rag-backend/web_search_agent.py:103-104 | a model exception becomes the agent's generation-error prefix followed by its message |
| WebAgentFlow.GenerationReturnsText | rag-backend/web_search_agent.py:89-101 | with results and a successful generation on their prompt, the agent returns the model's text unchanged |
| ModelContextProtocol.CreateMcpWebRagPrompt | rag-backend/model_context_protocol.py:16-54 | the loop that appends one section per result builds exactly `McpWebRagPrompt` |
| ModelContextProtocol.PromptFraming | rag-backend/model_context_protocol.py:44-52 | the prompt starts with the system instruction and ends with the quoted question |
| ModelContextProtocol.SectionTagged | rag-backend/model_context_protocol.py:33-39 | section i starts with `--- [Source i+1] ---`, whose number reads back as i+1; a missing URL shows "N/A" and missing content "No content available." |
| ModelContextProtocol.ContextGrows | rag-backend/model_context_protocol.py:33-41 | one more result adds its section after "\n\n" at the end, so sections follow input order |
| ModelContextProtocol.RefusalMatchesRuleThree | rag-backend/model_context_protocol.py:27-77 | the text returned on no results is the phrase that rule 3 of the instruction quotes |
| ModelContextProtocol.WebSearchAgentMcp | rag-backend/model_context_protocol.py:58-97 | one advanced search with `max_results`, then at most one model call, and no vector search |
| ModelContextProtocol.EmptyResultsRefuse | rag-backend/model_context_protocol.py:74-77 | no results return the refusal phrase, with no model call |
| ModelContextProtocol.ErrorsBecomeText | rag-backend/model_context_protocol.py:79-97 | search and model exceptions become " Tavily Search Error: " or " LLM Generation Error: " followed by the message |
| ModelContextProtocol.AnswerIsGeneratedText | rag-backend/model_context_protocol.py:82-94 | with results and a successful generation on the grounded prompt, the agent returns the model's text unchanged |
| ModelContextProtocol.DefaultSearchRequest | rag-backend/model_context_protocol.py:60-73 | by default the search asks for 5 results at advanced depth |
| WebSearch.CreateWebRagPrompt | rag-backend/web_search_agent.py:15-52 | the loop that appends one section per result builds exactly `WebRagPrompt` |
| WebSearch.PromptFraming | rag-backend/web_search_agent.py:42-50 | the prompt starts with the system instruction and ends with "answer the question: '" followed by the question and a closing quote |
| WebSearch.SectionTagged | rag-backend/web_search_agent.py:31-37 | section i starts with `--- Source i+1 ---`, whose number reads back as i+1; a missing title or URL shows "N/A" and missing content "No content available." |
| WebSearch.ContextGrows | rag-backend/web_search_agent.py:31-39 | one more result adds its section after "\n\n" at the end |
| WebSearch.WebSearchAgent | rag-backend/web_search_agent.py:56-104 | one advanced search with `max_results`, then at most one model call, and no vector search |
| WebSearch.EmptyResultsReported | rag-backend/web_search_agent.py:81-84 | no results return "Web Search failed: Could not retrieve any search results." with no model call |
| WebSearch.ErrorsBecomeText | rag-backend/web_search_agent.py:86-104 | search and model exceptions become the source's prefixed error strings |
| WebSearch.AnswerIsGeneratedText | rag-backend/web_search_agent.py:89-101 | with results and a successful generation on the prompt, the agent returns the model's text unchanged |
| WebSearch.DefaultSearchRequest | rag-backend/web_search_agent.py:58-79 | by default the search asks for 5 results at advanced depth |
| WebSearchStrategy.CreateStrategyPrompt | rag-backend/web_search_stratergy.py:13-51 | the loop that appends one section per result builds exactly `StrategyPrompt` |
| WebSearchStrategy.PromptFraming | rag-backend/web_search_stratergy.py:41-49 | the prompt starts with the instruction and ends with "Generate the full, step-by-step solution for: '" followed by the question and a closing quote |
| WebSearchStrategy.SectionTagged | rag-backend/web_search_stratergy.py:31-36 | section i starts with `--- Source i+1 ---`; a missing URL shows "N/A"; missing content shows "No content available." on the line after "Content:" |
| WebSearchStrategy.ContextGrows | rag-backend/web_search_stratergy.py:31-38 | one more result adds its section after "\n\n" at the end |
| WebSearchStrategy.WebSearchAgent | rag-backend/web_search_stratergy.py:55-93 | one advanced search with `max_results`, then at most one model call, and no vector search |
| WebSearchStrategy.EmptyResultsReported | rag-backend/web_search_stratergy.py:71-74 | no results return the fixed failure message with no model call |
| WebSearchStrategy.ErrorsBecomeText | rag-backend/web_search_stratergy.py:76-93 | search and model exceptions become the source's prefixed error strings |
| WebSearchStrategy.AnswerIsGeneratedText | rag-backend/web_search_stratergy.py:79-90 | with results and a successful generation on the prompt, the agent returns the model's text unchanged |
| WebSearchStrategy.DefaultSearchRequest | rag-backend/web_search_stratergy.py:57-69 | by default the search asks for 7 results at advanced depth |
| SelfLearning.PromptQuotesBoth | rag-backend/self_learning_agent.py:45-66 | the refinement prompt quotes the query and the correction verbatim, between the fixed head and the fixed instructions |
| SelfLearning.PromptDeterminesCorrection | rag-backend/self_learning_agent.py:53-54 | for one query, different corrections give different prompts |
| SelfLearning.Refine | rag-backend/self_learning_agent.py:39-87 | no model call iff the assessment is not INCORRECT or COMPLEX; otherwise one call on the refinement prompt; a model exception gives no example, and a reply gives whatever `json.loads` makes of its stripped text (none when it does not parse); an example results only from a qualifying item |
| SelfLearning.Step | rag-backend/self_learning_agent.py:39-87 | one refinement keeps the old examples in order at the front and adds at most one, and none for a non-qualifying item; the list grows exactly when `Refine` yields an example, and that example is the new last element |
| SelfLearning.ParsedValueAppended | rag-backend/self_learning_agent.py:76-80 | when the model answers and its stripped reply parses to any value v, the list becomes the old list followed by v |
| SelfLearning.FailureKeepsExamples | rag-backend/self_learning_agent.py:70-87 | when the model raises or its stripped reply does not parse, there is no example and the list is unchanged |
| SelfLearning.ReplayOnlyGrows | rag-backend/self_learning_agent.py:33-87 | over any run of feedback, the example list keeps its old elements in order at the front and gains at most one example per qualifying item |
| SelfLearning.NothingQualifyingChangesNothing | rag-backend/self_learning_agent.py:39-40 | feedback in which nothing qualifies leaves the list unchanged |
| SelfLearning.AppendsParsedValueUnchecked | rag-backend/self_learning_agent.py:76-79 | a reply that parses to null is still appended as an example |
| SelfLearning.RefinementStore.LoadRefinedExamples | rag-backend/self_learning_agent.py:19-24 | an absent file loads as the empty list; otherwise the stored list is returned |
| SelfLearning.RefinementStore.SaveRefinedExamples | rag-backend/self_learning_agent.py:26-29 | the file then holds exactly the given list, so a later load returns it |
| SelfLearning.RefinementStore.RunRefinementAgent | rag-backend/self_learning_agent.py:33-87 | makes `Refine`'s calls; on a model or parse failure, or for a non-qualifying item, the file is untouched; on success it holds the old examples plus the parsed value at the end; the examples afterwards are `Step` of those before |
| Text.Lower | rag-backend/guardrails.py:26 | same length, every character lower-cased, and no upper-case letter left |
| Text.Contains | rag-backend/guardrails.py:26-38 | Python's substring test: true iff the needle occurs at some position |
| Text.Strip | rag-backend/self_learning_agent.py:76 | the result is a block of the input with only white space before and after it, and it neither starts nor ends with white space |

## Left out

- All `print` logging, `load_dotenv`, and client construction at module level.
  These have no effect on results.
- The Gemini, Tavily, embedding and vector-store clients. They appear only as the
  function parameters in `Services`, together with the model name
  'gemini-2.5-flash'.
- `kb_search.py`, `path.py` and `my-react-app/src/App.js` are not part of this
  model. The vector search is the abstract `kbSearch(query, k)`, which may return
  no hits.
- `{distance:.4f}` formatting is the opaque `formatDistance` parameter.
- Floating-point arithmetic is not modelled: distances and confidence are exact
  reals, so float rounding at 0.45 and in `1.0 - top_distance` is not captured.
- Text.Lower: only ASCII letters are lower-cased. Python's `str.lower` also maps
  non-ASCII letters.
- Web results with non-string `url`, `title` or `content` values are not
  modelled: each field is a string or missing.
- A model reply whose `.text` is None is not modelled.
- JSON encoding and decoding are not modelled. `json.loads` is the abstract
  `parse`, which returns None for a `JSONDecodeError`. The file holds a list of
  parsed values, not bytes.
- Loading a file that exists but is unreadable or not a JSON list is not
  modelled.
- Load and save failures that the generic `except Exception` catches are not
  modelled.
- SelfLearning.RefinementStore.RunRefinementAgent: its precondition that a
  qualifying item carries `query` and `correction_text` stands for the `KeyError`
  the source raises outside its handler. A non-string assessment is not modelled.
- The read-modify-write race on `optimized_examples.json` between concurrent
  refinements is not modelled.
- The gateway's `level` argument is accepted and unused, as in the source.

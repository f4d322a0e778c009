/** The foreign services the backend calls, as values the model is given, and the
    record of the calls a run makes to them. */
module Collaborators {
  import opened Wrappers

  /** One vector-store hit: the stored document and its distance to the query
      (0 is identical, larger is less similar). */
  datatype Hit = Hit(content: string, distance: real)

  /** One web-search result dictionary; each of its keys may be missing. */
  datatype WebResult = WebResult(title: Option<string>, url: Option<string>, content: Option<string>)

  /** The `search_depth` argument of the web-search client. */
  datatype Depth = Basic | Advanced

  /** What one call to the web-search client gives back: it raised an exception
      (with its text), or it answered with a dictionary whose `results` key may
      be missing. */
  datatype SearchReply = SearchRaised(detail: string) | SearchAnswered(results: Option<seq<WebResult>>)

  /** What one call to the text-generation client gives back. */
  datatype LlmReply = LlmRaised(detail: string) | LlmText(text: string)

  /** One call to a foreign service, with the arguments the core passed. */
  datatype Call =
    | KbSearchCall(query: string, k: int)
    | WebSearchCall(query: string, depth: Depth, maxResults: int)
    | GenerateCall(prompt: string)

  /** A result together with the foreign calls made to obtain it, in order. */
  datatype Traced<+T> = Traced(value: T, calls: seq<Call>)

  /** The collaborators the core is wired to. `formatDistance` stands for the
      `{distance:.4f}` rendering of a float, which the model leaves abstract. */
  datatype Services = Services(
    kbSearch: (string, int) -> seq<Hit>,
    webSearch: (string, Depth, int) -> SearchReply,
    generate: string -> LlmReply,
    formatDistance: real -> string)

  /** No call in `calls` goes to the vector store. */
  predicate NoKbSearch(calls: seq<Call>) {
    forall i :: 0 <= i < |calls| ==> !calls[i].KbSearchCall?
  }
}

/**
 * The chat route's POST handler: pick the latest user text, choose one of three response
 * sources, and answer with one event stream (or the proxy's own response). Every backend is
 * abstract: the tool server, the hosted models and the proxy are inputs of the dispatch.
 */
module ChatRoute {
  import opened Wrappers
  import opened Text
  import opened Messages
  import opened McpClient

  /** The fixed preamble placed before every conversation sent to a hosted model. */
  const SystemPrompt: string :=
    "You are CodeAgent, an autonomous full-stack coding assistant.\n\n"
    + "Your job is to:\n"
    + "- Understand complex software engineering tasks\n"
    + "- Design and implement full solutions across backend, frontend, and APIs\n"
    + "- Write complete code (well-structured, idiomatic, modular)\n"
    + "- Use reasoning to decide what files, libraries, or patterns to use\n"
    + "- Respond with clean, copy-paste-ready code blocks\n"
    + "- Explain decisions only when asked \U{2014} otherwise, be direct and efficient\n\n"
    + "You have access to tools and capabilities including:\n"
    + "- JavaScript, TypeScript, Python, Go, Rust, SQL, and Shell scripting\n"
    + "- Frameworks: Next.js, React, Express, FastAPI, Flask, TailwindCSS, Prisma\n"
    + "- Vercel AI SDK for building agentic, streaming chat UIs\n"
    + "- File system simulation: You can create or modify files and return file paths and contents\n"
    + "- Git commands and CLI instructions\n"
    + "- MCP client to call external MCP servers and tools\n\n"
    + "Instructions:\n"
    + "- When given a user request, first plan the steps\n"
    + "- Then execute each step in order, returning the relevant code or explanation\n"
    + "- If asked to \"build X\", return the full code in a structured format\n"
    + "- Never hallucinate library names \U{2014} check if they exist in npm or PyPI\n"
    + "- When unsure, ask clarifying questions before continuing\n\n"
    + "Behavior settings:\n"
    + "- Smart and focused\n"
    + "- Code-first: Always respond with code\n"
    + "- Structured output: Use folders/files structure when returning multi-file output\n"
    + "- You are allowed to make assumptions to move fast, but note them clearly\n"

  /** The default hosted model and the one the `groq` hint selects. */
  const XaiModel := "grok-2-1212"
  const GroqModel := "llama-3.1-8b-instant"

  /** The substring that diverts a request to the tool server. */
  const ToolKeyword := "mcp"

  datatype Header = Header(name: string, value: string)

  /** The metadata of every response the route builds itself. */
  const StreamHeaders: seq<Header> := [
    Header("Content-Type", "text/event-stream"),
    Header("Cache-Control", "no-cache, no-transform"),
    Header("Connection", "keep-alive")
  ]

  /** The request body: the conversation and the optional `provider` hint. */
  datatype ChatRequest = ChatRequest(messages: seq<Message>, provider: Option<string>)

  /** A response produced elsewhere and handed back untouched: status, headers, body chunks. */
  datatype RawResponse = RawResponse(status: int, headers: seq<Header>, body: seq<string>)

  /** What a hosted model did with a conversation: produced a text stream, or threw. */
  datatype ModelRun = ModelStream(fragments: seq<string>) | ModelRejected(message: string)

  /** What forwarding to the proxy endpoint did: a response, or a thrown error. */
  datatype ProxyReply = ProxyAnswered(response: RawResponse) | ProxyRejected(message: string)

  /** The collaborators of one request, each given by its answer. */
  datatype Backends = Backends(
    listing: ListResponse,
    call: McpRequest -> CallResponse,
    model: (string, seq<Message>) -> ModelRun,
    proxy: ProxyReply)

  /** One call the route makes to a collaborator. */
  datatype BackendCall = ToolServer(request: McpRequest) | ModelCall(model: string, messages: seq<Message>) | ProxyForward

  datatype ChatResponse = Passthrough(raw: RawResponse) | EventStream(headers: seq<Header>, chunks: seq<string>)

  /** The calls made, in order, and the response returned. */
  datatype Dispatched = Dispatched(calls: seq<BackendCall>, response: ChatResponse)

  /** The three response sources. */
  datatype Route = ToolPath | ProxyPath | NativePath(model: string)

  /** `k` is the position of the last user message of `msgs`. */
  ghost predicate IsLastUserAt(msgs: seq<Message>, k: int)
  {
    0 <= k < |msgs| && msgs[k].role == User && forall j :: k < j < |msgs| ==> msgs[j].role != User
  }

  /** The text the route acts on, searched from the end of the conversation. */
  function LastUserContent(msgs: seq<Message>): string
  {
    if |msgs| == 0 then ""
    else if msgs[|msgs| - 1].role == User then msgs[|msgs| - 1].content
    else LastUserContent(msgs[..|msgs| - 1])
  }

  /** The text is the content of the last user message, or the empty string when there is none. */
  lemma {:induction false} LastUserContentIsLast(msgs: seq<Message>)
    ensures (forall k :: 0 <= k < |msgs| ==> msgs[k].role != User) ==> LastUserContent(msgs) == ""
    ensures forall k :: IsLastUserAt(msgs, k) ==> LastUserContent(msgs) == msgs[k].content
  {
    if |msgs| > 0 && msgs[|msgs| - 1].role != User {
      var init := msgs[..|msgs| - 1];
      LastUserContentIsLast(init);
      assert forall k :: IsLastUserAt(msgs, k) ==> IsLastUserAt(init, k);
    }
  }

  /** The conversation a hosted model receives: the preamble, then the caller's messages unchanged. */
  function Outbound(preamble: string, msgs: seq<Message>): (r: seq<Message>)
    ensures |r| == |msgs| + 1
    ensures r[0] == SystemMessage(preamble)
    ensures r[1..] == msgs
  {
    [SystemMessage(preamble)] + msgs
  }

  /** The tie-break: the keyword wins over any hint; then `fal`, then `groq`, then the default model. */
  function SelectRoute(userText: string, provider: Option<string>): (r: Route)
    ensures r == ToolPath <==> Contains(ToLower(userText), ToolKeyword)
    ensures r == ProxyPath <==> !Contains(ToLower(userText), ToolKeyword) && provider == Some("fal")
    ensures r == NativePath(GroqModel) <==> !Contains(ToLower(userText), ToolKeyword) && provider == Some("groq")
    ensures r == NativePath(XaiModel)
        <==> !Contains(ToLower(userText), ToolKeyword) && provider != Some("groq") && provider != Some("fal")
  {
    if Contains(ToLower(userText), ToolKeyword) then ToolPath
    else if provider == Some("groq") then NativePath(GroqModel)
    else if provider == Some("fal") then ProxyPath
    else NativePath(XaiModel)
  }

  /** The in-band form of a thrown error. */
  function ErrorChunk(message: string): (r: string)
    ensures StartsWith(r, "Error: ") && r[7..] == message
  {
    "Error: " + message
  }

  /** A stream with the route's own headers that carries a single chunk and then closes. */
  function SingleChunk(text: string): ChatResponse
  {
    EventStream(StreamHeaders, [text])
  }

  /**
   * The POST handler, for a given preamble. Exactly one source is consulted; its failure is
   * turned into an in-band error chunk; the proxy's answer is returned as it came.
   */
  function Post(preamble: string, req: ChatRequest, b: Backends): (r: Dispatched)
    ensures r.response.EventStream? ==> r.response.headers == StreamHeaders
    ensures r.response.Passthrough? <==> SelectRoute(LastUserContent(req.messages), req.provider) == ProxyPath && b.proxy.ProxyAnswered?
    ensures r.response.Passthrough? ==> r.response.raw == b.proxy.response
    ensures SelectRoute(LastUserContent(req.messages), req.provider) == ProxyPath ==> r.calls == [ProxyForward]
    ensures SelectRoute(LastUserContent(req.messages), req.provider) == ProxyPath && b.proxy.ProxyRejected?
      ==> r.response == SingleChunk(ErrorChunk(b.proxy.message))
    ensures forall m :: SelectRoute(LastUserContent(req.messages), req.provider) == NativePath(m) ==>
      && r.calls == [ModelCall(m, Outbound(preamble, req.messages))]
      && (b.model(m, Outbound(preamble, req.messages)).ModelStream? ==> r.response.chunks == b.model(m, Outbound(preamble, req.messages)).fragments)
      && (b.model(m, Outbound(preamble, req.messages)).ModelRejected? ==>
            r.response == SingleChunk(ErrorChunk(b.model(m, Outbound(preamble, req.messages)).message)))
    ensures SelectRoute(LastUserContent(req.messages), req.provider) == ToolPath ==>
      && r.response.EventStream? && |r.response.chunks| == 1
      && (CallMcpTool(LastUserContent(req.messages), b.listing, b.call).1.Ok? ==>
            r.response.chunks[0] == CallMcpTool(LastUserContent(req.messages), b.listing, b.call).1.value)
      && (CallMcpTool(LastUserContent(req.messages), b.listing, b.call).1.Err? ==>
            r.response.chunks[0] == ErrorChunk(CallMcpTool(LastUserContent(req.messages), b.listing, b.call).1.message))
      && |r.calls| == |CallMcpTool(LastUserContent(req.messages), b.listing, b.call).0|
      && (forall i :: 0 <= i < |r.calls| ==> r.calls[i] == ToolServer(CallMcpTool(LastUserContent(req.messages), b.listing, b.call).0[i]))
  {
    var userText := LastUserContent(req.messages);
    match SelectRoute(userText, req.provider)
    case ToolPath =>
      var (sent, result) := CallMcpTool(userText, b.listing, b.call);
      var calls := seq(|sent|, i requires 0 <= i < |sent| => ToolServer(sent[i]));
      (match result
       case Ok(text) => Dispatched(calls, SingleChunk(text))
       case Err(m) => Dispatched(calls, SingleChunk(ErrorChunk(m))))
    case ProxyPath =>
      (match b.proxy
       case ProxyAnswered(raw) => Dispatched([ProxyForward], Passthrough(raw))
       case ProxyRejected(m) => Dispatched([ProxyForward], SingleChunk(ErrorChunk(m))))
    case NativePath(model) =>
      var outbound := Outbound(preamble, req.messages);
      match b.model(model, outbound)
      case ModelStream(fragments) => Dispatched([ModelCall(model, outbound)], EventStream(StreamHeaders, fragments))
      case ModelRejected(m) => Dispatched([ModelCall(model, outbound)], SingleChunk(ErrorChunk(m)))
  }

  /**
   * The corrected handler with the route's fixed preamble. The handler as written differs on the
   * proxy path only; see `PostAsWritten`.
   */
  function ServePost(req: ChatRequest, b: Backends): Dispatched
  {
    Post(SystemPrompt, req, b)
  }

  /** Any casing of the keyword inside the latest user text sends the request to the tool server, whatever the hint. */
  lemma KeywordInAnyCaseSelectsTool(msgs: seq<Message>, provider: Option<string>, p: string)
    requires ToLower(p) == ToolKeyword
    requires Contains(LastUserContent(msgs), p)
    ensures SelectRoute(LastUserContent(msgs), provider) == ToolPath
  {
    LowerPreservesOccurrence(LastUserContent(msgs), p);
  }

  /** Messages after the last user message do not influence the route or the tool input. */
  lemma {:induction false} TrailingNonUserIgnored(msgs: seq<Message>, tail: seq<Message>)
    requires forall j :: 0 <= j < |tail| ==> tail[j].role != User
    ensures LastUserContent(msgs + tail) == LastUserContent(msgs)
    decreases |tail|
  {
    if |tail| > 0 {
      assert (msgs + tail)[..|msgs + tail| - 1] == msgs + tail[..|tail| - 1];
      TrailingNonUserIgnored(msgs, tail[..|tail| - 1]);
    } else {
      assert msgs + tail == msgs;
    }
  }

  /** An empty tool list yields exactly one chunk carrying the no-tools error, and only the listing is sent. */
  lemma EmptyToolListDegrades(preamble: string, req: ChatRequest, b: Backends)
    requires Contains(ToLower(LastUserContent(req.messages)), ToolKeyword)
    requires b.listing == ListOk([])
    ensures Post(preamble, req, b) == Dispatched([ToolServer(ListTools)], SingleChunk(ErrorChunk(NoToolsMessage)))
  {
    var userText := LastUserContent(req.messages);
    assert SelectRoute(userText, req.provider) == ToolPath;
    assert CallMcpTool(userText, b.listing, b.call) == ([ListTools], Err(NoToolsMessage));
  }

  /** The collaborator the route selects for this request throws. */
  ghost predicate SelectedSourceFails(preamble: string, req: ChatRequest, b: Backends)
  {
    match SelectRoute(LastUserContent(req.messages), req.provider)
    case ToolPath => CallMcpTool(LastUserContent(req.messages), b.listing, b.call).1.Err?
    case ProxyPath => b.proxy.ProxyRejected?
    case NativePath(m) => b.model(m, Outbound(preamble, req.messages)).ModelRejected?
  }

  /** Every failure of the selected source reaches the caller as one in-band chunk starting with "Error: ". */
  lemma FailuresDegradeToOneChunk(preamble: string, req: ChatRequest, b: Backends)
    requires SelectedSourceFails(preamble, req, b)
    ensures Post(preamble, req, b).response.EventStream?
    ensures Post(preamble, req, b).response.headers == StreamHeaders
    ensures |Post(preamble, req, b).response.chunks| == 1
    ensures StartsWith(Post(preamble, req, b).response.chunks[0], "Error: ")
  {
    var userText := LastUserContent(req.messages);
    match SelectRoute(userText, req.provider)
    case ToolPath =>
      var (sent, result) := CallMcpTool(userText, b.listing, b.call);
      assert Post(preamble, req, b).response == SingleChunk(ErrorChunk(result.message));
    case ProxyPath =>
      assert Post(preamble, req, b).response == SingleChunk(ErrorChunk(b.proxy.message));
    case NativePath(m) =>
      assert Post(preamble, req, b).response == SingleChunk(ErrorChunk(b.model(m, Outbound(preamble, req.messages)).message));
  }

  /**
   * The handler exactly as written. The body is parsed once at the top of the handler; the
   * proxy branch then reads it again to forward it, and reading a consumed body rejects
   * with a TypeError (the Body mixin of the WHATWG Fetch standard). The rejection happens while the
   * forwarding request is being built, so nothing is forwarded and the catch block degrades
   * it to an error chunk. `rereadError` is the engine's message for that rejection.
   */
  function PostAsWritten(preamble: string, req: ChatRequest, b: Backends, rereadError: string): (r: Dispatched)
    ensures SelectRoute(LastUserContent(req.messages), req.provider) != ProxyPath ==> r == Post(preamble, req, b)
    ensures SelectRoute(LastUserContent(req.messages), req.provider) == ProxyPath ==> r.calls == []
    ensures !r.response.Passthrough?
  {
    if SelectRoute(LastUserContent(req.messages), req.provider) == ProxyPath then
      Dispatched([], SingleChunk(ErrorChunk(rereadError)))
    else
      Post(preamble, req, b)
  }

  /**
   * The discrepancy on a concrete request: hint `fal`, a user text without the keyword, and a
   * proxy that would answer. The intended handler returns the proxy's response untouched; the
   * handler as written never contacts the proxy and answers with an error chunk instead.
   */
  lemma ProxyUnreachableAsWritten(preamble: string, b: Backends, rereadError: string)
    requires b.proxy.ProxyAnswered?
    ensures var req := ChatRequest([UserMessage("hi")], Some("fal"));
      && Post(preamble, req, b) == Dispatched([ProxyForward], Passthrough(b.proxy.response))
      && PostAsWritten(preamble, req, b, rereadError) == Dispatched([], SingleChunk(ErrorChunk(rereadError)))
  {
    var req := ChatRequest([UserMessage("hi")], Some("fal"));
    assert LastUserContent(req.messages) == "hi";
    var lowered := ToLower("hi");
    assert lowered == "hi";
    assert !Contains(lowered, ToolKeyword) by {
      ContainsIff(lowered, ToolKeyword);
    }
  }
}
